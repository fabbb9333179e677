/**
 * The JSON tree SmartScopesClient reads responses into (JsonNodeInterface), as a value:
 * objects keep their members in document order.
 */
module JsonNodes {
  import opened Outcomes

  datatype JsonNode =
    | JNull
    | JBool(b: bool)
    | JInt(i: int)
    | JString(s: string)
    | JArray(items: seq<JsonNode>)
    | JObject(members: seq<(string, JsonNode)>)

  /** The position of the first member called `name`. */
  function MemberIndex(members: seq<(string, JsonNode)>, name: string): (r: Option<nat>)
    ensures r.Some? ==> r.value < |members| && members[r.value].0 == name
    ensures r.Some? ==> forall k :: 0 <= k < r.value ==> members[k].0 != name
    ensures r.None? ==> forall k :: 0 <= k < |members| ==> members[k].0 != name
  {
    if members == [] then None
    else if members[0].0 == name then Some(0)
    else
      match MemberIndex(members[1..], name)
      case None => None
      case Some(i) => Some(i + 1)
  }

  /** has_node(name): the node is an object with a member of that name. */
  predicate HasNode(n: JsonNode, name: string) {
    n.JObject? && MemberIndex(n.members, name).Some?
  }

  /** get_node(name): the value of the first member of that name. */
  function GetNode(n: JsonNode, name: string): (r: Result<JsonNode>)
    ensures r.Ok? <==> HasNode(n, name)
    ensures r.Ok? ==> exists k :: 0 <= k < |n.members| && n.members[k] == (name, r.value)
  {
    if HasNode(n, name) then
      var k := MemberIndex(n.members, name).value;
      assert n.members[k] == (name, n.members[k].1);
      Ok(n.members[k].1)
    else Err(LogicError("JsonNode: node " + name + " does not exist"))
  }

  /** member_names(): the member names of an object in document order; none for other nodes. */
  function MemberNames(n: JsonNode): (r: seq<string>)
    ensures n.JObject? ==> |r| == |n.members|
    ensures forall i :: 0 <= i < |r| ==> HasNode(n, r[i])
    ensures forall name :: HasNode(n, name) ==> name in r
  {
    if n.JObject? then
      var names := seq(|n.members|, i requires 0 <= i < |n.members| => n.members[i].0);
      assert forall i :: 0 <= i < |names| ==> HasNode(n, names[i]) by {
        forall i | 0 <= i < |names| ensures HasNode(n, names[i]) {
          assert n.members[i].0 == names[i];
        }
      }
      assert forall name :: HasNode(n, name) ==> name in names by {
        forall name | HasNode(n, name) ensures name in names {
          assert names[MemberIndex(n.members, name).value] == name;
        }
      }
      names
    else []
  }

  /** size(): the number of items of an array; zero for other nodes. */
  function Size(n: JsonNode): nat {
    if n.JArray? then |n.items| else 0
  }

  /** get_node(index): the item at that index of an array. */
  function GetIndex(n: JsonNode, i: nat): (r: Result<JsonNode>)
    ensures r.Ok? <==> i < Size(n)
    ensures r.Ok? ==> r.value == n.items[i]
  {
    if n.JArray? && i < |n.items| then Ok(n.items[i])
    else Err(LogicError("JsonNode: no item at this index"))
  }

  /** as_string(): the text of a string node. */
  function AsString(n: JsonNode): (r: Result<string>)
    ensures r.Ok? <==> n.JString?
    ensures r.Ok? ==> n == JString(r.value)
  {
    if n.JString? then Ok(n.s) else Err(LogicError("JsonNode: node does not contain a string"))
  }

  /** as_bool(): the value of a boolean node. */
  function AsBool(n: JsonNode): (r: Result<bool>)
    ensures r.Ok? <==> n.JBool?
    ensures r.Ok? ==> n == JBool(r.value)
  {
    if n.JBool? then Ok(n.b) else Err(LogicError("JsonNode: node does not contain a boolean"))
  }
}
