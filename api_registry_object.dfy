/**
 * The earlier RegistryObject: one metadata entry per scope name, with find/list/add/remove,
 * and the replies its remote servant (RegistryI) builds from them: a found scope is answered
 * with SUCCESS and its serialised metadata, an unknown one with USER_EXCEPTION carrying the
 * name, and list with one serialised entry per map pair in the map's key order.
 */
module ApiRegistry {
  import opened Outcomes
  import opened Variants
  import opened ScopeMetadata

  class RegistryObject {
    var scopes: map<string, Metadata>

    constructor ()
      ensures scopes == map[]
    {
      scopes := map[];
    }

    /** find(name): the stored metadata, or NotFound carrying the name. */
    function Find(name: string): (r: Result<Metadata>)
      reads this
      ensures r.Ok? <==> name in scopes
      ensures r.Ok? ==> r.value == scopes[name]
      ensures r.Err? ==> r.error.NotFound? && r.error.name == name
    {
      if name in scopes then Ok(scopes[name])
      else Err(NotFound("Registry::find(): no such scope", name))
    }

    /** list(): the whole map; every listed entry is what find answers for its name. */
    function List(): (r: map<string, Metadata>)
      reads this
      ensures forall name :: name in r ==> Find(name) == Ok(r[name])
      ensures forall name :: name !in r ==> Find(name).Err?
    {
      scopes
    }

    /** add(name, scope): false, keeping the original, when the name is already present. */
    method Add(name: string, scope: Metadata) returns (added: bool)
      modifies this
      ensures added <==> name !in old(scopes)
      ensures scopes == if added then old(scopes)[name := scope] else old(scopes)
      ensures Find(name) == Ok(if added then scope else old(scopes)[name])
    {
      if name in scopes {
        return false;
      }
      scopes := scopes[name := scope];
      added := true;
    }

    /** remove(name): true iff the name was present; afterwards it is absent. */
    method Remove(name: string) returns (removed: bool)
      modifies this
      ensures removed <==> name in old(scopes)
      ensures scopes == old(scopes) - {name}
      ensures Find(name).Err?
    {
      removed := name in scopes;
      scopes := scopes - {name};
    }
  }

  // ---- The key order of std::map<std::string, ...>: lexicographic by character. ----

  predicate StrLess(a: string, b: string)
  {
    if |a| == 0 then |b| > 0
    else if |b| == 0 then false
    else if a[0] != b[0] then a[0] < b[0]
    else StrLess(a[1..], b[1..])
  }

  lemma {:induction false} StrLessIrreflexive(a: string)
    ensures !StrLess(a, a)
  {
    if |a| > 0 { StrLessIrreflexive(a[1..]); }
  }

  lemma {:induction false} StrLessTransitive(a: string, b: string, c: string)
    requires StrLess(a, b) && StrLess(b, c)
    ensures StrLess(a, c)
  {
    if |a| > 0 && |b| > 0 && |c| > 0 && a[0] == b[0] == c[0] {
      StrLessTransitive(a[1..], b[1..], c[1..]);
    }
  }

  lemma {:induction false} StrLessTotal(a: string, b: string)
    requires a != b
    ensures StrLess(a, b) || StrLess(b, a)
  {
    if |a| > 0 && |b| > 0 && a[0] == b[0] {
      assert a == [a[0]] + a[1..] && b == [b[0]] + b[1..];
      StrLessTotal(a[1..], b[1..]);
    }
  }

  lemma {:induction false} StrLessAsymmetric(a: string, b: string)
    requires StrLess(a, b)
    ensures !StrLess(b, a)
  {
    if StrLess(b, a) {
      StrLessTransitive(a, b, a);
      StrLessIrreflexive(a);
    }
  }

  predicate IsLeast(k: string, s: set<string>) {
    k in s && forall o :: o in s && o != k ==> StrLess(k, o)
  }

  /** Every finite non-empty set of keys has a least one. */
  lemma {:induction false} LeastExists(s: set<string>)
    requires s != {}
    ensures exists k :: IsLeast(k, s)
    decreases |s|
  {
    var x :| x in s;
    var rest := s - {x};
    if rest == {} {
      assert s == {x};
      assert IsLeast(x, s);
    } else {
      LeastExists(rest);
      var m :| IsLeast(m, rest);
      if StrLess(m, x) {
        assert IsLeast(m, s);
      } else {
        StrLessTotal(m, x);
        forall o | o in s && o != x ensures StrLess(x, o) {
          if o != m { StrLessTransitive(x, m, o); }
        }
        assert IsLeast(x, s);
      }
    }
  }

  /** Strictly ascending in the key order. */
  predicate Ascending(r: seq<string>) {
    forall i, j :: 0 <= i < j < |r| ==> StrLess(r[i], r[j])
  }

  /** A set has at most one least key. */
  lemma LeastIsUnique(s: set<string>)
    ensures forall k1, k2 :: IsLeast(k1, s) && IsLeast(k2, s) ==> k1 == k2
  {
    forall k1, k2 | IsLeast(k1, s) && IsLeast(k2, s) ensures k1 == k2 {
      if k1 != k2 { StrLessAsymmetric(k1, k2); }
    }
  }

  /** The least key followed by an ascending sequence of the other keys is ascending. */
  lemma AscendingCons(k: string, s: set<string>, rest: seq<string>)
    requires IsLeast(k, s) && Ascending(rest)
    requires forall x :: x in rest ==> x in s && x != k
    ensures Ascending([k] + rest)
  {
    var r := [k] + rest;
    forall i, j | 0 <= i < j < |r| ensures StrLess(r[i], r[j]) {
      assert r[j] == rest[j - 1] && r[j] in rest;
      if i > 0 { assert r[i] == rest[i - 1]; }
    }
  }

  /** The keys of a map in the order std::map iterates them: strictly ascending. */
  function SortedKeys(s: set<string>): (r: seq<string>)
    ensures |r| == |s|
    ensures forall k :: k in r <==> k in s
    ensures Ascending(r)
    decreases |s|
  {
    if s == {} then []
    else
      LeastExists(s);
      LeastIsUnique(s);
      var k :| IsLeast(k, s);
      var rest := SortedKeys(s - {k});
      AscendingCons(k, s, rest);
      [k] + rest
  }

  // ---- The servant's replies (RegistryI::find_ and RegistryI::list_). ----

  datatype ResponseStatus = Success | UserException

  datatype FindResponse =
    | ReturnValue(dict: VariantMap)       // status SUCCESS
    | NotFoundException(name: string)     // status USER_EXCEPTION
  {
    function Status(): ResponseStatus {
      if ReturnValue? then Success else UserException
    }
  }

  /** find_: SUCCESS with the serialised metadata of a present name, USER_EXCEPTION naming an absent one. */
  function FindReply(reg: RegistryObject, name: string): (r: FindResponse)
    reads reg
    ensures r.Status() == Success <==> name in reg.scopes
    ensures r.Status() == Success && reg.scopes[name].proxy.Some? ==>
      DeserializeMetadata(r.dict) == Ok(reg.scopes[name])
    ensures r.Status() == UserException ==> r == NotFoundException(name)
  {
    match reg.Find(name)
    case Ok(meta) =>
      assert meta.proxy.Some? ==> DeserializeMetadata(SerializeMetadata(meta)) == Ok(meta) by {
        if meta.proxy.Some? { DeserializeSerialize(meta); }
      }
      ReturnValue(SerializeMetadata(meta))
    case Err(e) => NotFoundException(e.name)
  }

  /** list_: exactly list().size() entries, the i-th the serialisation of the i-th pair in key order. */
  function ListReply(reg: RegistryObject): (r: seq<VariantMap>)
    reads reg
    ensures |r| == |reg.List()|
    ensures var keys := SortedKeys(reg.scopes.Keys);
      forall i :: 0 <= i < |r| ==> keys[i] in reg.scopes && r[i] == SerializeMetadata(reg.scopes[keys[i]])
  {
    var m := reg.List();
    var keys := SortedKeys(m.Keys);
    assert |m.Keys| == |m|;
    seq(|keys|, i requires 0 <= i < |keys| => SerializeMetadata(m[keys[i]]))
  }
}
