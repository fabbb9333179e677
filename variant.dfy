/**
 * The generic tagged value tree (unity::scopes::Variant) that metadata and queries are
 * serialised to. Doubles are left out; the remaining kinds are modelled structurally.
 */
module Variants {
  import opened Outcomes

  datatype Variant =
    | Null
    | Bool(b: bool)
    | Int(i: int)
    | Str(s: string)
    | Array(items: seq<Variant>)
    | Dict(entries: map<string, Variant>)

  type VariantMap = map<string, Variant>

  /** Variant::get_string(): the string held, or a LogicException for any other kind. */
  function GetString(v: Variant): (r: Result<string>)
    ensures r.Ok? <==> v.Str?
    ensures r.Ok? ==> Str(r.value) == v
  {
    if v.Str? then Ok(v.s) else Err(LogicError("Variant does not contain a string"))
  }

  /** Variant::get_dict(): the map held, or a LogicException for any other kind. */
  function GetDict(v: Variant): (r: Result<VariantMap>)
    ensures r.Ok? <==> v.Dict?
    ensures r.Ok? ==> Dict(r.value) == v
  {
    if v.Dict? then Ok(v.entries) else Err(LogicError("Variant does not contain a dictionary"))
  }
}
