/**
 * CannedQueryImpl: a query value (scope id, query string, department, filter state and
 * optional data) with two codecs: a VariantMap serialisation and a
 * `scope://<id>?q=..&dep=..&filters=..&data=..` URI.
 *
 * Percent-encoding, JSON text and FilterState (de)serialisation are collaborators outside the
 * model: they are the function values of a `Codecs` record, and `Lawful` states what the
 * round-trip lemmas assume of them.
 */
module CannedQueries {
  import opened Outcomes
  import opened Variants
  import opened Texts

  /** The state of a query's filters; only the codec functions look inside it. */
  datatype FilterState = FilterState(state: VariantMap)

  datatype Codecs = Codecs(
    toPercent: string -> string,           // to_percent_encoding
    fromPercent: string -> Option<string>, // from_percent_encoding; None where it throws
    toJson: Variant -> string,             // JsonCppNode(variant).to_json_string()
    fromJson: string -> Option<Variant>,   // JsonCppNode(text).to_variant(); None where it throws
    serializeFilters: FilterState -> VariantMap,
    deserializeFilters: VariantMap -> FilterState,
    noFilters: FilterState)                // a default-constructed FilterState

  /**
   * What the round trips assume of the collaborators: decoding undoes encoding, an encoded
   * string holds neither '&' nor '?' and is empty only for the empty string, and an empty
   * filter state serialises to the empty map.
   */
  ghost predicate Lawful(c: Codecs) {
    && (forall s :: c.fromPercent(c.toPercent(s)) == Some(s))
    && (forall s :: '&' !in c.toPercent(s) && '?' !in c.toPercent(s))
    && (forall s :: s != "" ==> c.toPercent(s) != "")
    && (forall v :: c.fromJson(c.toJson(v)) == Some(v))
    && (forall f :: c.deserializeFilters(c.serializeFilters(f)) == f)
    && c.serializeFilters(c.noFilters) == map[]
  }

  datatype Query = Query(
    scopeId: string,
    queryString: string,
    departmentId: string,
    filterState: FilterState,
    data: Option<Variant>)

  const Schema := "scope://"

  // ---------------------------------------------------------------------------------------
  // The query object

  class CannedQueryImpl {
    var scopeId: string
    var queryString: string
    var departmentId: string
    var filterState: FilterState
    var data: Option<Variant>

    function Value(): Query
      reads this
    {
      Query(scopeId, queryString, departmentId, filterState, data)
    }

    /** Only reached through NewCannedQuery and the decoders, which reject an empty scope id. */
    constructor (scopeId: string, queryStr: string, departmentId: string, filters: FilterState)
      requires scopeId != ""
      ensures Value() == Query(scopeId, queryStr, departmentId, filters, None)
    {
      this.scopeId, this.queryString, this.departmentId := scopeId, queryStr, departmentId;
      this.filterState, this.data := filters, None;
    }

    /** Copy construction: same value, data copied along when it is set. */
    constructor Copy(other: CannedQueryImpl)
      ensures Value() == other.Value()
    {
      scopeId, queryString, departmentId := other.scopeId, other.queryString, other.departmentId;
      filterState, data := other.filterState, other.data;
    }

    method SetDepartmentId(dep: string)
      modifies this
      ensures Value() == old(Value()).(departmentId := dep)
    {
      departmentId := dep;
    }

    method SetQueryString(s: string)
      modifies this
      ensures Value() == old(Value()).(queryString := s)
    {
      queryString := s;
    }

    method SetFilterState(f: FilterState)
      modifies this
      ensures Value() == old(Value()).(filterState := f)
    {
      filterState := f;
    }

    /** set_data(value): from now on has_data() holds and data() returns value. */
    method SetData(v: Variant)
      modifies this
      ensures Value() == old(Value()).(data := Some(v))
      ensures HasData() && Data() == Ok(v)
    {
      data := Some(v);
    }

    function HasData(): bool
      reads this
    {
      data.Some?
    }

    /** data(): the data set on the query, or LogicException when none was set. */
    function Data(): (r: Result<Variant>)
      reads this
      ensures r.Ok? <==> HasData()
      ensures r.Ok? ==> data == Some(r.value)
      ensures r.Err? ==> r.error == LogicError("CannedQuery::data(): data is not set for this query")
    {
      if data.Some? then Ok(data.value)
      else Err(LogicError("CannedQuery::data(): data is not set for this query"))
    }
  }

  /** CannedQueryImpl(scope_id, query_str, department_id): InvalidArgument for an empty scope id. */
  method NewCannedQuery(scopeId: string, queryStr: string, departmentId: string, c: Codecs)
    returns (r: Result<CannedQueryImpl>)
    ensures r.Err? <==> scopeId == ""
    ensures r.Err? ==> r.error == InvalidArgument("CannedQuery(): scope ID cannot be empty")
    ensures r.Ok? ==> fresh(r.value) && r.value.Value() == Query(scopeId, queryStr, departmentId, c.noFilters, None)
    ensures r.Ok? ==> !r.value.HasData()
  {
    if scopeId == "" {
      return Err(InvalidArgument("CannedQuery(): scope ID cannot be empty"));
    }
    var q := new CannedQueryImpl(scopeId, queryStr, departmentId, c.noFilters);
    r := Ok(q);
  }

  // ---------------------------------------------------------------------------------------
  // VariantMap codec

  /** serialize(): the four mandatory keys always, "data" exactly when data is set. */
  function Serialize(q: Query, c: Codecs): (vm: VariantMap)
    ensures vm.Keys == {"scope", "query_string", "department_id", "filter_state"}
                       + (if q.data.Some? then {"data"} else {})
    ensures vm["scope"] == Str(q.scopeId) && vm["query_string"] == Str(q.queryString)
            && vm["department_id"] == Str(q.departmentId)
            && vm["filter_state"] == Dict(c.serializeFilters(q.filterState))
    ensures q.data.Some? ==> vm["data"] == q.data.value
  {
    var vm := map["scope" := Str(q.scopeId),
                  "query_string" := Str(q.queryString),
                  "department_id" := Str(q.departmentId),
                  "filter_state" := Dict(c.serializeFilters(q.filterState))];
    if q.data.Some? then vm["data" := q.data.value] else vm
  }

  function OptionalString(vm: VariantMap, key: string): (r: Result<string>)
    ensures key !in vm ==> r == Ok("")
    ensures r.Ok? && key in vm ==> vm[key] == Str(r.value)
  {
    if key in vm then GetString(vm[key]) else Ok("")
  }

  /**
   * CannedQueryImpl(VariantMap): a non-empty "scope" and a "filter_state" are required;
   * "department_id" and "query_string" default to empty and "data" to unset.
   */
  function FromVariantMap(vm: VariantMap, c: Codecs): (r: Result<Query>)
    ensures "scope" !in vm ==> r == Err(InvalidArgument("CannedQuery(): scope ID not set"))
    ensures "scope" in vm && vm["scope"] == Str("") ==>
      r == Err(InvalidArgument("CannedQuery(): scope ID cannot be empty"))
    ensures "scope" in vm && vm["scope"].Str? && vm["scope"].s != "" && "filter_state" !in vm ==>
      r == Err(InvalidArgument("CannedQuery(): filter_state is missing"))
    ensures r.Ok? ==> r.value.scopeId != "" && "filter_state" in vm
    ensures r.Ok? ==> (r.value.data.Some? <==> "data" in vm)
    ensures r.Ok? && "department_id" !in vm ==> r.value.departmentId == ""
    ensures r.Ok? && "query_string" !in vm ==> r.value.queryString == ""
    ensures r.Ok? <==> "scope" in vm && vm["scope"].Str? && vm["scope"].s != ""
                       && "filter_state" in vm && vm["filter_state"].Dict?
                       && ("department_id" in vm ==> vm["department_id"].Str?)
                       && ("query_string" in vm ==> vm["query_string"].Str?)
    ensures r.Ok? ==> vm["scope"] == Str(r.value.scopeId) && vm["filter_state"].Dict?
                      && r.value.filterState == c.deserializeFilters(vm["filter_state"].entries)
    ensures r.Ok? ==> ("department_id" in vm ==> vm["department_id"] == Str(r.value.departmentId))
                      && ("query_string" in vm ==> vm["query_string"] == Str(r.value.queryString))
                      && ("data" in vm ==> r.value.data == Some(vm["data"]))
  {
    if "scope" !in vm then Err(InvalidArgument("CannedQuery(): scope ID not set"))
    else
      var scopeId :- GetString(vm["scope"]);
      if scopeId == "" then Err(InvalidArgument("CannedQuery(): scope ID cannot be empty"))
      else if "filter_state" !in vm then Err(InvalidArgument("CannedQuery(): filter_state is missing"))
      else
        var filters :- GetDict(vm["filter_state"]);
        var dep :- OptionalString(vm, "department_id");
        var query :- OptionalString(vm, "query_string");
        var data := if "data" in vm then Some(vm["data"]) else None;
        Ok(Query(scopeId, query, dep, c.deserializeFilters(filters), data))
  }

  /** Reading a serialised query back reproduces it. */
  lemma FromVariantMapSerialize(q: Query, c: Codecs)
    requires q.scopeId != ""
    requires c.deserializeFilters(c.serializeFilters(q.filterState)) == q.filterState
    ensures FromVariantMap(Serialize(q, c), c) == Ok(q)
  {
    var vm := Serialize(q, c);
    assert vm["scope"] == Str(q.scopeId);
    assert vm["filter_state"] == Dict(c.serializeFilters(q.filterState));
    assert vm["department_id"] == Str(q.departmentId);
    assert vm["query_string"] == Str(q.queryString);
    assert q.data.Some? ==> vm["data"] == q.data.value;
  }

  /** CannedQueryImpl::create(VariantMap): a new query object read from the map. */
  method CreateFromVariantMap(vm: VariantMap, c: Codecs) returns (r: Result<CannedQueryImpl>)
    ensures r.Ok? <==> FromVariantMap(vm, c).Ok?
    ensures r.Err? ==> r.error == FromVariantMap(vm, c).error
    ensures r.Ok? ==> fresh(r.value) && r.value.Value() == FromVariantMap(vm, c).value
  {
    var v := FromVariantMap(vm, c);
    if v.Err? {
      return Err(v.error);
    }
    var q := new CannedQueryImpl(v.value.scopeId, v.value.queryString, v.value.departmentId, v.value.filterState);
    if v.value.data.Some? {
      q.SetData(v.value.data.value);
    }
    r := Ok(q);
  }

  // ---------------------------------------------------------------------------------------
  // URI printer

  /** The '&'-separated key=value segments to_uri writes after the '?'. */
  function UriSegments(q: Query, c: Codecs): seq<string> {
    QuerySegment(q, c) + DepartmentSegment(q, c) + FiltersSegment(q, c) + DataSegment(q, c)
  }

  /** "q" is always written, even for an empty query string. */
  function QuerySegment(q: Query, c: Codecs): seq<string> {
    ["q=" + c.toPercent(q.queryString)]
  }

  /** "dep" only for a non-empty department. */
  function DepartmentSegment(q: Query, c: Codecs): seq<string> {
    if q.departmentId != "" then ["dep=" + c.toPercent(q.departmentId)] else []
  }

  /** "filters" only when the filter state serialises to a non-empty map. */
  function FiltersSegment(q: Query, c: Codecs): seq<string> {
    var filters := c.serializeFilters(q.filterState);
    if |filters| != 0 then ["filters=" + c.toPercent(c.toJson(Dict(filters)))] else []
  }

  /** "data" only when data is set. */
  function DataSegment(q: Query, c: Codecs): seq<string> {
    if q.data.Some? then ["data=" + c.toPercent(c.toJson(q.data.value))] else []
  }

  /**
   * to_uri(), as written: the scope id goes into the URI as it is, while every value after
   * the '?' is percent-encoded. See ToUriEncoded for the form from_uri can read back.
   */
  function ToUri(q: Query, c: Codecs): (uri: string)
    ensures var head := Schema + q.scopeId + "?q=" + c.toPercent(q.queryString);
      |head| <= |uri| && uri[..|head|] == head
  {
    var segs := UriSegments(q, c);
    assert Join(segs, '&') == segs[0] || Join(segs, '&') == segs[0] + "&" + Join(segs[1..], '&');
    Schema + q.scopeId + "?" + Join(segs, '&')
  }

  /** to_uri() with the scope id percent-encoded too, so that from_uri's decoding undoes it. */
  function ToUriEncoded(q: Query, c: Codecs): (uri: string)
    ensures var head := Schema + c.toPercent(q.scopeId) + "?q=" + c.toPercent(q.queryString);
      |head| <= |uri| && uri[..|head|] == head
  {
    var segs := UriSegments(q, c);
    assert Join(segs, '&') == segs[0] || Join(segs, '&') == segs[0] + "&" + Join(segs[1..], '&');
    Schema + c.toPercent(q.scopeId) + "?" + Join(segs, '&')
  }

  // ---------------------------------------------------------------------------------------
  // URI parser

  function DecodeError(key: string, uri: string): Error {
    InvalidArgument("Failed to decode key '" + key + "' of uri '" + uri + "'")
  }

  function InvalidFilters(uri: string): Error {
    InvalidArgument("CannedQuery::from_uri(): invalid filters data for uri: '" + uri + "'")
  }

  function DecodeOrThrow(value: string, key: string, uri: string, c: Codecs): (r: Result<string>)
    ensures r.Err? ==> r.error == DecodeError(key, uri)
    ensures r.Ok? ==> c.fromPercent(value) == Some(r.value)
  {
    match c.fromPercent(value)
    case Some(s) => Ok(s)
    case None => Err(DecodeError(key, uri))
  }

  function ParseJson(text: string, c: Codecs): Result<Variant> {
    match c.fromJson(text)
    case Some(v) => Ok(v)
    case None => Err(ExternalError("JsonCppNode: cannot parse '" + text + "'"))
  }

  /** The key of a segment: the text before its first '=', if it has one. */
  function SegmentKey(kv: string): Option<string> {
    var eq := IndexOf(kv, '=', 0);
    if eq == |kv| then None else Some(kv[..eq])
  }

  function SegmentValue(kv: string): string
    requires SegmentKey(kv).Some?
  {
    kv[IndexOf(kv, '=', 0) + 1..]
  }

  const KnownKeys: set<string> := {"q", "dep", "filters", "data"}

  /**
   * One step of from_uri's loop: a segment without '=' or with an unknown key changes nothing;
   * a known key whose value does not decode is InvalidArgument naming the key; "filters" and
   * "data" whose text is not JSON fail with the JSON reader's error, and "filters" whose JSON
   * is not a dictionary is InvalidArgument.
   */
  function ApplySegment(q: Query, kv: string, uri: string, c: Codecs): (r: Result<Query>)
    ensures SegmentKey(kv).None? || SegmentKey(kv).value !in KnownKeys ==> r == Ok(q)
    ensures SegmentKey(kv).Some? && SegmentKey(kv).value in KnownKeys && c.fromPercent(SegmentValue(kv)).None? ==>
      r == Err(DecodeError(SegmentKey(kv).value, uri))
    ensures SegmentKey(kv).Some? && SegmentKey(kv).value in {"filters", "data"} && c.fromPercent(SegmentValue(kv)).Some? ==>
      match c.fromJson(c.fromPercent(SegmentValue(kv)).value)
      case None => r.Err? && r.error.ExternalError?
      case Some(v) => SegmentKey(kv).value == "filters" && !v.Dict? ==> r == Err(InvalidFilters(uri))
    ensures r.Ok? ==> r.value.scopeId == q.scopeId
  {
    match SegmentKey(kv)
    case None => Ok(q)
    case Some(key) =>
      var val := SegmentValue(kv);
      if key == "q" then
        var s :- DecodeOrThrow(val, key, uri, c);
        Ok(q.(queryString := s))
      else if key == "dep" then
        var s :- DecodeOrThrow(val, key, uri, c);
        Ok(q.(departmentId := s))
      else if key == "filters" then
        var json :- DecodeOrThrow(val, key, uri, c);
        var v :- ParseJson(json, c);
        if v.Dict? then Ok(q.(filterState := c.deserializeFilters(v.entries)))
        else Err(InvalidFilters(uri))
      else if key == "data" then
        var json :- DecodeOrThrow(val, key, uri, c);
        var v :- ParseJson(json, c);
        Ok(q.(data := Some(v)))
      else
        Ok(q)
  }

  /** from_uri's loop over the segments, as a fold: the first failing segment ends it. */
  function ApplySegments(q: Query, segs: seq<string>, uri: string, c: Codecs): (r: Result<Query>)
    ensures r.Ok? ==> r.value.scopeId == q.scopeId
    decreases |segs|
  {
    if segs == [] then Ok(q)
    else
      var before :- ApplySegments(q, segs[..|segs| - 1], uri, c);
      ApplySegment(before, segs[|segs| - 1], uri, c)
  }

  function UnsupportedSchema(uri: string): Error {
    InvalidArgument("CannedQuery::from_uri(): unsupported schema '" + uri + "'")
  }

  function EmptyScopeId(uri: string): Error {
    InvalidArgument("CannedQuery()::from_uri(): scope id is empty in '" + uri + "'")
  }

  /** from_percent_encoding is not part of this model: the kind is InvalidArgument, the text is chosen. */
  function UndecodableScopeId(raw: string): Error {
    InvalidArgument("from_percent_encoding(): cannot decode '" + raw + "'")
  }

  /**
   * from_uri(uri): the schema must be "scope://"; the scope id runs to the first '?' and must
   * be non-empty before and after decoding; the segments after the '?' are then applied in order.
   */
  function ParseUri(uri: string, c: Codecs): (r: Result<Query>)
    ensures !(|Schema| <= |uri| && uri[..|Schema|] == Schema) ==> r == Err(UnsupportedSchema(uri))
    ensures |Schema| <= |uri| && uri[..|Schema|] == Schema && IndexOf(uri, '?', |Schema|) == |Schema| ==>
      r == Err(EmptyScopeId(uri))
    ensures r.Ok? ==> r.value.scopeId != ""
  {
    if !(|Schema| <= |uri| && uri[..|Schema|] == Schema) then Err(UnsupportedSchema(uri))
    else
      var next := IndexOf(uri, '?', |Schema|);
      var raw := uri[|Schema|..next];
      if raw == "" then Err(EmptyScopeId(uri))
      else match c.fromPercent(raw)
        case None => Err(UndecodableScopeId(raw))
        case Some(id) =>
          if id == "" then Err(InvalidArgument("CannedQuery(): scope ID cannot be empty"))
          else
            var q0 := Query(id, "", "", c.noFilters, None);
            if next == |uri| then Ok(q0) else ApplySegments(q0, Split(uri[next + 1..], '&'), uri, c)
  }

  /** A failure in the first k segments is the failure of the whole loop. */
  lemma {:induction false} ErrorPersists(q: Query, segs: seq<string>, k: nat, uri: string, c: Codecs)
    requires k <= |segs| && ApplySegments(q, segs[..k], uri, c).Err?
    ensures ApplySegments(q, segs, uri, c) == ApplySegments(q, segs[..k], uri, c)
    decreases |segs|
  {
    if k < |segs| {
      var init := segs[..|segs| - 1];
      assert init[..k] == segs[..k];
      ErrorPersists(q, init, k, uri, c);
    } else {
      assert segs[..k] == segs;
    }
  }

  /** One pass of from_uri's loop body: the setter the segment's key selects, if any. */
  method ApplySegmentTo(q: CannedQueryImpl, kv: string, uri: string, c: Codecs) returns (r: Result<()>)
    modifies q
    ensures r.Ok? <==> ApplySegment(old(q.Value()), kv, uri, c).Ok?
    ensures r.Err? ==> r.error == ApplySegment(old(q.Value()), kv, uri, c).error
    ensures r.Ok? ==> q.Value() == ApplySegment(old(q.Value()), kv, uri, c).value
  {
    r := Ok(());
    var key := SegmentKey(kv);
    if key.None? {
      return;
    }
    var val := SegmentValue(kv);
    if key.value == "q" {
      var s := DecodeOrThrow(val, key.value, uri, c);
      if s.Err? {
        return Err(s.error);
      }
      q.SetQueryString(s.value);
    } else if key.value == "dep" {
      var s := DecodeOrThrow(val, key.value, uri, c);
      if s.Err? {
        return Err(s.error);
      }
      q.SetDepartmentId(s.value);
    } else if key.value == "filters" {
      var json := DecodeOrThrow(val, key.value, uri, c);
      if json.Err? {
        return Err(json.error);
      }
      var v := ParseJson(json.value, c);
      if v.Err? {
        return Err(v.error);
      }
      if !v.value.Dict? {
        return Err(InvalidArgument("CannedQuery::from_uri(): invalid filters data for uri: '" + uri + "'"));
      }
      q.SetFilterState(c.deserializeFilters(v.value.entries));
    } else if key.value == "data" {
      var json := DecodeOrThrow(val, key.value, uri, c);
      if json.Err? {
        return Err(json.error);
      }
      var v := ParseJson(json.value, c);
      if v.Err? {
        return Err(v.error);
      }
      q.SetData(v.value);
    }
  }

  /** from_uri's loop: each segment in turn updates the query; the first failure ends it. */
  method ApplySegmentsTo(q: CannedQueryImpl, segs: seq<string>, uri: string, c: Codecs) returns (r: Result<()>)
    modifies q
    ensures r.Ok? <==> ApplySegments(old(q.Value()), segs, uri, c).Ok?
    ensures r.Err? ==> r.error == ApplySegments(old(q.Value()), segs, uri, c).error
    ensures r.Ok? ==> q.Value() == ApplySegments(old(q.Value()), segs, uri, c).value
  {
    ghost var q0 := q.Value();
    var i := 0;
    while i < |segs|
      invariant 0 <= i <= |segs|
      invariant ApplySegments(q0, segs[..i], uri, c) == Ok(q.Value())
    {
      assert segs[..i + 1][..i] == segs[..i];
      var step := ApplySegmentTo(q, segs[i], uri, c);
      if step.Err? {
        ErrorPersists(q0, segs, i + 1, uri, c);
        return Err(step.error);
      }
      i := i + 1;
    }
    assert segs[..|segs|] == segs;
    r := Ok(());
  }

  /**
   * from_uri(uri) on the object: the scope id is checked and decoded, the query is created,
   * then the segments after the '?' update it through its setters.
   */
  method FromUri(uri: string, c: Codecs) returns (r: Result<CannedQueryImpl>)
    ensures r.Ok? <==> ParseUri(uri, c).Ok?
    ensures r.Err? ==> r.error == ParseUri(uri, c).error
    ensures r.Ok? ==> fresh(r.value) && r.value.Value() == ParseUri(uri, c).value
  {
    if !(|Schema| <= |uri| && uri[..|Schema|] == Schema) {
      return Err(UnsupportedSchema(uri));
    }
    var next := IndexOf(uri, '?', |Schema|);
    var raw := uri[|Schema|..next];
    if raw == "" {
      return Err(EmptyScopeId(uri));
    }
    var decoded := c.fromPercent(raw);
    if decoded.None? {
      return Err(UndecodableScopeId(raw));
    }
    var created := NewCannedQuery(decoded.value, "", "", c);
    if created.Err? {
      return Err(created.error);
    }
    var q := created.value;
    if next < |uri| {
      var step := ApplySegmentsTo(q, Split(uri[next + 1..], '&'), uri, c);
      if step.Err? {
        return Err(step.error);
      }
    }
    r := Ok(q);
  }

  // ---------------------------------------------------------------------------------------
  // Properties of the parser

  /** The segment's text after its first '=': the value a key was given. */
  function LastValue(segs: seq<string>, key: string): (r: Option<string>)
    ensures r.Some? ==> exists i :: 0 <= i < |segs| && SegmentKey(segs[i]) == Some(key)
    decreases |segs|
  {
    if segs == [] then None
    else
      var last := segs[|segs| - 1];
      if SegmentKey(last) == Some(key) then Some(SegmentValue(last))
      else
        var r := LastValue(segs[..|segs| - 1], key);
        assert r.Some? ==> exists i :: 0 <= i < |segs| && SegmentKey(segs[i]) == Some(key) by {
          if r.Some? {
            var i :| 0 <= i < |segs| - 1 && SegmentKey(segs[..|segs| - 1][i]) == Some(key);
            assert segs[i] == segs[..|segs| - 1][i];
          }
        }
        r
  }

  /** The text field a key sets: "q" the query string, "dep" the department. */
  function TextField(q: Query, key: string): string
    requires key == "q" || key == "dep"
  {
    if key == "q" then q.queryString else q.departmentId
  }

  /**
   * When a key occurs several times the last occurrence wins: the parsed query string
   * (department) is the decoding of the last "q" ("dep") value, or the initial one when
   * the key does not occur.
   */
  lemma {:induction false} LastOccurrenceWins(q: Query, segs: seq<string>, key: string, uri: string, c: Codecs)
    requires key == "q" || key == "dep"
    requires ApplySegments(q, segs, uri, c).Ok?
    ensures var r := ApplySegments(q, segs, uri, c).value;
      match LastValue(segs, key)
      case None => TextField(r, key) == TextField(q, key)
      case Some(v) => c.fromPercent(v) == Some(TextField(r, key))
    decreases |segs|
  {
    if segs != [] {
      var init := segs[..|segs| - 1];
      var last := segs[|segs| - 1];
      LastOccurrenceWins(q, init, key, uri, c);
    }
  }

  /** A segment without '=' or with an unknown key can be dropped, wherever it stands. */
  lemma {:induction false} IgnoredSegment(q: Query, a: seq<string>, kv: string, b: seq<string>, uri: string, c: Codecs)
    requires SegmentKey(kv).None? || SegmentKey(kv).value !in KnownKeys
    ensures ApplySegments(q, a + [kv] + b, uri, c) == ApplySegments(q, a + b, uri, c)
    decreases |b|
  {
    if b == [] {
      assert a + [kv] + b == a + [kv];
      assert (a + [kv])[..|a|] == a;
      assert a + b == a;
    } else {
      var b' := b[..|b| - 1];
      assert (a + [kv] + b)[..|a + [kv] + b| - 1] == a + [kv] + b';
      assert (a + b)[..|a + b| - 1] == a + b';
      assert (a + [kv] + b)[|a + [kv] + b| - 1] == b[|b| - 1] == (a + b)[|a + b| - 1];
      IgnoredSegment(q, a, kv, b', uri, c);
    }
  }

  /** Folding over one more segment is one more step. */
  lemma ApplySegmentsSnoc(q: Query, segs: seq<string>, kv: string, uri: string, c: Codecs)
    ensures ApplySegments(q, segs + [kv], uri, c) ==
      (match ApplySegments(q, segs, uri, c)
       case Ok(before) => ApplySegment(before, kv, uri, c)
       case Err(e) => Err(e))
  {
    assert (segs + [kv])[..|segs|] == segs;
  }

  /** A segment written as key=value reads back as that key and value. */
  lemma KeyedSegment(key: string, v: string)
    requires '=' !in key
    ensures SegmentKey(key + "=" + v) == Some(key) && SegmentValue(key + "=" + v) == v
  {
    var kv := key + "=" + v;
    IndexOfFirst(kv, '=', 0, |key|);
    assert kv[..|key|] == key && kv[|key| + 1..] == v;
  }

  /** An empty serialised filter state belongs to the default filter state. */
  lemma EmptyFiltersAreDefault(f: FilterState, c: Codecs)
    requires Lawful(c) && c.serializeFilters(f) == map[]
    ensures f == c.noFilters
  {
    calc {
      f;
      c.deserializeFilters(c.serializeFilters(f));
      c.deserializeFilters(c.serializeFilters(c.noFilters));
      c.noFilters;
    }
  }

  /** The "q" segment sets the query string. */
  lemma QuerySegmentStep(q0: Query, prefix: seq<string>, before: Query, q: Query, uri: string, c: Codecs)
    requires Lawful(c) && ApplySegments(q0, prefix, uri, c) == Ok(before)
    ensures ApplySegments(q0, prefix + QuerySegment(q, c), uri, c) == Ok(before.(queryString := q.queryString))
  {
    var v := c.toPercent(q.queryString);
    KeyedSegment("q", v);
    assert "q" + "=" + v == "q=" + v;
    ApplySegmentsSnoc(q0, prefix, "q=" + v, uri, c);
  }

  /** The "dep" segment, when written, sets the department; otherwise it stays empty. */
  lemma DepartmentSegmentStep(q0: Query, prefix: seq<string>, before: Query, q: Query, uri: string, c: Codecs)
    requires Lawful(c) && ApplySegments(q0, prefix, uri, c) == Ok(before) && before.departmentId == ""
    ensures ApplySegments(q0, prefix + DepartmentSegment(q, c), uri, c) == Ok(before.(departmentId := q.departmentId))
  {
    if q.departmentId != "" {
      var v := c.toPercent(q.departmentId);
      KeyedSegment("dep", v);
      assert "dep" + "=" + v == "dep=" + v;
      ApplySegmentsSnoc(q0, prefix, "dep=" + v, uri, c);
    } else {
      assert prefix + [] == prefix;
    }
  }

  /** The "filters" segment, when written, restores the filter state; otherwise it is the default. */
  lemma FiltersSegmentStep(q0: Query, prefix: seq<string>, before: Query, q: Query, uri: string, c: Codecs)
    requires Lawful(c) && ApplySegments(q0, prefix, uri, c) == Ok(before) && before.filterState == c.noFilters
    ensures ApplySegments(q0, prefix + FiltersSegment(q, c), uri, c) == Ok(before.(filterState := q.filterState))
  {
    var filters := c.serializeFilters(q.filterState);
    if |filters| != 0 {
      var json := c.toJson(Dict(filters));
      var v := c.toPercent(json);
      KeyedSegment("filters", v);
      assert "filters" + "=" + v == "filters=" + v;
      ApplySegmentsSnoc(q0, prefix, "filters=" + v, uri, c);
      assert c.fromPercent(v) == Some(json);
      assert ParseJson(json, c) == Ok(Dict(filters));
      assert c.deserializeFilters(filters) == q.filterState;
    } else {
      EmptyFiltersAreDefault(q.filterState, c);
      assert prefix + [] == prefix;
    }
  }

  /** The "data" segment, when written, restores the data; otherwise there is none. */
  lemma DataSegmentStep(q0: Query, prefix: seq<string>, before: Query, q: Query, uri: string, c: Codecs)
    requires Lawful(c) && ApplySegments(q0, prefix, uri, c) == Ok(before) && before.data.None?
    ensures ApplySegments(q0, prefix + DataSegment(q, c), uri, c) == Ok(before.(data := q.data))
  {
    if q.data.Some? {
      var json := c.toJson(q.data.value);
      var v := c.toPercent(json);
      KeyedSegment("data", v);
      assert "data" + "=" + v == "data=" + v;
      ApplySegmentsSnoc(q0, prefix, "data=" + v, uri, c);
      assert c.fromPercent(v) == Some(json);
      assert ParseJson(json, c) == Ok(q.data.value);
    } else {
      assert prefix + [] == prefix;
    }
  }

  /** Applying the segments to_uri writes, from the query from_uri starts with, rebuilds the query. */
  lemma ApplyUriSegments(q: Query, uri: string, c: Codecs)
    requires Lawful(c)
    ensures ApplySegments(Query(q.scopeId, "", "", c.noFilters, None), UriSegments(q, c), uri, c) == Ok(q)
  {
    var q0 := Query(q.scopeId, "", "", c.noFilters, None);
    assert ApplySegments(q0, [], uri, c) == Ok(q0);
    QuerySegmentStep(q0, [], q0, q, uri, c);
    var p1 := QuerySegment(q, c);
    assert [] + p1 == p1;
    var q1 := q0.(queryString := q.queryString);
    DepartmentSegmentStep(q0, p1, q1, q, uri, c);
    var p2 := p1 + DepartmentSegment(q, c);
    var q2 := q1.(departmentId := q.departmentId);
    FiltersSegmentStep(q0, p2, q2, q, uri, c);
    var p3 := p2 + FiltersSegment(q, c);
    var q3 := q2.(filterState := q.filterState);
    DataSegmentStep(q0, p3, q3, q, uri, c);
    assert q3.(data := q.data) == q;
  }

  /** Where from_uri finds the schema, the raw scope id and the segment text in such a URI. */
  lemma ComposedUriParts(raw: string, rest: string)
    requires '?' !in raw
    ensures var uri := Schema + raw + "?" + rest;
      && |Schema| <= |uri| && uri[..|Schema|] == Schema
      && IndexOf(uri, '?', |Schema|) == |Schema| + |raw|
      && uri[|Schema|..|Schema| + |raw|] == raw
      && uri[|Schema| + |raw| + 1..] == rest
  {
    var uri := Schema + raw + "?" + rest;
    assert uri[..|Schema|] == Schema;
    forall k | |Schema| <= k < |Schema| + |raw| ensures uri[k] != '?' {
      assert uri[k] == raw[k - |Schema|];
    }
    IndexOfFirst(uri, '?', |Schema|, |Schema| + |raw|);
    assert uri[|Schema|..|Schema| + |raw|] == raw;
    assert uri[|Schema| + |raw| + 1..] == rest;
  }

  /** Segments that Split on '&' gives back unchanged: non-empty and free of '&'. */
  predicate PlainSegments(segs: seq<string>) {
    forall i :: 0 <= i < |segs| ==> segs[i] != "" && '&' !in segs[i]
  }

  lemma PlainSegmentsAppend(a: seq<string>, b: seq<string>)
    requires PlainSegments(a) && PlainSegments(b)
    ensures PlainSegments(a + b)
  {
    forall i | 0 <= i < |a + b| ensures (a + b)[i] != "" && '&' !in (a + b)[i] {
      if i >= |a| { assert (a + b)[i] == b[i - |a|]; }
    }
  }

  /** A segment made of a '&'-free "key=" and a percent-encoded value is plain. */
  lemma KeyedSegmentPlain(keyEq: string, s: string, c: Codecs)
    requires Lawful(c) && keyEq != "" && '&' !in keyEq
    ensures PlainSegments([keyEq + c.toPercent(s)])
  {
    var v := c.toPercent(s);
    assert '&' !in v;
    forall k | 0 <= k < |keyEq + v| ensures (keyEq + v)[k] != '&' {
      if k >= |keyEq| { assert (keyEq + v)[k] == v[k - |keyEq|]; }
    }
  }

  /** Every segment to_uri writes is non-empty and free of '&'. */
  lemma UriSegmentsPlain(q: Query, c: Codecs)
    requires Lawful(c)
    ensures PlainSegments(UriSegments(q, c))
  {
    KeyedSegmentPlain("q=", q.queryString, c);
    if q.departmentId != "" {
      KeyedSegmentPlain("dep=", q.departmentId, c);
    }
    var filters := c.serializeFilters(q.filterState);
    if |filters| != 0 {
      KeyedSegmentPlain("filters=", c.toJson(Dict(filters)), c);
    }
    if q.data.Some? {
      KeyedSegmentPlain("data=", c.toJson(q.data.value), c);
    }
    PlainSegmentsAppend(QuerySegment(q, c), DepartmentSegment(q, c));
    PlainSegmentsAppend(QuerySegment(q, c) + DepartmentSegment(q, c), FiltersSegment(q, c));
    PlainSegmentsAppend(QuerySegment(q, c) + DepartmentSegment(q, c) + FiltersSegment(q, c), DataSegment(q, c));
  }

  /**
   * A URI made of the schema, a raw scope id that decodes to the query's id and holds no '?',
   * and the segments to_uri writes, parses back to the query.
   */
  lemma ParseComposedUri(q: Query, raw: string, c: Codecs)
    requires Lawful(c) && q.scopeId != ""
    requires raw != "" && '?' !in raw && c.fromPercent(raw) == Some(q.scopeId)
    ensures ParseUri(Schema + raw + "?" + Join(UriSegments(q, c), '&'), c) == Ok(q)
  {
    var segs := UriSegments(q, c);
    var rest := Join(segs, '&');
    var uri := Schema + raw + "?" + rest;
    ComposedUriParts(raw, rest);
    UriSegmentsPlain(q, c);
    SplitJoin(segs, '&');
    ApplyUriSegments(q, uri, c);
  }

  /** The as-written to_uri round-trips only a scope id that holds no '?' and decodes to itself. */
  lemma ToUriRoundTripPlainId(q: Query, c: Codecs)
    requires Lawful(c) && q.scopeId != ""
    requires '?' !in q.scopeId && c.fromPercent(q.scopeId) == Some(q.scopeId)
    ensures ParseUri(ToUri(q, c), c) == Ok(q)
  {
    ParseComposedUri(q, q.scopeId, c);
  }

  /** The part of the as-written URI after the first '?' when the scope id is "a?b". */
  lemma UnknownTailSegment(e: string)
    requires '&' !in e
    ensures Split("b?q=" + e, '&') == ["b?q=" + e]
    ensures SegmentKey("b?q=" + e) == Some("b?q")
  {
    var tail := "b?q=" + e;
    forall i | 0 <= i < |tail| ensures tail[i] != '&' {
      if i >= 4 { assert tail[i] == e[i - 4]; }
    }
    IndexOfAbsent(tail, '&');
    IndexOfFirst(tail, '=', 0, 3);
    assert tail[..3] == "b?q";
  }

  /**
   * The as-written to_uri loses information: for the scope id "a?b" and query string "x",
   * from_uri reads the id up to the first '?' and then sees the unknown key "b?q", so it
   * never gets the query string back, whatever the codecs.
   */
  lemma ToUriLosesQueryAfterQuestionMark(c: Codecs)
    requires Lawful(c)
    ensures var q := Query("a?b", "x", "", c.noFilters, None);
      ParseUri(ToUri(q, c), c) != Ok(q)
  {
    var q := Query("a?b", "x", "", c.noFilters, None);
    var e := c.toPercent("x");
    assert '&' !in e;
    assert UriSegments(q, c) == ["q=" + e];
    var uri := ToUri(q, c);
    var tail := "b?q=" + e;
    assert uri == Schema + "a" + "?" + tail;
    IndexOfFirst(uri, '?', |Schema|, |Schema| + 1);
    assert uri[|Schema|..|Schema| + 1] == "a";
    assert uri[|Schema| + 2..] == tail;
    UnknownTailSegment(e);
    var r := ParseUri(uri, c);
    if r.Ok? {
      var q0 := Query(r.value.scopeId, "", "", c.noFilters, None);
      ApplySegmentsSnoc(q0, [], tail, uri, c);
      assert [] + [tail] == [tail];
      assert r.value.queryString == "";
    }
  }

  /** With the scope id percent-encoded, every query with a scope id survives the round trip. */
  lemma ToUriEncodedRoundTrip(q: Query, c: Codecs)
    requires Lawful(c) && q.scopeId != ""
    ensures ParseUri(ToUriEncoded(q, c), c) == Ok(q)
  {
    ParseComposedUri(q, c.toPercent(q.scopeId), c);
  }

  /**
   * A failing segment ends from_uri with its own error: in a URI made of the schema, a raw scope
   * id and the segment text, the error of the first segment that fails is from_uri's error.
   */
  lemma SegmentErrorIsUriError(raw: string, id: string, rest: string, k: nat, before: Query, c: Codecs)
    requires raw != "" && '?' !in raw && c.fromPercent(raw) == Some(id) && id != ""
    requires k < |Split(rest, '&')|
    requires ApplySegments(Query(id, "", "", c.noFilters, None), Split(rest, '&')[..k], Schema + raw + "?" + rest, c) == Ok(before)
    requires ApplySegment(before, Split(rest, '&')[k], Schema + raw + "?" + rest, c).Err?
    ensures ParseUri(Schema + raw + "?" + rest, c) == ApplySegment(before, Split(rest, '&')[k], Schema + raw + "?" + rest, c)
  {
    var uri := Schema + raw + "?" + rest;
    var segs := Split(rest, '&');
    var q0 := Query(id, "", "", c.noFilters, None);
    ComposedUriParts(raw, rest);
    assert segs[..k + 1][..k] == segs[..k];
    assert ApplySegments(q0, segs[..k + 1], uri, c) == ApplySegment(before, segs[k], uri, c);
    ErrorPersists(q0, segs, k + 1, uri, c);
  }

  /** A query string that does not decode makes from_uri fail with the decode error for "q". */
  lemma UndecodableQueryFailsUri(raw: string, id: string, v: string, c: Codecs)
    requires raw != "" && '?' !in raw && c.fromPercent(raw) == Some(id) && id != ""
    requires '&' !in v && c.fromPercent(v).None?
    ensures ParseUri(Schema + raw + "?q=" + v, c) == Err(DecodeError("q", Schema + raw + "?q=" + v))
  {
    var rest := "q=" + v;
    var uri := Schema + raw + "?" + rest;
    assert uri == Schema + raw + "?q=" + v;
    forall i | 0 <= i < |rest| ensures rest[i] != '&' {
      if i >= 2 { assert rest[i] == v[i - 2]; }
    }
    IndexOfAbsent(rest, '&');
    assert Split(rest, '&') == [rest];
    KeyedSegment("q", v);
    assert rest == "q" + "=" + v;
    var q0 := Query(id, "", "", c.noFilters, None);
    assert ApplySegments(q0, Split(rest, '&')[..0], uri, c) == Ok(q0);
    SegmentErrorIsUriError(raw, id, rest, 0, q0, c);
  }
}
