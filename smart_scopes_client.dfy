/**
 * SmartScopesClient: the client of the smart scopes server. It keeps one pending search
 * request per session, and turns the server's answers into remote scopes and search results.
 *
 * The HTTP client is abstract: issuing a request yields a fresh PendingRequest handle, the
 * text a request delivers is the parameter `responses` (or `fetch`), and cancelled requests
 * are recorded in the ghost log `cancelled`. Reading JSON text into a tree is the parameter
 * `parse`.
 */
module SmartScopes {
  import opened Outcomes
  import opened JsonNodes
  import opened SmartScopesText

  datatype RemoteScope = RemoteScope(name: string, description: string, baseUrl: string, invisible: bool)

  datatype SearchCategory = SearchCategory(id: string, title: string, icon: string, rendererTemplate: string)

  datatype SearchResult = SearchResult(
    uri: string,
    dndUri: string,
    title: string,
    art: string,
    category: Option<SearchCategory>,
    otherParams: map<string, JsonNode>)

  const EmptyCategory := SearchCategory("", "", "", "")
  const EmptyResult := SearchResult("", "", "", "", None, map[])

  /** The handle the HTTP client returns for a request it has started. */
  datatype PendingRequest = PendingRequest(id: nat, uri: string, port: Uint)

  /** What search() hands back: the session whose results can be fetched or cancelled. */
  datatype SearchHandle = SearchHandle(sessionId: string)

  // ---------------------------------------------------------------------------------------
  // Remote scopes

  /** An entry of the remote-scopes answer with the three members a scope needs. */
  predicate CompleteScopeEntry(n: JsonNode) {
    HasNode(n, "name") && HasNode(n, "base_url") && HasNode(n, "description")
  }

  /** One remote scope: its three strings, and "invisible" when present, false otherwise. */
  function ParseRemoteScope(n: JsonNode): (r: Result<RemoteScope>)
    requires CompleteScopeEntry(n)
    ensures r.Ok? ==> GetNode(n, "name") == Ok(JString(r.value.name))
    ensures r.Ok? ==> GetNode(n, "description") == Ok(JString(r.value.description))
    ensures r.Ok? ==> GetNode(n, "base_url") == Ok(JString(r.value.baseUrl))
    ensures r.Ok? ==> if HasNode(n, "invisible") then GetNode(n, "invisible") == Ok(JBool(r.value.invisible))
                      else !r.value.invisible
    ensures r.Ok? <==> GetNode(n, "name").value.JString? && GetNode(n, "description").value.JString?
                       && GetNode(n, "base_url").value.JString?
                       && (HasNode(n, "invisible") ==> GetNode(n, "invisible").value.JBool?)
  {
    var name :- AsString(GetNode(n, "name").value);
    var description :- AsString(GetNode(n, "description").value);
    var baseUrl :- AsString(GetNode(n, "base_url").value);
    var invisible :- if HasNode(n, "invisible") then AsBool(GetNode(n, "invisible").value) else Ok(false);
    Ok(RemoteScope(name, description, baseUrl, invisible))
  }

  /** get_remote_scopes' loop from entry i on: one scope per entry up to the first incomplete one. */
  function RemoteScopesFrom(items: seq<JsonNode>, i: nat): Result<seq<RemoteScope>>
    requires i <= |items|
    decreases |items| - i
  {
    if i == |items| || !CompleteScopeEntry(items[i]) then Ok([])
    else
      var scope :- ParseRemoteScope(items[i]);
      var rest :- RemoteScopesFrom(items, i + 1);
      Ok([scope] + rest)
  }

  /** The scopes `r`, read from entry i on, stand for the complete entries up to the first incomplete one. */
  predicate ScopesOfEntries(items: seq<JsonNode>, i: nat, r: seq<RemoteScope>) {
    && i + |r| <= |items|
    && (forall k :: 0 <= k < |r| ==> EntryReads(items[i + k], r[k]))
    && (i + |r| < |items| ==> !CompleteScopeEntry(items[i + |r|]))
  }

  /** The entry is complete and reads as `scope`. */
  predicate EntryReads(n: JsonNode, scope: RemoteScope) {
    CompleteScopeEntry(n) && ParseRemoteScope(n) == Ok(scope)
  }

  lemma ScopesOfEntriesStop(items: seq<JsonNode>, i: nat)
    requires i == |items| || (i < |items| && !CompleteScopeEntry(items[i]))
    ensures ScopesOfEntries(items, i, [])
  {}

  lemma ScopesOfEntriesCons(items: seq<JsonNode>, i: nat, scope: RemoteScope, rest: seq<RemoteScope>)
    requires i < |items| && EntryReads(items[i], scope)
    requires ScopesOfEntries(items, i + 1, rest)
    ensures ScopesOfEntries(items, i, [scope] + rest)
  {
    var r := [scope] + rest;
    forall k | 0 <= k < |r| ensures EntryReads(items[i + k], r[k]) {
      if k > 0 {
        assert r[k] == rest[k - 1] && i + k == (i + 1) + (k - 1);
      }
    }
  }

  /**
   * The scopes read from entry i on are the entries up to the first one lacking name,
   * base_url or description, each read by ParseRemoteScope.
   */
  lemma {:induction false} RemoteScopesStopAtIncomplete(items: seq<JsonNode>, i: nat)
    requires i <= |items| && RemoteScopesFrom(items, i).Ok?
    ensures ScopesOfEntries(items, i, RemoteScopesFrom(items, i).value)
    decreases |items| - i
  {
    if i < |items| && CompleteScopeEntry(items[i]) {
      RemoteScopesStopAtIncomplete(items, i + 1);
      ScopesOfEntriesCons(items, i, ParseRemoteScope(items[i]).value, RemoteScopesFrom(items, i + 1).value);
    } else {
      ScopesOfEntriesStop(items, i);
    }
  }

  function RootItems(root: JsonNode): seq<JsonNode> {
    if root.JArray? then root.items else []
  }

  /** What get_remote_scopes answers for the text the server sent. */
  function ParseRemoteScopes(text: string, parse: string -> Result<JsonNode>): Result<seq<RemoteScope>> {
    var root :- parse(text);
    RemoteScopesFrom(RootItems(root), 0)
  }

  /** Prepends the scopes already collected to what the rest of the loop yields. */
  function Prepend<T>(done: seq<T>, rest: Result<seq<T>>): Result<seq<T>> {
    match rest
    case Ok(more) => Ok(done + more)
    case Err(e) => Err(e)
  }

  // ---------------------------------------------------------------------------------------
  // Search results

  /** The result members that fill a field; every other member goes to other_params. */
  const ResultMembers: set<string> := {"art", "dnd_uri", "title", "uri", "cat_id"}

  /** One member of a category object: the four known ones set their field, others are skipped. */
  function ApplyCategoryMember(cat: SearchCategory, child: JsonNode, m: string): Result<SearchCategory> {
    if m == "icon" then
      var n :- GetNode(child, m); var s :- AsString(n); Ok(cat.(icon := s))
    else if m == "id" then
      var n :- GetNode(child, m); var s :- AsString(n); Ok(cat.(id := s))
    else if m == "render_template" then
      var n :- GetNode(child, m); var s :- AsString(n); Ok(cat.(rendererTemplate := s))
    else if m == "title" then
      var n :- GetNode(child, m); var s :- AsString(n); Ok(cat.(title := s))
    else Ok(cat)
  }

  /** The category the members from index i on make of `cat`. */
  function CategoryFrom(child: JsonNode, names: seq<string>, i: nat, cat: SearchCategory): Result<SearchCategory>
    requires i <= |names|
    decreases |names| - i
  {
    if i == |names| then Ok(cat)
    else
      var next :- ApplyCategoryMember(cat, child, names[i]);
      CategoryFrom(child, names, i + 1, next)
  }

  function ParseCategory(child: JsonNode): Result<SearchCategory> {
    CategoryFrom(child, MemberNames(child), 0, EmptyCategory)
  }

  /** cat_id: the category of that id parsed so far, or none. */
  function Resolve(catId: string, categories: map<string, SearchCategory>): Option<SearchCategory> {
    if catId in categories then Some(categories[catId]) else None
  }

  /** One member of a result object; an unknown member is stored with its own value. */
  function ApplyResultMember(res: SearchResult, child: JsonNode, m: string,
                             categories: map<string, SearchCategory>): Result<SearchResult>
  {
    if m == "art" then
      var n :- GetNode(child, m); var s :- AsString(n); Ok(res.(art := s))
    else if m == "dnd_uri" then
      var n :- GetNode(child, m); var s :- AsString(n); Ok(res.(dndUri := s))
    else if m == "title" then
      var n :- GetNode(child, m); var s :- AsString(n); Ok(res.(title := s))
    else if m == "uri" then
      var n :- GetNode(child, m); var s :- AsString(n); Ok(res.(uri := s))
    else if m == "cat_id" then
      var n :- GetNode(child, m); var s :- AsString(n); Ok(res.(category := Resolve(s, categories)))
    else
      var n :- GetNode(child, m); Ok(res.(otherParams := res.otherParams[m := n]))
  }

  /** The same step as the source writes it: an unknown member is stored with the whole result object. */
  function ApplyResultMemberAsWritten(res: SearchResult, child: JsonNode, m: string,
                                     categories: map<string, SearchCategory>): Result<SearchResult>
  {
    if m in ResultMembers then ApplyResultMember(res, child, m, categories)
    else Ok(res.(otherParams := res.otherParams[m := child]))
  }

  /** The result the members from index i on make of `res`. */
  function ResultFrom(child: JsonNode, names: seq<string>, i: nat, res: SearchResult,
                      categories: map<string, SearchCategory>): Result<SearchResult>
    requires i <= |names|
    decreases |names| - i
  {
    if i == |names| then Ok(res)
    else
      var next :- ApplyResultMember(res, child, names[i], categories);
      ResultFrom(child, names, i + 1, next, categories)
  }

  function ResultFromAsWritten(child: JsonNode, names: seq<string>, i: nat, res: SearchResult,
                               categories: map<string, SearchCategory>): Result<SearchResult>
    requires i <= |names|
    decreases |names| - i
  {
    if i == |names| then Ok(res)
    else
      var next :- ApplyResultMemberAsWritten(res, child, names[i], categories);
      ResultFromAsWritten(child, names, i + 1, next, categories)
  }

  function ParseResult(child: JsonNode, categories: map<string, SearchCategory>): Result<SearchResult> {
    ResultFrom(child, MemberNames(child), 0, EmptyResult, categories)
  }

  function ParseResultAsWritten(child: JsonNode, categories: map<string, SearchCategory>): Result<SearchResult> {
    ResultFromAsWritten(child, MemberNames(child), 0, EmptyResult, categories)
  }

  /** What get_search_results has gathered: the categories by id, and the results in order. */
  datatype StreamState = StreamState(categories: map<string, SearchCategory>, results: seq<SearchResult>)

  /** One JSON document of the stream: a category, a result, or neither. */
  function ApplyDocument(st: StreamState, json: string, parse: string -> Result<JsonNode>): Result<StreamState> {
    var root :- parse(json);
    if HasNode(root, "category") then
      var cat :- ParseCategory(GetNode(root, "category").value);
      Ok(st.(categories := st.categories[cat.id := cat]))
    else if HasNode(root, "result") then
      var res :- ParseResult(GetNode(root, "result").value, st.categories);
      Ok(st.(results := st.results + [res]))
    else Ok(st)
  }

  function DocumentsFrom(jsons: seq<string>, i: nat, st: StreamState, parse: string -> Result<JsonNode>): Result<StreamState>
    requires i <= |jsons|
    decreases |jsons| - i
  {
    if i == |jsons| then Ok(st)
    else
      var next :- ApplyDocument(st, jsons[i], parse);
      DocumentsFrom(jsons, i + 1, next, parse)
  }

  /** What get_search_results answers for the text the search request delivered. */
  function ParseSearchResponse(text: string, parse: string -> Result<JsonNode>): Result<seq<SearchResult>> {
    var st :- DocumentsFrom(JsonPieces(text, 0), 0, StreamState(map[], []), parse);
    Ok(st.results)
  }

  // ---------------------------------------------------------------------------------------
  // Properties of the parsers

  /** Categories are stored under their own id. */
  predicate KeyedById(categories: map<string, SearchCategory>) {
    forall k :: k in categories ==> categories[k].id == k
  }

  /** The category map get_search_results builds keeps every category under its own id. */
  lemma {:induction false} DocumentsKeepCategoriesKeyed(jsons: seq<string>, i: nat, st: StreamState,
                                                        parse: string -> Result<JsonNode>)
    requires i <= |jsons| && KeyedById(st.categories)
    requires DocumentsFrom(jsons, i, st, parse).Ok?
    ensures KeyedById(DocumentsFrom(jsons, i, st, parse).value.categories)
    decreases |jsons| - i
  {
    if i < |jsons| {
      var next := ApplyDocument(st, jsons[i], parse).value;
      assert KeyedById(next.categories);
      DocumentsKeepCategoriesKeyed(jsons, i + 1, next, parse);
    }
  }

  /**
   * cat_id resolution: a parsed result's category is the category of its cat_id among those
   * parsed before it, none when no such category was parsed, and stays as it was when the
   * result has no cat_id member.
   */
  lemma {:induction false} CategoryOfResult(child: JsonNode, names: seq<string>, i: nat, res: SearchResult,
                                            categories: map<string, SearchCategory>)
    requires i <= |names|
    requires ResultFrom(child, names, i, res, categories).Ok?
    ensures var r := ResultFrom(child, names, i, res, categories).value;
      if "cat_id" in names[i..] then
        HasNode(child, "cat_id") && GetNode(child, "cat_id").value.JString?
        && r.category == Resolve(GetNode(child, "cat_id").value.s, categories)
      else r.category == res.category
    decreases |names| - i
  {
    if i < |names| {
      CategoryStep(child, names[i], res, categories);
      var next := ApplyResultMember(res, child, names[i], categories).value;
      CategoryOfResult(child, names, i + 1, next, categories);
      assert names[i..] == [names[i]] + names[i + 1..];
    }
  }

  /** Only the cat_id member sets the category, to the resolution of its string. */
  lemma CategoryStep(child: JsonNode, m: string, res: SearchResult, categories: map<string, SearchCategory>)
    requires ApplyResultMember(res, child, m, categories).Ok?
    ensures var next := ApplyResultMember(res, child, m, categories).value;
      if m == "cat_id" then
        HasNode(child, "cat_id") && GetNode(child, "cat_id").value.JString?
        && next.category == Resolve(GetNode(child, "cat_id").value.s, categories)
      else next.category == res.category
  {}

  /** A result's category, when it has one, carries the id its cat_id names. */
  lemma ResolvedCategoryMatchesCatId(child: JsonNode, categories: map<string, SearchCategory>)
    requires KeyedById(categories) && ParseResult(child, categories).Ok?
    ensures var r := ParseResult(child, categories).value;
      r.category.Some? ==> GetNode(child, "cat_id") == Ok(JString(r.category.value.id))
  {
    var names := MemberNames(child);
    CategoryOfResult(child, names, 0, EmptyResult, categories);
    assert names[0..] == names;
  }

  // ---------------------------------------------------------------------------------------
  // The string fields of a parsed category and result

  /** The category members that set a field. */
  const CategoryMembers: set<string> := {"icon", "id", "render_template", "title"}

  /** The result members that set a string field. */
  const ResultStringMembers: set<string> := {"art", "dnd_uri", "title", "uri"}

  /** Member `m` as a string field reads it: its string, or "" when absent or not a string. */
  function MemberString(child: JsonNode, m: string): string {
    if HasNode(child, m) && GetNode(child, m).value.JString? then GetNode(child, m).value.s else ""
  }

  /** A string field read from member `m`: that member's string when present, "" otherwise. */
  predicate StringMember(child: JsonNode, m: string, field: string) {
    if HasNode(child, m) then GetNode(child, m) == Ok(JString(field)) else field == ""
  }

  /** Every member of the object whose name is in `known` is a string. */
  predicate MembersAreStrings(child: JsonNode, known: set<string>) {
    forall m :: m in known && HasNode(child, m) ==> GetNode(child, m).value.JString?
  }

  /** The four fields of a category, each read from its member. */
  predicate CategoryReads(child: JsonNode, cat: SearchCategory) {
    && StringMember(child, "id", cat.id) && StringMember(child, "title", cat.title)
    && StringMember(child, "icon", cat.icon) && StringMember(child, "render_template", cat.rendererTemplate)
  }

  /** The four string fields of a result, each read from its member. */
  predicate ResultReads(child: JsonNode, res: SearchResult) {
    && StringMember(child, "uri", res.uri) && StringMember(child, "dnd_uri", res.dndUri)
    && StringMember(child, "title", res.title) && StringMember(child, "art", res.art)
  }

  /** Every member from index i on whose name is in `known` is a string. */
  predicate KnownAreStrings(child: JsonNode, names: seq<string>, i: nat, known: set<string>)
    requires i <= |names|
  {
    forall k :: i <= k < |names| && names[k] in known ==>
      GetNode(child, names[k]).Ok? && GetNode(child, names[k]).value.JString?
  }

  /** Every member from index i on is a member of the object. */
  predicate AllMembers(child: JsonNode, names: seq<string>, i: nat)
    requires i <= |names|
  {
    forall k :: i <= k < |names| ==> HasNode(child, names[k])
  }

  function CategoryField(cat: SearchCategory, m: string): string {
    if m == "icon" then cat.icon
    else if m == "id" then cat.id
    else if m == "render_template" then cat.rendererTemplate
    else cat.title
  }

  function ResultField(res: SearchResult, m: string): string {
    if m == "art" then res.art
    else if m == "dnd_uri" then res.dndUri
    else if m == "title" then res.title
    else res.uri
  }

  lemma KnownAreStringsStep(child: JsonNode, names: seq<string>, i: nat, known: set<string>)
    requires i < |names|
    ensures KnownAreStrings(child, names, i, known) <==>
      (names[i] in known ==> GetNode(child, names[i]).Ok? && GetNode(child, names[i]).value.JString?)
      && KnownAreStrings(child, names, i + 1, known)
  {}

  /** One category member fails exactly when it is a known member that is not a string. */
  lemma CategoryMemberOk(cat: SearchCategory, child: JsonNode, name: string)
    requires HasNode(child, name)
    ensures ApplyCategoryMember(cat, child, name).Ok? <==>
      (name in CategoryMembers ==> GetNode(child, name).value.JString?)
  {}

  /** One category member sets the field of its name to its string and leaves the others. */
  lemma CategoryMemberField(cat: SearchCategory, child: JsonNode, name: string, m: string)
    requires m in CategoryMembers && ApplyCategoryMember(cat, child, name).Ok?
    ensures CategoryField(ApplyCategoryMember(cat, child, name).value, m)
            == if m == name then MemberString(child, m) else CategoryField(cat, m)
  {
    if name == m {
    } else if name in CategoryMembers {
    }
  }

  /** The category loop succeeds exactly when every known member it meets is a string. */
  lemma {:induction false} CategoryFromOk(child: JsonNode, names: seq<string>, i: nat, cat: SearchCategory)
    requires i <= |names| && AllMembers(child, names, i)
    ensures CategoryFrom(child, names, i, cat).Ok? <==> KnownAreStrings(child, names, i, CategoryMembers)
    decreases |names| - i
  {
    if i < |names| {
      CategoryMemberOk(cat, child, names[i]);
      KnownAreStringsStep(child, names, i, CategoryMembers);
      var a := ApplyCategoryMember(cat, child, names[i]);
      if a.Ok? {
        CategoryFromOk(child, names, i + 1, a.value);
      }
    }
  }

  /** Each field after the category loop is its member's string when the loop met that member. */
  lemma {:induction false} CategoryFromField(child: JsonNode, names: seq<string>, i: nat, cat: SearchCategory,
                                             m: string)
    requires i <= |names| && m in CategoryMembers
    requires CategoryFrom(child, names, i, cat).Ok?
    ensures CategoryField(CategoryFrom(child, names, i, cat).value, m)
            == if m in names[i..] then MemberString(child, m) else CategoryField(cat, m)
    decreases |names| - i
  {
    if i < |names| {
      CategoryMemberField(cat, child, names[i], m);
      var next := ApplyCategoryMember(cat, child, names[i]).value;
      CategoryFromField(child, names, i + 1, next, m);
      assert names[i..] == [names[i]] + names[i + 1..];
    }
  }

  /** A present member is a string exactly when its string field reads it. */
  lemma ReadStringMember(child: JsonNode, m: string, field: string)
    requires HasNode(child, m) ==> GetNode(child, m).value.JString?
    requires field == if HasNode(child, m) then MemberString(child, m) else ""
    ensures StringMember(child, m, field)
  {}

  /**
   * A category object parses exactly when each of icon, id, render_template and title that it
   * has is a string; each field is then that member's string, or "" when it is absent.
   */
  lemma ParseCategoryFields(child: JsonNode)
    ensures ParseCategory(child).Ok? <==> MembersAreStrings(child, CategoryMembers)
    ensures ParseCategory(child).Ok? ==> CategoryReads(child, ParseCategory(child).value)
  {
    var names := MemberNames(child);
    assert names[0..] == names;
    CategoryFromOk(child, names, 0, EmptyCategory);
    var r := ParseCategory(child);
    if r.Ok? {
      forall m | m in CategoryMembers && HasNode(child, m)
        ensures GetNode(child, m).value.JString?
      {
        var k :| 0 <= k < |names| && names[k] == m;
      }
      forall m | m in CategoryMembers
        ensures CategoryField(r.value, m) == if HasNode(child, m) then MemberString(child, m) else ""
      {
        CategoryFromField(child, names, 0, EmptyCategory, m);
      }
      ReadStringMember(child, "id", CategoryField(r.value, "id"));
      ReadStringMember(child, "title", CategoryField(r.value, "title"));
      ReadStringMember(child, "icon", CategoryField(r.value, "icon"));
      ReadStringMember(child, "render_template", CategoryField(r.value, "render_template"));
    }
  }

  /** One result member fails exactly when it is a known member that is not a string. */
  lemma ResultMemberOk(res: SearchResult, child: JsonNode, name: string, categories: map<string, SearchCategory>)
    requires HasNode(child, name)
    ensures ApplyResultMember(res, child, name, categories).Ok? <==>
      (name in ResultMembers ==> GetNode(child, name).value.JString?)
  {}

  /** One result member sets the string field of its name and leaves the others. */
  lemma ResultMemberField(res: SearchResult, child: JsonNode, name: string, categories: map<string, SearchCategory>,
                          m: string)
    requires m in ResultStringMembers && ApplyResultMember(res, child, name, categories).Ok?
    ensures ResultField(ApplyResultMember(res, child, name, categories).value, m)
            == if m == name then MemberString(child, m) else ResultField(res, m)
  {
    var next := ApplyResultMember(res, child, name, categories).value;
    if name !in ResultMembers {
      assert next == res.(otherParams := next.otherParams);
    } else if name == m {
      assert GetNode(child, m) == Ok(JString(ResultField(next, m)));
    }
  }

  /** The result loop succeeds exactly when every known member it meets is a string. */
  lemma {:induction false} ResultFromOk(child: JsonNode, names: seq<string>, i: nat, res: SearchResult,
                                        categories: map<string, SearchCategory>)
    requires i <= |names| && AllMembers(child, names, i)
    ensures ResultFrom(child, names, i, res, categories).Ok? <==> KnownAreStrings(child, names, i, ResultMembers)
    decreases |names| - i
  {
    if i < |names| {
      ResultMemberOk(res, child, names[i], categories);
      KnownAreStringsStep(child, names, i, ResultMembers);
      var a := ApplyResultMember(res, child, names[i], categories);
      if a.Ok? {
        ResultFromOk(child, names, i + 1, a.value, categories);
      }
    }
  }

  /** Each string field after the result loop is its member's string when the loop met that member. */
  lemma {:induction false} ResultFromField(child: JsonNode, names: seq<string>, i: nat, res: SearchResult,
                                           categories: map<string, SearchCategory>, m: string)
    requires i <= |names| && m in ResultStringMembers
    requires ResultFrom(child, names, i, res, categories).Ok?
    ensures ResultField(ResultFrom(child, names, i, res, categories).value, m)
            == if m in names[i..] then MemberString(child, m) else ResultField(res, m)
    decreases |names| - i
  {
    if i < |names| {
      ResultMemberField(res, child, names[i], categories, m);
      var next := ApplyResultMember(res, child, names[i], categories).value;
      ResultFromField(child, names, i + 1, next, categories, m);
      assert names[i..] == [names[i]] + names[i + 1..];
    }
  }

  /**
   * A result object parses exactly when each of art, dnd_uri, title, uri and cat_id that it has
   * is a string; uri, dnd_uri, title and art are then that member's string, or "" when absent.
   */
  lemma ParseResultFields(child: JsonNode, categories: map<string, SearchCategory>)
    ensures ParseResult(child, categories).Ok? <==> MembersAreStrings(child, ResultMembers)
    ensures ParseResult(child, categories).Ok? ==> ResultReads(child, ParseResult(child, categories).value)
  {
    var names := MemberNames(child);
    assert names[0..] == names;
    ResultFromOk(child, names, 0, EmptyResult, categories);
    var r := ParseResult(child, categories);
    if r.Ok? {
      forall m | m in ResultMembers && HasNode(child, m)
        ensures GetNode(child, m).value.JString?
      {
        var k :| 0 <= k < |names| && names[k] == m;
      }
      forall m | m in ResultStringMembers
        ensures ResultField(r.value, m) == if HasNode(child, m) then MemberString(child, m) else ""
      {
        ResultFromField(child, names, 0, EmptyResult, categories, m);
      }
      ReadStringMember(child, "uri", ResultField(r.value, "uri"));
      ReadStringMember(child, "dnd_uri", ResultField(r.value, "dnd_uri"));
      ReadStringMember(child, "title", ResultField(r.value, "title"));
      ReadStringMember(child, "art", ResultField(r.value, "art"));
    }
  }

  /** other_params holds, for each unknown member, that member's own value. */
  predicate OtherParamsAreMembers(child: JsonNode, params: map<string, JsonNode>) {
    forall m :: m in params ==> m !in ResultMembers && GetNode(child, m) == Ok(params[m])
  }

  /** The unknown member names from index i on. */
  function UnknownNamesFrom(names: seq<string>, i: nat): set<string> {
    set k | i <= k < |names| && names[k] !in ResultMembers :: names[k]
  }

  lemma UnknownNamesStep(names: seq<string>, i: nat)
    requires i < |names|
    ensures UnknownNamesFrom(names, i)
         == UnknownNamesFrom(names, i + 1) + (if names[i] !in ResultMembers then {names[i]} else {})
  {}

  lemma UnknownNamesEnd(names: seq<string>)
    ensures UnknownNamesFrom(names, |names|) == {}
  {}

  /** One member keeps other_params a map of unknown members to their values, adding its own name when unknown. */
  lemma OtherParamsStep(child: JsonNode, m: string, res: SearchResult, categories: map<string, SearchCategory>)
    requires OtherParamsAreMembers(child, res.otherParams)
    requires ApplyResultMember(res, child, m, categories).Ok?
    ensures var next := ApplyResultMember(res, child, m, categories).value;
      && OtherParamsAreMembers(child, next.otherParams)
      && next.otherParams.Keys == res.otherParams.Keys + (if m !in ResultMembers then {m} else {})
  {
    var next := ApplyResultMember(res, child, m, categories).value;
    if m in ResultMembers {
      KnownMemberKeepsOtherParams(child, m, res, categories);
    } else {
      assert next.otherParams == res.otherParams[m := GetNode(child, m).value];
    }
  }

  lemma KnownMemberKeepsOtherParams(child: JsonNode, m: string, res: SearchResult, categories: map<string, SearchCategory>)
    requires m in ResultMembers && ApplyResultMember(res, child, m, categories).Ok?
    ensures ApplyResultMember(res, child, m, categories).value.otherParams == res.otherParams
  {
    assert m == "art" || m == "dnd_uri" || m == "title" || m == "uri" || m == "cat_id";
  }

  lemma {:induction false} OtherParamsFrom(child: JsonNode, names: seq<string>, i: nat, res: SearchResult,
                                           categories: map<string, SearchCategory>)
    requires i <= |names| && OtherParamsAreMembers(child, res.otherParams)
    requires ResultFrom(child, names, i, res, categories).Ok?
    ensures var r := ResultFrom(child, names, i, res, categories).value;
      && OtherParamsAreMembers(child, r.otherParams)
      && r.otherParams.Keys == res.otherParams.Keys + UnknownNamesFrom(names, i)
    decreases |names| - i
  {
    if i < |names| {
      OtherParamsStep(child, names[i], res, categories);
      var next := ApplyResultMember(res, child, names[i], categories).value;
      OtherParamsFrom(child, names, i + 1, next, categories);
      UnknownNamesStep(names, i);
    } else {
      UnknownNamesEnd(names);
    }
  }

  /** A parsed result's other_params are exactly its unknown members, each with its own value. */
  lemma OtherParamsOfResult(child: JsonNode, categories: map<string, SearchCategory>)
    requires ParseResult(child, categories).Ok?
    ensures var r := ParseResult(child, categories).value;
      && OtherParamsAreMembers(child, r.otherParams)
      && r.otherParams.Keys == (set m | m in MemberNames(child) && m !in ResultMembers)
  {
    var names := MemberNames(child);
    OtherParamsFrom(child, names, 0, EmptyResult, categories);
    assert UnknownNamesFrom(names, 0) == (set m | m in names && m !in ResultMembers) by {
      forall m | m in names && m !in ResultMembers ensures m in UnknownNamesFrom(names, 0) {
        var k :| 0 <= k < |names| && names[k] == m;
      }
    }
  }

  /**
   * As written, an unknown member is stored with the whole result object: for the result
   * {"title": "t", "price": "3"}, other_params["price"] is that object, not "3".
   */
  lemma OtherParamsAsWrittenHoldsWholeNode()
    ensures var child := JObject([("title", JString("t")), ("price", JString("3"))]);
      var r := ParseResultAsWritten(child, map[]);
      && r.Ok? && "price" in r.value.otherParams
      && r.value.otherParams["price"] == child
      && GetNode(child, "price") == Ok(JString("3"))
      && r.value.otherParams["price"] != GetNode(child, "price").value
  {
    var child := JObject([("title", JString("t")), ("price", JString("3"))]);
    var names := MemberNames(child);
    assert names == ["title", "price"];
    assert MemberIndex(child.members, "title") == Some(0);
    assert MemberIndex(child.members[1..], "price") == Some(0);
    assert MemberIndex(child.members, "price") == Some(1);
    var r1 := EmptyResult.(title := "t");
    assert ApplyResultMemberAsWritten(EmptyResult, child, "title", map[]) == Ok(r1);
    var r2 := r1.(otherParams := map["price" := child]);
    assert ApplyResultMemberAsWritten(r1, child, "price", map[]) == Ok(r2);
    assert ResultFromAsWritten(child, names, 2, r2, map[]) == Ok(r2);
    assert ResultFromAsWritten(child, names, 1, r1, map[]) == Ok(r2);
  }

  /**
   * `w` is what the source builds where the corrected parser builds `r`: the same fields and the
   * same other_params names, each name holding the whole result object.
   */
  predicate AsWrittenOf(child: JsonNode, r: SearchResult, w: SearchResult) {
    && r.(otherParams := map[]) == w.(otherParams := map[])
    && w.otherParams.Keys == r.otherParams.Keys
    && forall k :: k in w.otherParams ==> w.otherParams[k] == child
  }

  /** One member step of the two parsers keeps that correspondence, and both fail alike. */
  lemma AsWrittenMemberStep(child: JsonNode, m: string, r: SearchResult, w: SearchResult,
                            categories: map<string, SearchCategory>)
    requires AsWrittenOf(child, r, w) && HasNode(child, m)
    ensures var a := ApplyResultMember(r, child, m, categories);
      var b := ApplyResultMemberAsWritten(w, child, m, categories);
      && (a.Ok? <==> b.Ok?)
      && (a.Err? ==> a.error == b.error)
      && (a.Ok? ==> AsWrittenOf(child, a.value, b.value))
  {
    if m !in ResultMembers {
      assert GetNode(child, m).Ok?;
    }
  }

  /** The member loops of the two parsers fail alike and otherwise differ only in other_params' values. */
  lemma {:induction false} AsWrittenFrom(child: JsonNode, names: seq<string>, i: nat, r: SearchResult, w: SearchResult,
                                         categories: map<string, SearchCategory>)
    requires i <= |names| && AsWrittenOf(child, r, w)
    requires forall k :: i <= k < |names| ==> HasNode(child, names[k])
    ensures var a := ResultFrom(child, names, i, r, categories);
      var b := ResultFromAsWritten(child, names, i, w, categories);
      && (a.Ok? <==> b.Ok?)
      && (a.Err? ==> a.error == b.error)
      && (a.Ok? ==> AsWrittenOf(child, a.value, b.value))
    decreases |names| - i
  {
    if i < |names| {
      AsWrittenMemberStep(child, names[i], r, w, categories);
      var a := ApplyResultMember(r, child, names[i], categories);
      var b := ApplyResultMemberAsWritten(w, child, names[i], categories);
      if a.Ok? {
        AsWrittenFrom(child, names, i + 1, a.value, b.value, categories);
      }
    }
  }

  /**
   * The source's result parser and the corrected one succeed on the same results and fail with
   * the same error; their results differ only in other_params, which holds the same names,
   * each mapped to the whole result object as written.
   */
  lemma AsWrittenDiffersOnlyInOtherParams(child: JsonNode, categories: map<string, SearchCategory>)
    ensures var a := ParseResult(child, categories);
      var b := ParseResultAsWritten(child, categories);
      && (a.Ok? <==> b.Ok?)
      && (a.Err? ==> a.error == b.error)
      && (a.Ok? ==> AsWrittenOf(child, a.value, b.value))
  {
    AsWrittenFrom(child, MemberNames(child), 0, EmptyResult, EmptyResult, categories);
  }

  // ---------------------------------------------------------------------------------------
  // The client

  class SmartScopesClient {
    var url: string
    var port: Uint
    /** search_results_: the pending search request of each session. */
    var searchResults: map<string, PendingRequest>
    var requestsIssued: nat
    ghost var cancelled: seq<PendingRequest>

    constructor (server: Server)
      ensures url == server.url && port == server.port
      ensures searchResults == map[] && requestsIssued == 0 && cancelled == []
    {
      url, port := server.url, server.port;
      searchResults, requestsIssued := map[], 0;
      cancelled := [];
    }

    /** http_client_->get(uri, port): a new pending request, never handed out before. */
    method IssueGet(uri: string) returns (h: PendingRequest)
      modifies this
      ensures h == PendingRequest(old(requestsIssued), uri, port)
      ensures requestsIssued == old(requestsIssued) + 1
      ensures searchResults == old(searchResults) && cancelled == old(cancelled)
      ensures url == old(url) && port == old(port)
    {
      h := PendingRequest(requestsIssued, uri, port);
      requestsIssued := requestsIssued + 1;
    }

    /** cancel_search(session_id): cancels and forgets the session's request, if any; other sessions are untouched. */
    method CancelSearch(sessionId: string)
      modifies this
      ensures searchResults == old(searchResults) - {sessionId}
      ensures cancelled == old(cancelled) + (if sessionId in old(searchResults) then [old(searchResults)[sessionId]] else [])
      ensures requestsIssued == old(requestsIssued) && url == old(url) && port == old(port)
    {
      if sessionId in searchResults {
        cancelled := cancelled + [searchResults[sessionId]];
        searchResults := searchResults - {sessionId};
      }
    }

    /**
     * search(...): cancels the session's pending request, if any, then starts the request for
     * the search URI built on base_url and leaves it as the session's only pending entry.
     */
    method Search(baseUrl: string, query: string, sessionId: string, queryId: Uint, platform: string,
                  locale: string, country: string, limit: Uint, encode: string -> string)
      returns (h: SearchHandle)
      modifies this
      ensures h == SearchHandle(sessionId)
      ensures searchResults == old(searchResults)[sessionId :=
        PendingRequest(old(requestsIssued), SearchUri(baseUrl, query, sessionId, queryId, platform, locale, country, limit, encode), port)]
      ensures cancelled == old(cancelled) + (if sessionId in old(searchResults) then [old(searchResults)[sessionId]] else [])
      ensures requestsIssued == old(requestsIssued) + 1 && url == old(url) && port == old(port)
    {
      var uri := SearchUri(baseUrl, query, sessionId, queryId, platform, locale, country, limit, encode);
      CancelSearch(sessionId);
      var request := IssueGet(uri);
      searchResults := searchResults[sessionId := request];
      h := SearchHandle(sessionId);
    }

    /**
     * get_search_results(session_id): LogicException when the session has no pending request;
     * otherwise waits for its text (`responses`), forgets the request, and parses the text.
     * A failure to deliver the text leaves the request pending.
     */
    method GetSearchResults(sessionId: string, responses: PendingRequest -> Result<string>,
                            parse: string -> Result<JsonNode>)
      returns (r: Result<seq<SearchResult>>)
      modifies this
      ensures sessionId !in old(searchResults) ==>
        r == Err(LogicError("No search for session " + sessionId + " is active")) && unchanged(this)
      ensures sessionId in old(searchResults) && responses(old(searchResults)[sessionId]).Err? ==>
        r == Err(responses(old(searchResults)[sessionId]).error) && unchanged(this)
      ensures sessionId in old(searchResults) && responses(old(searchResults)[sessionId]).Ok? ==>
        && searchResults == old(searchResults) - {sessionId}
        && r == ParseSearchResponse(responses(old(searchResults)[sessionId]).value, parse)
      ensures sessionId !in searchResults || unchanged(this)
      ensures cancelled == old(cancelled) && requestsIssued == old(requestsIssued)
      ensures url == old(url) && port == old(port)
    {
      if sessionId !in searchResults {
        return Err(LogicError("No search for session " + sessionId + " is active"));
      }
      var text := responses(searchResults[sessionId]);
      if text.Err? {
        return Err(text.error);
      }
      searchResults := searchResults - {sessionId};
      var jsons := ExtractJsonStream(text.value);
      r := ReadDocuments(jsons, parse);
    }

    /**
     * get_remote_scopes(locale): requests the remote-scopes URI (`fetch` delivers the text) and
     * reads one scope per entry until the first incomplete entry.
     */
    method GetRemoteScopes(locale: string, fetch: (string, Uint) -> Result<string>,
                           parse: string -> Result<JsonNode>)
      returns (r: Result<seq<RemoteScope>>)
      ensures r == (var text :- fetch(RemoteScopesUri(url, locale), port); ParseRemoteScopes(text, parse))
    {
      var text := fetch(RemoteScopesUri(url, locale), port);
      if text.Err? {
        return Err(text.error);
      }
      var root := parse(text.value);
      if root.Err? {
        return Err(root.error);
      }
      var node := root.value;
      ghost var items := RootItems(node);
      var scopes: seq<RemoteScope> := [];
      assert Prepend(scopes, RemoteScopesFrom(items, 0)) == RemoteScopesFrom(items, 0) by {
        assert forall more: seq<RemoteScope> :: [] + more == more;
      }
      var i := 0;
      while i < Size(node)
        invariant i <= Size(node) == |items|
        invariant RemoteScopesFrom(items, 0) == Prepend(scopes, RemoteScopesFrom(items, i))
      {
        var child := GetIndex(node, i).value;
        if !CompleteScopeEntry(child) {
          break;
        }
        var scope := ParseRemoteScope(child);
        if scope.Err? {
          return Err(scope.error);
        }
        assert RemoteScopesFrom(items, i) == Prepend([scope.value], RemoteScopesFrom(items, i + 1));
        assert forall more: seq<RemoteScope> :: scopes + ([scope.value] + more) == (scopes + [scope.value]) + more;
        scopes := scopes + [scope.value];
        i := i + 1;
      }
      assert scopes + [] == scopes;
      r := Ok(scopes);
    }
  }

  /** SmartScopesClient(http_client, json_node, url, port): a client for the resolved server, or stoi's failure. */
  method CreateClient(url: string, port: Uint, env: Option<string>) returns (r: Result<SmartScopesClient>)
    ensures r.Ok? <==> ResolveServer(url, port, env).Ok?
    ensures r.Err? ==> r.error == ResolveServer(url, port, env).error
    ensures r.Ok? ==> (fresh(r.value) && r.value.searchResults == map[]
                       && Server(r.value.url, r.value.port) == ResolveServer(url, port, env).value)
  {
    var server := ResolveServer(url, port, env);
    if server.Err? {
      return Err(server.error);
    }
    var client := new SmartScopesClient(server.value);
    r := Ok(client);
  }

  /** The loop over a category object's members. */
  method ReadCategory(child: JsonNode) returns (r: Result<SearchCategory>)
    ensures r == ParseCategory(child)
    ensures r.Ok? <==> MembersAreStrings(child, CategoryMembers)
    ensures r.Ok? ==> CategoryReads(child, r.value)
  {
    var names := MemberNames(child);
    var cat := EmptyCategory;
    var i := 0;
    while i < |names|
      invariant i <= |names|
      invariant CategoryFrom(child, names, 0, EmptyCategory) == CategoryFrom(child, names, i, cat)
    {
      var next := ApplyCategoryMember(cat, child, names[i]);
      if next.Err? {
        ParseCategoryFields(child);
        return Err(next.error);
      }
      cat := next.value;
      i := i + 1;
    }
    r := Ok(cat);
    ParseCategoryFields(child);
  }

  /** The loop over a result object's members. */
  method ReadResult(child: JsonNode, categories: map<string, SearchCategory>) returns (r: Result<SearchResult>)
    ensures r == ParseResult(child, categories)
    ensures r.Ok? <==> MembersAreStrings(child, ResultMembers)
    ensures r.Ok? ==> ResultReads(child, r.value)
  {
    var names := MemberNames(child);
    var res := EmptyResult;
    var i := 0;
    while i < |names|
      invariant i <= |names|
      invariant ResultFrom(child, names, 0, EmptyResult, categories) == ResultFrom(child, names, i, res, categories)
    {
      var next := ApplyResultMember(res, child, names[i], categories);
      if next.Err? {
        ParseResultFields(child, categories);
        return Err(next.error);
      }
      res := next.value;
      i := i + 1;
    }
    r := Ok(res);
    ParseResultFields(child, categories);
  }

  /** The loop over the documents of a search response. */
  method ReadDocuments(jsons: seq<string>, parse: string -> Result<JsonNode>) returns (r: Result<seq<SearchResult>>)
    ensures r == (var st :- DocumentsFrom(jsons, 0, StreamState(map[], []), parse); Ok(st.results))
  {
    var categories: map<string, SearchCategory> := map[];
    var results: seq<SearchResult> := [];
    var i := 0;
    while i < |jsons|
      invariant i <= |jsons|
      invariant DocumentsFrom(jsons, 0, StreamState(map[], []), parse)
                == DocumentsFrom(jsons, i, StreamState(categories, results), parse)
    {
      var root := parse(jsons[i]);
      if root.Err? {
        return Err(root.error);
      }
      if HasNode(root.value, "category") {
        var cat := ReadCategory(GetNode(root.value, "category").value);
        if cat.Err? {
          return Err(cat.error);
        }
        categories := categories[cat.value.id := cat.value];
      } else if HasNode(root.value, "result") {
        var res := ReadResult(GetNode(root.value, "result").value, categories);
        if res.Err? {
          return Err(res.error);
        }
        results := results + [res.value];
      }
      i := i + 1;
    }
    r := Ok(results);
  }
}
