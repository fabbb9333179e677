/**
 * The text handling of SmartScopesClient: choosing the server's base URL and port, the
 * search and remote-scopes request URIs, and splitting a search response into its
 * "\r\n"-separated JSON documents.
 */
module SmartScopesText {
  import opened Outcomes
  import opened Texts

  const DefaultBaseUrl := "https://productsearch.ubuntu.com/smartscopes/v2"
  const RemoteScopesResource := "/remote-scopes"
  const SearchResource := "/search"

  /** An unsigned 32-bit value, the C++ `uint` of ports, query ids and limits. */
  type Uint = x: int | 0 <= x < 0x1_0000_0000

  const IntMin := -0x8000_0000
  const IntMax := 0x7FFF_FFFF

  // ---------------------------------------------------------------------------------------
  // Decimal text: std::to_string and std::stoi

  predicate IsDigit(ch: char) {
    '0' <= ch <= '9'
  }

  /** isspace in the C locale: space, and tab through carriage return. */
  predicate IsSpace(ch: char) {
    ch == ' ' || '\t' <= ch <= '\r'
  }

  predicate AllDigits(ds: string) {
    forall i :: 0 <= i < |ds| ==> IsDigit(ds[i])
  }

  function DigitChar(d: nat): (ch: char)
    requires d < 10
    ensures IsDigit(ch)
  {
    ('0' as int + d) as char
  }

  /** The number a run of decimal digits denotes. */
  function DigitsValue(ds: string): nat
    requires AllDigits(ds)
  {
    if ds == [] then 0
    else DigitsValue(ds[..|ds| - 1]) * 10 + (ds[|ds| - 1] as int - '0' as int)
  }

  /** std::to_string of an unsigned number: its digits, the value they denote being the number. */
  function DecimalString(n: nat): (r: string)
    ensures |r| > 0 && AllDigits(r)
    ensures DigitsValue(r) == n
    decreases n
  {
    if n < 10 then [DigitChar(n)]
    else
      var r := DecimalString(n / 10) + [DigitChar(n % 10)];
      assert r[..|r| - 1] == DecimalString(n / 10);
      r
  }

  /** The end of the run of characters satisfying the test from index i. */
  function SpacesEnd(s: string, i: nat): (j: nat)
    requires i <= |s|
    ensures i <= j <= |s| && (j < |s| ==> !IsSpace(s[j]))
    decreases |s| - i
  {
    if i < |s| && IsSpace(s[i]) then SpacesEnd(s, i + 1) else i
  }

  function DigitsEnd(s: string, i: nat): (j: nat)
    requires i <= |s|
    ensures i <= j <= |s| && (j < |s| ==> !IsDigit(s[j]))
    ensures forall k :: i <= k < j ==> IsDigit(s[k])
    decreases |s| - i
  {
    if i < |s| && IsDigit(s[i]) then DigitsEnd(s, i + 1) else i
  }

  /**
   * std::stoi: leading white space, an optional sign, then the longest run of digits; the
   * rest of the text is ignored. No digits is invalid_argument, a value outside int is
   * out_of_range.
   */
  function Stoi(s: string): (r: Result<int>)
    ensures r.Ok? ==> IntMin <= r.value <= IntMax
  {
    var i := SpacesEnd(s, 0);
    var negative := i < |s| && s[i] == '-';
    var k := if i < |s| && (s[i] == '-' || s[i] == '+') then i + 1 else i;
    var j := DigitsEnd(s, k);
    if j == k then Err(InvalidArgument("stoi"))
    else
      var magnitude := DigitsValue(s[k..j]);
      var v := if negative then -(magnitude as int) else magnitude as int;
      if v < IntMin || v > IntMax then Err(OutOfRange("stoi")) else Ok(v)
  }

  /** stoi reads back what to_string wrote, for every value an int holds. */
  lemma StoiDecimal(n: nat)
    requires n <= IntMax
    ensures Stoi(DecimalString(n)) == Ok(n)
  {
    var s := DecimalString(n);
    assert SpacesEnd(s, 0) == 0;
    assert DigitsEnd(s, 0) == |s|;
    assert s[0..|s|] == s;
  }

  // ---------------------------------------------------------------------------------------
  // The server: SmartScopesClient's constructor

  /** std::string::find_last_of(ch). */
  function LastIndexOf(s: string, ch: char): (r: Option<nat>)
    ensures r.Some? ==> r.value < |s| && s[r.value] == ch
    ensures r.Some? ==> forall k :: r.value < k < |s| ==> s[k] != ch
    ensures r.None? ==> ch !in s
  {
    if s == [] then None
    else if s[|s| - 1] == ch then Some(|s| - 1)
    else
      var r := LastIndexOf(s[..|s| - 1], ch);
      assert r.None? ==> ch !in s by {
        if r.None? { assert s == s[..|s| - 1] + [s[|s| - 1]]; }
      }
      r
  }

  /** find_last_of finds the occurrence with none after it. */
  lemma {:induction false} LastIndexOfIs(s: string, ch: char, k: nat)
    requires k < |s| && s[k] == ch
    requires forall m :: k < m < |s| ==> s[m] != ch
    ensures LastIndexOf(s, ch) == Some(k)
  {
    if k < |s| - 1 {
      LastIndexOfIs(s[..|s| - 1], ch, k);
    }
  }

  /** strlen("https"): a colon at or before this index belongs to the URL scheme. */
  const HierPos := 5

  datatype Server = Server(url: string, port: Uint)

  /**
   * The base URL and port the client talks to. A non-empty url argument is kept with its
   * port. Otherwise the SMART_SCOPES_SERVER environment value `env` is used: split at its
   * last ':' when that colon lies past the scheme, the text after it being read by stoi and
   * stored in the unsigned port; used whole otherwise. With no (or an empty) environment
   * value the default base URL is used.
   */
  function ResolveServer(url: string, port: Uint, env: Option<string>): (r: Result<Server>)
    ensures url != "" ==> r == Ok(Server(url, port))
    ensures url == "" && (env.None? || env == Some("")) ==> r == Ok(Server(DefaultBaseUrl, port))
  {
    if url != "" then Ok(Server(url, port))
    else
      var base := if env.Some? then env.value else "";
      if base == "" then Ok(Server(DefaultBaseUrl, port))
      else
        var found := LastIndexOf(base, ':');
        if found.Some? && found.value > HierPos then
          var v :- Stoi(base[found.value + 1..]);
          Ok(Server(base[..found.value], v % 0x1_0000_0000))
        else Ok(Server(base, port))
  }

  lemma LastColonBeforeDigits(host: string, digits: string)
    requires AllDigits(digits)
    ensures LastIndexOf(host + ":" + digits, ':') == Some(|host|)
  {
    var env := host + [':'] + digits;
    assert env == host + ":" + digits;
    forall k | |host| < k < |env| ensures env[k] != ':' {
      assert env[k] == digits[k - |host| - 1];
      assert IsDigit(env[k]);
    }
    assert env[|host|] == ':';
    LastIndexOfIs(env, ':', |host|);
  }

  /** An environment value with no ':' past the scheme is the base URL, with the port argument. */
  lemma ResolveServerWholeValue(env: string, port: Uint)
    requires env != "" && forall k :: HierPos < k < |env| ==> env[k] != ':'
    ensures ResolveServer("", port, Some(env)) == Ok(Server(env, port))
  {
    var found := LastIndexOf(env, ':');
    assert found.Some? ==> found.value <= HierPos;
  }

  /**
   * `server` is `env` split at its last ':', that colon lying past the scheme: the URL is the
   * text before it and the port is stoi of the text after it, as an unsigned 32-bit value.
   */
  predicate SplitAtLastColon(env: string, server: Server) {
    var k := |server.url|;
    && HierPos < k < |env| && env[..k] == server.url && env[k] == ':'
    && (forall m :: k < m < |env| ==> env[m] != ':')
    && Stoi(env[k + 1..]).Ok? && server.port == Stoi(env[k + 1..]).value % 0x1_0000_0000
  }

  /** An environment value that is not taken whole is split at its last ':'. */
  lemma ResolveServerSplitsAtColon(env: string, port: Uint)
    requires env != ""
    requires ResolveServer("", port, Some(env)).Ok? && ResolveServer("", port, Some(env)).value.url != env
    ensures SplitAtLastColon(env, ResolveServer("", port, Some(env)).value)
  {
    var found := LastIndexOf(env, ':');
    assert found.Some? && found.value > HierPos;
  }

  lemma PortFits(n: int)
    requires 0 <= n <= IntMax
    ensures n % 0x1_0000_0000 == n
  {}

  /** An environment value "host:port", with the host longer than the scheme, yields that host and port. */
  lemma ResolveServerSplitsPort(host: string, n: nat, port: Uint)
    requires |host| > HierPos && n <= IntMax
    ensures ResolveServer("", port, Some(host + ":" + DecimalString(n))) == Ok(Server(host, n))
  {
    var digits := DecimalString(n);
    var env := host + ":" + digits;
    LastColonBeforeDigits(host, digits);
    var found := LastIndexOf(env, ':');
    assert found == Some(|host|) && found.value > HierPos;
    assert env[..|host|] == host && env[|host| + 1..] == digits;
    StoiDecimal(n);
    assert Stoi(env[found.value + 1..]) == Ok(n);
    PortFits(n);
    assert ResolveServer("", port, Some(env)) == Ok(Server(env[..found.value], n % 0x1_0000_0000));
  }

  // ---------------------------------------------------------------------------------------
  // Request URIs

  datatype Param = Param(key: string, value: string)

  function ParamText(p: Param): string {
    p.key + "=" + p.value
  }

  /** The query part of a request: key=value pairs separated by '&'. */
  function JoinParams(ps: seq<Param>): string {
    Join(seq(|ps|, i requires 0 <= i < |ps| => ParamText(ps[i])), '&')
  }

  /** A server's reading of a query part: '&'-separated segments, each split at its first '='. */
  function SplitParams(query: string): seq<Param> {
    var segs := Split(query, '&');
    seq(|segs|, i requires 0 <= i < |segs| =>
      var eq := IndexOf(segs[i], '=', 0);
      if eq == |segs[i]| then Param(segs[i], "") else Param(segs[i][..eq], segs[i][eq + 1..]))
  }

  /** A query part whose keys hold no '=' and whose keys and values hold no '&' reads back as written. */
  lemma SplitJoinParams(ps: seq<Param>)
    requires PlainParams(ps)
    ensures SplitParams(JoinParams(ps)) == ps
  {
    var segs := seq(|ps|, i requires 0 <= i < |ps| => ParamText(ps[i]));
    forall i | 0 <= i < |ps| ensures segs[i] != "" && '&' !in segs[i] {
      assert segs[i][|ps[i].key|] == '=';
      assert forall m :: 0 <= m < |segs[i]| && m != |ps[i].key| ==>
        segs[i][m] == (if m < |ps[i].key| then ps[i].key[m] else ps[i].value[m - |ps[i].key| - 1]);
    }
    SplitJoin(segs, '&');
    forall i | 0 <= i < |ps| ensures SplitParams(JoinParams(ps))[i] == ps[i] {
      IndexOfFirst(segs[i], '=', 0, |ps[i].key|);
      assert segs[i][..|ps[i].key|] == ps[i].key && segs[i][|ps[i].key| + 1..] == ps[i].value;
    }
  }

  /** Quoted, as the search request writes its string values. */
  function Quoted(s: string): string {
    "\"" + s + "\""
  }

  function Keys(ps: seq<Param>): seq<string> {
    if ps == [] then [] else [ps[0].key] + Keys(ps[1..])
  }

  /** The optional search parameters: locale, country and limit, each only when non-empty or non-zero. */
  function OptionalSearchParams(locale: string, country: string, limit: Uint): (ps: seq<Param>)
    ensures Keys(ps) == (if locale != "" then ["locale"] else [])
                        + (if country != "" then ["country"] else [])
                        + (if limit != 0 then ["limit"] else [])
    ensures forall i :: 0 <= i < |ps| ==>
      ps[i] in [Param("locale", locale), Param("country", country), Param("limit", DecimalString(limit))]
  {
    var l := if locale != "" then [Param("locale", locale)] else [];
    var c := if country != "" then [Param("country", country)] else [];
    var n := if limit != 0 then [Param("limit", DecimalString(limit))] else [];
    assert forall x: Param :: Keys([x]) == [x.key] by {
      forall x: Param ensures Keys([x]) == [x.key] { assert [x][1..] == []; }
    }
    assert Keys(l + c + n) == Keys(l) + Keys(c) + Keys(n) by {
      KeysAppend(l, c);
      KeysAppend(l + c, n);
    }
    l + c + n
  }

  lemma {:induction false} KeysAppend(a: seq<Param>, b: seq<Param>)
    ensures Keys(a + b) == Keys(a) + Keys(b)
  {
    if a != [] {
      assert (a + b)[0] == a[0] && (a + b)[1..] == a[1..] + b;
      assert Keys(a + b) == [a[0].key] + Keys(a[1..] + b);
      assert Keys(a) == [a[0].key] + Keys(a[1..]);
      KeysAppend(a[1..], b);
    } else {
      assert a + b == b;
    }
  }

  /**
   * The parameters of a search request: q (percent-encoded by `encode` and quoted),
   * session_id, query_id and platform always and in that order, then the optional ones.
   */
  function SearchParams(query: string, sessionId: string, queryId: Uint, platform: string,
                        locale: string, country: string, limit: Uint,
                        encode: string -> string): (ps: seq<Param>)
    ensures |ps| >= 4
    ensures ps[0] == Param("q", Quoted(encode(query))) && ps[1] == Param("session_id", Quoted(sessionId))
    ensures ps[2] == Param("query_id", DecimalString(queryId)) && ps[3] == Param("platform", Quoted(platform))
    ensures ps[4..] == OptionalSearchParams(locale, country, limit)
  {
    [Param("q", Quoted(encode(query))),
     Param("session_id", Quoted(sessionId)),
     Param("query_id", DecimalString(queryId)),
     Param("platform", Quoted(platform))]
    + OptionalSearchParams(locale, country, limit)
  }

  lemma QuotedKeepsOut(s: string, ch: char)
    requires ch != '"' && ch !in s
    ensures ch !in Quoted(s)
  {
    var q := Quoted(s);
    assert forall k :: 0 < k < |q| - 1 ==> q[k] == s[k - 1];
  }

  lemma DecimalKeepsOut(n: nat, ch: char)
    requires !IsDigit(ch)
    ensures ch !in DecimalString(n)
  {
  }

  /** search(): the URI of the search request for base_url. */
  function SearchUri(baseUrl: string, query: string, sessionId: string, queryId: Uint, platform: string,
                     locale: string, country: string, limit: Uint, encode: string -> string): (uri: string)
    ensures var head := baseUrl + SearchResource + "?";
      |head| <= |uri| && uri[..|head|] == head
  {
    baseUrl + SearchResource + "?" + JoinParams(SearchParams(query, sessionId, queryId, platform, locale, country, limit, encode))
  }

  /** A parameter whose key holds no '=' and whose key and value hold no '&'. */
  predicate PlainParam(p: Param) {
    '=' !in p.key && '&' !in p.key && '&' !in p.value
  }

  predicate PlainParams(ps: seq<Param>) {
    forall i :: 0 <= i < |ps| ==> PlainParam(ps[i])
  }

  lemma OptionalParamsPlain(locale: string, country: string, limit: Uint)
    requires '&' !in locale && '&' !in country
    ensures PlainParams(OptionalSearchParams(locale, country, limit))
  {
    DecimalKeepsOut(limit, '&');
    assert PlainParam(Param("locale", locale));
    assert PlainParam(Param("country", country));
    assert PlainParam(Param("limit", DecimalString(limit)));
  }

  lemma PlainParamsAppend(a: seq<Param>, b: seq<Param>)
    requires PlainParams(a) && PlainParams(b)
    ensures PlainParams(a + b)
  {
    forall i | 0 <= i < |a + b| ensures PlainParam((a + b)[i]) {
      if i >= |a| { assert (a + b)[i] == b[i - |a|]; }
    }
  }

  lemma QuotedParamPlain(key: string, value: string)
    requires '=' !in key && '&' !in key && '&' !in value
    ensures PlainParam(Param(key, Quoted(value)))
  {
    QuotedKeepsOut(value, '&');
  }

  lemma FixedParamsPlain(q: string, sessionId: string, queryId: Uint, platform: string)
    requires '&' !in q && '&' !in sessionId && '&' !in platform
    ensures PlainParams([Param("q", Quoted(q)), Param("session_id", Quoted(sessionId)),
                         Param("query_id", DecimalString(queryId)), Param("platform", Quoted(platform))])
  {
    QuotedParamPlain("q", q);
    QuotedParamPlain("session_id", sessionId);
    QuotedParamPlain("platform", platform);
    DecimalKeepsOut(queryId, '&');
    assert PlainParam(Param("query_id", DecimalString(queryId)));
  }

  lemma SearchParamsPlain(query: string, sessionId: string, queryId: Uint, platform: string,
                          locale: string, country: string, limit: Uint, encode: string -> string)
    requires '&' !in encode(query) && '&' !in sessionId && '&' !in platform
    requires '&' !in locale && '&' !in country
    ensures PlainParams(SearchParams(query, sessionId, queryId, platform, locale, country, limit, encode))
  {
    var fixed := [Param("q", Quoted(encode(query))),
                  Param("session_id", Quoted(sessionId)),
                  Param("query_id", DecimalString(queryId)),
                  Param("platform", Quoted(platform))];
    FixedParamsPlain(encode(query), sessionId, queryId, platform);
    OptionalParamsPlain(locale, country, limit);
    PlainParamsAppend(fixed, OptionalSearchParams(locale, country, limit));
  }

  /**
   * The server reads back every search parameter, provided the values written unencoded
   * (session id, platform, locale, country) and the encoded query hold no '&'.
   */
  lemma SearchUriReadsBack(baseUrl: string, query: string, sessionId: string, queryId: Uint, platform: string,
                           locale: string, country: string, limit: Uint, encode: string -> string)
    requires '&' !in encode(query) && '&' !in sessionId && '&' !in platform
    requires '&' !in locale && '&' !in country
    ensures var uri := SearchUri(baseUrl, query, sessionId, queryId, platform, locale, country, limit, encode);
      var head := baseUrl + SearchResource + "?";
      SplitParams(uri[|head|..]) == SearchParams(query, sessionId, queryId, platform, locale, country, limit, encode)
  {
    var ps := SearchParams(query, sessionId, queryId, platform, locale, country, limit, encode);
    SearchParamsPlain(query, sessionId, queryId, platform, locale, country, limit, encode);
    SplitJoinParams(ps);
    var head := baseUrl + SearchResource + "?";
    assert SearchUri(baseUrl, query, sessionId, queryId, platform, locale, country, limit, encode)[|head|..] == JoinParams(ps);
  }

  /** get_remote_scopes(): the URI of the remote-scopes request, with the locale only when one is given. */
  function RemoteScopesUri(url: string, locale: string): (uri: string)
    ensures locale == "" ==> uri == url + RemoteScopesResource + "?"
    ensures locale != "" ==> uri == url + RemoteScopesResource + "?" + "&locale=" + Quoted(locale)
  {
    url + RemoteScopesResource + "?" + (if locale != "" then "&locale=" + Quoted(locale) else "")
  }

  // ---------------------------------------------------------------------------------------
  // extract_json_stream

  const Crlf := "\r\n"

  predicate CrlfAt(s: string, k: int) {
    0 <= k && k + 1 < |s| && s[k] == '\r' && s[k + 1] == '\n'
  }

  predicate HasCrlf(s: string) {
    exists k :: 0 <= k < |s| && CrlfAt(s, k)
  }

  /** std::string::find("\r\n", from), with |s| standing for npos. */
  function FindCrlf(s: string, from: nat): (r: nat)
    requires from <= |s|
    ensures from <= r <= |s|
    ensures r < |s| ==> CrlfAt(s, r)
    ensures forall k :: from <= k < r ==> !CrlfAt(s, k)
    decreases |s| - from
  {
    if from == |s| then |s|
    else if CrlfAt(s, from) then from
    else FindCrlf(s, from + 1)
  }

  /** The pieces extract_json_stream collects from `start` on. */
  function JsonPieces(s: string, start: nat): (r: seq<string>)
    decreases |s| - start
  {
    if start >= |s| then []
    else
      var e := FindCrlf(s, start);
      [s[start..e]] + JsonPieces(s, e + 2)
  }

  function JoinCrlf(ps: seq<string>): string {
    if |ps| == 0 then ""
    else if |ps| == 1 then ps[0]
    else ps[0] + Crlf + JoinCrlf(ps[1..])
  }

  /** The text with one trailing "\r\n" removed, if it has one. */
  function DropTrailingCrlf(s: string): string {
    if CrlfAt(s, |s| - 2) then s[..|s| - 2] else s
  }

  /** No piece holds the separator. */
  lemma {:induction false} JsonPiecesHaveNoCrlf(s: string, start: nat)
    ensures forall i :: 0 <= i < |JsonPieces(s, start)| ==> !HasCrlf(JsonPieces(s, start)[i])
    decreases |s| - start
  {
    if start < |s| {
      var e := FindCrlf(s, start);
      var piece := s[start..e];
      if HasCrlf(piece) {
        var k :| 0 <= k < |piece| && CrlfAt(piece, k);
        assert CrlfAt(s, start + k);
        assert false;
      }
      JsonPiecesHaveNoCrlf(s, e + 2);
    }
  }

  /** A text without the separator loses nothing. */
  lemma DropTrailingCrlfAbsent(t: string)
    requires forall k :: 0 <= k ==> !CrlfAt(t, k)
    ensures DropTrailingCrlf(t) == t
  {
    if |t| >= 2 {
      assert !CrlfAt(t, |t| - 2);
    }
  }

  lemma DropTrailingCrlfLast(a: string)
    ensures DropTrailingCrlf(a + Crlf) == a
  {
    var t := a + Crlf;
    assert CrlfAt(t, |t| - 2) && t[..|t| - 2] == a;
  }

  /** Dropping a trailing separator only touches the last part of the text. */
  lemma DropTrailingCrlfCons(a: string, tail: string)
    requires tail != ""
    ensures DropTrailingCrlf(a + Crlf + tail) == a + Crlf + DropTrailingCrlf(tail)
  {
    var t := a + Crlf + tail;
    if |tail| >= 2 {
      assert t[|t| - 2] == tail[|tail| - 2] && t[|t| - 1] == tail[|tail| - 1];
      if CrlfAt(tail, |tail| - 2) {
        assert t[..|t| - 2] == a + Crlf + tail[..|tail| - 2];
      }
    } else {
      assert t[|t| - 2] == '\n';
    }
  }

  /** Joining the pieces from `start` with "\r\n" rebuilds the rest of the text, minus one trailing "\r\n". */
  predicate RebuildsFrom(s: string, start: nat)
    requires start <= |s|
  {
    JoinCrlf(JsonPieces(s, start)) == DropTrailingCrlf(s[start..])
  }

  lemma RebuildsAtEnd(s: string)
    ensures RebuildsFrom(s, |s|)
  {}

  /** The last piece, when no separator follows `start`, is the whole rest of the text. */
  lemma LastJsonPiece(s: string, start: nat)
    requires start < |s| && FindCrlf(s, start) == |s|
    ensures RebuildsFrom(s, start)
  {
    var rest := s[start..];
    assert s[start..|s|] == rest;
    assert JsonPieces(s, |s| + 2) == [];
    assert JsonPieces(s, start) == [rest];
    forall k | 0 <= k ensures !CrlfAt(rest, k) {
      assert CrlfAt(rest, k) ==> CrlfAt(s, start + k);
    }
    DropTrailingCrlfAbsent(rest);
  }

  /** A piece ended by a separator that closes the text. */
  lemma FinalJsonPiece(s: string, start: nat)
    requires start < |s| && FindCrlf(s, start) + 2 == |s|
    ensures RebuildsFrom(s, start)
  {
    var e := FindCrlf(s, start);
    assert JsonPieces(s, e + 2) == [];
    assert JsonPieces(s, start) == [s[start..e]];
    assert s[start..] == s[start..e] + Crlf;
    DropTrailingCrlfLast(s[start..e]);
  }

  /** A piece ended by a separator with more text after it: the join. */
  lemma InnerJsonPieceJoin(s: string, start: nat)
    requires start < |s| && FindCrlf(s, start) + 2 < |s|
    ensures var e := FindCrlf(s, start);
      JoinCrlf(JsonPieces(s, start)) == s[start..e] + Crlf + JoinCrlf(JsonPieces(s, e + 2))
  {
    var e := FindCrlf(s, start);
    var later := JsonPieces(s, e + 2);
    assert later != [];
    assert JsonPieces(s, start) == [s[start..e]] + later;
  }

  /** A piece ended by a separator with more text after it: the text. */
  lemma InnerJsonPieceText(s: string, start: nat)
    requires start < |s| && FindCrlf(s, start) + 2 < |s|
    ensures var e := FindCrlf(s, start);
      DropTrailingCrlf(s[start..]) == s[start..e] + Crlf + DropTrailingCrlf(s[e + 2..])
  {
    var e := FindCrlf(s, start);
    assert s[start..] == s[start..e] + Crlf + s[e + 2..];
    DropTrailingCrlfCons(s[start..e], s[e + 2..]);
  }

  /** The text from `start` is rebuilt when the text after its first piece is. */
  lemma RebuildsOne(s: string, start: nat)
    requires start < |s|
    requires FindCrlf(s, start) + 2 < |s| ==> RebuildsFrom(s, FindCrlf(s, start) + 2)
    ensures RebuildsFrom(s, start)
  {
    var e := FindCrlf(s, start);
    if e == |s| {
      LastJsonPiece(s, start);
    } else if e + 2 == |s| {
      FinalJsonPiece(s, start);
    } else {
      InnerJsonPieceJoin(s, start);
      InnerJsonPieceText(s, start);
    }
  }

  /** The text from `start` is rebuilt when the text after its first piece is. */
  lemma RebuildsAny(s: string, start: nat)
    requires start <= |s|
    requires start < |s| && FindCrlf(s, start) + 2 < |s| ==> RebuildsFrom(s, FindCrlf(s, start) + 2)
    ensures RebuildsFrom(s, start)
  {
    if start == |s| {
      RebuildsAtEnd(s);
    } else {
      RebuildsOne(s, start);
    }
  }

  /** Joining all the pieces from `start` with "\r\n" rebuilds the rest of the text, minus one trailing "\r\n". */
  lemma {:induction false} JoinJsonPieces(s: string, start: nat)
    requires start <= |s|
    ensures RebuildsFrom(s, start)
    decreases |s| - start
  {
    if start < |s| && FindCrlf(s, start) + 2 < |s| {
      JoinJsonPieces(s, FindCrlf(s, start) + 2);
    }
    RebuildsAny(s, start);
  }

  /**
   * extract_json_stream: the documents of a response, one per "\r\n"-terminated (or final)
   * line. Empty text gives no document, no document holds "\r\n", and joining the documents
   * with "\r\n" gives back the text minus one trailing "\r\n".
   */
  method ExtractJsonStream(stream: string) returns (jsons: seq<string>)
    ensures jsons == JsonPieces(stream, 0)
    ensures stream == "" <==> jsons == []
    ensures forall i :: 0 <= i < |jsons| ==> !HasCrlf(jsons[i])
    ensures JoinCrlf(jsons) == DropTrailingCrlf(stream)
  {
    jsons := [];
    var start := 0;
    while start < |stream|
      invariant start <= |stream| + 2
      invariant jsons + JsonPieces(stream, start) == JsonPieces(stream, 0)
      invariant start > 0 ==> jsons != []
      decreases |stream| + 2 - start
    {
      var e := FindCrlf(stream, start);
      jsons := jsons + [stream[start..e]];
      start := e + 2;
    }
    JsonPiecesHaveNoCrlf(stream, 0);
    JoinJsonPieces(stream, 0);
    assert stream[0..] == stream;
  }
}
