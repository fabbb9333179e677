# unity-scopes-api core, in Dafny

This project models five pieces of the Unity scopes runtime and proves properties of them.

- **RegistryObject.** This is the registry's map from scope id to `ScopeMetadata`, with the launch recipe (`ScopeExecData`) of each local scope. It tracks which scope processes the registry has started:
  - `add_local_scope`, `remove_local_scope`, `get_metadata`, `list`, `locate`, `is_scope_process_running` and `set_remote_registry`;
  - the earlier `RegistryObject` with `find`, `list`, `add` and `remove`;
  - the replies its servant `RegistryI` builds: `find_` and `list_`.
- **ScopeMetadataImpl.** The metadata of one scope: three mandatory strings, a proxy, and four optional strings.
  - It has setters, getters, copy semantics, and `serialize` / `deserialize` to a `VariantMap`.
- **ConnectionPool.** The per-thread cache of outgoing sockets, indexed by endpoint and filled lazily.
- **CannedQueryImpl.** A query value with two codecs:
  - a `VariantMap` codec;
  - a `scope://<id>?q=..&dep=..&filters=..&data=..` URI printer (`to_uri`) and parser (`from_uri`).
- **SmartScopesClient.**
  - How the server URL and port are chosen.
  - The search and remote-scopes request URIs.
  - The table of pending search requests per session.
  - Splitting a search response into its `"\r\n"`-separated JSON documents.
  - Reading remote scopes, categories and results out of the JSON trees.

**Objects are classes.** Objects whose methods update fields in place are Dafny classes: both `RegistryObject`s, `ScopeMetadataImpl`, `ConnectionPool`, `CannedQueryImpl` and `SmartScopesClient`. Their methods are proved against value-level functions such as `DeserializeMetadata`, `ParseUri`, `ParseSearchResponse` and `JsonPieces`. The round trips, invariants and error cases are lemmas about those functions.

**Loops are methods.** Loops in the source are methods with loop invariants:
- `from_uri`'s segment loop;
- `extract_json_stream`;
- the member loops of `get_search_results`, which store each unknown result member with its own value (the corrected line 305; see "## Findings");
- `get_remote_scopes`.

**Parameters stand for what is outside the model.** These are:
- the HTTP client;
- the JSON reader;
- `getenv("SMART_SCOPES_SERVER")`;
- percent-encoding;
- JSON text and `FilterState` (de)serialisation;
- process launch;
- the remote registry.

They appear as parameters or function values. The round-trip lemmas of `CannedQueryImpl` assume only the laws that `CannedQueries.Lawful` lists. For example, decoding undoes percent-encoding, and an encoded string holds no `&` or `?`.

Exceptions are the `Err` arm of a `Result`, with the exception kind and, where the source shows it, the message. Integers are unbounded; the one conversion that narrows a value is written out: the `int` from `std::stoi` stored in the `uint` port (`% 0x1_0000_0000`).

**Where the declarations and the behaviour disagree, the model follows the behaviour:**
- **Registry.**
  - The header of the later `RegistryObject` declares a two-argument `add_local_scope`. The registry tests call `add_local_scope(id, metadata, exec_data)` and `is_scope_process_running(id)`. The model follows the tests.
  - `RegistryObject.cpp` is not part of this model, and the tests do not fix everything. Two behaviours are chosen here:
    - adding an id that is already present (`Registry.RegistryObject.AddLocalScope`, `ApiRegistry.RegistryObject.Add`) returns false, keeps the original entry and changes nothing;
    - the messages are chosen for `Locate`'s InvalidArgument on an empty id, its NotFound and its RegistryError, and for `GetMetadata`'s NotFound. The tests show only the messages of the registry proxy. The error kinds follow the tests.
  - `ScopeExecData` carries the fields the tests fill in.
- **ScopeMetadataImpl.** The header is the source of the metadata fields: `scope_name`, no author and no scope directory.
  - `ScopeMetadataImpl.cpp` is not part of this model. So the map keys of `serialize` are the field names, and the error texts of `deserialize` and of the getters of unset attributes are chosen here.
  - `ScopeMetadataImpl.h:58-65` declares setters and copy assignment, and the model has them too.
- **ConnectionPool.** `ConnectionPool.cpp` is not part of this model. The header declares `register_socket` (`ConnectionPool.h:58`) but not what it does for an endpoint already cached. The model chooses to keep the cached entry.
- **Percent-decoding.** `from_percent_encoding` is not part of this model. `CannedQueries.UndecodableScopeId` gives the kind of its error, InvalidArgument; the message text is chosen here.

## Model

| member | source | states |
|---|---|---|
| Registry.RegistryObject.constructor | include/unity/scopes/internal/RegistryObject.h:50 | A new registry has no scopes, no exec data, nothing running, no remote registry and has started no process |
| Registry.RegistryObject.GetMetadata | test/gtest/scopes/internal/zmq_middleware/RegistryI/RegistryI_test.cpp:205-226 | Succeeds exactly for a registered non-empty id; the empty id is InvalidArgument; an unknown id is NotFound carrying that id |
| Registry.RegistryObject.List | test/gtest/scopes/internal/zmq_middleware/RegistryI/RegistryI_test.cpp:115-130 | Every listed entry is what get_metadata answers for its id, and every id not listed is not found |
| Registry.RegistryObject.IsScopeProcessRunning | test/gtest/scopes/internal/zmq_middleware/RegistryI/RegistryI_test.cpp:414-418 | Only a registered scope can be running |
| Registry.RegistryObject.AddLocalScope | test/gtest/scopes/internal/zmq_middleware/RegistryI/RegistryI_test.cpp:154-160 | Empty id: InvalidArgument and no change. Id already present: false and no change. Fresh id: true; the scope and its exec data are added, list grows by one, get_metadata returns the added metadata, and the scope is not running |
| Registry.RegistryObject.RemoveLocalScope | test/gtest/scopes/internal/zmq_middleware/RegistryI/RegistryI_test.cpp:162-165 | Empty id: InvalidArgument and no change. Absent id: false and no change. Present id: true; the id leaves scopes, exec data and the running set, list shrinks by one, and get_metadata answers NotFound |
| Registry.RegistryObject.SetRemoteRegistry | include/unity/scopes/internal/RegistryObject.h:61 | The remote registry is set and nothing else changes |
| Registry.RegistryObject.Locate | test/gtest/scopes/internal/zmq_middleware/RegistryI/RegistryI_test.cpp:424-448 | Returns the proxy stored in the scope's metadata and marks the scope running. A running scope is not started again; a stopped one is started exactly once, or fails with RegistryError when its launch fails. An unknown id is NotFound, or is answered by the remote registry when one is set. The maps never change |
| Registry.LocateRepeatedly | test/gtest/scopes/internal/zmq_middleware/RegistryI/RegistryI_test.cpp:440-448 | Any number of locates of a running scope return its proxy and start no process |
| Registry.RegistryOfTwo | test/gtest/scopes/internal/zmq_middleware/RegistryI/RegistryI_test.cpp:393-422 | After adding two scopes to a new registry, both are registered with their proxies, none is running and no process was started |
| Registry.LocateBoth | test/gtest/scopes/internal/zmq_middleware/RegistryI/RegistryI_test.cpp:424-448 | Locating two stopped scopes returns each one's proxy and starts two processes; a thousand more locates of one of them return its proxy and start none |
| ApiRegistry.RegistryObject.constructor | include/scopes/internal/RegistryObject.h:46 | A new registry holds no scope |
| ApiRegistry.RegistryObject.Find | include/scopes/internal/RegistryObject.h:50 | The stored metadata for a present name; NotFound carrying the name for an absent one |
| ApiRegistry.RegistryObject.List | include/scopes/internal/RegistryObject.h:52 | Every listed entry is what find answers for its name; a name not listed is not found |
| ApiRegistry.RegistryObject.Add | include/scopes/internal/RegistryObject.h:54 | True iff the name was absent, in which case it maps to the new metadata; otherwise false and the original is kept |
| ApiRegistry.RegistryObject.Remove | include/scopes/internal/RegistryObject.h:55 | True iff the name was present; afterwards it is absent and every other entry is kept |
| ApiRegistry.SortedKeys | src/internal/zmq_middleware/RegistryI.cpp:112 | The map's keys in iteration order: as many as the map has, exactly its keys, strictly ascending in character order |
| ApiRegistry.FindReply | src/internal/zmq_middleware/RegistryI.cpp:80-101 | SUCCESS exactly for a present name, with a dictionary that deserialises back to the stored metadata when its proxy is set; otherwise USER_EXCEPTION carrying the name |
| ApiRegistry.ListReply | src/internal/zmq_middleware/RegistryI.cpp:103-118 | As many entries as list() has; the i-th is the serialised metadata of the i-th key in key order |
| ScopeMetadata.SerializeMetadata | include/scopes/internal/ScopeMetadataImpl.h:67 | The serialised map has the mandatory keys, the proxy key once a proxy is set, and the key of each optional attribute exactly when it is set |
| ScopeMetadata.SerializedEntries | include/scopes/internal/ScopeMetadataImpl.h:67 | Each key of the serialised map holds its own field's value |
| ScopeMetadata.DeserializeMetadata | include/scopes/internal/ScopeMetadataImpl.h:68 | A missing mandatory attribute is an error; on success the proxy is set and each optional attribute is set exactly when its key is present. The mandatory strings, the proxy and each present optional attribute are then the values under their keys |
| ScopeMetadata.DeserializeSerialize | include/scopes/internal/ScopeMetadataImpl.h:67-68 | deserialize(serialize(m)) == m for every metadata with a proxy, whichever optional attributes are set |
| ScopeMetadata.ScopeMetadataImpl.constructor | include/scopes/internal/ScopeMetadataImpl.h:42 | A new object has empty strings, no proxy and no optional attribute |
| ScopeMetadata.ScopeMetadataImpl.Copy | include/scopes/internal/ScopeMetadataImpl.h:44 | The copy holds the same value |
| ScopeMetadata.ScopeMetadataImpl.Assign | include/scopes/internal/ScopeMetadataImpl.h:46 | This object takes the other's value; the other is not changed |
| ScopeMetadata.ScopeMetadataImpl.Proxy | include/scopes/internal/ScopeMetadataImpl.h:50 | The proxy when one is set, an error otherwise |
| ScopeMetadata.ScopeMetadataImpl.OptionalAttribute | include/scopes/internal/ScopeMetadataImpl.h:53-56 | An optional getter succeeds exactly when the attribute is set, with its value; otherwise NotFound naming the attribute |
| ScopeMetadata.ScopeMetadataImpl.SetScopeName | include/scopes/internal/ScopeMetadataImpl.h:58 | Only the scope name changes, to the given value |
| ScopeMetadata.ScopeMetadataImpl.SetProxy | include/scopes/internal/ScopeMetadataImpl.h:59 | Only the proxy changes, to the given one |
| ScopeMetadata.ScopeMetadataImpl.SetDisplayName | include/scopes/internal/ScopeMetadataImpl.h:60 | Only the display name changes |
| ScopeMetadata.ScopeMetadataImpl.SetDescription | include/scopes/internal/ScopeMetadataImpl.h:61 | Only the description changes |
| ScopeMetadata.ScopeMetadataImpl.SetArt | include/scopes/internal/ScopeMetadataImpl.h:62 | Only art changes, and the art getter then returns the value |
| ScopeMetadata.ScopeMetadataImpl.SetIcon | include/scopes/internal/ScopeMetadataImpl.h:63 | Only icon changes, and the icon getter then returns the value |
| ScopeMetadata.ScopeMetadataImpl.SetSearchHint | include/scopes/internal/ScopeMetadataImpl.h:64 | Only the search hint changes, and its getter then returns the value |
| ScopeMetadata.ScopeMetadataImpl.SetHotKey | include/scopes/internal/ScopeMetadataImpl.h:65 | Only the hot key changes, and its getter then returns the value |
| ScopeMetadata.ScopeMetadataImpl.Serialize | include/scopes/internal/ScopeMetadataImpl.h:67 | The map has the present keys, and once a proxy is set it deserialises back to this object's value |
| ScopeMetadata.ScopeMetadataImpl.Deserialize | include/scopes/internal/ScopeMetadataImpl.h:68 | Overwrites every field with the deserialised value, or fails with deserialize's error and changes nothing |
| ScopeMetadata.FromVariantMap | include/scopes/internal/ScopeMetadataImpl.h:43 | A new object holding the deserialised value, or deserialize's failure |
| ScopeMetadata.CopyThenSetArt | include/scopes/internal/ScopeMetadataImpl.h:44 | Copies are independent: setting art on a copy leaves the original unchanged |
| ZmqConnectionPool.ConnectionPool.constructor | include/unity/scopes/internal/zmq_middleware/ConnectionPool.h:54 | A new pool is empty, has created no connection, and keeps the invariant that distinct endpoints hold distinct sockets |
| ZmqConnectionPool.ConnectionPool.CreateConnection | include/unity/scopes/internal/zmq_middleware/ConnectionPool.h:63 | A newly allocated socket connected to the endpoint; the cache is unchanged |
| ZmqConnectionPool.ConnectionPool.Find | include/unity/scopes/internal/zmq_middleware/ConnectionPool.h:56 | A cached endpoint gives its socket and creates nothing. An uncached one gets exactly one new socket for that endpoint, cached under it. Every other endpoint's entry is unchanged, and no two endpoints share a socket |
| ZmqConnectionPool.ConnectionPool.Remove | include/unity/scopes/internal/zmq_middleware/ConnectionPool.h:57 | Evicts exactly that endpoint and keeps the invariant |
| ZmqConnectionPool.ConnectionPool.RegisterSocket | include/unity/scopes/internal/zmq_middleware/ConnectionPool.h:58 | The socket, passed by value, is none the pool holds. An uncached endpoint then maps to it; a cached one keeps its entry; nothing else changes, and no two endpoints share a socket |
| ZmqConnectionPool.RemoveThenFind | include/unity/scopes/internal/zmq_middleware/ConnectionPool.h:56-57 | After remove, the next find of the endpoint yields a new socket for it, different from the evicted one |
| CannedQueries.CannedQueryImpl.constructor | src/scopes/internal/CannedQueryImpl.cpp:48-57 | The query holds the given scope id, query string and department, default filters and no data |
| CannedQueries.CannedQueryImpl.Copy | src/scopes/internal/CannedQueryImpl.cpp:59-69 | The copy holds the same value, data included when set |
| CannedQueries.CannedQueryImpl.SetDepartmentId | src/scopes/internal/CannedQueryImpl.cpp:110-113 | Only the department changes |
| CannedQueries.CannedQueryImpl.SetQueryString | src/scopes/internal/CannedQueryImpl.cpp:115-118 | Only the query string changes |
| CannedQueries.CannedQueryImpl.SetFilterState | src/scopes/internal/CannedQueryImpl.cpp:120-123 | Only the filter state changes |
| CannedQueries.CannedQueryImpl.SetData | src/scopes/internal/CannedQueryImpl.cpp:145-148 | Only the data changes; has_data() then holds and data() returns the value |
| CannedQueries.CannedQueryImpl.Data | src/scopes/internal/CannedQueryImpl.cpp:155-162 | Succeeds exactly when has_data(), with the data; otherwise LogicException |
| CannedQueries.NewCannedQuery | src/scopes/internal/CannedQueryImpl.cpp:48-57 | InvalidArgument exactly for an empty scope id; otherwise a new query with the given fields and no data |
| CannedQueries.Serialize | src/scopes/internal/CannedQueryImpl.cpp:164-176 | Always the keys scope, query_string, department_id and filter_state; "data" exactly when data is set. Each key holds its own field: the three strings, the serialised filter state and the data |
| CannedQueries.FromVariantMap | src/scopes/internal/CannedQueryImpl.cpp:71-108 | Succeeds exactly when scope is a non-empty string, filter_state a dictionary, and department_id and query_string, when present, strings. The scope id, filter state (deserialised), department, query string and data are then the map's values. A missing scope, an empty scope and a missing filter_state are the three InvalidArguments, with their messages. On success: the scope id is non-empty, filter_state is present, data is set iff "data" is present, and a missing department or query string is empty |
| CannedQueries.FromVariantMapSerialize | src/scopes/internal/CannedQueryImpl.cpp:164-176 | Reading a serialised query back reproduces it |
| CannedQueries.CreateFromVariantMap | src/scopes/internal/CannedQueryImpl.cpp:204-207 | A new object holding what the VariantMap constructor reads, or its failure |
| CannedQueries.ToUri | src/scopes/internal/CannedQueryImpl.cpp:178-202 | The URI starts with the schema, the scope id as it is, and "?q=" with the encoded query string |
| CannedQueries.ToUriEncoded | src/scopes/internal/CannedQueryImpl.cpp:178-202 | The same URI with the scope id percent-encoded |
| CannedQueries.DecodeOrThrow | src/scopes/internal/CannedQueryImpl.cpp:209-221 | The decoded value, or InvalidArgument naming the key and the URI when decoding fails |
| CannedQueries.ApplySegment | src/scopes/internal/CannedQueryImpl.cpp:209-288 | A segment without '=' or with an unknown key changes nothing. A known key whose value does not decode is the InvalidArgument naming the key and the URI. "filters" or "data" whose decoded text is not JSON fails with the reader's error, and "filters" whose JSON is not a dictionary is the invalid-filters InvalidArgument. No segment changes the scope id |
| CannedQueries.ApplySegments | src/scopes/internal/CannedQueryImpl.cpp:249-289 | The segment loop never changes the scope id |
| CannedQueries.ParseUri | src/scopes/internal/CannedQueryImpl.cpp:223-293 | A wrong schema and an empty scope id are the two InvalidArguments; a parsed query has a non-empty scope id |
| CannedQueries.SegmentErrorIsUriError | src/scopes/internal/CannedQueryImpl.cpp:245-290 | In a URI with a valid scope id, the error of the first segment that fails is the error of from_uri |
| CannedQueries.UndecodableQueryFailsUri | src/scopes/internal/CannedQueryImpl.cpp:257-260 | A "q" value that does not decode makes from_uri fail with the decode error naming "q" and the URI |
| CannedQueries.ErrorPersists | src/scopes/internal/CannedQueryImpl.cpp:249-289 | The first failing segment's error is the error of the whole loop |
| CannedQueries.ApplySegmentTo | src/scopes/internal/CannedQueryImpl.cpp:251-288 | One loop pass on the object does what ApplySegment says, through the setters |
| CannedQueries.ApplySegmentsTo | src/scopes/internal/CannedQueryImpl.cpp:245-290 | The loop on the object ends in the state ApplySegments computes, or with its error |
| CannedQueries.FromUri | src/scopes/internal/CannedQueryImpl.cpp:223-293 | from_uri on the object succeeds exactly when ParseUri does; the new object holds its value, or the error is ParseUri's |
| CannedQueries.LastOccurrenceWins | src/scopes/internal/CannedQueryImpl.cpp:257-264 | For "q" and "dep" the last occurrence of the key wins; with no occurrence the field keeps its initial value |
| CannedQueries.IgnoredSegment | src/scopes/internal/CannedQueryImpl.cpp:251-288 | A segment without '=' or with an unknown key can be dropped from anywhere in the URI without changing the result |
| CannedQueries.KeyedSegment | src/scopes/internal/CannedQueryImpl.cpp:251-255 | A segment key=value with no '=' in the key splits back into that key and value |
| CannedQueries.EmptyFiltersAreDefault | src/scopes/internal/CannedQueryImpl.cpp:189-190 | A filter state that serialises to nothing is the default one, so leaving "filters" out loses nothing |
| CannedQueries.QuerySegmentStep | src/scopes/internal/CannedQueryImpl.cpp:182 | The "q" segment to_uri writes sets the query string back |
| CannedQueries.DepartmentSegmentStep | src/scopes/internal/CannedQueryImpl.cpp:184-187 | The "dep" segment, written only for a non-empty department, restores the department |
| CannedQueries.FiltersSegmentStep | src/scopes/internal/CannedQueryImpl.cpp:189-195 | The "filters" segment, written only for non-empty filters, restores the filter state |
| CannedQueries.DataSegmentStep | src/scopes/internal/CannedQueryImpl.cpp:196-200 | The "data" segment, written only when data is set, restores the data |
| CannedQueries.ApplyUriSegments | src/scopes/internal/CannedQueryImpl.cpp:182-200 | Applying the segments to_uri writes to the query from_uri starts with rebuilds the whole query |
| CannedQueries.UriSegmentsPlain | src/scopes/internal/CannedQueryImpl.cpp:182-200 | Every segment to_uri writes is non-empty and free of '&', so getline returns it unchanged |
| CannedQueries.ParseComposedUri | src/scopes/internal/CannedQueryImpl.cpp:223-293 | A URI made of the schema, a raw scope id without '?' that decodes to the query's id, and to_uri's segments parses back to the query |
| CannedQueries.ToUriRoundTripPlainId | src/scopes/internal/CannedQueryImpl.cpp:178-202 | The to_uri of the source round-trips when the scope id holds no '?' and decodes to itself |
| CannedQueries.ToUriLosesQueryAfterQuestionMark | src/scopes/internal/CannedQueryImpl.cpp:181 | For the scope id "a?b" and query string "x", from_uri(to_uri(q)) != q under every lawful codec |
| CannedQueries.ToUriEncodedRoundTrip | src/scopes/internal/CannedQueryImpl.cpp:178-293 | With the scope id encoded, from_uri(to_uri(q)) == q for every query with a scope id |
| Texts.IndexOf | src/scopes/internal/CannedQueryImpl.cpp:233 | The first occurrence at or after the start, or the end when there is none |
| Texts.Split | src/scopes/internal/CannedQueryImpl.cpp:248-249 | No piece holds the separator, and only the empty text gives no piece |
| Texts.SplitJoin | src/scopes/internal/CannedQueryImpl.cpp:248-249 | Splitting the join of non-empty, separator-free pieces gives the pieces back |
| Variants.GetString | src/scopes/internal/CannedQueryImpl.cpp:78 | Succeeds exactly for a string variant, with that string |
| Variants.GetDict | src/scopes/internal/CannedQueryImpl.cpp:89 | Succeeds exactly for a dictionary variant, with that map |
| SmartScopesText.DecimalString | src/scopes/internal/smartscopes/SmartScopesClient.cpp:181 | std::to_string: non-empty digits whose value is the number |
| SmartScopesText.Stoi | src/scopes/internal/smartscopes/SmartScopesClient.cpp:85 | Every value std::stoi returns lies within int |
| SmartScopesText.StoiDecimal | src/scopes/internal/smartscopes/SmartScopesClient.cpp:85 | stoi reads back what to_string wrote, for every non-negative int |
| SmartScopesText.LastIndexOf | src/scopes/internal/smartscopes/SmartScopesClient.cpp:81 | find_last_of: an occurrence with none after it, or none when the character is absent |
| SmartScopesText.ResolveServer | src/scopes/internal/smartscopes/SmartScopesClient.cpp:61-97 | A non-empty url is kept with its port; with no or an empty environment value the default base URL is used |
| SmartScopesText.ResolveServerWholeValue | src/scopes/internal/smartscopes/SmartScopesClient.cpp:82-90 | An environment value with no ':' past index 5 is used whole, with the given port |
| SmartScopesText.ResolveServerSplitsAtColon | src/scopes/internal/smartscopes/SmartScopesClient.cpp:81-86 | An environment value that is not used whole is split at its last ':', which lies past index 5: the URL is the text before it and the port is stoi of the rest, as uint |
| SmartScopesText.ResolveServerSplitsPort | src/scopes/internal/smartscopes/SmartScopesClient.cpp:81-86 | "host:port", with the host longer than "https", gives that host and port |
| SmartScopesText.OptionalSearchParams | src/scopes/internal/smartscopes/SmartScopesClient.cpp:186-197 | locale, country and limit in that order, each exactly when non-empty or non-zero, with its own value |
| SmartScopesText.SearchParams | src/scopes/internal/smartscopes/SmartScopesClient.cpp:177-197 | q (encoded, quoted), session_id (quoted), query_id and platform (quoted), in that order, then the optional parameters |
| SmartScopesText.SearchUri | src/scopes/internal/smartscopes/SmartScopesClient.cpp:174-197 | The URI starts with base_url + "/search?" |
| SmartScopesText.SplitJoinParams | src/scopes/internal/smartscopes/SmartScopesClient.cpp:179-197 | A query part whose keys hold no '=' and whose keys and values hold no '&' reads back as the parameters written |
| SmartScopesText.SearchParamsPlain | src/scopes/internal/smartscopes/SmartScopesClient.cpp:179-197 | When the unencoded values and the encoded query hold no '&', every search parameter is plain |
| SmartScopesText.SearchUriReadsBack | src/scopes/internal/smartscopes/SmartScopesClient.cpp:174-197 | Under the same condition, the server splitting the query part reads back exactly the search parameters |
| SmartScopesText.RemoteScopesUri | src/scopes/internal/smartscopes/SmartScopesClient.cpp:107-115 | url + "/remote-scopes?", followed by "&locale=" and the quoted locale only when a locale is given |
| SmartScopesText.FindCrlf | src/scopes/internal/smartscopes/SmartScopesClient.cpp:331-335 | The first "\r\n" at or after the start, or the end of the text when there is none |
| SmartScopesText.JsonPiecesHaveNoCrlf | src/scopes/internal/smartscopes/SmartScopesClient.cpp:329-340 | No extracted document holds "\r\n" |
| SmartScopesText.JoinJsonPieces | src/scopes/internal/smartscopes/SmartScopesClient.cpp:329-340 | Joining the documents with "\r\n" rebuilds the text minus one trailing "\r\n" |
| SmartScopesText.ExtractJsonStream | src/scopes/internal/smartscopes/SmartScopesClient.cpp:323-343 | The loop yields the documents: none exactly for empty text, none holding "\r\n", and their join is the text minus one trailing "\r\n" |
| SmartScopes.ParseRemoteScope | src/scopes/internal/smartscopes/SmartScopesClient.cpp:146-150 | A complete entry is read exactly when name, description and base_url are strings and invisible, when present, is a boolean. name, description and base_url are then the entry's strings; invisible is the entry's boolean when present and false otherwise |
| SmartScopes.RemoteScopesStopAtIncomplete | src/scopes/internal/smartscopes/SmartScopesClient.cpp:136-153 | The scopes read are the entries up to the first one lacking name, base_url or description, each read by ParseRemoteScope |
| SmartScopes.DocumentsKeepCategoriesKeyed | src/scopes/internal/smartscopes/SmartScopesClient.cpp:272 | Every category in the map is stored under its own id |
| SmartScopes.CategoryStep | src/scopes/internal/smartscopes/SmartScopesClient.cpp:298-302 | Only the cat_id member sets the category, to the category of that id seen so far, or none |
| SmartScopes.CategoryOfResult | src/scopes/internal/smartscopes/SmartScopesClient.cpp:280-307 | A result with a cat_id gets the category of that id parsed before it, or none; a result without one keeps the category it started with |
| SmartScopes.ResolvedCategoryMatchesCatId | src/scopes/internal/smartscopes/SmartScopesClient.cpp:298-301 | A result's category, when it has one, carries the id its cat_id names |
| SmartScopes.CategoryMemberOk | src/scopes/internal/smartscopes/SmartScopesClient.cpp:254-269 | One category member fails exactly when it is icon, id, render_template or title and not a string |
| SmartScopes.CategoryMemberField | src/scopes/internal/smartscopes/SmartScopesClient.cpp:254-269 | One category member sets the field of its own name to its string and leaves the other fields unchanged |
| SmartScopes.CategoryFromOk | src/scopes/internal/smartscopes/SmartScopesClient.cpp:251-270 | The category loop succeeds exactly when every known member it meets is a string |
| SmartScopes.CategoryFromField | src/scopes/internal/smartscopes/SmartScopesClient.cpp:251-270 | After the loop, each field is its member's string when the loop met that member, and its starting value otherwise |
| SmartScopes.ParseCategoryFields | src/scopes/internal/smartscopes/SmartScopesClient.cpp:249-270 | A category object parses exactly when each of icon, id, render_template and title that it has is a string. Each field is then that member's string, or "" when the member is absent |
| SmartScopes.ResultMemberOk | src/scopes/internal/smartscopes/SmartScopesClient.cpp:282-306 | One result member fails exactly when it is art, dnd_uri, title, uri or cat_id and not a string |
| SmartScopes.ResultMemberField | src/scopes/internal/smartscopes/SmartScopesClient.cpp:282-297 | One result member sets the string field of its own name to its string and leaves the other string fields unchanged |
| SmartScopes.ResultFromOk | src/scopes/internal/smartscopes/SmartScopesClient.cpp:279-307 | The result loop succeeds exactly when every known member it meets is a string |
| SmartScopes.ResultFromField | src/scopes/internal/smartscopes/SmartScopesClient.cpp:279-307 | After the loop, each of uri, dnd_uri, title and art is its member's string when the loop met that member, and its starting value otherwise |
| SmartScopes.ParseResultFields | src/scopes/internal/smartscopes/SmartScopesClient.cpp:277-307 | A result object parses exactly when each of art, dnd_uri, title, uri and cat_id that it has is a string. uri, dnd_uri, title and art are then their members' strings, or "" when absent |
| SmartScopes.OtherParamsStep | src/scopes/internal/smartscopes/SmartScopesClient.cpp:303-306 | An unknown member adds its own name, with its own value, to other_params; a known one leaves other_params alone |
| SmartScopes.OtherParamsFrom | src/scopes/internal/smartscopes/SmartScopesClient.cpp:280-307 | After the member loop, other_params maps exactly the unknown member names to their own values |
| SmartScopes.OtherParamsOfResult | src/scopes/internal/smartscopes/SmartScopesClient.cpp:280-307 | A parsed result's other_params are exactly its unknown members, each with its own value |
| SmartScopes.OtherParamsAsWrittenHoldsWholeNode | src/scopes/internal/smartscopes/SmartScopesClient.cpp:305 | As written, other_params["price"] of {"title": "t", "price": "3"} is the whole object, not "3" |
| SmartScopes.AsWrittenMemberStep | src/scopes/internal/smartscopes/SmartScopesClient.cpp:282-306 | One member step as written and as corrected fail alike; otherwise they set the same fields and the same other_params name, as written holding the whole object |
| SmartScopes.AsWrittenFrom | src/scopes/internal/smartscopes/SmartScopesClient.cpp:280-307 | The member loop as written and as corrected fail alike, and otherwise differ only in other_params' values |
| SmartScopes.AsWrittenDiffersOnlyInOtherParams | src/scopes/internal/smartscopes/SmartScopesClient.cpp:274-307 | The source's result parser succeeds exactly when the corrected one does, with the same error otherwise; the results agree on every field and on the names in other_params, and as written each name holds the whole result object |
| SmartScopes.SmartScopesClient.constructor | src/scopes/internal/smartscopes/SmartScopesClient.cpp:61-69 | The client keeps the resolved URL and port, with no pending search |
| SmartScopes.SmartScopesClient.IssueGet | src/scopes/internal/smartscopes/SmartScopesClient.cpp:203 | A new pending request for the URI and port, never handed out before; the session table is unchanged |
| SmartScopes.SmartScopesClient.CancelSearch | src/scopes/internal/smartscopes/SmartScopesClient.cpp:345-355 | The session's request, if any, is cancelled and forgotten; other sessions are untouched |
| SmartScopes.SmartScopesClient.Search | src/scopes/internal/smartscopes/SmartScopesClient.cpp:165-206 | The session's previous request is cancelled, and a new request for the search URI becomes its only pending entry; other sessions are untouched |
| SmartScopes.SmartScopesClient.GetSearchResults | src/scopes/internal/smartscopes/SmartScopesClient.cpp:208-321 | LogicException and no change without a pending request. Otherwise the request is forgotten and its text parsed, with the corrected line 305; a failed delivery keeps the request pending |
| SmartScopes.SmartScopesClient.GetRemoteScopes | src/scopes/internal/smartscopes/SmartScopesClient.cpp:103-163 | The loop answers what ParseRemoteScopes reads from the text the remote-scopes URI delivers |
| SmartScopes.CreateClient | src/scopes/internal/smartscopes/SmartScopesClient.cpp:61-97 | A new client with the resolved server and no pending search, or stoi's failure |
| SmartScopes.ReadCategory | src/scopes/internal/smartscopes/SmartScopesClient.cpp:251-270 | The member loop computes ParseCategory. It succeeds exactly when each of icon, id, render_template and title that the object has is a string. Each of those fields is then its member's string, or "" when the member is absent |
| SmartScopes.ReadResult | src/scopes/internal/smartscopes/SmartScopesClient.cpp:279-307 | The member loop computes ParseResult, the corrected parser: an unknown member is stored with its own value. It succeeds exactly when each of art, dnd_uri, title, uri and cat_id that the object has is a string. uri, dnd_uri, title and art are then their members' strings, or "" when absent |
| SmartScopes.ReadDocuments | src/scopes/internal/smartscopes/SmartScopesClient.cpp:235-311 | The document loop computes the results DocumentsFrom gathers, each result read with the corrected line 305 |
| JsonNodes.MemberIndex | src/scopes/internal/smartscopes/SmartScopesClient.cpp:140-141 | The first member of that name, or none when no member has it |
| JsonNodes.GetNode | src/scopes/internal/smartscopes/SmartScopesClient.cpp:146 | Succeeds exactly when has_node holds, with the value of a member of that name |
| JsonNodes.MemberNames | src/scopes/internal/smartscopes/SmartScopesClient.cpp:251 | One name per member of an object; each names a member, and every member's name is listed |
| JsonNodes.GetIndex | src/scopes/internal/smartscopes/SmartScopesClient.cpp:138 | Succeeds exactly for an index below size(), with that item |
| JsonNodes.AsString | src/scopes/internal/smartscopes/SmartScopesClient.cpp:146 | Succeeds exactly for a string node, with its text |
| JsonNodes.AsBool | src/scopes/internal/smartscopes/SmartScopesClient.cpp:150 | Succeeds exactly for a boolean node, with its value |

## Left out

- Mutexes (the registries, `SmartScopesClient`) and the thread-local use of `ConnectionPool`: every operation is atomic and sequential.
- Process spawning, counting processes with `ps`, and reaping them at destruction. They become the `running` set and a ghost spawn counter; whether a launch succeeds is the `launched` parameter of `Locate`.
- The remote registry's answer to `locate`: it is the `remoteAnswer` parameter.
- The HTTP client:
  - `get`, `wait`, `cancel_get` and the port on the wire are abstract;
  - a request is a fresh `PendingRequest`, and a cancelled one is recorded in a ghost log;
  - the delivered text is a parameter.
- `getenv("SMART_SCOPES_SERVER")`: the `env` parameter of `ResolveServer` and `CreateClient`.
- The JSON reader (`read_json`) is the `parse` parameter. JSON numbers with fractions and Variant doubles are left out, because floating point is outside the model.
- `JsonCppNode` is not part of this model, so two behaviours of a JSON node are chosen here:
  - `size()` is 0 for a node that is not an array, and `get_node(index)` fails on one (`JsonNodes.Size`, `JsonNodes.GetIndex`);
  - as a result, `GetRemoteScopes` answers an empty list when the root of the answer is an object.
- Percent-encoding, JSON text and `FilterState` (de)serialisation are the function values of `CannedQueries.Codecs`. Each round trip assumes only the laws in `CannedQueries.Lawful`.
- `std::cout` logging, and the `MiddlewareBase*` that `ScopeMetadataImpl` carries.
- `ScopeMetadataImpl::create`, and the `ScopeMetadata` wrapper it returns.
- The `author` and `scope_directory` attributes that the registry tests read: the metadata header that is modelled has no such fields.
- The zmq context of `ConnectionPool`, and what a socket does: a socket is an object that records its endpoint. The destructor is left out.
- `SearchHandle` is reduced to its session id. Its destructor, which cancels the search, is left out because the model has no object lifetimes.
- SmartScopes.SmartScopesClient.GetSearchResults: parses results with the corrected line 305, not as written; AsWrittenDiffersOnlyInOtherParams proves that the source's parser differs only in the values stored in other_params, where it puts the whole result object.
- SmartScopes.ReadResult: the loop runs the corrected line 305 (ParseResult). ParseResultAsWritten is the source's version, related to it by AsWrittenDiffersOnlyInOtherParams.
- SmartScopes.ReadDocuments: each result is read by ReadResult, so with the corrected line 305 as above.
- JSON objects keep their members in document order, duplicate names included, and a lookup takes the first member of a name. A JSON reader such as jsoncpp keeps one member per name, the last one, in sorted order. The parsers do not depend on member order, but a document with a duplicate member name can read differently.
- SmartScopesText.ExtractJsonStream: positions are unbounded. The source keeps `start_pos` in a `uint` and `end_pos` in an `int`, which wrap for responses of 2 GiB and more.
- CannedQueries.ParseUri: the ensures list only the two early InvalidArguments and the non-empty scope id; the full behaviour is its body, and it is related to `from_uri` through `FromUri` and the lemmas about it. The errors of the segment loop are stated by SegmentErrorIsUriError and UndecodableQueryFailsUri.
- SmartScopesText.ResolveServer: the ensures cover the kept url and the default. The split of the environment value is stated by ResolveServerWholeValue, ResolveServerSplitsAtColon and ResolveServerSplitsPort.
- SmartScopesText.Stoi: the ensures states only the `int` range. Reading a number back is StoiDecimal.

## Findings

| source | as written | input that shows it | evidently intended | confidence | as-written member | corrected member |
|---|---|---|---|---|---|---|
| src/scopes/internal/CannedQueryImpl.cpp:181 | `to_uri` writes the scope id as it is, while `from_uri` percent-decodes it (line 243) and cuts it at the first '?' (line 233) | Scope id "a?b" with query string "x": `from_uri` reads the scope id "a" and then the unknown key "b?q", so the query string is lost | The scope id percent-encoded like every other value, so that `from_uri(to_uri(q)) == q` | high, not executed | CannedQueries.ToUri, CannedQueries.ToUriLosesQueryAfterQuestionMark | CannedQueries.ToUriEncoded, CannedQueries.ToUriEncodedRoundTrip |
| src/scopes/internal/smartscopes/SmartScopesClient.cpp:305 | `other_params[member] = child_node` stores the whole result object under each unknown member | The result {"title": "t", "price": "3"}: `other_params["price"]` is that whole object, not "3" | `other_params[member] = child_node->get_node(member)`, the member's own value | medium, not executed | SmartScopes.ParseResultAsWritten, SmartScopes.OtherParamsAsWrittenHoldsWholeNode | SmartScopes.ParseResult, SmartScopes.OtherParamsOfResult |
