# A verified model of the pubsub-horizon-go support library

pubsub-horizon-go is the shared Go library of the Horizon pub/sub platform.
This project models the parts of it that hold logic, and proves properties
of the model in Dafny:

- **The typed cache facade** (`cache/hazelcast.go`). `HazelcastCache[T]` stores
  values in named Hazelcast maps as JSON values. `Put`, `Get`, `Delete` and
  `GetQuery` have exact error and absence rules. The three closures that
  `AddListener` installs turn each map notification into exactly one
  listener call. The cluster is an abstract store (map name, then key,
  then stored value). JSON encoding is an abstract codec, and `GetMap` or
  the map operation failing is an input.
- **The enum codecs.** There are two generations, `enum/` and `pkg/enum/`,
  plus `pkg/constant/delivery_type.go`. Each has a finite-set string parser,
  some exact and some ASCII case-insensitive, and a JSON decoder built from
  null handling, quote stripping, parsing and assignment. A decoder writes
  its receiver only on success. The retention-time tables convert to
  milliseconds and to short "rover" strings.
- **The span stack of a trace context** (`tracing/tracing.go`). It is an
  append-only list of spans. The current span is the newest one still
  recording, found by a backward search. Some operations only act when
  detailed tracing is on.
- **The extension registry** (`ext/registry.go`). Extensions are keyed by
  name and duplicates are refused. `RegisterDir` loads plugins from a
  directory listing. A lifecycle phase calls one method on every extension.
- **The Hazelcast log adapter** (`util/hazelcast.go`). It maps Hazelcast
  logger weights to zerolog levels and filters messages by a threshold.
- **The validators** (`validation/regexs.go`). The event-type character
  class and the ISO 8601 date-time expression are written as string
  predicates. Lemmas tie them to their meaning: a calendar date with
  Gregorian leap years, a clock time, an optional fraction of one to nine
  digits, and a `Z` or `±HH:MM` zone.

Each Go file of the core has its own Dafny module. Shared modules:

| module | what it holds |
|---|---|
| `Wrappers` | `Option`, `Result`, and `Returned`, a Go `(value, error)` pair |
| `GoStrings` | ASCII `strings.ToLower`, `HasPrefix`/`HasSuffix`, `fmt.Sprintf("\"%s\"")` |
| `Strconv` | `strconv.Unquote` for a string that opens with a double quote |
| `JsonString` | how `json.Marshal` writes a string |
| `Pointers` | a pointer receiver (`Ref`), and `Effect`, a record of what an `UnmarshalJSON` did |
| `EnumJson` | the decoding steps the enum types share |
| `Durations` | the rover duration strings and their length in milliseconds |

How the model is shaped:

- Every `UnmarshalJSON` has two parts. The first is a pure decision,
  `UnmarshalEffect(data)`: `Keep(err)` or `Assign(value)`. The second is a
  method that writes the receiver through a `Ref`. The lemmas are about
  the decision.
- `TraceContext` and `Registry` are Dafny classes because the Go code
  updates their fields: the span stack and the extension map. The Go
  fields of `HazelcastCache` (a context and a client) and of
  `HazelcastZerologLogger` (a level and a logger) are never reassigned.
  Those two are classes as a modelling choice: one holds the cluster's maps
  that the client changes, the other the log output that zerolog writes.
  The methods of all four are specified by pure functions of the old state.
- Loops stay loops: `GetQuery`, the entry-set enumeration, `CurrentSpan`,
  `RegisterDir`, `RunLifecyclePhase`, and the map search of
  `enum/event_retention_time.go`.

## Model

| member | source | states |
|---|---|---|
| EnumUnmarshalHelper.UnmarshalEnum | enum/unmarshal_helper.go:18-43 | the returned error and the new target are exactly those of the null / unquote / parse / assign decision |
| EnumUnmarshalHelper.EnumNull | enum/unmarshal_helper.go:22-24 | `null` returns nil and leaves the target unchanged, whatever the parser |
| EnumUnmarshalHelper.EnumBadQuotes | enum/unmarshal_helper.go:27-33 | a quoted input that fails to unquote returns the syntax error and leaves the target unchanged |
| EnumUnmarshalHelper.EnumLoneQuote | enum/unmarshal_helper.go:27 | a single `"` is too short to be unquoted and reaches the parser as it is |
| EnumUnmarshalHelper.EnumQuoted | enum/unmarshal_helper.go:27-36 | a name in double quotes decodes exactly as the bare name |
| EnumUnmarshalHelper.EnumWrites | enum/unmarshal_helper.go:36-42 | the target is written only when the parser accepts the unquoted input, and then with the parser's value; otherwise the parser's error is returned |
| EnumJson.ParseEffect | enum/message_status.go:47-53 | a parse error is returned without writing; success assigns the parsed value |
| EnumJson.LenientNull | enum/message_status.go:39-41 | `null` is a no-op with no error |
| EnumJson.LenientQuoted | enum/message_status.go:43-47 | a name in double quotes decodes exactly as the bare name |
| EnumJson.LenientBadQuotes | enum/message_status.go:43-45 | when unquoting fails its error is dropped and the empty string is parsed |
| EnumJson.LenientLoneQuote | enum/message_status.go:43-45 | a lone `"` both starts and ends with a quote, fails to unquote, and the empty string is parsed |
| EnumJson.LenientMarshal | enum/event_retention_time.go:53-57 | whatever `json.Marshal` writes for a string decodes to that string before parsing |
| Strconv.UnquoteQuoted | enum/unmarshal_helper.go:29 | unquoting a double-quoted string without escapes gives the string back |
| Strconv.UnquoteLoneQuote | enum/unmarshal_helper.go:27-29 | a lone `"` is not a valid quoted string (ErrSyntax, empty result) |
| JsonString.UnquoteMarshal | enum/event_retention_time.go:66-68 | `strconv.Unquote` inverts `json.Marshal` on every string |
| JsonString.MarshalPlainAscii | enum/event_retention_time.go:66-68 | a name of ASCII letters, digits and underscores is marshalled as itself between quotes |
| EnumEventRetentionTime.Parse | enum/event_retention_time.go:37-44 | succeeds exactly on the six names and returns the input; otherwise DEFAULT with the "could not parse" error |
| EnumEventRetentionTime.ParseEventRetentionTime | enum/event_retention_time.go:37-44 | the search over the table's keys, in any order, returns what `Parse` specifies |
| EnumEventRetentionTime.RetentionDurations | enum/event_retention_time.go:25-35 | each table entry keeps events for its named number of days or hours; DEFAULT is the seven-day entry |
| EnumEventRetentionTime.RoverAgreesWithTable | enum/event_retention_time.go:70-87 | the rover string of a table name denotes the table's duration; every other value is `7d` |
| EnumEventRetentionTime.MarshalRoundTrip | enum/event_retention_time.go:46-68 | a marshalled table name unmarshals to itself; any other marshalled string is rejected without writing |
| EnumEventRetentionTime.UnmarshalNull | enum/event_retention_time.go:49-51 | `null` is a no-op with no error |
| EnumEventRetentionTime.MarshalConstant | enum/event_retention_time.go:66-68 | each constant marshals as its name in double quotes |
| EnumEventRetentionTime.MarshalJSON | enum/event_retention_time.go:66-68 | never fails, and writes a JSON string that `strconv.Unquote` reads back as the name |
| EnumEventRetentionTime.ToRoverConfigString | enum/event_retention_time.go:70-87 | every value gets a rover string of a positive number of days or hours; a name outside the table gets `7d` |
| EnumEventRetentionTime.UnmarshalJSON | enum/event_retention_time.go:46-64 | the receiver and the error follow the lenient null / unquote / parse decision |
| EnumMessageStatus.ParseMessageStatus | enum/message_status.go:26-34 | accepts exactly the seven names, case-sensitively, returning the input; otherwise `""` and "invalid message status" |
| EnumMessageStatus.UnmarshalJSON | enum/message_status.go:36-54 | the receiver and the error follow the lenient decision |
| EnumMessageStatus.MarshalJSON | enum/message_status.go:56-63 | the status between double quotes, with no error |
| EnumMessageStatus.MarshalRoundTrip | enum/message_status.go:36-59 | every status survives marshalling and unmarshalling |
| EnumMessageStatus.UnmarshalWritesOnlyStatuses | enum/message_status.go:36-54 | null is a no-op, only one of the seven statuses is ever written, and an error leaves the receiver unchanged |
| EnumCircuitBreakerStatus.ParseCircuitBreakerStatus | enum/circuit_breaker_status.go:22-32 | accepts exactly the four names, returning the input; otherwise `""` and the "could not parse" error |
| EnumCircuitBreakerStatus.UnmarshalJSON | enum/circuit_breaker_status.go:34-52 | the receiver and the error follow the lenient decision |
| EnumCircuitBreakerStatus.MarshalJSON | enum/circuit_breaker_status.go:54-61 | the status between double quotes, with no error |
| EnumCircuitBreakerStatus.MarshalRoundTrip | enum/circuit_breaker_status.go:34-57 | every status survives marshalling and unmarshalling |
| EnumCircuitBreakerStatus.UnmarshalCases | enum/circuit_breaker_status.go:37-51 | null is a no-op, a quoted name decodes as the bare one, and a rejected input leaves the receiver unchanged |
| EnumResponseFilterMode.ParseResponseFilterMode | enum/responsefilter_mode.go:20-30 | success returns the input in its own case; failure gives `""` and the "could not parse" error |
| EnumResponseFilterMode.ParseAcceptsEitherCase | enum/responsefilter_mode.go:20-25 | accepted if and only if the input equals include or exclude up to ASCII case |
| EnumResponseFilterMode.ParseKeepsCase | enum/responsefilter_mode.go:24 | `Include` is accepted as `Include`, not canonicalised |
| EnumResponseFilterMode.UnmarshalJSON | enum/responsefilter_mode.go:32-50 | the receiver and the error follow the lenient decision |
| EnumResponseFilterMode.MarshalJSON | enum/responsefilter_mode.go:52-59 | the mode between double quotes, with no error |
| EnumResponseFilterMode.MarshalRoundTrip | enum/responsefilter_mode.go:32-55 | INCLUDE and EXCLUDE survive marshalling and unmarshalling |
| EnumResponseFilterMode.UnmarshalCases | enum/responsefilter_mode.go:35-48 | null is a no-op, a quoted name decodes as the bare one, and an error leaves the receiver unchanged |
| EnumDeliveryType.ParseDeliveryType | enum/delivery_type.go:19-30 | succeeds exactly when the input lower-cases to `sse`, `server_sent_event` or `callback`; `sse` in any case gives `server_sent_event`, the two full names are returned as given; failure gives `""` and the "could not parse" error |
| EnumDeliveryType.ParseIdempotent | enum/delivery_type.go:19-30 | parsing a parser result gives the same result again |
| EnumDeliveryType.ParseExamples | enum/delivery_type.go:21-28 | `SSE` becomes `server_sent_event`, `CALLBACK` keeps its case, and other input is an error |
| EnumDeliveryType.UnmarshalJSON | enum/delivery_type.go:32-34 | behaves exactly as `UnmarshalEnum` with this parser |
| EnumDeliveryType.MarshalJSON | enum/delivery_type.go:36-43 | the type between double quotes, with no error |
| EnumDeliveryType.MarshalRoundTrip | enum/delivery_type.go:32-39 | both constants survive marshalling and unmarshalling |
| PkgEnumEventRetentionTime.ParseEventRetentionTime | pkg/enum/event_retention_time.go:23-41 | success returns the constant whose topic is the input; failure gives `TTL{}` and the "could not parse" error |
| PkgEnumEventRetentionTime.ParseTopic | pkg/enum/event_retention_time.go:23-37 | each of the six constants is found by its topic |
| PkgEnumEventRetentionTime.RoverAgreesWithDuration | pkg/enum/event_retention_time.go:43-58 | a constant's rover string denotes its own duration; DEFAULT, `TTL{}` and every other record give `7d` |
| PkgEnumEventRetentionTime.RoverString | pkg/enum/event_retention_time.go:43-58 | every record gets a rover string of a positive number of days or hours; a record other than the 5-day, 3-day, 1-day and 1-hour constants gets `7d` |
| PkgEnumEventRetentionTime.RoverExamples | pkg/enum/event_retention_time.go:43-58 | matching is on the whole record: a known topic with another duration gives `7d` |
| PkgEnumEventRetentionTime.NamedDurations | pkg/enum/event_retention_time.go:15-20 | the durations are the named numbers of days or hours, and DEFAULT lasts seven days |
| PkgEnumEventRetentionTime.UnmarshalJSON | pkg/enum/event_retention_time.go:60-78 | the receiver and the error follow the lenient decision |
| PkgEnumEventRetentionTime.MarshalJSON | pkg/enum/event_retention_time.go:80-83 | the topic between double quotes, with no error |
| PkgEnumEventRetentionTime.MarshalRoundTrip | pkg/enum/event_retention_time.go:60-83 | every constant survives marshalling and unmarshalling |
| PkgEnumEventRetentionTime.UnmarshalCases | pkg/enum/event_retention_time.go:63-77 | null is a no-op, only a constant is ever written, and an error leaves the receiver unchanged |
| PkgEnumMessageStatus.ParseMessageStatus | pkg/enum/message_status.go:21-31 | accepts exactly the seven names and returns the input; otherwise `""` and "invalid message status" |
| PkgEnumMessageStatus.AgreesWithEnum | pkg/enum/message_status.go:21-31 | the public parser equals the internal one on every input |
| PkgEnumMessageStatus.UnmarshalJSON | pkg/enum/message_status.go:33-51 | the receiver and the error follow the lenient decision |
| PkgEnumMessageStatus.UnmarshalCases | pkg/enum/message_status.go:36-50 | null is a no-op, a status is accepted bare or quoted, only statuses are written, and an error leaves the receiver unchanged |
| PkgEnumCircuitBreakerStatus.ParseCircuitBreakerStatus | pkg/enum/circuit_breaker_status.go:18-28 | accepts exactly the four names and returns the input; otherwise `""` and the "could not parse" error |
| PkgEnumCircuitBreakerStatus.AgreesWithEnum | pkg/enum/circuit_breaker_status.go:18-28 | the public parser equals the internal one on every input |
| PkgEnumCircuitBreakerStatus.UnmarshalJSON | pkg/enum/circuit_breaker_status.go:30-48 | the receiver and the error follow the lenient decision |
| PkgEnumCircuitBreakerStatus.UnmarshalCases | pkg/enum/circuit_breaker_status.go:33-47 | null is a no-op, a quoted input decodes as the bare one, only the four names are written, and an error leaves the receiver unchanged |
| PkgEnumResponseFilterMode.ParseResponseFilterMode | pkg/enum/responsefilter_mode.go:16-26 | success returns the input as given; failure gives `""` and the "could not parse" error |
| PkgEnumResponseFilterMode.AgreesWithEnum | pkg/enum/responsefilter_mode.go:16-26 | equals the internal parser, and so accepts exactly include or exclude up to ASCII case |
| PkgEnumResponseFilterMode.UnmarshalJSON | pkg/enum/responsefilter_mode.go:28-46 | the receiver and the error follow the lenient decision |
| PkgEnumResponseFilterMode.UnmarshalCases | pkg/enum/responsefilter_mode.go:31-45 | null is a no-op, a quoted input decodes as the bare one, a written value lower-cases to include or exclude, and an error leaves the receiver unchanged |
| PkgEnumResponseFilterMode.UnmarshalModes | pkg/enum/responsefilter_mode.go:35-45 | INCLUDE and EXCLUDE are accepted quoted or bare |
| PkgConstantDeliveryType.ParseDeliveryType | pkg/constant/delivery_type.go:15-28 | succeeds exactly when the input lower-cases to `sse`, `server_sent_event` or `callback`; `sse` in any case gives `server_sent_event`, the two full names are returned as given; failure gives `""` and the "could not parse" error |
| PkgConstantDeliveryType.AgreesWithEnum | pkg/constant/delivery_type.go:15-28 | the public parser equals the internal one on every input |
| PkgConstantDeliveryType.UnmarshalEffectAsWritten | pkg/constant/delivery_type.go:33-43 | null is a no-op; only a parser success is written; any input opening with a quote is refused with the "could not parse" error |
| PkgConstantDeliveryType.AsWrittenRejectsJsonString | pkg/constant/delivery_type.go:30-44 | given the JSON string of `callback`, the decoder as written keeps the receiver and returns an error |
| PkgConstantDeliveryType.AsWrittenRejectsEveryJsonString | pkg/constant/delivery_type.go:33-40 | given any JSON string, the decoder as written keeps the receiver and returns an error |
| PkgConstantDeliveryType.CorrectionOnlyTouchesQuoted | pkg/constant/delivery_type.go:30-44 | on input not wrapped in quotes, the corrected decoder agrees with the one as written |
| PkgConstantDeliveryType.MarshalRoundTrip | pkg/constant/delivery_type.go:30-44 | with quotes stripped, both constants survive `json.Marshal` and unmarshalling |
| PkgConstantDeliveryType.UnmarshalCases | pkg/constant/delivery_type.go:33-43 | as written: null is a no-op, a bare `SSE` is written as `server_sent_event`, a quoted `"SSE"` is refused, and an error leaves the receiver unchanged |
| PkgConstantDeliveryType.UnmarshalJSON | pkg/constant/delivery_type.go:30-44 | the receiver and the error follow the decision as written, raw bytes to the parser |
| PkgConstantDeliveryType.CorrectedUnmarshalCases | pkg/constant/delivery_type.go:30-44 | the intended fix: null is a no-op, the JSON string of `SSE` is written as `server_sent_event`, and an error leaves the receiver unchanged |
| PkgConstantDeliveryType.UnmarshalJSONCorrected | pkg/constant/delivery_type.go:30-44 | the intended fix: the receiver and the error follow the decision that strips the quotes first |
| CacheHazelcast.UnmarshalHazelcastJson | cache/hazelcast.go:177-183 | succeeds exactly on a JSON value that decodes, giving the decoded value; a missing or non-JSON value is refused naming the key |
| CacheHazelcast.PutFailure | cache/hazelcast.go:45-57 | when GetMap, encoding or Set fails, that error is returned, in that order, and the store is untouched |
| CacheHazelcast.PutFrame | cache/hazelcast.go:45-57 | a successful put stores `Json(encode(v))` under the key and changes no other key of any map |
| CacheHazelcast.GetAfterPut | cache/hazelcast.go:45-79 | with a lawful codec, `Get` after `Put` returns the value put |
| CacheHazelcast.GetCases | cache/hazelcast.go:65-79 | an absent key gives no value and no error; a non-JSON value is refused; a JSON value that does not decode gives the decoding error; one that decodes is returned as that value |
| CacheHazelcast.GetRemoteFailure | cache/hazelcast.go:59-68 | a failing GetMap or map Get is returned as an error |
| CacheHazelcast.DeleteThenGet | cache/hazelcast.go:82-94 | after a delete, `Get` gives no value; deleting again changes nothing; no other key changes |
| CacheHazelcast.DeleteFailure | cache/hazelcast.go:82-94 | a failing GetMap or Delete returns an error and leaves the store untouched |
| CacheHazelcast.PutKeepsWellFormed | cache/hazelcast.go:45-57 | with a lawful codec, puts keep every map made of decodable JSON values |
| CacheHazelcast.DecodeAll | cache/hazelcast.go:107-122 | on success, one decoded value per entry, in entry order |
| CacheHazelcast.DecodeAllFirstFailure | cache/hazelcast.go:108-117 | the first entry that is not JSON or does not decode makes the whole query fail with that entry's error |
| CacheHazelcast.DecodeAllSucceeds | cache/hazelcast.go:107-122 | when every entry decodes, the query succeeds |
| CacheHazelcast.QueryOfWellFormed | cache/hazelcast.go:96-122 | a query over a map of decodable JSON values returns each matching value, decoded |
| CacheHazelcast.Dispatch | cache/hazelcast.go:140-167 | exactly one callback per notification: removed calls OnDelete; added calls OnAdd on a decoded value, else OnError; updated calls OnUpdate when the new and then the old value decode, else OnError with the first failure |
| CacheHazelcast.DispatchAll | cache/hazelcast.go:140-167 | the log has one callback per notification, each that notification's dispatch |
| CacheHazelcast.DispatchAllAppend | cache/hazelcast.go:140-167 | dispatching two runs of notifications equals dispatching them one after the other |
| CacheHazelcast.WellFormedPutsNeverError | cache/hazelcast.go:141-164 | with a lawful codec, the notification of a put into a well-formed map never reaches OnError, and it carries the value put |
| CacheHazelcast.DeleteDispatchesOnDelete | cache/hazelcast.go:165-167 | a removal notification calls OnDelete and decodes nothing |
| CacheHazelcast.PutStore | cache/hazelcast.go:45-57 | succeeds exactly when the cluster is reachable and the value encodes; a failure leaves the maps as they were; a success stores the JSON encoding under the key |
| CacheHazelcast.GetResult | cache/hazelcast.go:59-80 | an unreachable cluster is an error; nil exactly for an absent key on a reachable cluster; a value returned is the decoding of the JSON value stored under the key, and on a reachable cluster a JSON value that decodes is returned as that value |
| CacheHazelcast.DeleteStore | cache/hazelcast.go:82-94 | succeeds exactly when the cluster is reachable; a failure leaves the maps as they were; after a success the key is absent |
| CacheHazelcast.HazelcastCache.Put | cache/hazelcast.go:45-57 | the error and the new maps are those of `PutStore` |
| CacheHazelcast.HazelcastCache.Get | cache/hazelcast.go:59-80 | the result is that of `GetResult` on the current maps |
| CacheHazelcast.HazelcastCache.Delete | cache/hazelcast.go:82-94 | the error and the new maps are those of `DeleteStore` |
| CacheHazelcast.HazelcastCache.EntrySetWithPredicate | cache/hazelcast.go:102 | the matching entries of the map, each key once, in an order the cluster picks |
| CacheHazelcast.HazelcastCache.GetQuery | cache/hazelcast.go:96-123 | GetMap and query errors are returned; otherwise the result is the in-order decoding of the matching entries, with no partial result on failure |
| CacheHazelcast.HazelcastCache.AddListener | cache/hazelcast.go:133-175 | a GetMap error is returned as is; a failure to add is wrapped as "failed to add listener: …"; on success the map is listened to |
| Tracing.LatestRecording | tracing/tracing.go:80-88 | the index of a recording span with no recording span after it, or none when no span records |
| Tracing.SpanAt | tracing/tracing.go:91-97 | a span exactly when n is an index of the list, and then the span at n |
| Tracing.StartAppends | tracing/tracing.go:35-39 | a start appends one recording span without attributes, keeps the earlier spans, and makes the new span current |
| Tracing.EndEndsOnlyCurrent | tracing/tracing.go:49-53 | ending clears the recording flag of the current span only, keeps the length, and does nothing when no span records |
| Tracing.StartThenEnd | tracing/tracing.go:35-53 | start then end leaves one more span, ended, and the same current span as before |
| Tracing.AttributeOnlyOnCurrent | tracing/tracing.go:65-69 | an attribute lands on the current span only and does not change which span is current |
| Tracing.LatestRecordingByFlags | tracing/tracing.go:80-88 | which span is current depends only on the recording flags |
| Tracing.TraceContext.constructor | tracing/tracing.go:24-32 | a new context has no spans |
| Tracing.TraceContext.StartSpan | tracing/tracing.go:35-39 | the new span is a child of the span started last, and the context now carries it |
| Tracing.TraceContext.StartDetailedSpan | tracing/tracing.go:42-46 | acts as `StartSpan` when detailed tracing is on, and is a no-op otherwise |
| Tracing.TraceContext.CurrentIndex | tracing/tracing.go:80-88 | the backward search finds the newest recording span |
| Tracing.TraceContext.CurrentSpan | tracing/tracing.go:80-88 | the newest recording span, or none |
| Tracing.TraceContext.EndCurrentSpan | tracing/tracing.go:49-53 | the span list becomes `EndLatest` of the old one |
| Tracing.TraceContext.EndCurrentDetailedSpan | tracing/tracing.go:56-62 | acts as `EndCurrentSpan` when detailed tracing is on, and is a no-op otherwise |
| Tracing.TraceContext.SetAttribute | tracing/tracing.go:65-69 | the span list becomes `WithAttribute` of the old one |
| Tracing.TraceContext.RootSpan | tracing/tracing.go:72-77 | the first span, or none when the list is empty |
| Tracing.TraceContext.GetSpanN | tracing/tracing.go:91-97 | the bounds-checked lookup `SpanAt` |
| Tracing.TraceContext.LastSpan | tracing/tracing.go:100-102 | the last span, recording or not, or none when the list is empty |
| Tracing.StartEndScenario | tracing/tracing.go:24-102 | after start and end on a new context there is no current span, but there are a last span and a root span, both the ended one |
| Tracing.DetailedOffScenario | tracing/tracing.go:42-62 | with detailed tracing off, the detailed start and end leave the list empty |
| ExtRegistry.PhaseStep | ext/lifecycle.go:3-7 | a phase id names a method exactly when it is 0, 1 or 2 |
| ExtRegistry.DistinctCard | ext/registry.go:60-77 | distinct calls name as many extensions as there are calls |
| ExtRegistry.RegisteredByName | ext/registry.go:54-58 | whether an extension is registered depends only on its name |
| ExtRegistry.RegisterFresh | ext/registry.go:44-52 | an unused name is filed with the extension, and no other name changes |
| ExtRegistry.RegisterDuplicate | ext/registry.go:46-48 | a second extension with a used name is refused with the "theres already an extension" error, and the first one stays |
| ExtRegistry.RegisterEntriesKeeps | ext/registry.go:26-41 | loading a directory never removes or replaces a registered extension, whether or not it fails |
| ExtRegistry.RegisterEntriesNamed | ext/registry.go:26-41 | loading keeps every extension filed under its own name |
| ExtRegistry.RegisterEntriesLoadsAll | ext/registry.go:26-41 | on success every `.so` file of the directory is registered under the name its plugin reports |
| ExtRegistry.RegisterEntriesSkips | ext/registry.go:26-29 | a listing with no `.so` file registers nothing and succeeds |
| ExtRegistry.Plugins | ext/registry.go:27-29 | the filtered listing holds only plugin files |
| ExtRegistry.RegisterEntriesFiltered | ext/registry.go:26-39 | directories and names not ending in `.so` are skipped wherever they stand: the outcome is that of the plugin files alone |
| ExtRegistry.RegisterEntriesSplit | ext/registry.go:26-41 | the listing is processed in order: an error in a prefix is the outcome of the whole listing, otherwise the rest starts from what the prefix registered |
| ExtRegistry.RegisterEntriesStops | ext/registry.go:30-38 | when the entries before a plugin load without error and that plugin fails to open or to register, the outcome is its error with the extensions the earlier entries registered |
| ExtRegistry.Registry.constructor | ext/registry.go:14-18 | a new registry is empty |
| ExtRegistry.Registry.Register | ext/registry.go:44-52 | a used name returns the error and keeps the map; an unused one is added |
| ExtRegistry.Registry.RegisterDir | ext/registry.go:20-42 | the error and the new map are those of loading the listing, stopping at the first error |
| ExtRegistry.Registry.IsRegistered | ext/registry.go:54-58 | in a valid registry, true exactly when a registered extension reports the same name |
| ExtRegistry.Registry.RunLifecyclePhase | ext/registry.go:60-78 | a known phase calls its method once on every registered extension; an unknown phase panics when there is an extension and is a no-op otherwise |
| ExtRegistry.RegisterScenario | ext/registry.go:44-58 | after registering an extension, a second one with the same name is refused, and either is reported registered |
| UtilHazelcast.TranslateWeight | util/hazelcast.go:33-54 | every weight becomes a level from debug to fatal, and exactly debug and trace become debug |
| UtilHazelcast.HazelcastZerologLogger.constructor | util/hazelcast.go:18-20 | a new logger keeps the given level and has written nothing |
| UtilHazelcast.TranslationTable | util/hazelcast.go:33-54 | debug and trace map to debug; info, warn, error and fatal keep their names; every other weight maps to info |
| UtilHazelcast.ThresholdMonotone | util/hazelcast.go:26-31 | lowering the configured level never silences a message, and a heavier weight is written whenever a lighter one is |
| UtilHazelcast.ThresholdExtremes | util/hazelcast.go:26-54 | at debug level or below everything is written; at panic level and above nothing is |
| UtilHazelcast.HazelcastZerologLogger.Log | util/hazelcast.go:26-31 | writes `Hazelcast: ` and the message at the translated level exactly when that level reaches the configured one |
| ValidationRegexs.MatchesEventType | validation/regexs.go:10 | a string matches the event-type expression exactly when each character is an ASCII letter, a digit, `.` or `-` |
| ValidationRegexs.EventTypeAccepts | validation/regexs.go:10 | a dotted event-type name is accepted |
| ValidationRegexs.EventTypeRejects | validation/regexs.go:10 | a name containing `@` is refused |
| ValidationRegexs.FractionSplit | validation/regexs.go:11 | one to nine fraction digits followed by a zone form a valid tail |
| ValidationRegexs.ZoneMeaning | validation/regexs.go:11 | a zone is `Z` or a sign, an hour 00 to 19, a colon and a minute 00 to 59 |
| ValidationRegexs.LeapYearDigitsMeaning | validation/regexs.go:11 | the year part of the 29 February branch matches exactly the Gregorian leap years from 1000 to 9999 |
| ValidationRegexs.DateRegexMeaning | validation/regexs.go:11 | the date part matches exactly the real calendar dates with years 1000 to 9999 |
| ValidationRegexs.TimeRegexMeaning | validation/regexs.go:11 | the time part matches exactly hours 00 to 23 with minutes and seconds 00 to 59 |
| ValidationRegexs.Iso8601 | validation/regexs.go:11 | an accepted date-time is at least 20 characters, has `-` `-` `T` `:` `:` at their fixed places, and ends in `Z` or a digit |
| ValidationRegexs.Iso8601Meaning | validation/regexs.go:11 | a date-time is accepted exactly when it is a calendar date, `T`, a clock time and a fraction-and-zone tail |
| ValidationRegexs.DaysInMonthTable | validation/regexs.go:11 | days 1 to 28 exist in every month, 29 and 30 in all but February, 31 in the seven long months, and 29 February only in leap years |
| ValidationRegexs.Iso8601Compose | validation/regexs.go:11 | a valid date, `T`, a valid time and a valid tail make a valid date-time |
| ValidationRegexs.AcceptsMilliseconds | validation/regexs.go:11 | `2024-01-01T00:00:00.000Z` is accepted |
| ValidationRegexs.AcceptsOffset | validation/regexs.go:11 | `2024-05-28T11:21:25+02:00` is accepted |
| ValidationRegexs.MissingSecondsRejected | validation/regexs.go:11 | a time without seconds is refused |
| ValidationRegexs.LeapDayExamples | validation/regexs.go:11 | 29 February is accepted in 2024 and 2000 and refused in 2023 and 1900 |

## Left out

- Hazelcast client lifecycle and transport: `NewHazelcastCache`, `NewHazelcastCacheWithClient`, the context and the `GetClient`/`GetMap` accessors are not modelled; a failing `GetMap` or map operation is an input (`Remote`).
- A failed map operation (`Set` in `Put`, the map's `Delete` in `Delete`) is assumed to leave the cluster's map unchanged. In Go these are remote calls, and an error (a timed-out invocation, say) does not guarantee the operation was not applied. So the "failure changes nothing" clauses of `CacheHazelcast.PutStore`, `CacheHazelcast.DeleteStore`, `CacheHazelcast.PutFailure` and `CacheHazelcast.DeleteFailure` hold by this assumption when the failure is the map operation. They follow from the Go code itself only for a failing `GetMap` or a failing encoding.
- JSON syntax: `json.Marshal`/`json.Unmarshal` at the cache's type T are an abstract codec; the round-trip law is the `Lawful` predicate, a precondition of the lemmas that need it.
- Listener delivery: the Hazelcast client runs the closures on its own goroutines. The model dispatches notifications one at a time. The notification for a put or delete is built from the store (`PutNotification`, `DeleteNotification`), which stands in for the cluster.
- The `entry.Key.(string)` assertion in `GetQuery`, which can panic, is not modelled: keys are strings.
- The cluster's entry-set order is whatever `:|` picks; the model proves the query result for every order, but does not pin one down.
- `CacheHazelcast.HazelcastCache.AddListener`: records that the map is listened to; the closures themselves are the pure `Dispatch`.
- The `*WithContext` methods declared in `cache/cache.go`: `cache/hazelcast.go` has no implementation of them.
- `strconv.Unquote`: only the double-quoted form is modelled, since every caller first checks for a leading quote. A `\x` or octal escape above 0x7F makes a raw byte, which is not a Dafny character; the model reports failure for it.
- `strings.ToLower` and `strings.EqualFold` are modelled for ASCII only. Some non-ASCII runes lower-case to ASCII letters in Go.
- `json.Marshal` on strings is modelled with Go's escaping of `<`, `>`, `&`, control characters and U+2028/U+2029. Invalid UTF-8 cannot occur in a Dafny string.
- `Tracing.TraceContext.CurrentSpan`, `Tracing.TraceContext.RootSpan`, `Tracing.TraceContext.GetSpanN` and `Tracing.TraceContext.LastSpan` return a copy of a span record, where Go returns the `trace.Span` handle held in the list. Effects through a returned span (`End`, `SetAttributes` called by the caller) are not modelled: they change the list in Go, and with it what `CurrentSpan` returns later; in the model only the context's own methods change the list.
- OpenTelemetry: spans are records (name, recording flag, attributes, parent index). `Start` is taken to return a recording span. Tracer providers, exporters, propagation and `tracing/util.go` are not modelled.
- `Tracing.TraceContext.Context`: returns the span index the context carries, not a `context.Context`.
- `os.ReadDir`, `filepath.Join` and plugin loading: the listing and the loader are inputs. The loader receives the entry name, not the joined path.
- `RunLifecyclePhase`: Go visits the map in no fixed order, and the model lets `:|` choose. The extension's own `Configure`/`Enable`/`Disable` effects are recorded as calls. A panic is an outcome, not an unwinding.
- `UtilHazelcast.HazelcastZerologLogger.Log`: the output is a list of (level, message) pairs, not zerolog's writer. The lazy message (`f` is called only when the message is written) is not observable with a pure `f`. The Hazelcast weight constants are a datatype, not their numeric values.
- `NewHazelcastZerologLoggerWithLogger` (util/hazelcast.go:22-24) differs from `NewHazelcastZerologLogger` only in which zerolog logger is written to; the model has one log output, so both are the one constructor.
- The `CLOSED` status expected by `enum/circuit_breaker_status_test.go` is not modelled: the source does not define it.
- `pkg/enum/delivery_type_test.go` is not modelled: the delivery type it tests is not part of this model.
- Message and resource DTOs (`message/`, `pkg/message/`, `resource/`, `pkg/resource/`), `types/timestamp.go`, the validator wrappers in `validation/` and `pkg/validation/`, and the `test/` helpers hold no logic of their own and are not modelled.
- `String` on the enum types is the identity and carries no contract of its own; `MarshalJSON` states it.

## Findings

| source | as written | input that shows it | evidently intended | confidence | as-written member | corrected member |
|---|---|---|---|---|---|---|
| pkg/constant/delivery_type.go:30-44 | `UnmarshalJSON` hands the raw JSON bytes, quotes included, to `ParseDeliveryType`; every JSON string, `"callback"` among them, is rejected. `pkg/resource/subscription.go:24` decodes a `deliveryType` field with this type. | the bytes `"callback"` | strip the quotes before parsing, as every other enum decoder of the library does, so that `json.Marshal` of either constant decodes back to it | not executed | PkgConstantDeliveryType.AsWrittenRejectsJsonString | PkgConstantDeliveryType.MarshalRoundTrip |
