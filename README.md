# UnrealTableHttp request builder and completion router, in Dafny

UnrealTableHttp describes HTTP calls in two Unreal data tables. A *service row*
(`FHttpServiceRow`) holds a base URL, default headers and a timeout. A *request
row* (`FHttpRequestRow`) names its service row and holds the verb, the path,
header overrides, a timeout and the response-handler class. A
`UDataTableHttpRequest` object holds a handle to one request row. It turns the
two rows into a request plan (`BuildRequest`), gives that plan to the engine's
HTTP module (`Send`), and on completion calls a freshly created handler object
and broadcasts on one of its two delegates, `OnRequestFailed` and
`OnRequestSucceed`.

The model has three files:

- `wrappers.dfy`: `Option`, which stands for a pointer that may be null.
- `header_maps.dfy` (module `HeaderMaps`): the engine's `TMap<FString, FString>`
  as the header merge uses it. Keys compare ignoring case, and `AddHeader`
  models `TMap::Add`.
- `http_rows.dfy` (module `HttpRows`): the header's declarations. It holds the
  verb and status enumerations, the two row records with their default values,
  `VerbToFString`, and the default handler class, whose callbacks do nothing.
- `http_request.dfy` (module `HttpRequest`): the implementation file. It holds
  the specification function `ResolveRequest` and a model of the response-code
  `switch`. It also holds the class `DataTableHttpRequest`, whose methods
  `BuildRequest`, `Send` and `OnProcessRequestComplete` keep the header loops
  of the source. Transport calls, handler calls and broadcasts are entries of
  the class's event log (`seq<Event>`). The completion's behaviour is the
  function `CompletionEvents`, and lemmas state how it routes.

Data tables are maps from row key to row (`ConfigStore`). A row handle is an
`Option<RowKey>`, which is None while the handle is unset. Header maps
(`HeaderMap`) behave like the engine's `TMap<FString, FString>`: keys compare
without regard to case, so a map never holds two keys that differ only in
case. Adding a key replaces any entry whose key matches it ignoring case. The transport's
outcome is given to the completion method as three plain inputs: whether a
response object exists, its response code, and the connectivity flag.

The model follows the code as written, including three behaviours that a
reader of the declarations alone would not expect:

- The `switch` on the response code (DataTableHttpRequest.cpp:45-53) has no
  `break`. Control falls through to `default:`, so every code is classified as
  `Http_WhyDoYouHateMe`. The enumeration names seventeen HTTP codes, but no
  code maps to them, and the model does not invent such a table.
  `ClassifyResponseCode` states the fall-through result.
- A connected completion calls `HandleSuccess` and then broadcasts
  `OnRequestFailed`. A disconnected one calls `HandleFailure` and then
  broadcasts `OnRequestSucceed` (cpp:55-72). The broadcast channel thus
  disagrees with the handler call, and the model keeps it that way.
- The response-data object given to the handler and the listeners is created
  empty (cpp:43). Nothing copies the transport's headers or body into it.

## Model

| member | source | states |
|---|---|---|
| `HttpRows.VerbCode` | Source/UnrealTableHttp/Public/DataTableHttpRequest.h:9-16 | each declared verb is stored as its position in the declaration order `[Get, Put, Post, Patch, Delete]`, so distinct verbs get distinct bytes below 5 |
| `HeaderMaps.AddHeader` | Source/UnrealTableHttp/Private/DataTableHttpRequest.cpp:91-96 | `Headers.Add` drops every entry whose key equals the new key ignoring case, keeps every other entry unchanged, and stores the new key with its value |
| `HttpRows.VerbToFString` | Source/UnrealTableHttp/Public/DataTableHttpRequest.h:143-164 | the result is always one of GET/PUT/POST/PATCH/DELETE; anything other than GET comes only from a declared non-Get verb |
| `HttpRows.VerbToFStringOfDeclared` | Source/UnrealTableHttp/Public/DataTableHttpRequest.h:147-160 | Get, Put, Post, Patch and Delete map to "GET", "PUT", "POST", "PATCH" and "DELETE" |
| `HttpRows.VerbToFStringUndeclared` | Source/UnrealTableHttp/Public/DataTableHttpRequest.h:161-162 | a byte that is no declared verb yields "GET" |
| `HttpRows.VerbToFStringInjective` | Source/UnrealTableHttp/Public/DataTableHttpRequest.h:151-160 | two declared verbs with the same method name are the same verb |
| `HttpRows.StatusOrdinal` | Source/UnrealTableHttp/Public/DataTableHttpRequest.h:19-39 | every status has a position in the list of all enumerators, and that position holds it |
| `HttpRows.StatusEnumerationClosed` | Source/UnrealTableHttp/Public/DataTableHttpRequest.h:19-39 | the status enumeration has exactly 18 distinct members, every status is one of them, and the catch-all `Http_WhyDoYouHateMe` is last |
| `HttpRows.DefaultTimeoutsAreFive` | Source/UnrealTableHttp/Public/DataTableHttpRequest.h:114-138 | a freshly constructed service row and request row both have timeout 5 |
| `HttpRows.ResponseHandler.constructor` | Source/UnrealTableHttp/Public/DataTableHttpRequest.h:76-83 | a new handler has the class it was created from and an unset `RequestRow` |
| `HttpRows.ResponseHandler.HandleSuccess` | Source/UnrealTableHttp/Public/DataTableHttpRequest.h:91 | the default success callback changes nothing |
| `HttpRows.ResponseHandler.HandleFailure` | Source/UnrealTableHttp/Public/DataTableHttpRequest.h:93 | the default failure callback changes nothing |
| `HttpRequest.GetRow` | Source/UnrealTableHttp/Private/DataTableHttpRequest.cpp:81-85 | the definition of the abstracted `FDataTableRowHandle::GetRow` lookup: a row exactly when the handle is set and names a row of the table, and then that row |
| `HttpRequest.MergeHeaders` | Source/UnrealTableHttp/Private/DataTableHttpRequest.cpp:88-97 | the merged keys are every request key plus every default key that no request key matches ignoring case; request values win; unmatched defaults keep their value; every default key is still present in some spelling |
| `HttpRequest.MergeThenAdd` | Source/UnrealTableHttp/Private/DataTableHttpRequest.cpp:94-97 | adding one more request header to a partial merge gives the merge that includes it, so the second loop's order does not matter |
| `HttpRequest.MergeIgnoresCase` | Source/UnrealTableHttp/Private/DataTableHttpRequest.cpp:88-97 | a default `Content-Type` and a request `content-type` merge into the single request header |
| `HttpRequest.ResolveRequest` | Source/UnrealTableHttp/Private/DataTableHttpRequest.cpp:79-113 | no plan exactly when a handle is unset or the request row or its service row is missing; otherwise the merged header keys are the request keys plus the default keys that no request key matches ignoring case, request headers win, unmatched defaults keep their value, the URI is the base URL followed by the path with no separator (and has their summed length), the timeout is at most each timeout and equal to one of them, and the verb is `VerbToFString` of the row's verb |
| `HttpRequest.DefaultRequestRowNeverResolves` | Source/UnrealTableHttp/Private/DataTableHttpRequest.cpp:81-85 | a request row left at its defaults has an unset service handle, so it resolves to no plan, whatever the tables hold |
| `HttpRequest.ResolveDefaultRows` | Source/UnrealTableHttp/Private/DataTableHttpRequest.cpp:88-107 | a request row at its defaults, except for a handle naming a service row left at its defaults, resolves to a five-second GET with an empty URI and no headers |
| `HttpRequest.CaseIndex` | Source/UnrealTableHttp/Private/DataTableHttpRequest.cpp:45-53 | the index found is the first arm with the label, or past the end when no arm has it |
| `HttpRequest.EntryCase` | Source/UnrealTableHttp/Private/DataTableHttpRequest.cpp:45-53 | control enters the `switch` at the arm labelled with the code, else at `default:`, else after the last arm |
| `HttpRequest.RunWithoutBreak` | Source/UnrealTableHttp/Private/DataTableHttpRequest.cpp:45-53 | running arms with no `break` from any arm leaves the last arm's assignment; running none leaves the status as it was |
| `HttpRequest.ClassifyResponseCode` | Source/UnrealTableHttp/Private/DataTableHttpRequest.cpp:44-53 | every response code, 200 and 201 included, classifies as `Http_WhyDoYouHateMe` |
| `HttpRequest.HandlerFor` | Source/UnrealTableHttp/Private/DataTableHttpRequest.cpp:25-30 | a handler is created exactly when the request row still resolves at completion, and it is of that row's `ResponseHandler` class |
| `HttpRequest.CompletionEvents` | Source/UnrealTableHttp/Private/DataTableHttpRequest.cpp:25-72 | no entry of a completion is a transport call; every handler call and broadcast carries `Http_WhyDoYouHateMe`; its response data is null exactly when there is no response object, and otherwise the empty object |
| `HttpRequest.CompletionBroadcastsOnce` | Source/UnrealTableHttp/Private/DataTableHttpRequest.cpp:25-72 | a completion makes exactly one broadcast, as its last entry; one handler call precedes it exactly when the request row resolves; no transport call is made |
| `HttpRequest.CompletionWithoutResponse` | Source/UnrealTableHttp/Private/DataTableHttpRequest.cpp:32-41 | with no response, whatever the flag and the code: `HandleFailure(Http_WhyDoYouHateMe, null)` when a handler exists, then `OnRequestFailed` with the same arguments |
| `HttpRequest.CompletionConnected` | Source/UnrealTableHttp/Private/DataTableHttpRequest.cpp:43-63 | with a response and a connection: `HandleSuccess`, then an `OnRequestFailed` broadcast, both with the catch-all status and empty response data |
| `HttpRequest.CompletionDisconnected` | Source/UnrealTableHttp/Private/DataTableHttpRequest.cpp:64-72 | with a response and no connection: `HandleFailure`, then an `OnRequestSucceed` broadcast, both with the catch-all status and empty response data |
| `HttpRequest.DataTableHttpRequest.BuildRequest` | Source/UnrealTableHttp/Private/DataTableHttpRequest.cpp:79-113 | the two header loops and the field assignments produce exactly the plan `ResolveRequest` describes, and nothing changes |
| `HttpRequest.DataTableHttpRequest.constructor` | Source/UnrealTableHttp/Public/DataTableHttpRequest.h:168-174 | a new request object holds the given row handle and tables, an empty log and no outstanding transport call |
| `HttpRequest.DataTableHttpRequest.Send` | Source/UnrealTableHttp/Private/DataTableHttpRequest.cpp:6-77 | with no plan, the log and the count of outstanding calls are unchanged, so no completion can follow; otherwise exactly one transport call is appended, carrying the plan's verb, URI, timeout, every merged header and the given body, and the completion is bound to it (one more outstanding call) |
| `HttpRequest.DataTableHttpRequest.OnProcessRequestComplete` | Source/UnrealTableHttp/Private/DataTableHttpRequest.cpp:22-73 | the completion runs only for an outstanding transport call and consumes it; it appends exactly `CompletionEvents` for the current tables and the transport outcome, and changes nothing else |

## Left out

- The HTTP transport (`FHttpModule`, `CreateRequest`, `ProcessRequest`) and its scheduling and threading. `Send` records the configured request as one log entry. The completion is a separate method called with the outcome as inputs.
- The reference capture of the lambda (`[&]`) and object lifetimes. These are memory and concurrency concerns. The completion reads the object's current row handle and tables.
- Data-table storage and the internals of `FDataTableRowHandle::GetRow`. A handle is an optional key into a map. An unset handle or a missing key stands for every way the lookup can fail.
- Case-insensitive key comparison folds ASCII letters only, as the engine's character upper-casing does. Headers are kept as a map, so the order of a `TMap`'s entries is not modelled.
- `NewObject` allocation details, the reflection macros, Blueprint exposure and `DisplayName` strings.
- Multicast delegates: each broadcast is one log entry, and subscribers are not modelled.
- Handler subclasses: every handler behaves like the base class, whose callbacks do nothing.
- `DataTableHttpRequest.OnProcessRequestComplete`, `HttpRequest.HandlerFor`, `HttpRequest.CompletionEvents`, `HttpRequest.CompletionBroadcastsOnce`, `HttpRequest.CompletionWithoutResponse`, `HttpRequest.CompletionConnected` and `HttpRequest.CompletionDisconnected` all require `HandlerBindable`: a request row that still resolves at completion must name a handler class. This excludes a row whose `ResponseHandler` was never set, `DefaultRequestRow` among them. For such a row, `NewObject` at cpp:29 fails the engine's class check and the completion aborts. That abort is not modelled.
- The `float` type of the plan's timeout: it is kept as the integer minimum, so rounding of very large values is not modelled.
- Headers the engine's HTTP module adds by itself, and how it stores the headers `SetHeader` gives it. The model records them as a map, and the plan never holds two keys that differ only in case.
