# Azure Functions custom handler for Rust — a verified model

`azure-functions-rust` lets a Rust program serve as an Azure Functions
custom handler. The Functions host posts each invocation to the handler as
a JSON trigger payload. The library reads that payload into a
`FunctionPayload`: an HTTP, event-hub or timer payload, tried in that order.
It passes the payload to one user handler. It always answers the host with
HTTP status 200 and a JSON response envelope of the form
`{"Outputs":{"res":{"body","statusCode","headers"}},"Logs":[...]}`.

This project models that core in Dafny and proves properties of it.

- `wrappers.dfy`, `json.dfy`, `decimal.dfy`: shared pieces. They hold the
  Option, Result and Completion types. A `Completion` tells a normal return
  from a panic.
  - JSON documents (RFC 8259) are value trees.
  - The foreign parsers are parameters: URL, RFC 3339 `date-time`, UUID, and
    `HashMap` iteration order.
  - Decimal digit strings are used for status codes and the port.
- `response.dfy`: the envelope of src/lib.rs as values.
  - The status enum and its three-digit codes.
  - The builders `default`, `http`, `redirect`, `body`, `body_html` and
    `body_json`.
  - The derived serialisation, and the host's reading of it.
- `utils.dfy`: the duplicate envelope of src/utils/mod.rs. It is a class
  whose builder methods update its fields in place. Each method is proved to
  produce what the value builder computes.
- `tracing.dfy`: `CustomLayer`, the per-invocation log sink. It holds a
  shared list of strings behind every clone of the layer. `on_event` adds an
  event only if its level compares greater than the layer's level.
- `trigger_common.dfy`, `http.dfy`, `timer.dfy`, `event_hub.dfy`: the shape
  each payload must have to be read.
  - The flattened `InputBinding` map of extra `Data` members.
  - The header map that `deserialize_header_map` builds.
  - The signed-in user lookups and the two authentication macros.
- `payload.dfy`: the untagged `FunctionPayload` and the order its variants
  are tried in. Each variant depends on a crate feature.
- `dispatch.dfy`: the port rule, `log_error` and `request_handler`.
- `bindings.dfy`: the `function.json` binding document built from
  `HttpBindingParams`.

Things the model turns into parameters:
- The outcome of reading the request body.
- The JSON text parser.
- The `{:#?}` rendering of an error.
- The serialiser's verdict on a response.
- The user handler. A run of the handler is the sequence of events it
  emitted plus the result it returned, with its environment argument folded
  in.

Where the code and the library's own examples disagree, or where the code
does something a reader might not expect, the model follows the code:

- **Port.** A `FUNCTIONS_CUSTOMHANDLER_PORT` value that is not a `u16` stops
  the process through `expect` (src/lib.rs:67). Only an unset or non-Unicode
  variable gives 3000. `Dispatch.MalformedPortsPanic` states it.
- **Log filter.** The comments in the example programs
  (examples/http_trigger/src/main.rs:7-9, examples/timer_trigger/src/main.rs:7-8,
  examples/event_hub_trigger/src/main.rs:7-9) say that the `info!` messages
  beside them are captured and reach Application Insights. The code drops
  them. The capture layer keeps an event only when its level compares
  strictly greater than INFO (src/custom_tracing.rs:33, src/lib.rs:113), and
  in `tracing` a more verbose level compares greater. So a handler's DEBUG
  and TRACE events reach `Logs`, and its INFO, WARN and ERROR events do not.
  `CustomTracing.HandlerLevelKeepsOnlyDebugAndTrace` states it, and
  `Dispatch.TracedSuccessReply` carries it to the reply.
- **Builds without the `tracing` feature.** src/lib.rs:113 names
  `custom_tracing` without the feature gate, so such a build would not
  compile. The model still gives the non-tracing branch
  (src/lib.rs:145-149) its meaning.
- **Event-hub revisions.** src/payload.rs imports a
  `triggers::http::HttpPayload` that src/triggers/http.rs does not define.
  src/lib.rs is taken as the coherent revision. The event-hub revision is a
  parameter: the one in src/event_hub.rs accepts any `EnqueuedTimeUtc`
  string, and the one in src/triggers/event_hub.rs requires RFC 3339.

## Model

| member | source | states |
|---|---|---|
| Response.HttpStatusCode.Code | src/lib.rs:249-262 | each status serialises as the three-digit decimal rendering of its numeric code |
| Response.StatusFromCode | src/lib.rs:249-262 | a code string that is read back names the status that serialises to it |
| Response.StatusCodeRoundTrip | src/lib.rs:249-262 | reading back a status's code gives that status |
| Response.StatusCodeInjective | src/lib.rs:249-262 | no two statuses share a code |
| Response.FunctionsResponse.Default | src/lib.rs:185-191 | the default response has an empty body, no headers, no logs and status BadRequest |
| Response.FunctionsResponse.Http | src/lib.rs:194-198 | the result differs from the default only in its status |
| Response.FunctionsResponse.Redirect | src/lib.rs:200-209 | status Found, empty body, no logs, and exactly one header, Location set to the URL |
| Response.FunctionsResponse.Body | src/lib.rs:211-217 | only the body changes |
| Response.FunctionsResponse.BodyHtml | src/lib.rs:219-229 | body set; Content-Type is inserted or overwritten as text/html; other headers, status and logs are kept |
| Response.FunctionsResponse.BodyJson | src/lib.rs:231-241 | a serialisation error is returned as is; otherwise the body becomes the JSON text and Content-Type becomes application/json, with everything else kept |
| Response.FunctionsResponse.ToJson | src/lib.rs:244-270 | the derived serialisation has exactly the members Outputs.res.{body, statusCode, headers} and Logs; `EnvelopeRoundTrip` and `CanonicalEnvelopeIsSerialised` show it reads back and loses nothing |
| Response.EnvelopeRoundTrip | src/lib.rs:185-191 | the serialised envelope has exactly the envelope's members and reads back as the response it came from |
| Response.CanonicalEnvelopeIsSerialised | src/lib.rs:244-270 | an envelope-shaped document that reads as a response is that response's serialisation |
| Utils.FunctionsResponse.Default | src/utils/mod.rs:8-14 | the new object holds the default response, with status BadRequest |
| Utils.FunctionsResponse.Http | src/utils/mod.rs:17-21 | the new object holds the default response with the given status |
| Utils.FunctionsResponse.Redirect | src/utils/mod.rs:23-32 | the new object holds status Found and the single header Location set to the URL |
| Utils.FunctionsResponse.Body | src/utils/mod.rs:34-40 | the object afterwards holds the old response with only the body replaced |
| Utils.FunctionsResponse.BodyHtml | src/utils/mod.rs:42-52 | the object afterwards holds what `body_html` computes from the old response |
| Utils.FunctionsResponse.BodyJson | src/utils/mod.rs:54-64 | a serialisation error is returned before anything is written (the source drops the moved `self` on that path); otherwise the object holds what `body_json` computes |
| CustomTracing.Greater | src/custom_tracing.rs:33 | `>` on `tracing::Level` is the chain TRACE > DEBUG > INFO > WARN > ERROR; `HandlerLevelKeepsOnlyDebugAndTrace` applies it at INFO |
| CustomTracing.HandlerLevelKeepsOnlyDebugAndTrace | src/custom_tracing.rs:33 | at INFO, an event is kept if and only if it is DEBUG or TRACE |
| CustomTracing.Captured | src/custom_tracing.rs:33-35 | never more entries than events; none kept gives an empty list; all kept gives every rendering in emission order |
| CustomTracing.CapturedAppend | src/custom_tracing.rs:34 | entries already captured are never changed or removed, and later entries follow them |
| CustomTracing.CapturedFromRecorded | src/custom_tracing.rs:33-35 | every entry is the rendering of an emitted event that passed the level test |
| CustomTracing.EventLog.constructor | src/custom_tracing.rs:14 | a new shared list is empty |
| CustomTracing.CustomLayer.constructor | src/custom_tracing.rs:12-17 | a new layer has a fresh empty list and the given level |
| CustomTracing.CustomLayer.Clone | src/custom_tracing.rs:5-9 | a clone shares the original's list and level |
| CustomTracing.CustomLayer.Share | src/custom_tracing.rs:5-9 | builds a layer over a given list and level |
| CustomTracing.CustomLayer.Get | src/custom_tracing.rs:19-21 | returns every entry in order, changing nothing |
| CustomTracing.CustomLayer.OnEvent | src/custom_tracing.rs:28-36 | appends the event's rendering exactly when its level compares greater; otherwise the list is unchanged; the list stays equal to what the level test let through |
| CustomTracing.CaptureRun | src/lib.rs:113-134 | events delivered through the registered clone are all read back through the original layer, in order, as `Captured` at INFO |
| TriggerCommon.DecodeInputBinding | src/lib.rs:179-183 | an input binding reads exactly a JSON string, as `Blob` |
| TriggerCommon.FlattenedInputs | src/http.rs:53-58 | succeeds exactly when every member besides the named field is a string, and collects all of them |
| TriggerCommon.DecodeSys | src/http.rs:111-119 | `sys` reads exactly when MethodName is a string, UtcNow is RFC 3339 and RandGuid is a UUID; the fields are the sent strings |
| Http.MethodFromName | src/http.rs:60-78 | exactly the eight upper-case names read, each as the method of that name |
| Http.MethodNameRoundTrip | src/http.rs:60-78 | every method's name reads back as that method |
| Http.IsHeaderName | src/http.rs:127 | a name `HeaderName::from_str` accepts is a non-empty RFC 9110 token, so it holds no colon, space or control character |
| Http.Lower | src/http.rs:127 | a header name is stored with each ASCII capital replaced by its small letter |
| Http.Append | src/http.rs:127 | `append` adds the value after those already under the name and leaves other names alone |
| Http.HeaderMapOf | src/http.rs:121-131 | the header map is built if and only if every sent name is an RFC 9110 token, whatever the iteration order |
| Http.DeserializeHeaderMap | src/http.rs:121-131 | the loop returns exactly `HeaderMapOf` for the order the `HashMap` is iterated in |
| Http.AppendInOrderKeys | src/http.rs:126-128 | the names in the map are exactly the normalised sent names |
| Http.AppendInOrderKeepsEntry | src/http.rs:126-128 | every sent value list is present under its normalised name |
| Http.AppendInOrderSources | src/http.rs:126-128 | every value list in the map was sent under a name that normalises to its key |
| Http.AppendInOrderSingle | src/http.rs:126-128 | when one sent name normalises to a key, that key holds exactly its value list, in any iteration order |
| Http.DecodeBody | src/http.rs:90-91 | Body may be absent, null or a string; anything else fails |
| Http.DecodeDataRequest | src/http.rs:80-92 | `req` reads exactly when Url is a valid URL, Method is one of the eight names, Query is a string map, Headers is a map of string lists with token names and Body is well formed; each field is what was sent |
| Http.DecodeHttp | src/http.rs:39-58 | the HTTP variant reads exactly when `Data.req` is well formed, every other Data member is a string and `Metadata.sys` is well formed |
| Http.MethodNameIsSent | src/http.rs:47-50 | `method_name` is `Metadata.sys.MethodName` as sent |
| Http.FirstHeaderValue | src/http.rs:94-98 | absent name gives None; otherwise the first string of the first list; an empty list panics |
| Http.AppendInOrderFirst | src/http.rs:126-128 | the first value list under a name is the list of some sent name that normalises to it |
| Http.HeaderLookupFromWire | src/http.rs:94-103 | on a decoded request, the user lookups match sent names case-insensitively: None when no sent name matches; otherwise the first string of the list of one matching sent name, or a panic when that list is empty, for any iteration order; with one matching name, exactly that name's list decides |
| Http.RequireAuth | src/http.rs:9-18 | with no user id the handler returns the default response with status Unauthorized; with one it goes on |
| Http.RequireAuthRedirect | src/http.rs:20-37 | with no user id the handler returns a Found response whose body and Location are both the login URL followed by the request URL |
| Timer.OptionalTimestamp | src/timer.rs:45-50 | Last and LastUpdated must be present and be null or RFC 3339 |
| Timer.DecodeScheduleStatus | src/timer.rs:43-51 | ScheduleStatus reads exactly when Next is RFC 3339 and Last and LastUpdated are null or RFC 3339 |
| Timer.DecodeTimerInfo | src/timer.rs:27-41 | `Data.timer` reads exactly when Schedule.AdjustForDST and IsPastDue are booleans and ScheduleStatus is well formed |
| Timer.DecodeTimer | src/timer.rs:6-25 | the timer variant reads exactly when `Data.timer` is well formed, every other Data member is a string and `Metadata.sys` is well formed |
| Timer.MethodNameIsSent | src/timer.rs:14-18 | `method_name` is `Metadata.sys.MethodName` as sent |
| Timer.NeverRunTimerDecodes | src/timer.rs:45-50 | a timer whose Last and LastUpdated are null still reads, with both absent |
| EventHub.DecodeEventHub | src/event_hub.rs:3-25 | the event-hub variant reads exactly when Data is a string, EnqueuedTimeUtc is a string (RFC 3339 in the later revision) and the device id is a string; each field is what was sent |
| EventHub.Rfc3339RevisionIsStricter | src/triggers/event_hub.rs:4-24 | whatever the later revision reads, the earlier one reads the same way |
| EventHub.RevisionsDifferOnlyOnTimestamp | src/triggers/event_hub.rs:10-13 | the revisions disagree exactly on an enqueued time that is not RFC 3339 |
| Payload.DecodePayload | src/lib.rs:168-177 | reading succeeds exactly when some enabled variant's shape matches; otherwise the error is serde's untagged-enum message; a variant is only produced when its feature is on |
| Payload.ShapesExclusive | src/payload.rs:11-20 | no document has the shape of two of the enum's variants |
| Payload.DecodeByShape | src/payloads/mod.rs:10-19 | a document of a variant's shape reads as that variant whenever its feature is on, so the try order never decides |
| Payload.MethodNameOfDecoded | src/triggers/event_hub.rs:26-30 | a decoded payload has a method name exactly when it is not an event-hub one, and it is the name sent |
| Dispatch.ParseU16 | src/lib.rs:67 | accepts an optional `+` and then digits whose value is below 65536 |
| Dispatch.Port | src/lib.rs:65-69 | 3000 when the variable cannot be read; otherwise exactly the value `ParseU16` reads, and a panic when it does not parse |
| Dispatch.PortRoundTrip | src/lib.rs:65-69 | every port from 0 to 65535 can be configured, with or without a `+` |
| Dispatch.LeadingZeroPort | src/lib.rs:67 | a value with a leading zero, "08080", binds port 8080 |
| Dispatch.MalformedPortsPanic | src/lib.rs:67 | empty, a lone `+`, a negative number and 65536 stop the process |
| Dispatch.ErrorResponse | src/lib.rs:93 | the error response has status BadRequest, the generic body, no headers and one log entry |
| Dispatch.LogError | src/lib.rs:89-95 | status 200, JSON content type, and a body that is exactly the serialisation of the error response |
| Dispatch.ReadPayload | src/lib.rs:117-126 | a read, parse or decode failure gives the described error; a success is the decoded payload |
| Dispatch.Respond | src/lib.rs:128-149 | with tracing, outputs are kept and logs replaced by the captured entries, and a failure becomes the generic response with the error appended; without tracing, a failure is passed on |
| Dispatch.RequestHandler | src/lib.rs:103-166 | every reply is 200 with JSON content; each failing stage answers with `log_error`; otherwise the body is the response's serialisation |
| Dispatch.EveryReplyIsAnEnvelope | src/lib.rs:151-165 | the host can always read the reply as a response envelope |
| Dispatch.UnreadableRequestReply | src/lib.rs:123-126 | a payload no variant reads gets the error response naming the untagged-enum error |
| Dispatch.TracedSuccessReply | src/lib.rs:128-136 | the handler's outputs reach the host unchanged; its logs are the captured entries, each the rendering of an emitted DEBUG or TRACE event |
| Dispatch.TracedFailureReply | src/lib.rs:137-142 | a handler error reaches the host as status 400, the generic body, no headers, and the captured entries followed by the error |
| Dispatch.UntracedFailureReply | src/lib.rs:145-149 | without tracing, a handler error reaches the host as the error response with only that error logged |
| Dispatch.NotFoundRouteScenario | examples/simple_http/src/main.rs:17-20 | the example's fallback route reaches the host as statusCode "404", body "path not found", and no logs |
| Bindings.ToString | src/bindings/http.rs:16-20 | the document is the fixed template with the route between its two parts, recoverable from it |
| Bindings.ToStringIgnoresMethods | src/bindings/http.rs:18 | the method list does not affect the document |
| Bindings.QuotedRouteIsLost | src/bindings/http.rs:18 | as written, any route with a quote after plain text gives a document whose route cannot be read back |
| Bindings.QuoteInRouteExample | src/bindings/http.rs:18 | the route `a"b` gives a document whose route cannot be read back |
| Bindings.EscapeRoundTrip | src/bindings/http.rs:18 | an escaped route followed by a closing quote reads back as the route |
| Bindings.ToStringEscaped | src/bindings/http.rs:18 | with escaping, the host reads back exactly the route |
| Bindings.PlainRouteUnchanged | src/bindings/http.rs:18 | for a route with nothing to escape, escaping changes nothing, so the document as written already reads back |

`Http.UserId` and `Http.UserName` are `FirstHeaderValue` applied to the two
principal headers. `Payload.MethodName`, `Http.HttpPayload.MethodName` and
`Timer.TimerPayload.MethodName` are field projections. `HttpBindingParams::new`
is the datatype constructor. The plain records of src/bindings/mod.rs,
src/triggers/mod.rs and src/triggers/http.rs are the datatypes
`Bindings.InputBinding`, `Bindings.Trigger` and `Bindings.HttpTriggerParams`.

## Left out

- TCP bind, the accept loop, task spawning, connection serving and body
  collection (src/lib.rs:70-87, 97-101): network I/O and concurrency. Only
  the success or failure of reading the body is modelled.
- The `Response::builder()` failure branch (src/lib.rs:161-163). The status
  and header are constants that cannot fail, so the model always builds the
  reply.
- JSON text: serde_json's byte-level parsing and printing, duplicate member
  names, and the array form of structs that serde also accepts. Documents are
  value trees. The parser and the serialiser's verdict are parameters.
- Dispatch.RequestHandler: the reply body is the JSON value; the text
  `serde_json::to_string` makes of it is not modelled.
- The `{:#?}` rendering of errors and events, and the position serde_json
  appends to error messages: a rendering parameter whose text is opaque.
- URL parsing, RFC 3339 parsing, UUID parsing and `HashMap` iteration order:
  foreign code, passed in as functions. Header lemmas assume only that the
  order lists every key once.
- Http.DecodeDataRequest: the `Url` field keeps the text the URL parser
  gives back, not a parsed URL. Timestamps and GUIDs are likewise kept as
  the accepted text.
- Http.IsHeaderName: `HeaderName`'s length limit is not modelled; any
  non-empty token is accepted.
- Http.HttpMethod: serde's map form of a unit variant (`{"GET": null}`) is
  not accepted by the model.
- Bindings.ReadStringRest: a `\u` escape naming half of a UTF-16 surrogate
  pair is rejected rather than joined with its partner. The corrected
  escaper never produces one.
- The subscriber wiring (`with_subscriber`, `LogTracer::init`) and the mutex
  around the event list: events reach the layer one at a time, in emission
  order.
- The example programs other than the simple_http router, and any handler
  registry: demo code, and types the library does not define.

## Findings

| source | as written | input that shows it | evidently intended | confidence | as-written member | corrected member |
|---|---|---|---|---|---|---|
| src/bindings/http.rs:18 | the route is put between quotes in the JSON document without escaping | route `a"b` | the route written as a JSON string, so the host reads it back | high; not executed | Bindings.QuoteInRouteExample | Bindings.ToStringEscaped |
