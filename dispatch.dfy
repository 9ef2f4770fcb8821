/** The request pipeline of src/lib.rs: the listening port chosen from the
    environment, `log_error`, and `request_handler`, which reads the
    invocation body into a `FunctionPayload`, runs the user's handler with a
    log capture around it, and always answers the host with status 200 and a
    JSON response envelope.

    What the pipeline cannot see is a parameter: the outcome of collecting
    the body, the JSON text parser, the handler (with its environment folded
    in: a run is the events it emitted and the result it returned), the
    serialiser's verdict on the final response, and the `{:#?}` rendering of
    an error value. */
module Dispatch {
  import opened Wrappers
  import opened Json
  import Decimal
  import R = Response
  import CT = CustomTracing
  import P = Payload
  import E = EventHub

  // ---------------------------------------------------------------------
  // The listening port

  /** `std::env::var`: unset, set to something that is not Unicode, or set. */
  datatype EnvVar = NotPresent | NotUnicode | Present(value: string)

  const PORT_KEY: string := "FUNCTIONS_CUSTOMHANDLER_PORT"
  const DEFAULT_PORT: nat := 3000
  const U16_LIMIT: nat := 0x1_0000

  /** The digits `u16::from_str` reads: one leading `+` is dropped. */
  function Digits(s: string): string {
    if |s| > 0 && s[0] == '+' then s[1..] else s
  }

  /** `u16::from_str`: an optional `+` and then at least one ASCII digit,
      with a value below 65536 (leading zeros allowed); anything else,
      including a sign on its own or a `-`, is an error. */
  function ParseU16(s: string): (r: Option<nat>)
    ensures r.Some? <==> |Digits(s)| > 0 && Decimal.AllDigits(Digits(s)) && Decimal.Value(Digits(s)) < U16_LIMIT
    ensures r.Some? ==> r.value == Decimal.Value(Digits(s)) && r.value < U16_LIMIT
  {
    var digits := Digits(s);
    if |digits| == 0 || !Decimal.AllDigits(digits) then None
    else if Decimal.Value(digits) >= U16_LIMIT then None
    else Some(Decimal.Value(digits))
  }

  /** The port `azure_func_init` binds on 127.0.0.1: 3000 when the variable
      cannot be read, otherwise its value as a `u16`; a value that does not
      parse stops the process (the `expect`), it does not fall back. */
  function Port(v: EnvVar): (r: Completion<nat>)
    ensures !v.Present? ==> r == Returns(DEFAULT_PORT)
    ensures v.Present? ==> (r.Panics? <==> ParseU16(v.value).None?)
    ensures v.Present? && ParseU16(v.value).Some? ==> r == Returns(ParseU16(v.value).value)
    ensures r.Returns? ==> r.value < U16_LIMIT
  {
    match v
    case Present(text) =>
      (match ParseU16(text)
       case Some(port) => Returns(port)
       case None => Panics)
    case NotPresent => Returns(DEFAULT_PORT)
    case NotUnicode => Returns(DEFAULT_PORT)
  }

  /** Every port can be configured, written plainly or with a `+`. */
  lemma {:induction false} PortRoundTrip(port: nat)
    requires port < U16_LIMIT
    ensures Port(Present(Decimal.Render(port))) == Returns(port)
    ensures Port(Present("+" + Decimal.Render(port))) == Returns(port)
  {
    var text := Decimal.Render(port);
    assert text[0] != '+' by {
      assert Decimal.IsDigit(text[0]);
    }
    assert Digits(text) == text;
    assert Digits("+" + text) == text;
  }

  /** Leading zeros are accepted and do not change the port. */
  lemma {:induction false} LeadingZeroPort()
    ensures Port(Present("08080")) == Returns(8080)
  {
    var text := "08080";
    assert Digits(text) == text;
    assert Decimal.Value(text[..1]) == 0;
    assert text[..2][..1] == text[..1];
    assert Decimal.Value(text[..2]) == 8;
    assert text[..3][..2] == text[..2];
    assert Decimal.Value(text[..3]) == 80;
    assert text[..4][..3] == text[..3];
    assert Decimal.Value(text[..4]) == 808;
    assert text[..4] == text[..|text| - 1];
    assert Decimal.Value(text) == 8080;
  }

  /** Values that stop the process instead of falling back to 3000. */
  lemma {:induction false} MalformedPortsPanic()
    ensures Port(Present("")) == Panics
    ensures Port(Present("+")) == Panics
    ensures Port(Present("-1")) == Panics
    ensures Port(Present("65536")) == Panics
  {
    assert !Decimal.IsDigit('-');
    var big := "65536";
    assert Digits(big) == big;
    assert Decimal.Value(big[..1]) == 6;
    assert big[..2][..1] == big[..1];
    assert Decimal.Value(big[..2]) == 65;
    assert big[..3][..2] == big[..2];
    assert Decimal.Value(big[..3]) == 655;
    assert big[..4][..3] == big[..3];
    assert Decimal.Value(big[..4]) == 6553;
    assert big[..4] == big[..|big| - 1];
    assert Decimal.Value(big) == 65536;
  }

  // ---------------------------------------------------------------------
  // Replies

  const GENERIC_ERROR: string := "An error occurred while processing the request, check the log for a detailed error message."
  const JSON_CONTENT_TYPE: string := "application/json"

  /** The HTTP response handed back to the host. Its body is the JSON
      document whose text is sent. */
  datatype Reply = Reply(status: nat, contentType: string, body: Json)

  /** The response every failure is reported with: the default response
      with the generic body, and the one log entry describing the failure. */
  function ErrorResponse(entry: string): (r: R.FunctionsResponse)
    ensures r.outputs.res.statusCode == R.BadRequest
    ensures r.outputs.res.body == GENERIC_ERROR && r.outputs.res.headers == map[]
    ensures r.logs == [entry]
  {
    R.FunctionsResponse.Default().Body(GENERIC_ERROR).(logs := [entry])
  }

  /** `log_error`: the JSON literal it writes is exactly the serialisation
      of `ErrorResponse(entry)`, so the host reads that response back. */
  function LogError(entry: string): (r: Reply)
    ensures r.status == 200 && r.contentType == JSON_CONTENT_TYPE
    ensures r.body == ErrorResponse(entry).ToJson()
    ensures R.EnvelopeFromJson(r.body) == Some(ErrorResponse(entry))
  {
    var body := JObject(map[
      "Outputs" := JObject(map[
        "res" := JObject(map[
          "body" := JString(GENERIC_ERROR),
          "statusCode" := JString("400"),
          "headers" := JObject(map[])])]),
      "Logs" := JArray([JString(entry)])]);
    assert FromStrings([entry]) == JArray([JString(entry)]) by {
      assert FromStrings([entry]).items == [JString(entry)];
    }
    assert FromStringMap(map[]) == JObject(map[]);
    R.EnvelopeRoundTrip(ErrorResponse(entry));
    Reply(200, JSON_CONTENT_TYPE, body)
  }

  // ---------------------------------------------------------------------
  // The request handler

  /** How the library is built and what it calls out to. */
  datatype Config = Config(
    tracing: bool,
    features: P.Features,
    revision: E.Revision,
    foreign: Foreign,
    describe: string -> string)

  /** What one call of the user's handler did: the events it emitted, in
      order, and what it returned. */
  datatype HandlerRun = HandlerRun(emitted: seq<CT.Event>, result: Result<R.FunctionsResponse, string>)

  /** Reading the invocation body: collecting it, parsing it as JSON and
      decoding it into a `FunctionPayload`; the error is the log entry. */
  function ReadPayload(config: Config, body: Result<seq<bv8>, string>, parse: seq<bv8> -> Result<Json, string>): (r: Result<P.FunctionPayload, string>)
    ensures body.Failure? ==> r == Failure(config.describe(body.error))
    ensures body.Success? && parse(body.value).Failure? ==> r == Failure(config.describe(parse(body.value).error))
    ensures body.Success? && parse(body.value).Success? ==>
              (r.Success? <==> P.Accepts(parse(body.value).value, config.foreign, config.features, config.revision))
    ensures body.Success? && parse(body.value).Success? && r.Failure? ==> r.error == config.describe(P.NO_VARIANT)
    ensures r.Success? ==>
              && body.Success? && parse(body.value).Success?
              && P.DecodePayload(parse(body.value).value, config.foreign, config.features, config.revision) == Success(r.value)
  {
    match body
    case Failure(error) => Failure(config.describe(error))
    case Success(bytes) =>
      match parse(bytes)
      case Failure(error) => Failure(config.describe(error))
      case Success(doc) =>
        match P.DecodePayload(doc, config.foreign, config.features, config.revision)
        case Failure(error) => Failure(config.describe(error))
        case Success(payload) => Success(payload)
  }

  /** The response after the handler ran. With `tracing`, the logs become
      what the capture layer kept (the handler's own `logs` are replaced),
      and a handler error becomes the generic response with the error
      appended after the captured entries. Without `tracing`, the handler's
      response is kept as it is and an error goes to `log_error`. */
  function Respond(config: Config, run: HandlerRun): (r: Result<R.FunctionsResponse, string>)
    ensures config.tracing ==> r.Success?
    ensures config.tracing && run.result.Success? ==>
              r.value.outputs == run.result.value.outputs &&
              r.value.logs == CT.Captured(CT.HANDLER_LEVEL, run.emitted)
    ensures config.tracing && run.result.Failure? ==>
              r.value.outputs == R.FunctionsResponse.Default().Body(GENERIC_ERROR).outputs &&
              r.value.logs == CT.Captured(CT.HANDLER_LEVEL, run.emitted) + [config.describe(run.result.error)]
    ensures !config.tracing && run.result.Success? ==> r == Success(run.result.value)
    ensures !config.tracing && run.result.Failure? ==> r == Failure(config.describe(run.result.error))
  {
    if config.tracing then
      var captured := CT.Captured(CT.HANDLER_LEVEL, run.emitted);
      match run.result
      case Success(response) => Success(response.(logs := captured))
      case Failure(error) =>
        Success(R.FunctionsResponse.Default().Body(GENERIC_ERROR).(logs := captured + [config.describe(error)]))
    else
      match run.result
      case Success(response) => Success(response)
      case Failure(error) => Failure(config.describe(error))
  }

  /** `request_handler`. Every path answers 200 with a JSON envelope; a
      failure at any stage answers with `log_error`. `encodeError` is the
      serialiser's error for a response, if it has one. */
  function RequestHandler(
    config: Config,
    body: Result<seq<bv8>, string>,
    parse: seq<bv8> -> Result<Json, string>,
    handler: P.FunctionPayload -> HandlerRun,
    encodeError: R.FunctionsResponse -> Option<string>): (r: Reply)
    ensures r.status == 200 && r.contentType == JSON_CONTENT_TYPE
    ensures ReadPayload(config, body, parse).Failure? ==> r == LogError(ReadPayload(config, body, parse).error)
    ensures ReadPayload(config, body, parse).Success? ==>
              var response := Respond(config, handler(ReadPayload(config, body, parse).value));
              && (response.Failure? ==> r == LogError(response.error))
              && (response.Success? && encodeError(response.value).Some? ==>
                    r == LogError(config.describe(encodeError(response.value).value)))
              && (response.Success? && encodeError(response.value).None? ==>
                    r.body == response.value.ToJson())
  {
    match ReadPayload(config, body, parse)
    case Failure(entry) => LogError(entry)
    case Success(payload) =>
      match Respond(config, handler(payload))
      case Failure(entry) => LogError(entry)
      case Success(response) =>
        match encodeError(response)
        case Some(error) => LogError(config.describe(error))
        case None => Reply(200, JSON_CONTENT_TYPE, response.ToJson())
  }

  /** The host can always read the reply as a response envelope. */
  lemma EveryReplyIsAnEnvelope(
    config: Config,
    body: Result<seq<bv8>, string>,
    parse: seq<bv8> -> Result<Json, string>,
    handler: P.FunctionPayload -> HandlerRun,
    encodeError: R.FunctionsResponse -> Option<string>)
    ensures R.EnvelopeFromJson(RequestHandler(config, body, parse, handler, encodeError).body).Some?
  {
    var read := ReadPayload(config, body, parse);
    if read.Success? {
      var response := Respond(config, handler(read.value));
      if response.Success? {
        R.EnvelopeRoundTrip(response.value);
      }
    }
  }

  /** A request that cannot be read never reaches the handler: the host
      reads a 400 response with the generic body and one log entry. */
  lemma UnreadableRequestReply(
    config: Config,
    body: Result<seq<bv8>, string>,
    parse: seq<bv8> -> Result<Json, string>,
    handler: P.FunctionPayload -> HandlerRun,
    encodeError: R.FunctionsResponse -> Option<string>)
    requires body.Success? && parse(body.value).Success?
    requires !P.Accepts(parse(body.value).value, config.foreign, config.features, config.revision)
    ensures R.EnvelopeFromJson(RequestHandler(config, body, parse, handler, encodeError).body)
              == Some(ErrorResponse(config.describe(P.NO_VARIANT)))
  {
  }

  /** With `tracing`, a handler's successful response reaches the host with
      its outputs untouched and with the captured entries as its logs,
      every one of which is the rendering of a DEBUG or TRACE event the
      handler emitted. */
  lemma {:induction false} TracedSuccessReply(
    config: Config,
    body: Result<seq<bv8>, string>,
    parse: seq<bv8> -> Result<Json, string>,
    handler: P.FunctionPayload -> HandlerRun,
    encodeError: R.FunctionsResponse -> Option<string>)
    requires config.tracing
    requires ReadPayload(config, body, parse).Success?
    requires handler(ReadPayload(config, body, parse).value).result.Success?
    requires encodeError(Respond(config, handler(ReadPayload(config, body, parse).value)).value).None?
    ensures var run := handler(ReadPayload(config, body, parse).value);
            var sent := R.EnvelopeFromJson(RequestHandler(config, body, parse, handler, encodeError).body);
            && sent.Some?
            && sent.value.outputs == run.result.value.outputs
            && sent.value.logs == CT.Captured(CT.HANDLER_LEVEL, run.emitted)
            && forall i :: 0 <= i < |sent.value.logs| ==>
                 exists e :: e in run.emitted && (e.level == CT.Debug || e.level == CT.Trace) && e.rendered == sent.value.logs[i]
  {
    var run := handler(ReadPayload(config, body, parse).value);
    var response := Respond(config, run).value;
    R.EnvelopeRoundTrip(response);
    forall i | 0 <= i < |response.logs|
      ensures exists e :: e in run.emitted && (e.level == CT.Debug || e.level == CT.Trace) && e.rendered == response.logs[i]
    {
      CT.CapturedFromRecorded(CT.HANDLER_LEVEL, run.emitted, i);
      var j :| 0 <= j < |run.emitted| && CT.Records(CT.HANDLER_LEVEL, run.emitted[j]) && run.emitted[j].rendered == response.logs[i];
      CT.HandlerLevelKeepsOnlyDebugAndTrace(run.emitted[j]);
    }
  }

  /** With `tracing`, a handler error reaches the host as the generic 400
      response whose logs are the captured entries followed by the error. */
  lemma TracedFailureReply(
    config: Config,
    body: Result<seq<bv8>, string>,
    parse: seq<bv8> -> Result<Json, string>,
    handler: P.FunctionPayload -> HandlerRun,
    encodeError: R.FunctionsResponse -> Option<string>)
    requires config.tracing
    requires ReadPayload(config, body, parse).Success?
    requires handler(ReadPayload(config, body, parse).value).result.Failure?
    requires encodeError(Respond(config, handler(ReadPayload(config, body, parse).value)).value).None?
    ensures var run := handler(ReadPayload(config, body, parse).value);
            var sent := R.EnvelopeFromJson(RequestHandler(config, body, parse, handler, encodeError).body);
            && sent.Some?
            && sent.value.outputs.res.statusCode == R.BadRequest
            && sent.value.outputs.res.body == GENERIC_ERROR
            && sent.value.outputs.res.headers == map[]
            && sent.value.logs == CT.Captured(CT.HANDLER_LEVEL, run.emitted) + [config.describe(run.result.error)]
  {
    R.EnvelopeRoundTrip(Respond(config, handler(ReadPayload(config, body, parse).value)).value);
  }

  /** Without `tracing`, a handler error reaches the host as the generic 400
      response whose only log entry is the error; nothing emitted is kept. */
  lemma UntracedFailureReply(
    config: Config,
    body: Result<seq<bv8>, string>,
    parse: seq<bv8> -> Result<Json, string>,
    handler: P.FunctionPayload -> HandlerRun,
    encodeError: R.FunctionsResponse -> Option<string>)
    requires !config.tracing
    requires ReadPayload(config, body, parse).Success?
    requires handler(ReadPayload(config, body, parse).value).result.Failure?
    ensures R.EnvelopeFromJson(RequestHandler(config, body, parse, handler, encodeError).body)
              == Some(ErrorResponse(config.describe(handler(ReadPayload(config, body, parse).value).result.error)))
  {
  }

  /** The router of the `simple_http` example answering an unknown function
      name: the host reads status 404, body "path not found", and no logs
      when the handler emitted nothing. */
  lemma NotFoundRouteScenario(
    config: Config,
    body: Result<seq<bv8>, string>,
    parse: seq<bv8> -> Result<Json, string>,
    handler: P.FunctionPayload -> HandlerRun,
    encodeError: R.FunctionsResponse -> Option<string>)
    requires config.tracing
    requires ReadPayload(config, body, parse).Success?
    requires handler(ReadPayload(config, body, parse).value) ==
               HandlerRun([], Success(R.FunctionsResponse.Http(R.NotFound).Body("path not found")))
    requires forall response :: encodeError(response).None?
    ensures var doc := RequestHandler(config, body, parse, handler, encodeError).body;
            && doc.members["Outputs"].members["res"].members["statusCode"] == JString("404")
            && doc.members["Outputs"].members["res"].members["body"] == JString("path not found")
            && doc.members["Logs"] == JArray([])
  {
    var response := Respond(config, handler(ReadPayload(config, body, parse).value)).value;
    assert response.logs == [];
    assert FromStrings([]) == JArray([]) by {
      assert FromStrings([]).items == [];
    }
  }
}
