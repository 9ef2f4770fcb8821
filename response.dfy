/** The response envelope of src/lib.rs: `FunctionsResponse` with its
    `Outputs.res` record and `Logs`, the logical status enum with its
    numeric-string encoding, the builders handlers use to fill it in, and the
    JSON shape the derived `Serialize` gives it. */
module Response {
  import opened Wrappers
  import opened Json
  import Decimal

  /** The logical status a handler reports; `BadRequest` is the default. */
  datatype HttpStatusCode = Ok | Found | BadRequest | Unauthorized | NotFound {

    function Numeric(): nat {
      match this
      case Ok => 200
      case Found => 302
      case BadRequest => 400
      case Unauthorized => 401
      case NotFound => 404
    }

    /** The string the status is serialised as (the `serde(rename)` of each variant). */
    function Code(): (s: string)
      ensures s == Decimal.Render(Numeric())
      ensures |s| == 3
    {
      match this
      case Ok => assert Decimal.Render(20) == "20"; "200"
      case Found => assert Decimal.Render(30) == "30"; "302"
      case BadRequest => assert Decimal.Render(40) == "40"; "400"
      case Unauthorized => assert Decimal.Render(40) == "40"; "401"
      case NotFound => assert Decimal.Render(40) == "40"; "404"
    }
  }

  /** Reads a serialised status back; the inverse of `Code`. */
  function StatusFromCode(s: string): (r: Option<HttpStatusCode>)
    ensures r.Some? ==> r.value.Code() == s
  {
    if s == "200" then Some(Ok)
    else if s == "302" then Some(Found)
    else if s == "400" then Some(BadRequest)
    else if s == "401" then Some(Unauthorized)
    else if s == "404" then Some(NotFound)
    else None
  }

  lemma {:induction false} StatusCodeRoundTrip(c: HttpStatusCode)
    ensures StatusFromCode(c.Code()) == Some(c)
  {
    match c
    case Ok =>
    case Found =>
    case BadRequest =>
    case Unauthorized =>
    case NotFound =>
  }

  /** Distinct statuses never share an encoding. */
  lemma StatusCodeInjective(a: HttpStatusCode, b: HttpStatusCode)
    requires a.Code() == b.Code()
    ensures a == b
  {
    StatusCodeRoundTrip(a);
    StatusCodeRoundTrip(b);
  }

  const CONTENT_TYPE: string := "Content-Type"
  const LOCATION: string := "Location"

  datatype FunctionsResponseData = FunctionsResponseData(
    body: string,
    statusCode: HttpStatusCode,
    headers: map<string, string>)

  datatype FunctionsOutput = FunctionsOutput(res: FunctionsResponseData)

  datatype FunctionsResponse = FunctionsResponse(outputs: FunctionsOutput, logs: seq<string>) {

    /** `FunctionsResponse::default()`. */
    static function Default(): (r: FunctionsResponse)
      ensures r.outputs.res.body == "" && r.outputs.res.headers == map[] && r.logs == []
      ensures r.outputs.res.statusCode == BadRequest
    {
      FunctionsResponse(FunctionsOutput(FunctionsResponseData("", BadRequest, map[])), [])
    }

    /** A default response with the given status and nothing else changed. */
    static function Http(code: HttpStatusCode): (r: FunctionsResponse)
      ensures r.outputs.res.statusCode == code
      ensures r.outputs.res.body == Default().outputs.res.body
      ensures r.outputs.res.headers == Default().outputs.res.headers
      ensures r.logs == Default().logs
    {
      var d := Default();
      d.(outputs := d.outputs.(res := d.outputs.res.(statusCode := code)))
    }

    /** A `Found` response whose only header points at `url`; the body stays empty. */
    static function Redirect(url: string): (r: FunctionsResponse)
      ensures r.outputs.res.statusCode == Found
      ensures r.outputs.res.body == ""
      ensures r.outputs.res.headers.Keys == {LOCATION} && r.outputs.res.headers[LOCATION] == url
      ensures r.logs == []
    {
      var d := Default();
      d.(outputs := d.outputs.(res := d.outputs.res.(statusCode := Found, headers := d.outputs.res.headers[LOCATION := url])))
    }

    /** Replaces the body and nothing else. */
    function Body(b: string): (r: FunctionsResponse)
      ensures r.outputs.res.body == b
      ensures r.outputs.res.statusCode == outputs.res.statusCode
      ensures r.outputs.res.headers == outputs.res.headers
      ensures r.logs == logs
    {
      this.(outputs := outputs.(res := outputs.res.(body := b)))
    }

    /** Replaces the body and the header `name` (inserting or overwriting it),
        keeping every other header, the status and the logs. */
    function WithBodyAndHeader(b: string, name: string, value: string): (r: FunctionsResponse)
      ensures r.outputs.res.body == b
      ensures r.outputs.res.headers.Keys == outputs.res.headers.Keys + {name}
      ensures r.outputs.res.headers[name] == value
      ensures forall k :: k in outputs.res.headers && k != name ==> r.outputs.res.headers[k] == outputs.res.headers[k]
      ensures r.outputs.res.statusCode == outputs.res.statusCode && r.logs == logs
    {
      this.(outputs := outputs.(res := outputs.res.(body := b, headers := outputs.res.headers[name := value])))
    }

    /** `body_html`: the body becomes `value` and `Content-Type` becomes
        `text/html`, overwriting an earlier `Content-Type` entry. */
    function BodyHtml(value: string): (r: FunctionsResponse)
      ensures r.outputs.res.body == value
      ensures r.outputs.res.headers.Keys == outputs.res.headers.Keys + {CONTENT_TYPE}
      ensures r.outputs.res.headers[CONTENT_TYPE] == "text/html"
      ensures forall k :: k in outputs.res.headers && k != CONTENT_TYPE ==> r.outputs.res.headers[k] == outputs.res.headers[k]
      ensures r.outputs.res.statusCode == outputs.res.statusCode && r.logs == logs
    {
      WithBodyAndHeader(value, CONTENT_TYPE, "text/html")
    }

    /** `body_json`: `rendered` is what `serde_json::to_string` made of the
        value. A serialisation error is handed back and the response dropped;
        otherwise the body becomes the JSON text and `Content-Type` becomes
        `application/json`. */
    function BodyJson(rendered: Result<string, string>): (r: Result<FunctionsResponse, string>)
      ensures rendered.Failure? ==> r == Failure(rendered.error)
      ensures rendered.Success? ==> r.Success?
      ensures rendered.Success? ==> r.value.outputs.res.body == rendered.value
      ensures rendered.Success? ==> r.value.outputs.res.headers.Keys == outputs.res.headers.Keys + {CONTENT_TYPE}
      ensures rendered.Success? ==> r.value.outputs.res.headers[CONTENT_TYPE] == "application/json"
      ensures rendered.Success? ==> forall k :: k in outputs.res.headers && k != CONTENT_TYPE ==>
                                      r.value.outputs.res.headers[k] == outputs.res.headers[k]
      ensures rendered.Success? ==> r.value.outputs.res.statusCode == outputs.res.statusCode && r.value.logs == logs
    {
      var text :- rendered;
      Success(WithBodyAndHeader(text, CONTENT_TYPE, "application/json"))
    }

    /** The JSON document the derived `Serialize` produces, with the field
        renames `Outputs`, `statusCode` and `Logs`: exactly the envelope's
        members, with `EnvelopeRoundTrip` showing they read back. */
    function ToJson(): (j: Json)
      ensures IsCanonical(j)
    {
      JObject(map[
        "Outputs" := JObject(map[
          "res" := JObject(map[
            "body" := JString(outputs.res.body),
            "statusCode" := JString(outputs.res.statusCode.Code()),
            "headers" := FromStringMap(outputs.res.headers)])]),
        "Logs" := FromStrings(logs)])
    }
  }

  /** Reads an envelope the way the host does: the reference against which
      `ToJson` is checked. */
  function EnvelopeFromJson(j: Json): Option<FunctionsResponse> {
    var top :- AsObject(j);
    var outputs :- Member(top, "Outputs");
    var o :- AsObject(outputs);
    var res :- Member(o, "res");
    var fields :- AsObject(res);
    var body :- Member(fields, "body");
    var text :- AsString(body);
    var status :- Member(fields, "statusCode");
    var code :- AsString(status);
    var statusCode :- StatusFromCode(code);
    var headers :- Member(fields, "headers");
    var hs :- StringMap(headers);
    var logs :- Member(top, "Logs");
    var ls :- StringList(logs);
    Some(FunctionsResponse(FunctionsOutput(FunctionsResponseData(text, statusCode, hs)), ls))
  }

  /** `j` has exactly the members an envelope has, and no others. */
  predicate IsCanonical(j: Json) {
    && j.JObject? && j.members.Keys == {"Outputs", "Logs"}
    && j.members["Outputs"].JObject? && j.members["Outputs"].members.Keys == {"res"}
    && j.members["Outputs"].members["res"].JObject?
    && j.members["Outputs"].members["res"].members.Keys == {"body", "statusCode", "headers"}
  }

  /** An envelope-shaped document the host accepts is exactly the
      serialisation of what it reads: reading loses nothing. */
  lemma CanonicalEnvelopeIsSerialised(j: Json)
    requires IsCanonical(j) && EnvelopeFromJson(j).Some?
    ensures EnvelopeFromJson(j).value.ToJson() == j
  {
    var r := EnvelopeFromJson(j).value;
    var res := j.members["Outputs"].members["res"];
    assert FromStringMap(r.outputs.res.headers) == res.members["headers"];
    assert FromStrings(r.logs) == j.members["Logs"];
    assert JString(r.outputs.res.statusCode.Code()) == res.members["statusCode"];
    assert r.ToJson().members["Outputs"].members["res"] == res;
    assert r.ToJson().members["Outputs"] == j.members["Outputs"];
  }

  /** Every serialised envelope reads back as the response it came from. */
  lemma EnvelopeRoundTrip(r: FunctionsResponse)
    ensures IsCanonical(r.ToJson())
    ensures EnvelopeFromJson(r.ToJson()) == Some(r)
  {
    StatusCodeRoundTrip(r.outputs.res.statusCode);
  }
}
