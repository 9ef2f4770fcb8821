/** `FunctionPayload`, the untagged enum every invocation body is read into
    (declared in src/lib.rs, src/payload.rs and src/payloads/mod.rs). Each
    variant exists only when its crate feature is on, and serde tries the
    variants in declaration order — HTTP, event hub, timer — keeping the
    first that reads the document. */
module Payload {
  import opened Wrappers
  import opened Json
  import H = Http
  import E = EventHub
  import T = Timer

  /** The crate features that switch the variants on. */
  datatype Features = Features(http: bool, eventHub: bool, timer: bool)

  datatype FunctionPayload =
    | HttpData(http: H.HttpPayload)
    | EventHubData(eventHub: E.EventHubPayload)
    | TimerData(timer: T.TimerPayload)

  /** The message serde gives when no variant reads the document. */
  const NO_VARIANT: string := "data did not match any variant of untagged enum FunctionPayload"

  /** Some enabled variant reads the document. */
  predicate Accepts(j: Json, f: Foreign, features: Features, rev: E.Revision) {
    || (features.http && H.IsHttpShape(j, f))
    || (features.eventHub && E.IsEventHubShape(j, f, rev))
    || (features.timer && T.IsTimerShape(j, f))
  }

  function DecodePayload(j: Json, f: Foreign, features: Features, rev: E.Revision): (r: Result<FunctionPayload, string>)
    ensures r.Success? <==> Accepts(j, f, features, rev)
    ensures r.Failure? ==> r.error == NO_VARIANT
    ensures r.Success? && r.value.HttpData? ==> features.http && H.DecodeHttp(j, f) == Some(r.value.http)
    ensures r.Success? && r.value.EventHubData? ==> features.eventHub && E.DecodeEventHub(j, f, rev) == Some(r.value.eventHub)
    ensures r.Success? && r.value.TimerData? ==> features.timer && T.DecodeTimer(j, f) == Some(r.value.timer)
  {
    if features.http && H.DecodeHttp(j, f).Some? then Success(HttpData(H.DecodeHttp(j, f).value))
    else if features.eventHub && E.DecodeEventHub(j, f, rev).Some? then Success(EventHubData(E.DecodeEventHub(j, f, rev).value))
    else if features.timer && T.DecodeTimer(j, f).Some? then Success(TimerData(T.DecodeTimer(j, f).value))
    else Failure(NO_VARIANT)
  }

  /** No document has the shape of two variants: an event-hub `Data` is a
      string where the others need an object, and an HTTP `Data.req` is an
      object where a timer payload allows only strings beside `timer`. */
  lemma ShapesExclusive(j: Json, f: Foreign, rev: E.Revision)
    ensures !(H.IsHttpShape(j, f) && E.IsEventHubShape(j, f, rev))
    ensures !(H.IsHttpShape(j, f) && T.IsTimerShape(j, f))
    ensures !(E.IsEventHubShape(j, f, rev) && T.IsTimerShape(j, f))
  {
  }

  /** So the declaration order never decides the outcome: a document of a
      variant's shape reads as that variant whenever its feature is on. */
  lemma DecodeByShape(j: Json, f: Foreign, features: Features, rev: E.Revision)
    ensures features.http && H.IsHttpShape(j, f) ==>
              DecodePayload(j, f, features, rev) == Success(HttpData(H.DecodeHttp(j, f).value))
    ensures features.eventHub && E.IsEventHubShape(j, f, rev) ==>
              DecodePayload(j, f, features, rev) == Success(EventHubData(E.DecodeEventHub(j, f, rev).value))
    ensures features.timer && T.IsTimerShape(j, f) ==>
              DecodePayload(j, f, features, rev) == Success(TimerData(T.DecodeTimer(j, f).value))
  {
    ShapesExclusive(j, f, rev);
  }

  /** The method name of a payload: HTTP and timer payloads carry one,
      event-hub payloads do not. */
  function MethodName(p: FunctionPayload): Option<string> {
    match p
    case HttpData(h) => Some(h.MethodName())
    case EventHubData(_) => None
    case TimerData(t) => Some(t.MethodName())
  }

  /** A decoded payload names a method exactly when it is not an event-hub
      one, and the name is `Metadata.sys.MethodName` as sent. */
  lemma MethodNameOfDecoded(j: Json, f: Foreign, features: Features, rev: E.Revision)
    requires DecodePayload(j, f, features, rev).Success?
    ensures MethodName(DecodePayload(j, f, features, rev).value).Some? <==>
              !DecodePayload(j, f, features, rev).value.EventHubData?
    ensures MethodName(DecodePayload(j, f, features, rev).value).Some? ==>
              j.members["Metadata"].members["sys"].members["MethodName"] ==
                JString(MethodName(DecodePayload(j, f, features, rev).value).value)
  {
    var p := DecodePayload(j, f, features, rev).value;
    match p
    case HttpData(h) => H.MethodNameIsSent(j, f);
    case EventHubData(_) =>
    case TimerData(t) => T.MethodNameIsSent(j, f);
  }
}
