/** The per-invocation log sink of src/custom_tracing.rs. A `CustomLayer`
    holds a shared, growable list of rendered events and a fixed level; the
    subscriber hands it every event the handler emits, and it keeps those
    whose level compares strictly greater than its own. In the `tracing`
    crate a MORE VERBOSE level compares greater (TRACE > DEBUG > INFO > WARN
    > ERROR), so a layer made with INFO keeps only DEBUG and TRACE events.
    The mutex around the list and the subscriber wiring are not modelled:
    events arrive one at a time, in emission order. */
module CustomTracing {

  datatype Level = Trace | Debug | Info | Warn | Error

  /** The position of a level in `tracing`'s ordering: greater is more verbose. */
  function Verbosity(l: Level): nat {
    match l
    case Error => 0
    case Warn => 1
    case Info => 2
    case Debug => 3
    case Trace => 4
  }

  /** `a > b` on `tracing::Level`: the chain TRACE > DEBUG > INFO > WARN > ERROR. */
  predicate Greater(a: Level, b: Level): (r: bool)
    ensures r <==> || (a == Trace && b != Trace)
                   || (a == Debug && (b == Info || b == Warn || b == Error))
                   || (a == Info && (b == Warn || b == Error))
                   || (a == Warn && b == Error)
  {
    Verbosity(a) > Verbosity(b)
  }

  /** An event: its level and its `{:#?}` rendering, kept as opaque text. */
  datatype Event = Event(level: Level, rendered: string)

  /** The test `on_event` applies before keeping an event. */
  predicate Records(configured: Level, e: Event) {
    Greater(e.level, configured)
  }

  /** The level the request handler configures its layer with. */
  const HANDLER_LEVEL: Level := Info

  /** A layer at INFO keeps DEBUG and TRACE events and drops INFO, WARN and ERROR ones. */
  lemma HandlerLevelKeepsOnlyDebugAndTrace(e: Event)
    ensures Records(HANDLER_LEVEL, e) <==> e.level == Debug || e.level == Trace
  {
  }

  /** What a layer at `configured` holds after the events `emitted` reached it, in order. */
  function Captured(configured: Level, emitted: seq<Event>): (r: seq<string>)
    ensures |r| <= |emitted|
    ensures (forall i :: 0 <= i < |emitted| ==> !Records(configured, emitted[i])) ==> r == []
    ensures (forall i :: 0 <= i < |emitted| ==> Records(configured, emitted[i])) ==>
              |r| == |emitted| && forall i :: 0 <= i < |r| ==> r[i] == emitted[i].rendered
  {
    if emitted == [] then []
    else
      var last := emitted[|emitted| - 1];
      Captured(configured, emitted[..|emitted| - 1]) + (if Records(configured, last) then [last.rendered] else [])
  }

  /** Capturing is a homomorphism: what the first events left is never
      modified or removed by later ones, and later entries come after. */
  lemma {:induction false} CapturedAppend(configured: Level, first: seq<Event>, later: seq<Event>)
    ensures Captured(configured, first + later) == Captured(configured, first) + Captured(configured, later)
    decreases |later|
  {
    if later == [] {
      assert first + later == first;
    } else {
      var n := |later| - 1;
      assert (first + later)[..|first + later| - 1] == first + later[..n];
      CapturedAppend(configured, first, later[..n]);
    }
  }

  /** Every entry comes from an event of the run that passed the level test. */
  lemma {:induction false} CapturedFromRecorded(configured: Level, emitted: seq<Event>, i: nat)
    requires i < |Captured(configured, emitted)|
    ensures exists j :: 0 <= j < |emitted| && Records(configured, emitted[j]) && emitted[j].rendered == Captured(configured, emitted)[i]
  {
    var n := |emitted| - 1;
    var prefix := Captured(configured, emitted[..n]);
    if i < |prefix| {
      CapturedFromRecorded(configured, emitted[..n], i);
      var j :| 0 <= j < n && Records(configured, emitted[..n][j]) && emitted[..n][j].rendered == prefix[i];
      assert emitted[j] == emitted[..n][j];
    } else {
      assert Records(configured, emitted[n]);
    }
  }

  /** The list behind `Arc<Mutex<Vec<String>>>`, shared by a layer and its clones.
      `delivered` is the history of events handed to any layer sharing it. */
  class EventLog {
    var entries: seq<string>
    ghost var delivered: seq<Event>

    constructor ()
      ensures entries == [] && delivered == []
    {
      entries := [];
      delivered := [];
    }
  }

  class CustomLayer {
    const events: EventLog
    const level: Level

    /** The shared list holds exactly what the level test let through. */
    ghost predicate Valid()
      reads this, events
    {
      events.entries == Captured(level, events.delivered)
    }

    /** `CustomLayer::new`: a fresh empty list and the given level. */
    constructor (level: Level)
      ensures Valid() && fresh(events)
      ensures this.level == level && events.entries == [] && events.delivered == []
    {
      this.events := new EventLog();
      this.level := level;
    }

    /** `#[derive(Clone)]`: a new layer over the SAME list and level. */
    method Clone() returns (c: CustomLayer)
      ensures fresh(c) && c.events == events && c.level == level
    {
      c := new CustomLayer.Share(events, level);
    }

    constructor Share(events: EventLog, level: Level)
      ensures this.events == events && this.level == level
    {
      this.events := events;
      this.level := level;
    }

    /** `get`: a copy of every entry, in order; nothing is cleared. */
    method Get() returns (r: seq<string>)
      requires Valid()
      ensures r == events.entries
      ensures r == Captured(level, events.delivered)
    {
      r := events.entries;
    }

    /** `on_event`: append the rendering exactly when the event's level
        compares strictly greater than the layer's. */
    method OnEvent(e: Event)
      requires Valid()
      modifies events
      ensures Valid()
      ensures events.delivered == old(events.delivered) + [e]
      ensures events.entries == old(events.entries) + (if Records(level, e) then [e.rendered] else [])
    {
      events.delivered := events.delivered + [e];
      if Greater(e.level, level) {
        events.entries := events.entries + [e.rendered];
      }
      assert events.delivered[..|events.delivered| - 1] == old(events.delivered);
    }
  }

  /** One invocation's capture, as src/lib.rs wires it: a layer at INFO is
      made, a clone of it goes to the subscriber that receives the handler's
      events, and the entries are then read through the original. Because
      the clone shares the original's list, the original sees every entry. */
  method CaptureRun(emitted: seq<Event>) returns (logs: seq<string>)
    ensures logs == Captured(HANDLER_LEVEL, emitted)
  {
    var events := new CustomLayer(HANDLER_LEVEL);
    var registered := events.Clone();
    for i := 0 to |emitted|
      invariant events.Valid()
      invariant events.events.delivered == emitted[..i]
    {
      registered.OnEvent(emitted[i]);
      assert emitted[..i + 1] == emitted[..i] + [emitted[i]];
    }
    assert emitted[..|emitted|] == emitted;
    logs := events.Get();
  }
}
