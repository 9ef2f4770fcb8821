/** The timer trigger payload of src/timer.rs: the `Data.timer` record with
    its schedule and schedule status, the flattened extra inputs and
    `Metadata.sys`. Timestamps are kept as the text the RFC 3339 parser
    accepted. */
module Timer {
  import opened Wrappers
  import opened Json
  import opened TriggerCommon

  datatype Schedule = Schedule(adjustForDst: bool)

  /** `Last` and `LastUpdated` are null for a timer that never ran. */
  datatype ScheduleStatus = ScheduleStatus(last: Option<string>, next: string, lastUpdated: Option<string>)

  datatype TimerInfo = TimerInfo(schedule: Schedule, scheduleStatus: ScheduleStatus, isPastDue: bool)

  datatype TimerPayloadData = TimerPayloadData(timer: TimerInfo, inputs: map<string, InputBinding>)

  datatype TimerPayload = TimerPayload(data: TimerPayloadData, sys: Sys) {
    /** `method_name`: the function name the host assigned to this invocation. */
    function MethodName(): string {
      sys.methodName
    }
  }

  /** A field read with `time::serde::rfc3339::option`: it has a custom
      decoder and no default, so it must be present; null or an RFC 3339
      string. */
  predicate IsOptionalTimestamp(o: map<string, Json>, key: string, f: Foreign) {
    key in o && (o[key].JNull? || (o[key].JString? && f.dateTime(o[key].s)))
  }

  function OptionalTimestamp(o: map<string, Json>, key: string, f: Foreign): (r: Option<Option<string>>)
    ensures r.Some? <==> IsOptionalTimestamp(o, key, f)
    ensures r.Some? && r.value.Some? ==> key in o && o[key] == JString(r.value.value)
    ensures r.Some? && r.value.None? ==> key in o && o[key] == JNull
  {
    var v :- Member(o, key);
    if v.JNull? then Some(None)
    else
      var text :- AsString(v);
      :- Need(f.dateTime(text));
      Some(Some(text))
  }

  /** A field read with `time::serde::rfc3339`: a string the parser accepts. */
  predicate IsTimestamp(o: map<string, Json>, key: string, f: Foreign) {
    HasString(o, key) && f.dateTime(o[key].s)
  }

  predicate IsScheduleStatusShape(j: Json, f: Foreign) {
    && j.JObject?
    && IsOptionalTimestamp(j.members, "Last", f)
    && IsTimestamp(j.members, "Next", f)
    && IsOptionalTimestamp(j.members, "LastUpdated", f)
  }

  function DecodeScheduleStatus(j: Json, f: Foreign): (r: Option<ScheduleStatus>)
    ensures r.Some? <==> IsScheduleStatusShape(j, f)
    ensures r.Some? ==> OptionalTimestamp(j.members, "Last", f) == Some(r.value.last)
    ensures r.Some? ==> j.members["Next"] == JString(r.value.next)
    ensures r.Some? ==> OptionalTimestamp(j.members, "LastUpdated", f) == Some(r.value.lastUpdated)
  {
    var o :- AsObject(j);
    var last :- OptionalTimestamp(o, "Last", f);
    var n :- Member(o, "Next");
    var next :- AsString(n);
    :- Need(f.dateTime(next));
    var lastUpdated :- OptionalTimestamp(o, "LastUpdated", f);
    Some(ScheduleStatus(last, next, lastUpdated))
  }

  /** The members `Data.timer` must have. */
  predicate IsTimerInfoShape(j: Json, f: Foreign) {
    && j.JObject?
    && HasObject(j.members, "Schedule") && HasBool(j.members["Schedule"].members, "AdjustForDST")
    && "ScheduleStatus" in j.members && IsScheduleStatusShape(j.members["ScheduleStatus"], f)
    && HasBool(j.members, "IsPastDue")
  }

  function DecodeTimerInfo(j: Json, f: Foreign): (r: Option<TimerInfo>)
    ensures r.Some? <==> IsTimerInfoShape(j, f)
    ensures r.Some? ==> j.members["Schedule"].members["AdjustForDST"] == JBool(r.value.schedule.adjustForDst)
    ensures r.Some? ==> DecodeScheduleStatus(j.members["ScheduleStatus"], f) == Some(r.value.scheduleStatus)
    ensures r.Some? ==> j.members["IsPastDue"] == JBool(r.value.isPastDue)
  {
    var o :- AsObject(j);
    var s :- Member(o, "Schedule");
    var schedule :- AsObject(s);
    var a :- Member(schedule, "AdjustForDST");
    var adjust :- AsBool(a);
    var st :- Member(o, "ScheduleStatus");
    var status :- DecodeScheduleStatus(st, f);
    var p :- Member(o, "IsPastDue");
    var pastDue :- AsBool(p);
    Some(TimerInfo(Schedule(adjust), status, pastDue))
  }

  /** The members a timer payload must have: `Data` with a well-formed
      `timer` and only strings beside it, and `Metadata.sys`. */
  predicate IsTimerShape(j: Json, f: Foreign) {
    && j.JObject?
    && HasObject(j.members, "Data")
    && "timer" in j.members["Data"].members
    && IsTimerInfoShape(j.members["Data"].members["timer"], f)
    && ExtrasAreStrings(j.members["Data"].members, "timer")
    && HasObject(j.members, "Metadata")
    && "sys" in j.members["Metadata"].members
    && IsSysShape(j.members["Metadata"].members["sys"], f)
  }

  function DecodeTimer(j: Json, f: Foreign): (r: Option<TimerPayload>)
    ensures r.Some? <==> IsTimerShape(j, f)
    ensures r.Some? ==> DecodeTimerInfo(j.members["Data"].members["timer"], f) == Some(r.value.data.timer)
    ensures r.Some? ==> FlattenedInputs(j.members["Data"].members, "timer") == Some(r.value.data.inputs)
    ensures r.Some? ==> DecodeSys(j.members["Metadata"].members["sys"], f) == Some(r.value.sys)
  {
    var o :- AsObject(j);
    var d :- Member(o, "Data");
    var data :- AsObject(d);
    var t :- Member(data, "timer");
    var timer :- DecodeTimerInfo(t, f);
    var inputs :- FlattenedInputs(data, "timer");
    var m :- Member(o, "Metadata");
    var metadata :- AsObject(m);
    var s :- Member(metadata, "sys");
    var sys :- DecodeSys(s, f);
    Some(TimerPayload(TimerPayloadData(timer, inputs), sys))
  }

  /** `method_name` hands back the `Metadata.sys.MethodName` string as sent. */
  lemma MethodNameIsSent(j: Json, f: Foreign)
    requires DecodeTimer(j, f).Some?
    ensures j.members["Metadata"].members["sys"].members["MethodName"] == JString(DecodeTimer(j, f).value.MethodName())
  {
  }

  /** A timer that has never run (both `Last` and `LastUpdated` null) is
      accepted, and decodes with both absent. */
  lemma NeverRunTimerDecodes(j: Json, f: Foreign)
    requires IsTimerShape(j, f)
    requires j.members["Data"].members["timer"].members["ScheduleStatus"].members["Last"] == JNull
    requires j.members["Data"].members["timer"].members["ScheduleStatus"].members["LastUpdated"] == JNull
    ensures DecodeTimer(j, f).Some?
    ensures DecodeTimer(j, f).value.data.timer.scheduleStatus.last == None
    ensures DecodeTimer(j, f).value.data.timer.scheduleStatus.lastUpdated == None
  {
  }
}
