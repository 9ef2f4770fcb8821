/** Pieces the HTTP and timer payloads share: the untagged `InputBinding`
    enum of src/lib.rs, the flattened map of extra `Data` members it is
    collected into, and the `Metadata.sys` record both payloads declare
    (src/http.rs and src/timer.rs declare it twice, field for field). */
module TriggerCommon {
  import opened Wrappers
  import opened Json

  /** `InputBinding`: untagged, with the single variant `Blob(String)`. */
  datatype InputBinding = Blob(text: string)

  function DecodeInputBinding(j: Json): (r: Option<InputBinding>)
    ensures r.Some? <==> j.JString?
    ensures r.Some? ==> j == JString(r.value.text)
  {
    var s :- AsString(j);
    Some(Blob(s))
  }

  /** Every member of `data` except the named field holds a JSON string. */
  predicate ExtrasAreStrings(data: map<string, Json>, named: string) {
    forall k :: k in data && k != named ==> data[k].JString?
  }

  /** The `#[serde(flatten)] inputs: HashMap<String, InputBinding>` field:
      every member other than the named field is collected, and one that is
      not a string fails the whole struct. */
  function FlattenedInputs(data: map<string, Json>, named: string): (r: Option<map<string, InputBinding>>)
    ensures r.Some? <==> ExtrasAreStrings(data, named)
    ensures r.Some? ==> r.value.Keys == data.Keys - {named}
    ensures r.Some? ==> forall k :: k in r.value ==> DecodeInputBinding(data[k]) == Some(r.value[k])
  {
    if ExtrasAreStrings(data, named) then
      Some(map k | k in data && k != named :: DecodeInputBinding(data[k]).value)
    else None
  }

  /** `Metadata.sys`. Timestamps and GUIDs are kept as the text that passed
      the foreign parser. */
  datatype Sys = Sys(methodName: string, utcNow: string, randGuid: string)

  /** The members `sys` must have: a string `MethodName`, an RFC 3339
      `UtcNow` and a UUID `RandGuid`; other members are ignored. */
  predicate IsSysShape(j: Json, f: Foreign) {
    && j.JObject?
    && HasString(j.members, "MethodName")
    && HasString(j.members, "UtcNow") && f.dateTime(j.members["UtcNow"].s)
    && HasString(j.members, "RandGuid") && f.uuid(j.members["RandGuid"].s)
  }

  function DecodeSys(j: Json, f: Foreign): (r: Option<Sys>)
    ensures r.Some? <==> IsSysShape(j, f)
    ensures r.Some? ==> j.members["MethodName"] == JString(r.value.methodName)
    ensures r.Some? ==> j.members["UtcNow"] == JString(r.value.utcNow)
    ensures r.Some? ==> j.members["RandGuid"] == JString(r.value.randGuid)
  {
    var o :- AsObject(j);
    var name :- Member(o, "MethodName");
    var methodName :- AsString(name);
    var now :- Member(o, "UtcNow");
    var utcNow :- AsString(now);
    :- Need(f.dateTime(utcNow));
    var guid :- Member(o, "RandGuid");
    var randGuid :- AsString(guid);
    :- Need(f.uuid(randGuid));
    Some(Sys(methodName, utcNow, randGuid))
  }
}
