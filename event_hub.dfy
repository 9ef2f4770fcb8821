/** The event-hub trigger payload. Two revisions of it exist:
    src/event_hub.rs keeps `EnqueuedTimeUtc` as any string, and
    src/triggers/event_hub.rs requires it to parse as RFC 3339. Neither
    gives the payload a method name. */
module EventHub {
  import opened Wrappers
  import opened Json

  datatype SystemProperties = SystemProperties(deviceId: string)

  datatype EventHubMetadata = EventHubMetadata(enqueuedTimeUtc: string, properties: SystemProperties)

  /** `Data` is the event body as one string. */
  datatype EventHubPayload = EventHubPayload(data: string, metadata: EventHubMetadata)

  /** Which declaration of the payload is compiled in. */
  datatype Revision = PlainTimestamp | Rfc3339Timestamp

  const DEVICE_ID: string := "iothub-connection-device-id"

  /** `EnqueuedTimeUtc` as the revision reads it. */
  predicate IsEnqueuedTime(j: Json, f: Foreign, rev: Revision) {
    j.JString? && (rev.Rfc3339Timestamp? ==> f.dateTime(j.s))
  }

  predicate IsEventHubShape(j: Json, f: Foreign, rev: Revision) {
    && j.JObject?
    && HasString(j.members, "Data")
    && HasObject(j.members, "Metadata")
    && "EnqueuedTimeUtc" in j.members["Metadata"].members
    && IsEnqueuedTime(j.members["Metadata"].members["EnqueuedTimeUtc"], f, rev)
    && HasObject(j.members["Metadata"].members, "SystemProperties")
    && HasString(j.members["Metadata"].members["SystemProperties"].members, DEVICE_ID)
  }

  function DecodeEventHub(j: Json, f: Foreign, rev: Revision): (r: Option<EventHubPayload>)
    ensures r.Some? <==> IsEventHubShape(j, f, rev)
    ensures r.Some? ==> j.members["Data"] == JString(r.value.data)
    ensures r.Some? ==> j.members["Metadata"].members["EnqueuedTimeUtc"] == JString(r.value.metadata.enqueuedTimeUtc)
    ensures r.Some? ==> j.members["Metadata"].members["SystemProperties"].members[DEVICE_ID]
                        == JString(r.value.metadata.properties.deviceId)
  {
    var o :- AsObject(j);
    var d :- Member(o, "Data");
    var data :- AsString(d);
    var m :- Member(o, "Metadata");
    var metadata :- AsObject(m);
    var e :- Member(metadata, "EnqueuedTimeUtc");
    var enqueued :- AsString(e);
    :- Need(rev.Rfc3339Timestamp? ==> f.dateTime(enqueued));
    var p :- Member(metadata, "SystemProperties");
    var properties :- AsObject(p);
    var i :- Member(properties, DEVICE_ID);
    var deviceId :- AsString(i);
    Some(EventHubPayload(data, EventHubMetadata(enqueued, SystemProperties(deviceId))))
  }

  /** The RFC 3339 revision accepts a subset of what the plain one accepts,
      and where both accept they read the same payload. */
  lemma Rfc3339RevisionIsStricter(j: Json, f: Foreign)
    requires DecodeEventHub(j, f, Rfc3339Timestamp).Some?
    ensures DecodeEventHub(j, f, PlainTimestamp) == DecodeEventHub(j, f, Rfc3339Timestamp)
  {
  }

  /** The revisions differ exactly on an enqueued time the RFC 3339 parser rejects. */
  lemma RevisionsDifferOnlyOnTimestamp(j: Json, f: Foreign)
    requires DecodeEventHub(j, f, PlainTimestamp).Some?
    ensures DecodeEventHub(j, f, Rfc3339Timestamp).None? <==>
              !f.dateTime(DecodeEventHub(j, f, PlainTimestamp).value.metadata.enqueuedTimeUtc)
  {
  }
}
