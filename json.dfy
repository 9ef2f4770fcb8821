/** JSON documents (RFC 8259) as value trees, the accessors the derived
    serde decoders use on them, and the foreign parsers the decoders call.
    Byte-level reading and printing of JSON text are not part of this model:
    a document arrives here already read into a tree. An object is a map from
    member name to value, so a document with a repeated member name has no
    representation here. */
module Json {
  import opened Wrappers

  datatype Json =
    | JNull
    | JBool(b: bool)
    | JNumber(text: string)
    | JString(s: string)
    | JArray(items: seq<Json>)
    | JObject(members: map<string, Json>)

  /** The crates the decoders hand work to, as the functions they compute:
      `url::Url` parsing (giving the URL's serialisation, as `Url::as_str`
      returns it), RFC 3339 `date-time` recognition by the `time` crate, UUID
      recognition by the `uuid` crate, and the order in which a
      `std::collections::HashMap` with the given key set is iterated. */
  datatype Foreign = Foreign(
    url: string -> Option<string>,
    dateTime: string -> bool,
    uuid: string -> bool,
    hashOrder: set<string> -> seq<string>)

  /** No key is listed twice. */
  predicate Distinct(order: seq<string>) {
    forall i, j :: 0 <= i < j < |order| ==> order[i] != order[j]
  }

  /** `order` lists every key of `keys` exactly once, as iterating a
      `HashMap` with those keys does (in an order nobody promises). */
  ghost predicate Enumerates(order: seq<string>, keys: set<string>) {
    && Distinct(order)
    && (forall k :: k in order <==> k in keys)
  }

  function AsObject(j: Json): (r: Option<map<string, Json>>)
    ensures r.Some? <==> j.JObject?
  {
    if j.JObject? then Some(j.members) else None
  }

  function AsString(j: Json): (r: Option<string>)
    ensures r.Some? <==> j.JString?
  {
    if j.JString? then Some(j.s) else None
  }

  function AsBool(j: Json): (r: Option<bool>)
    ensures r.Some? <==> j.JBool?
  {
    if j.JBool? then Some(j.b) else None
  }

  /** The member a struct field is read from; a missing member fails. */
  function Member(o: map<string, Json>, key: string): (r: Option<Json>)
    ensures r.Some? <==> key in o
  {
    if key in o then Some(o[key]) else None
  }

  predicate HasString(o: map<string, Json>, key: string) {
    key in o && o[key].JString?
  }

  predicate HasBool(o: map<string, Json>, key: string) {
    key in o && o[key].JBool?
  }

  predicate HasObject(o: map<string, Json>, key: string) {
    key in o && o[key].JObject?
  }

  /** A `HashMap<String, String>` field: an object whose members are all strings. */
  predicate IsStringMap(j: Json) {
    j.JObject? && forall k :: k in j.members ==> j.members[k].JString?
  }

  function StringMap(j: Json): (r: Option<map<string, string>>)
    ensures r.Some? <==> IsStringMap(j)
    ensures r.Some? ==> r.value.Keys == j.members.Keys
    ensures r.Some? ==> forall k :: k in r.value ==> j.members[k] == JString(r.value[k])
  {
    if IsStringMap(j) then Some(map k | k in j.members :: j.members[k].s) else None
  }

  predicate IsStringArray(j: Json) {
    j.JArray? && forall i :: 0 <= i < |j.items| ==> j.items[i].JString?
  }

  /** A `Vec<String>` value: an array whose items are all strings. */
  function StringList(j: Json): (r: Option<seq<string>>)
    ensures r.Some? <==> IsStringArray(j)
    ensures r.Some? ==> |r.value| == |j.items|
    ensures r.Some? ==> forall i :: 0 <= i < |r.value| ==> j.items[i] == JString(r.value[i])
  {
    if IsStringArray(j) then Some(seq(|j.items|, i requires 0 <= i < |j.items| => j.items[i].s)) else None
  }

  /** A `HashMap<String, Vec<String>>` field: an object whose members are all string arrays. */
  predicate IsStringListMap(j: Json) {
    j.JObject? && forall k :: k in j.members ==> IsStringArray(j.members[k])
  }

  function StringListMap(j: Json): (r: Option<map<string, seq<string>>>)
    ensures r.Some? <==> IsStringListMap(j)
    ensures r.Some? ==> r.value.Keys == j.members.Keys
    ensures r.Some? ==> forall k :: k in r.value ==> StringList(j.members[k]) == Some(r.value[k])
  {
    if IsStringListMap(j) then Some(map k | k in j.members :: StringList(j.members[k]).value) else None
  }

  /** The JSON text of a string array, as serde serialises a `Vec<String>`. */
  function FromStrings(ss: seq<string>): (j: Json)
    ensures StringList(j) == Some(ss)
  {
    var j := JArray(seq(|ss|, i requires 0 <= i < |ss| => JString(ss[i])));
    assert StringList(j).value == ss;
    j
  }

  /** The JSON object serde makes of a `HashMap<String, String>`. */
  function FromStringMap(m: map<string, string>): (j: Json)
    ensures StringMap(j) == Some(m)
  {
    var j := JObject(map k | k in m :: JString(m[k]));
    assert StringMap(j).value == m;
    j
  }
}
