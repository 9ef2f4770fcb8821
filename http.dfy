/** The HTTP trigger payload of src/http.rs: its required shape, the header
    map built from the host's `Headers` object, the signed-in user lookups
    and the two authentication macros. */
module Http {
  import opened Wrappers
  import opened Json
  import opened TriggerCommon
  import R = Response

  // ---------------------------------------------------------------------
  // Request methods

  datatype HttpMethod = Get | Post | Delete | Head | Patch | Put | Options | Trace {
    /** The upper-case name the method is written as on the wire. */
    function Name(): string {
      match this
      case Get => "GET"
      case Post => "POST"
      case Delete => "DELETE"
      case Head => "HEAD"
      case Patch => "PATCH"
      case Put => "PUT"
      case Options => "OPTIONS"
      case Trace => "TRACE"
    }
  }

  const METHOD_NAMES: set<string> := {"GET", "POST", "DELETE", "HEAD", "PATCH", "PUT", "OPTIONS", "TRACE"}

  /** Decoding of `Method`: exactly the eight upper-case names are accepted. */
  function MethodFromName(s: string): (r: Option<HttpMethod>)
    ensures r.Some? <==> s in METHOD_NAMES
    ensures r.Some? ==> r.value.Name() == s
  {
    if s == "GET" then Some(Get)
    else if s == "POST" then Some(Post)
    else if s == "DELETE" then Some(Delete)
    else if s == "HEAD" then Some(Head)
    else if s == "PATCH" then Some(Patch)
    else if s == "PUT" then Some(Put)
    else if s == "OPTIONS" then Some(Options)
    else if s == "TRACE" then Some(Trace)
    else None
  }

  lemma {:induction false} MethodNameRoundTrip(m: HttpMethod)
    ensures MethodFromName(m.Name()) == Some(m)
  {
    match m
    case Get =>
    case Post =>
    case Delete =>
    case Head =>
    case Patch =>
    case Put =>
    case Options =>
    case Trace =>
  }

  // ---------------------------------------------------------------------
  // Header names and the header map

  /** `tchar` of section 5.6.2 of RFC 9110. */
  predicate IsTokenChar(c: char) {
    || ('a' <= c <= 'z') || ('A' <= c <= 'Z') || ('0' <= c <= '9')
    || c in "!#$%&'*+-.^_`|~"
  }

  /** What `HeaderName::from_str` accepts: a non-empty token, so never a
      colon, a space or a control character, which delimit a field line. */
  predicate IsHeaderName(s: string): (r: bool)
    ensures r ==> |s| > 0 && forall i :: 0 <= i < |s| ==> s[i] != ':' && ' ' < s[i] < '\U{007F}'
  {
    |s| > 0 && forall i :: 0 <= i < |s| ==> IsTokenChar(s[i])
  }

  function LowerChar(c: char): char {
    if 'A' <= c <= 'Z' then (c as int + 32) as char else c
  }

  /** The normalised (lower-case) form `HeaderName` stores a name in. */
  function Lower(s: string): (r: string)
    ensures |r| == |s|
    ensures forall i :: 0 <= i < |s| ==> r[i] == LowerChar(s[i])
  {
    seq(|s|, i requires 0 <= i < |s| => LowerChar(s[i]))
  }

  /** `HeaderMap<Vec<String>>`: each normalised name maps to the values
      appended under it, oldest first; `get` returns the first. */
  type HeaderMap = map<string, seq<seq<string>>>

  /** `HeaderMap::append`: adds a value under `name` after those already there. */
  function Append(hm: HeaderMap, name: string, v: seq<string>): (r: HeaderMap)
    ensures r.Keys == hm.Keys + {name}
    ensures r[name] == (if name in hm then hm[name] else []) + [v]
    ensures forall n :: n in hm && n != name ==> r[n] == hm[n]
  {
    hm[name := (if name in hm then hm[name] else []) + [v]]
  }

  /** The header map after appending the entries of `raw` in the iteration
      order `order` (keys not in `raw` contribute nothing). */
  function AppendInOrder(raw: map<string, seq<string>>, order: seq<string>): HeaderMap {
    if order == [] then map[]
    else
      var k := order[|order| - 1];
      var acc := AppendInOrder(raw, order[..|order| - 1]);
      if k in raw then Append(acc, Lower(k), raw[k]) else acc
  }

  predicate AllHeaderNames(raw: map<string, seq<string>>) {
    forall k :: k in raw ==> IsHeaderName(k)
  }

  /** `deserialize_header_map` after the `HashMap<String, Vec<String>>` is
      read: fails if any name is not a header name (whichever the iteration
      meets first, the error is the same), otherwise every entry is appended
      under its normalised name in iteration order. */
  function HeaderMapOf(raw: map<string, seq<string>>, order: seq<string>): (r: Option<HeaderMap>)
    ensures r.Some? <==> AllHeaderNames(raw)
    ensures r.Some? ==> r.value == AppendInOrder(raw, order)
  {
    if AllHeaderNames(raw) then Some(AppendInOrder(raw, order)) else None
  }

  /** The names present are the normalised names of the entries. */
  lemma {:induction false} AppendInOrderKeys(raw: map<string, seq<string>>, order: seq<string>)
    requires forall k :: k in order ==> k in raw
    ensures AppendInOrder(raw, order).Keys == set k | k in order :: Lower(k)
  {
    if order != [] {
      var n := |order| - 1;
      AppendInOrderKeys(raw, order[..n]);
      assert order == order[..n] + [order[n]];
    }
  }

  /** No entry is lost: each value sits under its normalised name. */
  lemma {:induction false} AppendInOrderKeepsEntry(raw: map<string, seq<string>>, order: seq<string>, k: string)
    requires k in order && k in raw
    ensures Lower(k) in AppendInOrder(raw, order)
    ensures raw[k] in AppendInOrder(raw, order)[Lower(k)]
  {
    var n := |order| - 1;
    if order[n] == k {
      if k in order[..n] {
        AppendInOrderKeepsEntry(raw, order[..n], k);
      }
    } else {
      assert k in order[..n] by {
        var i :| 0 <= i < |order| && order[i] == k;
        assert i < n;
        assert order[..n][i] == k;
      }
      AppendInOrderKeepsEntry(raw, order[..n], k);
    }
  }

  /** Nothing is invented: each value under a name came from an entry whose
      name normalises to it. */
  lemma {:induction false} AppendInOrderSources(raw: map<string, seq<string>>, order: seq<string>, name: string, v: seq<string>)
    requires name in AppendInOrder(raw, order) && v in AppendInOrder(raw, order)[name]
    ensures exists k :: k in raw && Lower(k) == name && raw[k] == v
  {
    var n := |order| - 1;
    var k := order[n];
    var acc := AppendInOrder(raw, order[..n]);
    if k in raw && Lower(k) == name {
      var prev := if name in acc then acc[name] else [];
      assert AppendInOrder(raw, order)[name] == prev + [raw[k]];
      if v != raw[k] {
        assert v in prev;
        AppendInOrderSources(raw, order[..n], name, v);
      }
    } else {
      AppendInOrderSources(raw, order[..n], name, v);
    }
  }

  /** When exactly one entry normalises to a name, that name holds exactly
      that entry's value list, whatever the iteration order. */
  lemma {:induction false} AppendInOrderSingle(raw: map<string, seq<string>>, order: seq<string>, k: string)
    requires Distinct(order) && forall k' :: k' in order ==> k' in raw
    requires k in order
    requires forall k' :: k' in raw && Lower(k') == Lower(k) ==> k' == k
    ensures Lower(k) in AppendInOrder(raw, order) && AppendInOrder(raw, order)[Lower(k)] == [raw[k]]
  {
    var n := |order| - 1;
    var prefix := order[..n];
    assert forall i, j :: 0 <= i < j < |prefix| ==> prefix[i] != prefix[j];
    if order[n] == k {
      assert k !in prefix;
      AppendInOrderKeys(raw, prefix);
      assert Lower(k) !in AppendInOrder(raw, prefix);
    } else {
      assert k in prefix by {
        var i :| 0 <= i < |order| && order[i] == k;
        assert i < n;
        assert prefix[i] == k;
      }
      AppendInOrderSingle(raw, prefix, k);
    }
  }

  /** `deserialize_header_map`'s loop over the `HashMap`, which the standard
      library iterates in `order`. */
  method DeserializeHeaderMap(raw: map<string, seq<string>>, order: seq<string>) returns (r: Option<HeaderMap>)
    requires Enumerates(order, raw.Keys)
    ensures r == HeaderMapOf(raw, order)
  {
    var headerMap: HeaderMap := map[];
    var i := 0;
    while i < |order|
      invariant 0 <= i <= |order|
      invariant forall j :: 0 <= j < i ==> IsHeaderName(order[j])
      invariant headerMap == AppendInOrder(raw, order[..i])
    {
      var name := order[i];
      if !IsHeaderName(name) {
        assert name in raw;
        return None;
      }
      assert order[..i + 1][..i] == order[..i];
      headerMap := Append(headerMap, Lower(name), raw[name]);
      i := i + 1;
    }
    assert order[..i] == order;
    assert AllHeaderNames(raw) by {
      forall k | k in raw ensures IsHeaderName(k) {
        assert k in order;
        var j :| 0 <= j < |order| && order[j] == k;
      }
    }
    r := Some(headerMap);
  }

  // ---------------------------------------------------------------------
  // The payload

  datatype DataRequest = DataRequest(
    url: string,
    verb: HttpMethod,
    query: map<string, string>,
    headers: HeaderMap,
    body: Option<string>)

  datatype HttpPayloadData = HttpPayloadData(req: DataRequest, inputs: map<string, InputBinding>)

  datatype HttpPayload = HttpPayload(data: HttpPayloadData, sys: Sys) {
    /** `method_name`: the function name the host assigned to this invocation. */
    function MethodName(): string {
      sys.methodName
    }
  }

  /** `Body` is `Option<String>` without a custom decoder: absent or null
      gives `None`, a string gives `Some`, anything else fails. */
  predicate IsBodyShape(o: map<string, Json>) {
    "Body" in o ==> o["Body"].JNull? || o["Body"].JString?
  }

  /** The members `Data.req` must have; other members are ignored. The
      `Headers` member has a custom decoder, so it may not be absent. */
  predicate IsRequestShape(j: Json, f: Foreign) {
    && j.JObject?
    && HasString(j.members, "Url") && f.url(j.members["Url"].s).Some?
    && HasString(j.members, "Method") && j.members["Method"].s in METHOD_NAMES
    && "Query" in j.members && IsStringMap(j.members["Query"])
    && "Headers" in j.members && IsStringListMap(j.members["Headers"])
    && AllHeaderNames(StringListMap(j.members["Headers"]).value)
    && IsBodyShape(j.members)
  }

  function DecodeBody(o: map<string, Json>): (r: Option<Option<string>>)
    ensures r.Some? <==> IsBodyShape(o)
    ensures r.Some? && r.value.Some? ==> "Body" in o && o["Body"] == JString(r.value.value)
    ensures r.Some? && r.value.None? ==> "Body" !in o || o["Body"].JNull?
  {
    if "Body" !in o || o["Body"].JNull? then Some(None)
    else if o["Body"].JString? then Some(Some(o["Body"].s))
    else None
  }

  function DecodeDataRequest(j: Json, f: Foreign): (r: Option<DataRequest>)
    ensures r.Some? <==> IsRequestShape(j, f)
    ensures r.Some? ==> f.url(j.members["Url"].s) == Some(r.value.url)
    ensures r.Some? ==> j.members["Method"] == JString(r.value.verb.Name())
    ensures r.Some? ==> StringMap(j.members["Query"]) == Some(r.value.query)
    ensures r.Some? ==> var raw := StringListMap(j.members["Headers"]).value;
                        r.value.headers == AppendInOrder(raw, f.hashOrder(raw.Keys))
    ensures r.Some? ==> DecodeBody(j.members) == Some(r.value.body)
  {
    var o :- AsObject(j);
    var u :- Member(o, "Url");
    var text :- AsString(u);
    var url :- f.url(text);
    var m :- Member(o, "Method");
    var name :- AsString(m);
    var verb :- MethodFromName(name);
    var q :- Member(o, "Query");
    var query :- StringMap(q);
    var h :- Member(o, "Headers");
    var raw :- StringListMap(h);
    var headers :- HeaderMapOf(raw, f.hashOrder(raw.Keys));
    var body :- DecodeBody(o);
    Some(DataRequest(url, verb, query, headers, body))
  }

  /** The members an HTTP payload must have: `Data` with a well-formed `req`
      and only strings beside it, and `Metadata.sys`. */
  predicate IsHttpShape(j: Json, f: Foreign) {
    && j.JObject?
    && HasObject(j.members, "Data")
    && "req" in j.members["Data"].members
    && IsRequestShape(j.members["Data"].members["req"], f)
    && ExtrasAreStrings(j.members["Data"].members, "req")
    && HasObject(j.members, "Metadata")
    && "sys" in j.members["Metadata"].members
    && IsSysShape(j.members["Metadata"].members["sys"], f)
  }

  function DecodeHttp(j: Json, f: Foreign): (r: Option<HttpPayload>)
    ensures r.Some? <==> IsHttpShape(j, f)
    ensures r.Some? ==> DecodeDataRequest(j.members["Data"].members["req"], f) == Some(r.value.data.req)
    ensures r.Some? ==> FlattenedInputs(j.members["Data"].members, "req") == Some(r.value.data.inputs)
    ensures r.Some? ==> DecodeSys(j.members["Metadata"].members["sys"], f) == Some(r.value.sys)
  {
    var o :- AsObject(j);
    var d :- Member(o, "Data");
    var data :- AsObject(d);
    var rq :- Member(data, "req");
    var req :- DecodeDataRequest(rq, f);
    var inputs :- FlattenedInputs(data, "req");
    var m :- Member(o, "Metadata");
    var metadata :- AsObject(m);
    var s :- Member(metadata, "sys");
    var sys :- DecodeSys(s, f);
    Some(HttpPayload(HttpPayloadData(req, inputs), sys))
  }

  /** `method_name` hands back the `Metadata.sys.MethodName` string as sent. */
  lemma MethodNameIsSent(j: Json, f: Foreign)
    requires DecodeHttp(j, f).Some?
    ensures j.members["Metadata"].members["sys"].members["MethodName"] == JString(DecodeHttp(j, f).value.MethodName())
  {
  }

  // ---------------------------------------------------------------------
  // The signed-in user

  const PRINCIPAL_ID: string := "x-ms-client-principal-id"
  const PRINCIPAL_NAME: string := "x-ms-client-principal-name"

  /** `headers.get(name).map(|values| values[0].clone())`: the first string
      of the first value list under `name`; indexing an empty list panics. */
  function FirstHeaderValue(hm: HeaderMap, name: string): (r: Completion<Option<string>>)
    ensures (name !in hm || hm[name] == []) ==> r == Returns(None)
    ensures name in hm && hm[name] != [] && hm[name][0] == [] ==> r == Panics
    ensures name in hm && hm[name] != [] && hm[name][0] != [] ==> r == Returns(Some(hm[name][0][0]))
  {
    if name !in hm || hm[name] == [] then Returns(None)
    else if hm[name][0] == [] then Panics
    else Returns(Some(hm[name][0][0]))
  }

  function UserId(req: DataRequest): Completion<Option<string>> {
    FirstHeaderValue(req.headers, PRINCIPAL_ID)
  }

  function UserName(req: DataRequest): Completion<Option<string>> {
    FirstHeaderValue(req.headers, PRINCIPAL_NAME)
  }

  /** The first value list under a name came from some entry whose name
      normalises to it: the one the iteration met first. */
  lemma {:induction false} AppendInOrderFirst(raw: map<string, seq<string>>, order: seq<string>, name: string)
    requires name in AppendInOrder(raw, order)
    ensures AppendInOrder(raw, order)[name] != []
    ensures exists k :: k in raw && Lower(k) == name && AppendInOrder(raw, order)[name][0] == raw[k]
  {
    var n := |order| - 1;
    var k := order[n];
    var acc := AppendInOrder(raw, order[..n]);
    if k in raw && Lower(k) == name {
      if name in acc {
        AppendInOrderFirst(raw, order[..n], name);
        assert AppendInOrder(raw, order)[name] == acc[name] + [raw[k]];
      } else {
        assert AppendInOrder(raw, order)[name] == [raw[k]];
      }
    } else {
      AppendInOrderFirst(raw, order[..n], name);
    }
  }

  /** A lookup on a header map built from the host's `Headers` object is
      case-insensitive: absent when no sent name lower-cases to `name`;
      otherwise the first string of the list of one matching entry (the one
      the iteration met first), or a panic when that list is empty. When
      only one sent name matches, the result is fixed by that entry alone,
      whatever the iteration order. */
  lemma HeaderLookupFromWire(raw: map<string, seq<string>>, order: seq<string>, name: string)
    requires Enumerates(order, raw.Keys)
    ensures (forall k :: k in raw ==> Lower(k) != name) ==>
              FirstHeaderValue(AppendInOrder(raw, order), name) == Returns(None)
    ensures (exists k :: k in raw && Lower(k) == name) ==>
              exists k :: k in raw && Lower(k) == name &&
                FirstHeaderValue(AppendInOrder(raw, order), name) ==
                  (if raw[k] == [] then Panics else Returns(Some(raw[k][0])))
    ensures (forall k1, k2 :: k1 in raw && k2 in raw && Lower(k1) == name && Lower(k2) == name ==> k1 == k2) ==>
              forall k :: k in raw && Lower(k) == name ==>
                FirstHeaderValue(AppendInOrder(raw, order), name) ==
                  (if raw[k] == [] then Panics else Returns(Some(raw[k][0])))
  {
    AppendInOrderKeys(raw, order);
    if exists k :: k in raw && Lower(k) == name {
      var k0 :| k0 in raw && Lower(k0) == name;
      assert name in AppendInOrder(raw, order);
      AppendInOrderFirst(raw, order, name);
    }
    if forall k1, k2 :: k1 in raw && k2 in raw && Lower(k1) == name && Lower(k2) == name ==> k1 == k2 {
      forall k | k in raw && Lower(k) == name
        ensures FirstHeaderValue(AppendInOrder(raw, order), name) ==
                  (if raw[k] == [] then Panics else Returns(Some(raw[k][0])))
      {
        AppendInOrderSingle(raw, order, k);
      }
    }
  }

  // ---------------------------------------------------------------------
  // The authentication macros

  const LOGIN_PREFIX: string := "/.auth/login/aad?post_login_redirect_url="

  /** `require_auth!`: `Returns(Some(r))` is the early `return Ok(r)`,
      `Returns(None)` lets the handler go on. */
  function RequireAuth(req: DataRequest): (r: Completion<Option<R.FunctionsResponse>>)
    ensures UserId(req) == Returns(None) ==> r == Returns(Some(R.FunctionsResponse.Http(R.Unauthorized)))
    ensures UserId(req).Returns? && UserId(req).value.Some? ==> r == Returns(None)
    ensures UserId(req).Panics? ==> r.Panics?
  {
    match UserId(req)
    case Panics => Panics
    case Returns(id) =>
      if id.None? then
        var d := R.FunctionsResponse.Default();
        Returns(Some(d.(outputs := d.outputs.(res := d.outputs.res.(statusCode := R.Unauthorized)))))
      else Returns(None)
  }

  /** `require_auth_redirect!`: the early response sends the browser to the
      login page, naming the request's URL as the place to come back to. */
  function RequireAuthRedirect(req: DataRequest): (r: Completion<Option<R.FunctionsResponse>>)
    ensures UserId(req) == Returns(None) ==>
              r == Returns(Some(R.FunctionsResponse.Redirect(LOGIN_PREFIX + req.url).Body(LOGIN_PREFIX + req.url)))
    ensures UserId(req).Returns? && UserId(req).value.Some? ==> r == Returns(None)
    ensures UserId(req).Panics? ==> r.Panics?
  {
    match UserId(req)
    case Panics => Panics
    case Returns(id) =>
      if id.None? then
        var loginUrl := LOGIN_PREFIX + req.url;
        var d := R.FunctionsResponse.Default();
        var d := d.(outputs := d.outputs.(res := d.outputs.res.(statusCode := R.Found)));
        var d := d.(outputs := d.outputs.(res := d.outputs.res.(body := loginUrl)));
        var d := d.(outputs := d.outputs.(res := d.outputs.res.(headers := d.outputs.res.headers[R.LOCATION := loginUrl])));
        Returns(Some(d))
      else Returns(None)
  }
}
