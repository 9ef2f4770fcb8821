/** The HTTP binding description of src/bindings/http.rs: the route and
    methods a function is registered with, and the `function.json` binding
    document made from them.

    The document is a fixed template with the route spliced into the value
    of `"route"` as it is, without JSON string escaping. `HostRoute` reads
    the document the way the Functions host reads a JSON string value, so a
    route holding a quote, a backslash or a control character gives a
    document whose route reads back differently or not at all.
    `ToStringEscaped` is the escaping version, proved to read back. */
module Bindings {
  import opened Wrappers
  import H = Http

  // ---------------------------------------------------------------------
  // JSON string values (section 7 of RFC 8259)

  predicate IsHexChar(c: char) {
    ('0' <= c <= '9') || ('a' <= c <= 'f') || ('A' <= c <= 'F')
  }

  function HexValue(c: char): (d: nat)
    requires IsHexChar(c)
    ensures d < 16
  {
    if '0' <= c <= '9' then c as int - '0' as int
    else if 'a' <= c <= 'f' then c as int - 'a' as int + 10
    else c as int - 'A' as int + 10
  }

  function HexChar(d: nat): (c: char)
    requires d < 16
    ensures IsHexChar(c) && HexValue(c) == d
  {
    if d < 10 then ('0' as int + d) as char else ('a' as int + d - 10) as char
  }

  /** The code unit a `\uXXXX` escape names. */
  function CodeUnit(a: char, b: char, c: char, d: char): (n: nat)
    requires IsHexChar(a) && IsHexChar(b) && IsHexChar(c) && IsHexChar(d)
    ensures n < 0x1_0000
  {
    ((HexValue(a) * 16 + HexValue(b)) * 16 + HexValue(c)) * 16 + HexValue(d)
  }

  /** The character a two-character escape `\x` stands for, if `x` is one. */
  function ShortEscape(x: char): Option<char> {
    if x == '"' then Some('"')
    else if x == '\\' then Some('\\')
    else if x == '/' then Some('/')
    else if x == 'b' then Some('\U{0008}')
    else if x == 'f' then Some('\U{000C}')
    else if x == 'n' then Some('\n')
    else if x == 'r' then Some('\r')
    else if x == 't' then Some('\t')
    else None
  }

  /** Reads the rest of a JSON string after its opening quote: the value
      up to the first unescaped quote, and the text after that quote. An
      unescaped control character, a malformed escape or a missing closing
      quote fail. */
  function ReadStringRest(s: string): (r: Option<(string, string)>)
    ensures r.Some? ==> |r.value.1| < |s|
    decreases |s|
  {
    if s == [] then None
    else if s[0] == '"' then Some(([], s[1..]))
    else if s[0] == '\\' then
      if |s| >= 2 && ShortEscape(s[1]).Some? then
        var tail :- ReadStringRest(s[2..]);
        Some(([ShortEscape(s[1]).value] + tail.0, tail.1))
      else if |s| >= 6 && s[1] == 'u' && IsHexChar(s[2]) && IsHexChar(s[3]) && IsHexChar(s[4]) && IsHexChar(s[5])
              && !(0xD800 <= CodeUnit(s[2], s[3], s[4], s[5]) < 0xE000) then
        var tail :- ReadStringRest(s[6..]);
        Some(([CodeUnit(s[2], s[3], s[4], s[5]) as char] + tail.0, tail.1))
      else None
    else if s[0] < ' ' then None
    else
      var tail :- ReadStringRest(s[1..]);
      Some(([s[0]] + tail.0, tail.1))
  }

  /** Characters a JSON string may not hold unescaped. */
  predicate NeedsEscape(c: char) {
    c == '"' || c == '\\' || c < ' '
  }

  function EscapeChar(c: char): (e: string)
    ensures |e| > 0
  {
    if c == '"' then "\\\""
    else if c == '\\' then "\\\\"
    else if c < ' ' then "\\u00" + [HexChar(c as int / 16), HexChar(c as int % 16)]
    else [c]
  }

  /** The body of a JSON string literal whose value is `s`. */
  function Escape(s: string): string {
    if s == [] then [] else EscapeChar(s[0]) + Escape(s[1..])
  }

  /** Reading one escaped character, then whatever follows. */
  lemma ReadEscapedChar(c: char, rest: string)
    ensures ReadStringRest(EscapeChar(c) + rest) ==
              (match ReadStringRest(rest)
               case None => None
               case Some(tail) => Some(([c] + tail.0, tail.1)))
  {
    var s := EscapeChar(c) + rest;
    if c == '"' || c == '\\' {
      assert s[2..] == rest;
    } else if c < ' ' {
      var hi, lo := HexChar(c as int / 16), HexChar(c as int % 16);
      assert s[..6] == ['\\', 'u', '0', '0', hi, lo];
      assert s[6..] == rest;
      assert CodeUnit(s[2], s[3], s[4], s[5]) == c as int;
    } else {
      assert s[1..] == rest;
    }
  }

  /** An escaped string, closed by a quote, reads back as itself. */
  lemma {:induction false} EscapeRoundTrip(s: string, after: string)
    ensures ReadStringRest(Escape(s) + "\"" + after) == Some((s, after))
  {
    if s == [] {
      assert Escape(s) + "\"" + after == "\"" + after;
    } else {
      assert Escape(s) + "\"" + after == EscapeChar(s[0]) + (Escape(s[1..]) + "\"" + after);
      EscapeRoundTrip(s[1..], after);
      ReadEscapedChar(s[0], Escape(s[1..]) + "\"" + after);
      assert [s[0]] + s[1..] == s;
    }
  }

  /** Escaping leaves a string alone when it has nothing to escape. */
  lemma {:induction false} EscapePlain(s: string)
    requires forall i :: 0 <= i < |s| ==> !NeedsEscape(s[i])
    ensures Escape(s) == s
  {
    if s != [] {
      EscapePlain(s[1..]);
      assert [s[0]] + s[1..] == s;
    }
  }

  // ---------------------------------------------------------------------
  // The binding document

  /** `HttpBindingParams`, built by `new` from a route and a method list. */
  datatype HttpBindingParams = HttpBindingParams(route: string, methods: seq<H.HttpMethod>)

  /** The binding kinds of src/bindings/mod.rs; `InputBinding::http` builds
      the `Http` one from a route and a method list. */
  datatype InputBinding = HttpBinding(params: HttpBindingParams) | EventHubBinding | TimerBinding

  /** src/triggers/http.rs and src/triggers/mod.rs: the same pair of route
      and methods under the name of a trigger. */
  datatype HttpTriggerParams = HttpTriggerParams(route: string, methods: seq<H.HttpMethod>)

  datatype Trigger = HttpTrigger(params: HttpTriggerParams) | EventHubTrigger | TimerTrigger

  const PREFIX: string := "{\"bindings\":[{\"authLevel\":\"anonymous\",\"type\":\"httpTrigger\",\"direction\":\"in\",\"route\":\""
  const TAIL: string := ",\"name\":\"req\",\"methods\":[\"get\",\"post\",\"patch\"]},{\"type\": \"http\",\"direction\": \"out\",\"name\": \"res\"}]}"

  /** The text between the template's two fixed parts, if `doc` has them. */
  function Spliced(doc: string): (r: Option<string>)
    ensures r.Some? ==> doc == PREFIX + r.value + "\"" + TAIL
  {
    var suffix := "\"" + TAIL;
    if |doc| >= |PREFIX| + |suffix| && doc[..|PREFIX|] == PREFIX && doc[|doc| - |suffix|..] == suffix then
      var middle := doc[|PREFIX|..|doc| - |suffix|];
      assert doc == doc[..|PREFIX|] + middle + doc[|doc| - |suffix|..];
      Some(middle)
    else None
  }

  /** The route the host finds in a document of the template's shape: the
      JSON string value after `"route":`, which must be followed by the rest
      of the template. */
  function HostRoute(doc: string): Option<string> {
    if |doc| >= |PREFIX| && doc[..|PREFIX|] == PREFIX then
      var read :- ReadStringRest(doc[|PREFIX|..]);
      if read.1 == TAIL then Some(read.0) else None
    else None
  }

  /** `to_string` as written: the route is inserted verbatim and the method
      list is not used (the document always lists get, post and patch). */
  function ToString(p: HttpBindingParams): (s: string)
    ensures Spliced(s) == Some(p.route)
  {
    var s := PREFIX + p.route + "\"" + TAIL;
    assert s[..|PREFIX|] == PREFIX;
    assert s[|s| - |"\"" + TAIL|..] == "\"" + TAIL;
    assert s[|PREFIX|..|s| - |"\"" + TAIL|] == p.route;
    s
  }

  /** Two parameter sets with the same route give the same document. */
  lemma ToStringIgnoresMethods(p: HttpBindingParams, q: HttpBindingParams)
    requires p.route == q.route
    ensures ToString(p) == ToString(q)
  {
  }

  /** As written, a route holding a quote does not survive: the host's
      string value ends at the first quote and the template no longer
      follows it. */
  lemma QuotedRouteIsLost(plain: string, after: string, methods: seq<H.HttpMethod>)
    requires forall i :: 0 <= i < |plain| ==> !NeedsEscape(plain[i])
    ensures HostRoute(ToString(HttpBindingParams(plain + "\"" + after, methods))) == None
  {
    var doc := ToString(HttpBindingParams(plain + "\"" + after, methods));
    var rest := after + "\"" + TAIL;
    assert doc == PREFIX + (plain + "\"" + rest);
    assert doc[..|PREFIX|] == PREFIX;
    assert doc[|PREFIX|..] == plain + "\"" + rest;
    EscapePlain(plain);
    EscapeRoundTrip(plain, rest);
    assert |rest| != |TAIL|;
  }

  /** The smallest such route, `a"b`. */
  lemma QuoteInRouteExample()
    ensures HostRoute(ToString(HttpBindingParams("a\"b", []))) == None
  {
    assert "a\"b" == "a" + "\"" + "b";
    QuotedRouteIsLost("a", "b", []);
  }

  /** The document with the route escaped as a JSON string. */
  function ToStringEscaped(p: HttpBindingParams): (s: string)
    ensures HostRoute(s) == Some(p.route)
  {
    var s := PREFIX + Escape(p.route) + "\"" + TAIL;
    assert s[..|PREFIX|] == PREFIX;
    assert s[|PREFIX|..] == Escape(p.route) + "\"" + TAIL;
    EscapeRoundTrip(p.route, TAIL);
    s
  }

  /** For every route with nothing to escape the two agree, so such routes
      already read back from the document as written. */
  lemma PlainRouteUnchanged(p: HttpBindingParams)
    requires forall i :: 0 <= i < |p.route| ==> !NeedsEscape(p.route[i])
    ensures ToString(p) == ToStringEscaped(p)
    ensures HostRoute(ToString(p)) == Some(p.route)
  {
    EscapePlain(p.route);
  }
}
