/** The slice of Node's HTTP objects the proxy touches: the outgoing response
    (`res`), whose headers, status and "sent"/"ended" flags the handlers change
    in place, and the origin's response, which the handlers only read. */
module Http {
  import opened Js

  /** A header value as Node keeps it: the string or the number handed to
      `setHeader`. */
  datatype HeaderValue = Text(text: string) | Number(num: Num)

  /** The origin's answer as the fetch reports it: status and headers, whose
      names Node delivers in lower case. The body stream is not modelled. */
  datatype OriginResponse = OriginResponse(statusCode: int, headers: map<string, string>)

  /** What the origin fetch reports first: the response headers, or an error
      with its `code` (undefined for errors that carry none). */
  datatype FetchEvent = Responded(origin: OriginResponse) | Errored(code: Option<string>)

  function LowerChar(c: char): char
  {
    if 'A' <= c <= 'Z' then (c as int + 32) as char else c
  }

  predicate IsLower(s: string)
  {
    forall i :: 0 <= i < |s| ==> !('A' <= s[i] <= 'Z')
  }

  /** Header names are case-insensitive: Node stores them lower-cased. */
  function Lower(s: string): (r: string)
    ensures |r| == |s| && IsLower(r)
    ensures IsLower(s) ==> r == s
  {
    seq(|s|, i requires 0 <= i < |s| => LowerChar(s[i]))
  }

  lemma LowerAgrees(s: string, t: string)
    requires |s| == |t| && forall i :: 0 <= i < |s| ==> LowerChar(s[i]) == t[i]
    ensures Lower(s) == t
  {
  }

  /** Every header name of a map Node built from the wire is lower case. */
  predicate LowerKeyed<V>(m: map<string, V>)
  {
    forall k :: k in m ==> IsLower(k)
  }

  /** The response headers the bypass path takes over from the origin. */
  const AllowList: seq<string> := ["accept-ranges", "content-type", "content-length", "content-range"]

  /** The allow-listed headers among `names` that the origin sent with a
      non-empty value, with the origin's values. */
  function AllowedFrom(origin: map<string, string>, names: seq<string>): (r: map<string, HeaderValue>)
    ensures forall k :: k in r <==> k in names && Truthy(Get(origin, k))
    ensures forall k :: k in r ==> k in origin && r[k] == Text(origin[k])
  {
    map k | k in names && k in origin && origin[k] != "" :: Text(origin[k])
  }

  /** Extending the list of names by one adds at most that one header. */
  lemma AllowedFromStep(origin: map<string, string>, names: seq<string>, i: nat)
    requires i < |names|
    ensures AllowedFrom(origin, names[..i + 1]) ==
      if Truthy(Get(origin, names[i])) then AllowedFrom(origin, names[..i])[names[i] := Text(origin[names[i]])]
      else AllowedFrom(origin, names[..i])
  {
    assert names[..i + 1] == names[..i] + [names[i]];
  }

  /** The header map after the bypass path has marked the response and
      copied the allow-listed origin headers. */
  function BypassHeaders(h: map<string, HeaderValue>, origin: map<string, string>): map<string, HeaderValue>
  {
    h["x-proxy-bypass" := Number(Int(1))] + AllowedFrom(origin, AllowList)
  }

  lemma BypassHeadersContents(h: map<string, HeaderValue>, origin: map<string, string>)
    ensures var r := BypassHeaders(h, origin);
      && "x-proxy-bypass" in r && r["x-proxy-bypass"] == Number(Int(1))
      && (forall i :: 0 <= i < |AllowList| && Truthy(Get(origin, AllowList[i])) ==>
            AllowList[i] in r && r[AllowList[i]] == Text(origin[AllowList[i]]))
      && (forall k :: k != "x-proxy-bypass" && !(k in AllowList && Truthy(Get(origin, k))) ==>
            (k in r <==> k in h) && (k in r ==> r[k] == h[k]))
  {
    AllowListExcludesMarker();
  }

  lemma AllowListExcludesMarker()
    ensures "x-proxy-bypass" !in AllowList
  {
    assert |"x-proxy-bypass"| == 14;
  }

  /** The outgoing response: `res` of a request handler. */
  class Response {
    var headers: map<string, HeaderValue>
    var statusCode: int
    var headersSent: bool
    var ended: bool
    /** The text handed to `end`; streamed image bytes are not modelled. */
    var body: string

    ghost predicate Valid()
      reads this
    {
      (ended ==> headersSent) && LowerKeyed(headers)
    }

    constructor ()
      ensures Valid()
      ensures headers == map[] && statusCode == 200 && !headersSent && !ended && body == ""
    {
      headers := map[];
      statusCode := 200;
      headersSent := false;
      ended := false;
      body := "";
    }

    /** `res.setHeader(name, value)`. Node throws once the headers are on the
        wire, so callers must not get here after that. */
    method SetHeader(name: string, value: HeaderValue)
      requires Valid() && !headersSent
      modifies this
      ensures Valid()
      ensures headers == old(headers)[Lower(name) := value]
      ensures statusCode == old(statusCode) && !headersSent && ended == old(ended) && body == old(body)
    {
      headers := headers[Lower(name) := value];
    }

    /** `res.removeHeader(name)`. */
    method RemoveHeader(name: string)
      requires Valid() && !headersSent
      modifies this
      ensures Valid()
      ensures headers == old(headers) - {Lower(name)}
      ensures statusCode == old(statusCode) && !headersSent && ended == old(ended) && body == old(body)
    {
      headers := headers - {Lower(name)};
    }

    /** `res.end(text)`: flushes the headers and finishes the response; a
        second `end` changes nothing. */
    method End(text: string)
      requires Valid()
      modifies this
      ensures Valid()
      ensures old(ended) ==> unchanged(this)
      ensures !old(ended) ==> ended && headersSent && body == old(body) + text
      ensures headers == old(headers) && statusCode == old(statusCode)
    {
      if !ended {
        ended := true;
        headersSent := true;
        body := body + text;
      }
    }
  }

  /** Setting one more header on top of a union of maps. */
  lemma UnionUpdate<V>(m: map<string, V>, a: map<string, V>, k: string, v: V)
    ensures (m + a)[k := v] == m + a[k := v]
  {
  }

  /** The allow-list loop of the bypass path (`names.forEach(...)`): each
      header of `names` that the origin sent with a non-empty value is set on
      the response to the origin's value; nothing else changes. The handlers
      call it with `AllowList`. */
  method CopyPresent(res: Response, origin: map<string, string>, names: seq<string>)
    requires res.Valid() && !res.headersSent
    requires forall i :: 0 <= i < |names| ==> IsLower(names[i])
    modifies res
    ensures res.Valid() && !res.headersSent
    ensures res.headers == old(res.headers) + AllowedFrom(origin, names)
    ensures res.statusCode == old(res.statusCode) && res.ended == old(res.ended) && res.body == old(res.body)
  {
    var i := 0;
    while i < |names|
      invariant 0 <= i <= |names|
      invariant res.Valid() && !res.headersSent
      invariant res.headers == old(res.headers) + AllowedFrom(origin, names[..i])
      invariant res.statusCode == old(res.statusCode) && res.ended == old(res.ended) && res.body == old(res.body)
    {
      var name := names[i];
      AllowedFromStep(origin, names, i);
      if Truthy(Get(origin, name)) {
        res.SetHeader(name, Text(origin[name]));
        UnionUpdate(old(res.headers), AllowedFrom(origin, names[..i]), name, Text(origin[name]));
      }
      i := i + 1;
    }
    assert names[..|names|] == names;
  }

  /** The bypass path's header steps: `setHeader("X-Proxy-Bypass", 1)`, then
      the allow-list loop. */
  method MarkBypass(res: Response, origin: map<string, string>)
    requires res.Valid() && !res.headersSent
    modifies res
    ensures res.Valid() && !res.headersSent
    ensures res.headers == BypassHeaders(old(res.headers), origin)
    ensures res.statusCode == old(res.statusCode) && res.ended == old(res.ended) && res.body == old(res.body)
  {
    assert Lower("X-Proxy-Bypass") == "x-proxy-bypass" by {
      LowerAgrees("X-Proxy-Bypass", "x-proxy-bypass");
    }
    res.SetHeader("X-Proxy-Bypass", Number(Int(1)));
    AllowListIsLower();
    CopyPresent(res, origin, AllowList);
  }

  lemma AllowListIsLower()
    ensures forall i :: 0 <= i < |AllowList| ==> IsLower(AllowList[i])
  {
  }
}
