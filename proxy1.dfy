/** The fuller handler variant (`hhproxy`): thresholds 1024 / 102400, default
    quality 40, and a redirect to the original image whenever something goes
    wrong before the response has started. */
module Proxy1 {
  import opened Js
  import opened Http
  import opened Policy

  const DefaultQuality := 40
  const MinCompressLength := 1024
  const MinTransparentCompressLength := MinCompressLength * 100

  // ---------------------------------------------------------------------------
  // Compression verdict

  /** `shouldCompress`: an early-return chain over the origin's type and size,
      the requested format and the client's `range` header. The size is what
      `parseInt` made of the origin's `content-length`, so it may be NaN, and
      every comparison with NaN is false. */
  function ShouldCompress(originType: string, originSize: Num, webp: bool, range: Option<string>): (r: bool)
    ensures !StartsWith(originType, "image") ==> !r
    ensures originSize == Int(0) || Truthy(range) ==> !r
    ensures originSize.Int? ==>
      (r <==> Worthwhile(originType, originSize.value, webp, Truthy(range), MinCompressLength, MinTransparentCompressLength))
    ensures StartsWith(originType, "image") && !Truthy(range) && originSize.Int? && webp ==>
      (r <==> originSize.value >= MinCompressLength)
    ensures StartsWith(originType, "image") && !Truthy(range) && originSize.Int? && !webp && IsTransparentType(originType) ==>
      (r <==> originSize.value >= MinTransparentCompressLength)
    ensures StartsWith(originType, "image") && !Truthy(range) && originSize.Int? && !webp && !IsTransparentType(originType) ==>
      (r <==> originSize.value != 0)
    ensures originSize.NaN? ==> (r <==> StartsWith(originType, "image") && !Truthy(range))
  {
    if !StartsWith(originType, "image") then false
    else if originSize == Int(0) then false
    else if Truthy(range) then false
    else if webp && Less(originSize, MinCompressLength) then false
    else if !webp && IsTransparentType(originType) && Less(originSize, MinTransparentCompressLength) then false
    else true
  }

  // ---------------------------------------------------------------------------
  // Request parameters

  /** The parameter block of `hhproxy`, with this variant's default quality. */
  function BuildParams(query: map<string, string>, decode: string -> Option<string>): (r: Built)
    ensures r.Banner? <==> !Truthy(Get(query, "url"))
    ensures r.Built? && "l" !in query ==> r.params.quality == DefaultQuality
    ensures r == ParamsFrom(query, DefaultQuality, decode)
  {
    if "l" !in query then QualityWithoutNumber(None, DefaultQuality); ParamsFrom(query, DefaultQuality, decode)
    else ParamsFrom(query, DefaultQuality, decode)
  }

  /** `req`, as far as the handler reads and writes it: the client's headers
      (lower-case names) and `req.params`, whose `url` a redirect from the
      origin replaces and to which the origin's type and size are added. */
  class Request {
    const headers: map<string, string>
    var params: Params
    var originType: Option<string>
    var originSize: Option<Num>

    constructor (headers: map<string, string>, params: Params)
      ensures this.headers == headers && this.params == params
      ensures originType == None && originSize == None
    {
      this.headers := headers;
      this.params := params;
      originType := None;
      originSize := None;
    }
  }

  /** The start of `hhproxy`: without a `url` the response ends with the
      banner; otherwise the parameters are built and the fetch starts (the
      fetch itself is not modelled). */
  method Hhproxy(query: map<string, string>, res: Response, decode: string -> Option<string>) returns (built: Built)
    requires res.Valid()
    modifies res
    ensures res.Valid()
    ensures built == BuildParams(query, decode)
    ensures built.Banner? && !old(res.ended) ==> res.ended && res.body == old(res.body) + BannerText
    ensures built.Banner? ==> res.headers == old(res.headers) && res.statusCode == old(res.statusCode)
    ensures !built.Banner? ==> unchanged(res)
  {
    built := BuildParams(query, decode);
    if built.Banner? {
      res.End(BannerText);
    }
  }

  // ---------------------------------------------------------------------------
  // Redirect

  /** The headers a redirect strips so that the redirect is not cached. */
  const CachingHeaders: set<string> := {"cache-control", "expires", "date", "etag"}

  /** The header map after a redirect to `location`: no caching header, a zero
      `content-length`, the `location`, and every other header as before. */
  function RedirectHeaders(h: map<string, HeaderValue>, location: string): map<string, HeaderValue>
  {
    (h - CachingHeaders)["content-length" := Number(Int(0))]["location" := Text(location)]
  }

  lemma RedirectHeadersContents(h: map<string, HeaderValue>, location: string)
    ensures var r := RedirectHeaders(h, location);
      && (forall k :: k in CachingHeaders ==> k !in r)
      && "content-length" in r && r["content-length"] == Number(Int(0))
      && "location" in r && r["location"] == Text(location)
      && (forall k :: k !in CachingHeaders && k != "content-length" && k != "location" ==>
            (k in r <==> k in h) && (k in h ==> r[k] == h[k]))
  {
  }

  /** `redirect`: a no-op once the headers are sent; otherwise a 302 to the
      encoded `req.params.url`, with caching headers stripped, and the end of
      the response. `encode` stands for `encodeURI`. */
  method Redirect(req: Request, res: Response, encode: string -> string)
    requires res.Valid()
    modifies res
    ensures res.Valid()
    ensures old(res.headersSent) ==> unchanged(res)
    ensures !old(res.headersSent) ==>
      && res.headers == RedirectHeaders(old(res.headers), encode(req.params.url))
      && res.statusCode == 302 && res.ended && res.body == old(res.body)
  {
    if res.headersSent {
      return;
    }
    RedirectNamesAreLower();
    ghost var h0 := res.headers;
    res.SetHeader("content-length", Number(Int(0)));
    res.RemoveHeader("cache-control");
    res.RemoveHeader("expires");
    res.RemoveHeader("date");
    res.RemoveHeader("etag");
    res.SetHeader("location", Text(encode(req.params.url)));
    res.statusCode := 302;
    res.End("");
    RedirectSteps(h0, encode(req.params.url));
  }

  lemma RedirectNamesAreLower()
    ensures Lower("content-length") == "content-length" && Lower("location") == "location"
    ensures Lower("cache-control") == "cache-control" && Lower("expires") == "expires"
    ensures Lower("date") == "date" && Lower("etag") == "etag"
  {
    assert IsLower("content-length") && IsLower("location") && IsLower("cache-control");
    assert IsLower("expires") && IsLower("date") && IsLower("etag");
  }

  /** The header updates of `redirect`, one at a time, give `RedirectHeaders`. */
  lemma RedirectSteps(h: map<string, HeaderValue>, location: string)
    ensures (h["content-length" := Number(Int(0))] - {"cache-control"} - {"expires"} - {"date"} - {"etag"})
      ["location" := Text(location)] == RedirectHeaders(h, location)
  {
    var a := h["content-length" := Number(Int(0))] - {"cache-control"} - {"expires"} - {"date"} - {"etag"};
    var b := (h - CachingHeaders)["content-length" := Number(Int(0))];
    assert |"content-length"| == 14;
    assert a.Keys == b.Keys;
    assert forall k :: k in a ==> a[k] == b[k];
  }

  /** `_onRequestError`: an invalid URL ends the response with 400 and
      "Invalid URL"; any other error redirects. `code` is `err.code`. */
  method OnRequestError(req: Request, res: Response, code: Option<string>, encode: string -> string)
    requires res.Valid()
    modifies res
    ensures res.Valid()
    ensures code == Some("ERR_INVALID_URL") ==>
      && res.statusCode == 400 && res.headers == old(res.headers) && res.ended
      && res.body == (if old(res.ended) then old(res.body) else old(res.body) + "Invalid URL")
    ensures code != Some("ERR_INVALID_URL") && old(res.headersSent) ==> unchanged(res)
    ensures code != Some("ERR_INVALID_URL") && !old(res.headersSent) ==>
      && res.headers == RedirectHeaders(old(res.headers), encode(req.params.url))
      && res.statusCode == 302 && res.ended && res.body == old(res.body)
  {
    if code == Some("ERR_INVALID_URL") {
      res.statusCode := 400;
      res.End("Invalid URL");
      return;
    }
    Redirect(req, res, encode);
  }

  // ---------------------------------------------------------------------------
  // Origin response

  /** The origin's headers as response header values. */
  function AsTextValues(h: map<string, string>, names: set<string>): (r: map<string, HeaderValue>)
    ensures r.Keys == names * h.Keys
    ensures forall k :: k in r ==> r[k] == Text(h[k])
  {
    map k | k in names && k in h :: Text(h[k])
  }

  /** `copyHeaders`: every origin header is set on the response. */
  method CopyHeaders(source: map<string, string>, res: Response)
    requires res.Valid() && !res.headersSent && LowerKeyed(source)
    modifies res
    ensures res.Valid() && !res.headersSent
    ensures res.headers == old(res.headers) + AsTextValues(source, source.Keys)
    ensures res.statusCode == old(res.statusCode) && res.ended == old(res.ended) && res.body == old(res.body)
  {
    var todo := source.Keys;
    while todo != {}
      invariant todo <= source.Keys
      invariant res.Valid() && !res.headersSent
      invariant res.headers == old(res.headers) + AsTextValues(source, source.Keys - todo)
      invariant res.statusCode == old(res.statusCode) && res.ended == old(res.ended) && res.body == old(res.body)
      decreases todo
    {
      var k :| k in todo;
      res.SetHeader(k, Text(source[k]));
      UnionUpdate(old(res.headers), AsTextValues(source, source.Keys - todo), k, Text(source[k]));
      assert AsTextValues(source, source.Keys - (todo - {k})) == AsTextValues(source, source.Keys - todo)[k := Text(source[k])];
      todo := todo - {k};
    }
  }

  /** The four headers every response that is not redirected gets. */
  const OpenHeaders: map<string, HeaderValue> := map[
    "content-encoding" := Text("identity"),
    "access-control-allow-origin" := Text("*"),
    "cross-origin-resource-policy" := Text("cross-origin"),
    "cross-origin-embedder-policy" := Text("unsafe-none")]

  lemma OpenNamesLower()
    ensures Lower("content-encoding") == "content-encoding"
    ensures Lower("access-control-allow-origin") == "access-control-allow-origin"
    ensures Lower("cross-origin-resource-policy") == "cross-origin-resource-policy"
    ensures Lower("cross-origin-embedder-policy") == "cross-origin-embedder-policy"
  {
    assert IsLower("content-encoding");
    assert IsLower("access-control-allow-origin");
    assert IsLower("cross-origin-resource-policy");
    assert IsLower("cross-origin-embedder-policy");
  }

  /** The four fixed `setHeader` calls, one at a time, add `OpenHeaders`. */
  lemma OpenSteps(h: map<string, HeaderValue>)
    ensures h["content-encoding" := Text("identity")]["access-control-allow-origin" := Text("*")]
             ["cross-origin-resource-policy" := Text("cross-origin")]["cross-origin-embedder-policy" := Text("unsafe-none")]
            == h + OpenHeaders
  {
  }

  /** `origin.headers["content-type"] || ""`. */
  function OriginType(h: map<string, string>): (t: string)
    ensures "content-type" in h ==> Some(t) == Get(h, "content-type") || (t == "" && h["content-type"] == "")
    ensures "content-type" !in h ==> t == ""
  {
    OrElse(Get(h, "content-type"), "")
  }

  /** `parseInt(origin.headers["content-length"] || "0", 10)`. */
  function OriginSize(h: map<string, string>): (n: Num)
    ensures !Truthy(Get(h, "content-length")) ==> n == Int(0)
  {
    ParseIntOfZero();
    ParseInt(OrElse(Get(h, "content-length"), "0"))
  }

  /** Whether `handleOriginResponse` hands the request to the redirect. */
  predicate RedirectsOn(origin: OriginResponse): (r: bool)
    ensures origin.statusCode >= 400 ==> r
    ensures origin.statusCode < 300 ==> !r
    ensures 300 <= origin.statusCode < 400 ==> (r <==> "location" in origin.headers && origin.headers["location"] != "")
  {
    origin.statusCode >= 400 || (origin.statusCode >= 300 && Truthy(Get(origin.headers, "location")))
  }

  /** Where `handleOriginResponse` sends a request: an error status or a
      redirect with a location redirects the client; otherwise the verdict
      chooses between compressing and passing the bytes through. */
  function RouteFor(origin: OriginResponse, webp: bool, range: Option<string>): (r: Route)
    ensures r == Redirected <==> RedirectsOn(origin)
    ensures r != Failed
    ensures r == Compressing ==> StartsWith(OriginType(origin.headers), "image") && !Truthy(range)
    ensures !Truthy(Get(origin.headers, "content-length")) ==> r != Compressing
    ensures !RedirectsOn(origin) ==>
      (r == Compressing <==> ShouldCompress(OriginType(origin.headers), OriginSize(origin.headers), webp, range))
  {
    if RedirectsOn(origin) then Redirected
    else if ShouldCompress(OriginType(origin.headers), OriginSize(origin.headers), webp, range) then Compressing
    else Bypassing
  }

  /** The response headers once `handleOriginResponse` has passed a request
      on: every origin header, then the four fixed ones over them. */
  function PassHeaders(h0: map<string, HeaderValue>, origin: map<string, string>): map<string, HeaderValue>
  {
    h0 + AsTextValues(origin, origin.Keys) + OpenHeaders
  }

  lemma PassHeadersContents(h0: map<string, HeaderValue>, origin: map<string, string>)
    ensures var r := PassHeaders(h0, origin);
      && (forall k :: k in OpenHeaders ==> k in r && r[k] == OpenHeaders[k])
      && (forall k :: k in origin && k !in OpenHeaders ==> k in r && r[k] == Text(origin[k]))
      && (forall k :: k !in origin && k !in OpenHeaders ==> (k in r <==> k in h0) && (k in r ==> r[k] == h0[k]))
  {
  }

  /** The pass-on steps of `handleOriginResponse`: `copyHeaders`, then the
      four fixed headers. */
  method PassOn(origin: map<string, string>, res: Response)
    requires res.Valid() && !res.headersSent && LowerKeyed(origin)
    modifies res
    ensures res.Valid() && !res.headersSent
    ensures res.headers == PassHeaders(old(res.headers), origin)
    ensures res.statusCode == old(res.statusCode) && res.ended == old(res.ended) && res.body == old(res.body)
  {
    CopyHeaders(origin, res);
    OpenNamesLower();
    ghost var copied := res.headers;
    res.SetHeader("content-encoding", Text("identity"));
    res.SetHeader("access-control-allow-origin", Text("*"));
    res.SetHeader("cross-origin-resource-policy", Text("cross-origin"));
    res.SetHeader("cross-origin-embedder-policy", Text("unsafe-none"));
    OpenSteps(copied);
  }

  /** `handleOriginResponse`. */
  method HandleOriginResponse(origin: OriginResponse, req: Request, res: Response, encode: string -> string)
    returns (route: Route)
    requires res.Valid() && !res.headersSent && LowerKeyed(origin.headers)
    modifies req, res
    ensures res.Valid()
    ensures route == RouteFor(origin, old(req.params.webp), Get(req.headers, "range"))
    ensures origin.statusCode >= 400 ==>
      && req.params == old(req.params) && req.originType == old(req.originType) && req.originSize == old(req.originSize)
      && res.headers == RedirectHeaders(old(res.headers), encode(req.params.url)) && res.statusCode == 302 && res.ended
    ensures origin.statusCode < 400 && RedirectsOn(origin) ==>
      && req.params == old(req.params).(url := origin.headers["location"])
      && req.originType == old(req.originType) && req.originSize == old(req.originSize)
      && res.headers == RedirectHeaders(old(res.headers), encode(origin.headers["location"]))
      && res.statusCode == 302 && res.ended
    ensures !RedirectsOn(origin) ==>
      && req.params == old(req.params)
      && req.originType == Some(OriginType(origin.headers)) && req.originSize == Some(OriginSize(origin.headers))
      && res.headers == (if route == Bypassing then BypassHeaders(PassHeaders(old(res.headers), origin.headers), origin.headers)
                         else PassHeaders(old(res.headers), origin.headers))
      && res.statusCode == old(res.statusCode) && !res.headersSent && !res.ended
    ensures res.body == old(res.body)
  {
    if origin.statusCode >= 400 {
      Redirect(req, res, encode);
      return Redirected;
    }
    if origin.statusCode >= 300 && Truthy(Get(origin.headers, "location")) {
      req.params := req.params.(url := origin.headers["location"]);
      Redirect(req, res, encode);
      return Redirected;
    }
    route := PassThrough(origin, req, res);
  }

  /** The rest of `handleOriginResponse` once no redirect applies: pass the
      headers on, record the origin's type and size, and let the verdict pick
      compression or the bypass. */
  method PassThrough(origin: OriginResponse, req: Request, res: Response) returns (route: Route)
    requires res.Valid() && !res.headersSent && LowerKeyed(origin.headers)
    requires !RedirectsOn(origin)
    modifies req, res
    ensures res.Valid() && !res.headersSent && !res.ended
    ensures route == RouteFor(origin, req.params.webp, Get(req.headers, "range"))
    ensures req.params == old(req.params)
    ensures req.originType == Some(OriginType(origin.headers)) && req.originSize == Some(OriginSize(origin.headers))
    ensures res.headers == (if route == Bypassing then BypassHeaders(PassHeaders(old(res.headers), origin.headers), origin.headers)
                            else PassHeaders(old(res.headers), origin.headers))
    ensures res.statusCode == old(res.statusCode) && res.body == old(res.body)
  {
    PassOn(origin.headers, res);
    req.originType := Some(OriginType(origin.headers));
    req.originSize := Some(OriginSize(origin.headers));
    // With no redirect due, `RouteFor` is the `shouldCompress` verdict.
    route := RouteFor(origin, req.params.webp, Get(req.headers, "range"));
    if route == Bypassing {
      MarkBypass(res, origin.headers);
    }
  }

  /** One request from start to the first event of the origin fetch:
      `hhproxy` builds the parameters (or answers with the banner), then the
      fetch's `response` event goes to `handleOriginResponse` and its `error`
      event to `_onRequestError`. The result is None when no fetch starts. */
  method Serve(query: map<string, string>, clientHeaders: map<string, string>, event: FetchEvent, res: Response,
               decode: string -> Option<string>, encode: string -> string)
    returns (route: Option<Route>)
    requires res.Valid() && !res.headersSent
    requires event.Responded? ==> LowerKeyed(event.origin.headers)
    modifies res
    ensures res.Valid()
    ensures route.None? <==> !BuildParams(query, decode).Built?
    ensures BuildParams(query, decode).Banner? ==>
      res.ended && res.body == old(res.body) + BannerText && res.headers == old(res.headers) && res.statusCode == old(res.statusCode)
    ensures BuildParams(query, decode).DecodeThrew? ==> unchanged(res)
    ensures BuildParams(query, decode).Built? && event.Responded? ==>
      route == Some(RouteFor(event.origin, BuildParams(query, decode).params.webp, Get(clientHeaders, "range")))
    ensures BuildParams(query, decode).Built? && event.Errored? ==>
      route == Some(if event.code == Some("ERR_INVALID_URL") then Failed else Redirected)
    ensures BuildParams(query, decode).Built? && event.Errored? && event.code == Some("ERR_INVALID_URL") ==>
      res.statusCode == 400 && res.ended && res.body == old(res.body) + "Invalid URL"
    ensures BuildParams(query, decode).Built? &&
            ((event.Responded? && event.origin.statusCode >= 400) || (event.Errored? && event.code != Some("ERR_INVALID_URL"))) ==>
      && res.statusCode == 302 && res.ended
      && res.headers == RedirectHeaders(old(res.headers), encode(BuildParams(query, decode).params.url))
  {
    var built := Hhproxy(query, res, decode);
    if !built.Built? {
      return None;
    }
    var req := new Request(clientHeaders, built.params);
    match event
    case Responded(origin) =>
      var r := HandleOriginResponse(origin, req, res, encode);
      route := Some(r);
    case Errored(code) =>
      OnRequestError(req, res, code, encode);
      route := Some(if code == Some("ERR_INVALID_URL") then Failed else Redirected);
  }

  // ---------------------------------------------------------------------------
  // Compress path

  /** The codec calls `compress` requests once the metadata reports `height`
      (undefined when the metadata has none). */
  function PlanFor(height: Option<int>, p: Params): (plan: Plan)
    ensures plan.resize.Some? <==> height.Some? && height.value > MaxHeight
    ensures plan.resize.Some? ==> plan.resize.value == Resize(MaxHeight, true)
    ensures plan.grayscale == p.grayscale
    ensures plan.format == Webp <==> p.webp
    ensures plan.quality == p.quality && plan.effort == Some(0)
  {
    Plan(if height.Some? && height.value > MaxHeight then Some(Resize(MaxHeight, true)) else None,
         p.grayscale, if p.webp then Webp else Jpeg, p.quality, Some(0))
  }

  /** The planned output is never taller than `MaxHeight` and never taller
      than the original. */
  lemma PlannedHeight(h: int, p: Params)
    ensures OutputHeight(h, PlanFor(Some(h), p)) == if h > MaxHeight then MaxHeight else h
  {
  }

  /** `setupResponseHeaders`, run on the codec's `info` event: the output
      type and size, the original size and the bytes saved (negative when the
      output is larger), and status 200. */
  method SetupResponseHeaders(res: Response, format: Format, originSize: Num, infoSize: int)
    requires res.Valid() && !res.headersSent
    modifies res
    ensures res.Valid() && !res.headersSent
    ensures res.headers == old(res.headers)
      ["content-type" := Text("image/" + FormatName(format))]
      ["content-length" := Number(Int(infoSize))]
      ["x-original-size" := Number(originSize)]
      ["x-bytes-saved" := Number(Sub(originSize, infoSize))]
    ensures originSize.Int? ==> res.headers["x-bytes-saved"].num.value == originSize.value - infoSize
    ensures res.statusCode == 200 && res.ended == old(res.ended) && res.body == old(res.body)
  {
    CompressNamesLower();
    res.SetHeader("Content-Type", Text("image/" + FormatName(format)));
    res.SetHeader("Content-Length", Number(Int(infoSize)));
    res.SetHeader("X-Original-Size", Number(originSize));
    res.SetHeader("X-Bytes-Saved", Number(Sub(originSize, infoSize)));
    res.statusCode := 200;
  }

  /** Node files the telemetry headers under their lower-case names. */
  lemma CompressNamesLower()
    ensures Lower("Content-Type") == "content-type" && Lower("Content-Length") == "content-length"
    ensures Lower("X-Original-Size") == "x-original-size" && Lower("X-Bytes-Saved") == "x-bytes-saved"
  {
    LowerAgrees("Content-Type", "content-type");
    LowerAgrees("Content-Length", "content-length");
    LowerAgrees("X-Original-Size", "x-original-size");
    LowerAgrees("X-Bytes-Saved", "x-bytes-saved");
  }
}
