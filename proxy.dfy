/** The handler variant the app serves (`fetchImageAndHandle`): thresholds
    10000 / 50000, default quality 80, and a plain error status (not a
    redirect) when the origin or the codec fails. */
module Proxy {
  import opened Js
  import opened Http
  import opened Policy

  const DefaultQuality := 80
  const MinTransparentCompressLength := 50000
  const MinCompressLength := 10000

  /** The text of a response whose fetch failed. */
  const FetchFailedText := "Failed to fetch the image."

  // ---------------------------------------------------------------------------
  // Compression verdict

  /** `shouldCompress` on a defined origin type: the same early-return chain as
      the other variant, with the transparent-format check before the WebP
      check and this variant's thresholds. */
  function ShouldCompress(originType: string, originSize: int, webp: bool, range: Option<string>): (r: bool)
    ensures r <==> Worthwhile(originType, originSize, webp, Truthy(range), MinCompressLength, MinTransparentCompressLength)
    ensures StartsWith(originType, "image") && !Truthy(range) && webp ==> (r <==> originSize >= MinCompressLength)
    ensures StartsWith(originType, "image") && !Truthy(range) && !webp && IsTransparentType(originType) ==>
      (r <==> originSize >= MinTransparentCompressLength)
    ensures StartsWith(originType, "image") && !Truthy(range) && !webp && !IsTransparentType(originType) ==>
      (r <==> originSize != 0)
  {
    if !StartsWith(originType, "image") then false
    else if originSize == 0 || Truthy(range) then false
    else if !webp && IsTransparentType(originType) && originSize < MinTransparentCompressLength then false
    else if webp && originSize < MinCompressLength then false
    else true
  }

  /** What evaluating `shouldCompress` yields: a verdict, or the TypeError of
      `originType.startsWith` on an undefined type. */
  datatype Verdict = Threw | Decided(compress: bool)

  /** `shouldCompress` as the handler calls it: the type is the origin's
      `content-type` as is, undefined when the origin sent none. */
  function ShouldCompressAsWritten(originType: Option<string>, originSize: int, webp: bool, range: Option<string>): (r: Verdict)
    ensures r == Threw <==> originType.None?
    ensures originType.Some? ==> r == Decided(ShouldCompress(originType.value, originSize, webp, range))
  {
    match originType
    case None => Threw
    case Some(t) => Decided(ShouldCompress(t, originSize, webp, range))
  }

  /** A response without `content-type` makes the handler throw instead of
      choosing a path. */
  lemma MissingContentTypeThrows(h: map<string, string>, webp: bool, range: Option<string>)
    requires "content-type" !in h
    ensures ShouldCompressAsWritten(Get(h, "content-type"), OriginSize(h), webp, range) == Threw
  {
  }

  /** The origin type the handler evidently means to store:
      `headers["content-type"] || ""`, as the other variant does. */
  function OriginType(h: map<string, string>): (t: string)
    ensures "content-type" in h ==> Some(t) == Get(h, "content-type") || (t == "" && h["content-type"] == "")
    ensures "content-type" !in h ==> t == ""
  {
    OrElse(Get(h, "content-type"), "")
  }

  /** With the corrected type, a response without `content-type` is passed
      through, and wherever the origin did send one the verdict is the one the
      code as written reaches. */
  lemma CorrectedOriginType(h: map<string, string>, size: int, webp: bool, range: Option<string>)
    ensures "content-type" !in h ==> !ShouldCompress(OriginType(h), size, webp, range)
    ensures "content-type" in h ==>
      ShouldCompressAsWritten(Get(h, "content-type"), size, webp, range) == Decided(ShouldCompress(OriginType(h), size, webp, range))
  {
    if "content-type" !in h {
      assert !StartsWith("", "image");
    }
  }

  /** `parseInt(headers["content-length"], 10) || 0`. */
  function OriginSize(h: map<string, string>): (n: int)
    ensures "content-length" !in h ==> n == 0
    ensures "content-length" in h && !StartsWithNumber(TrimStart(h["content-length"])) ==> n == 0
  {
    if "content-length" !in h then UndefinedIsNotANumber(); NumOr(ParseInt(ToStr(Get(h, "content-length"))), 0)
    else NumOr(ParseInt(ToStr(Get(h, "content-length"))), 0)
  }

  lemma UndefinedIsNotANumber()
    ensures ParseInt(ToStr(None)) == NaN
  {
    assert !IsSpace('u');
    assert TrimStart("undefined") == "undefined";
  }

  /** A response with a missing or non-numeric `content-length` is never
      compressed. */
  lemma NoLengthNoCompression(h: map<string, string>, webp: bool, range: Option<string>)
    requires "content-length" in h ==> !StartsWithNumber(TrimStart(h["content-length"]))
    ensures !ShouldCompress(OriginType(h), OriginSize(h), webp, range)
  {
  }

  // ---------------------------------------------------------------------------
  // Request parameters

  /** The parameter block of `fetchImageAndHandle`, with this variant's
      default quality. */
  function BuildParams(query: map<string, string>, decode: string -> Option<string>): (r: Built)
    ensures r.Banner? <==> !Truthy(Get(query, "url"))
    ensures r.Built? && "l" !in query ==> r.params.quality == DefaultQuality
    ensures r == ParamsFrom(query, DefaultQuality, decode)
  {
    if "l" !in query then QualityWithoutNumber(None, DefaultQuality); ParamsFrom(query, DefaultQuality, decode)
    else ParamsFrom(query, DefaultQuality, decode)
  }

  /** `req`: the client's headers (lower-case names) and `req.params`, to
      which the origin's type and size are added. */
  class Request {
    const headers: map<string, string>
    var params: Params
    var originType: Option<string>
    var originSize: Option<int>

    constructor (headers: map<string, string>, params: Params)
      ensures this.headers == headers && this.params == params
      ensures originType == None && originSize == None
    {
      this.headers := headers;
      this.params := params;
      originType := None;
      originSize := None;
    }
  }

  /** The start of `fetchImageAndHandle`: without a `url` the response ends
      with the banner; otherwise the parameters are built and the fetch starts
      (the fetch itself is not modelled). */
  method FetchImageAndHandle(query: map<string, string>, res: Response, decode: string -> Option<string>)
    returns (built: Built)
    requires res.Valid()
    modifies res
    ensures res.Valid()
    ensures built == BuildParams(query, decode)
    ensures built.Banner? && !old(res.ended) ==> res.ended && res.body == old(res.body) + BannerText
    ensures built.Banner? ==> res.headers == old(res.headers) && res.statusCode == old(res.statusCode)
    ensures !built.Banner? ==> unchanged(res)
  {
    built := BuildParams(query, decode);
    if built.Banner? {
      res.End(BannerText);
    }
  }

  // ---------------------------------------------------------------------------
  // Origin response

  /** Where the response handler sends a request: an error status fails it;
      otherwise the verdict chooses between compressing and passing the bytes
      through. */
  function RouteFor(origin: OriginResponse, webp: bool, range: Option<string>): (r: Route)
    ensures r == Failed <==> origin.statusCode >= 400
    ensures r != Redirected
    ensures r == Compressing ==> StartsWith(OriginType(origin.headers), "image") && !Truthy(range) && OriginSize(origin.headers) != 0
  {
    if origin.statusCode >= 400 then Failed
    else if ShouldCompress(OriginType(origin.headers), OriginSize(origin.headers), webp, range) then Compressing
    else Bypassing
  }

  /** `handleRequest`: compress, or mark the response as a bypass and copy the
      allow-listed origin headers. */
  method HandleRequest(req: Request, res: Response, origin: map<string, string>) returns (route: Route)
    requires res.Valid() && !res.headersSent
    requires req.originType.Some? && req.originSize.Some?
    modifies res
    ensures res.Valid() && !res.headersSent
    ensures route == (if ShouldCompress(req.originType.value, req.originSize.value, req.params.webp, Get(req.headers, "range"))
                      then Compressing else Bypassing)
    ensures res.headers == (if route == Bypassing then BypassHeaders(old(res.headers), origin) else old(res.headers))
    ensures res.statusCode == old(res.statusCode) && !res.ended && res.body == old(res.body)
  {
    if ShouldCompress(req.originType.value, req.originSize.value, req.params.webp, Get(req.headers, "range")) {
      return Compressing;
    }
    MarkBypass(res, origin);
    route := Bypassing;
  }

  /** The `response` handler: an error status is copied onto the response,
      which ends with a failure text; otherwise the origin's type and size are
      recorded and `handleRequest` picks the path. */
  method OnResponse(origin: OriginResponse, req: Request, res: Response) returns (route: Route)
    requires res.Valid() && !res.headersSent
    modifies req, res
    ensures res.Valid()
    ensures route == RouteFor(origin, req.params.webp, Get(req.headers, "range"))
    ensures req.params == old(req.params)
    ensures origin.statusCode >= 400 ==>
      && req.originType == old(req.originType) && req.originSize == old(req.originSize)
      && res.statusCode == origin.statusCode && res.headers == old(res.headers)
      && res.ended && res.body == old(res.body) + FetchFailedText
    ensures origin.statusCode < 400 ==>
      && req.originType == Some(OriginType(origin.headers)) && req.originSize == Some(OriginSize(origin.headers))
      && res.headers == (if route == Bypassing then BypassHeaders(old(res.headers), origin.headers) else old(res.headers))
      && res.statusCode == old(res.statusCode) && !res.headersSent && res.body == old(res.body)
  {
    if origin.statusCode >= 400 {
      res.statusCode := origin.statusCode;
      res.End(FetchFailedText);
      return Failed;
    }
    req.originType := Some(OriginType(origin.headers));
    req.originSize := Some(OriginSize(origin.headers));
    route := HandleRequest(req, res, origin.headers);
  }

  /** The fetch stream's `error` handler: status 500 and a failure text. */
  method OnFetchError(res: Response)
    requires res.Valid()
    modifies res
    ensures res.Valid()
    ensures res.statusCode == 500 && res.headers == old(res.headers) && res.ended
    ensures res.body == if old(res.ended) then old(res.body) else old(res.body) + FetchFailedText
  {
    res.statusCode := 500;
    res.End(FetchFailedText);
  }

  /** One request from start to the first event of the origin fetch:
      `fetchImageAndHandle` builds the parameters (or answers with the
      banner), then the fetch's `response` event goes to the response handler
      and its `error` event to the error handler. The result is None when no
      fetch starts. */
  method Serve(query: map<string, string>, clientHeaders: map<string, string>, event: FetchEvent, res: Response,
               decode: string -> Option<string>)
    returns (route: Option<Route>)
    requires res.Valid() && !res.headersSent
    modifies res
    ensures res.Valid()
    ensures route.None? <==> !BuildParams(query, decode).Built?
    ensures BuildParams(query, decode).Banner? ==>
      res.ended && res.body == old(res.body) + BannerText && res.headers == old(res.headers) && res.statusCode == old(res.statusCode)
    ensures BuildParams(query, decode).DecodeThrew? ==> unchanged(res)
    ensures BuildParams(query, decode).Built? && event.Responded? ==>
      route == Some(RouteFor(event.origin, BuildParams(query, decode).params.webp, Get(clientHeaders, "range")))
    ensures BuildParams(query, decode).Built? && event.Responded? && event.origin.statusCode >= 400 ==>
      res.statusCode == event.origin.statusCode && res.ended && res.body == old(res.body) + FetchFailedText
    ensures BuildParams(query, decode).Built? && event.Errored? ==>
      route == Some(Failed) && res.statusCode == 500 && res.ended && res.body == old(res.body) + FetchFailedText
  {
    var built := FetchImageAndHandle(query, res, decode);
    if !built.Built? {
      return None;
    }
    var req := new Request(clientHeaders, built.params);
    match event
    case Responded(origin) =>
      var r := OnResponse(origin, req, res);
      route := Some(r);
    case Errored(_) =>
      OnFetchError(res);
      route := Some(Failed);
  }

  // ---------------------------------------------------------------------------
  // Compress path

  /** The three places the compress path can fail. */
  datatype Stage = Processing | Metadata | Streaming

  function FailureText(stage: Stage): string
  {
    match stage
    case Processing => "Failed to process image."
    case Metadata => "Failed to fetch image metadata."
    case Streaming => "Failed to stream the image."
  }

  /** The codec's error handlers: status 500 and the text of the stage. */
  method OnCompressError(res: Response, stage: Stage)
    requires res.Valid()
    modifies res
    ensures res.Valid()
    ensures res.statusCode == 500 && res.headers == old(res.headers) && res.ended
    ensures res.body == if old(res.ended) then old(res.body) else old(res.body) + FailureText(stage)
  {
    res.statusCode := 500;
    res.End(FailureText(stage));
  }

  /** The codec calls `compress` requests once the metadata reports `height`
      (undefined when the metadata has none): a resize only for images taller
      than the ceiling, grayscale only when asked for, no effort setting. */
  function PlanFor(height: Option<int>, p: Params): (plan: Plan)
    ensures plan.resize.Some? <==> height.Some? && height.value > MaxHeight
    ensures plan.resize.Some? ==> plan.resize.value == Resize(MaxHeight, false)
    ensures plan.grayscale == p.grayscale
    ensures plan.format == Webp <==> p.webp
    ensures plan.quality == p.quality && plan.effort == None
  {
    Plan(if height.Some? && height.value > MaxHeight then Some(Resize(MaxHeight, false)) else None,
         p.grayscale, if p.webp then Webp else Jpeg, p.quality, None)
  }

  /** The resize has no `withoutEnlargement`, yet the output is never taller
      than the original: the resize is only requested for taller images. */
  lemma PlannedHeight(h: int, p: Params)
    ensures OutputHeight(h, PlanFor(Some(h), p)) == if h > MaxHeight then MaxHeight else h
  {
  }
}
