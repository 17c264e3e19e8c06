/** What the two proxy variants share: the per-request parameters built from
    the query string, the transform plan handed to the image codec, and the
    declarative form of the compression policy both early-return chains
    implement with their own thresholds. */
module Policy {
  import opened Js

  /** `req.params` as the handler builds it from the query string. */
  datatype Params = Params(url: string, webp: bool, grayscale: bool, quality: int)

  /** The outcome of the parameter-building block: the banner when there is no
      `url`, an exception when `decodeURIComponent` rejects the `url`, or the
      parameters. */
  datatype Built = Banner | DecodeThrew | Built(params: Params)

  /** The text a request without `url` receives. */
  const BannerText := "bandwidth-hero-proxy"

  /** `parseInt(l, 10) || defaultQuality`. */
  function QualityFrom(l: Option<string>, defaultQuality: int): (q: int)
    ensures ParseInt(ToStr(l)).NaN? || ParseInt(ToStr(l)) == Int(0) ==> q == defaultQuality
    ensures ParseInt(ToStr(l)).Int? && ParseInt(ToStr(l)).value != 0 ==> q == ParseInt(ToStr(l)).value
  {
    NumOr(ParseInt(ToStr(l)), defaultQuality)
  }

  /** The parameter-building block of a handler. `decode` stands for
      `decodeURIComponent`, which yields None where it throws a URIError. */
  function ParamsFrom(query: map<string, string>, defaultQuality: int, decode: string -> Option<string>): (r: Built)
    ensures r.Banner? <==> !Truthy(Get(query, "url"))
    ensures r.DecodeThrew? <==> Truthy(Get(query, "url")) && decode(query["url"]).None?
    ensures r.Built? ==> Some(r.params.url) == decode(query["url"])
    ensures r.Built? ==> (r.params.webp <==> !Truthy(Get(query, "jpeg")))
    ensures r.Built? ==> (r.params.grayscale <==> !LooselyZero(Get(query, "bw")))
    ensures r.Built? ==> r.params.quality == QualityFrom(Get(query, "l"), defaultQuality)
  {
    var url := Get(query, "url");
    if !Truthy(url) then Banner
    else match decode(url.value)
      case None => DecodeThrew
      case Some(u) =>
        Built(Params(u, !Truthy(Get(query, "jpeg")), !LooselyZero(Get(query, "bw")),
                     QualityFrom(Get(query, "l"), defaultQuality)))
  }

  /** Quality follows a decimal `l` exactly, except that 0 falls back to the
      default; a missing `l` or one that does not start with a number falls
      back too. Negative values pass through. */
  lemma QualityOfDecimal(n: int, defaultQuality: int)
    ensures QualityFrom(Some(Decimal(n)), defaultQuality) == if n == 0 then defaultQuality else n
  {
    ParseIntOfDecimal([], n, []);
    assert [] + Decimal(n) + [] == Decimal(n);
  }

  lemma QualityWithoutNumber(l: Option<string>, defaultQuality: int)
    requires l.Some? ==> !StartsWithNumber(TrimStart(l.value))
    ensures QualityFrom(l, defaultQuality) == defaultQuality
  {
    if l.None? {
      assert !StartsWithNumber(TrimStart("undefined")) by {
        assert !IsSpace('u');
        assert TrimStart("undefined") == "undefined";
      }
    }
  }

  /** `bw` given as a decimal integer turns grayscale off exactly when it is 0;
      an absent `bw` leaves grayscale on. */
  lemma GrayscaleOfDecimal(n: int)
    ensures !LooselyZero(Some(Decimal(n))) <==> n != 0
    ensures !LooselyZero(None)
  {
    LooselyZeroOfDecimal(n);
  }

  // ---------------------------------------------------------------------------
  // The transform plan

  datatype Format = Webp | Jpeg

  function FormatName(f: Format): string
  {
    if f == Webp then "webp" else "jpeg"
  }

  /** The largest height the codec is asked to produce. */
  const MaxHeight := 16383

  /** A resize to a target height, preserving the aspect ratio; with
      `withoutEnlargement` an image already smaller keeps its height. */
  datatype Resize = Resize(height: int, withoutEnlargement: bool)

  /** The codec calls a compress path requests once the metadata is known: an
      optional resize, the grayscale flag, and the output format with its
      quality and (optional) encoder effort. */
  datatype Plan = Plan(resize: Option<Resize>, grayscale: bool, format: Format, quality: int, effort: Option<int>)

  /** The height of the image a plan produces from one of height `h`, as the
      codec defines a resize. */
  function OutputHeight(h: int, plan: Plan): int
  {
    match plan.resize
    case None => h
    case Some(Resize(target, keepSmaller)) => if keepSmaller && h < target then h else target
  }

  // ---------------------------------------------------------------------------
  // The compression policy, stated declaratively

  predicate IsTransparentType(originType: string)
  {
    EndsWith(originType, "png") || EndsWith(originType, "gif")
  }

  /** Compression is worth it for an image of non-zero size, fetched without a
      range, that is at least `minLength` bytes when the output is WebP and at
      least `minTransparent` bytes when a PNG or GIF is forced to JPEG. */
  predicate Worthwhile(originType: string, originSize: int, webp: bool, range: bool,
                       minLength: int, minTransparent: int)
  {
    && StartsWith(originType, "image")
    && originSize != 0
    && !range
    && (webp ==> originSize >= minLength)
    && (!webp && IsTransparentType(originType) ==> originSize >= minTransparent)
  }

  /** Where a handler sent the request once the origin answered. */
  datatype Route = Redirected | Failed | Compressing | Bypassing
}
