# Bandwidth-hero image proxy: decision and header logic

This project models the per-request logic of an HTTP proxy that fetches an
image for a client and, when that is worth it, re-encodes it (WebP, or JPEG on
request, optionally resized and grayscale) before sending it on. Two handler
variants exist. `proxy.js` (`fetchImageAndHandle`) is the one the app routes
`GET /` to. `proxy1.js` (`hhproxy`) is the fuller one, which redirects the
client to the original image whenever something fails. Each variant is
modelled on its own, with its own constants.

- `js.dfy` (module `Js`) covers the JavaScript semantics the decisions rest on:
  - truthiness of possibly undefined strings;
  - `parseInt(x, 10)`: leading white space, one optional sign, a digit run, otherwise NaN;
  - the loose comparison `bw != 0` (a string equals 0 when, after trimming, it is empty or a numeric literal of value zero).
- `http.dfy` (module `Http`) covers Node's outgoing response as a class `Response`:
  - a lower-case header map, `statusCode`, `headersSent`, `ended` and the text handed to `end`, changed in place by `SetHeader`, `RemoveHeader` and `End`;
  - the origin's response as a value;
  - the bypass allow-list loop shared by both variants.
- `policy.dfy` (module `Policy`) holds what the variants share:
  - the query-to-parameters block, parameterised by the default quality;
  - the transform plan handed to the codec;
  - `Worthwhile`, a declarative statement of the compression policy that both early-return chains are proved against.
- `proxy1.dfy` (module `Proxy1`) and `proxy.dfy` (module `Proxy`) are the two handlers:
  - the compression verdict;
  - parameter building and the banner;
  - dispatch on the origin's status;
  - error handling;
  - the bypass and compress headers;
  - the transform plan;
  - `Serve`, which runs one request from the query to the first event of the origin fetch.

Fetching, the image codec and streaming are inputs, not code:
- The fetch's first event (`FetchEvent`: response headers, or an error code) is an input.
- The codec's reported `height` and output `size` are inputs.
- `decodeURIComponent` and `encodeURI` are function-typed parameters. `decode` returns `None` where `decodeURIComponent` throws.

Points where the code's behaviour is easy to misread:
- `proxy1.js` defaults quality to 40 (`proxy.js` uses 80).
- Only a missing number or 0 falls back to the default quality. A negative `l` is kept.
- `X-Bytes-Saved` is `originSize - info.size`, so it is negative when the output is larger.
- WebP is chosen when `jpeg` is absent or empty, since the empty string is falsy.
- `proxy.js` answers an origin status of 400 or more with that status and a text, not with a redirect. It answers fetch and codec errors with 500.
- In `proxy1.js` a non-numeric `content-length` parses to NaN. Every comparison with NaN is false, so `shouldCompress` then decides on type and range alone (`Proxy1.ShouldCompress`, last ensures).

## Model

| member | source | states |
|---|---|---|
| `Js.TrimStart` | proxy1.js:121 | the white space `parseInt` skips: the result is the longest suffix whose removed prefix is all white space and which does not itself start with white space |
| `Js.ParseInt` | proxy1.js:121 | `parseInt(s, 10)` is NaN exactly when, after leading white space and one optional sign, no digit follows |
| `Js.ParseIntOfDecimal` | proxy1.js:164 | round trip: `parseInt` of any decimal integer, with any white space before it and any non-digit text after it, gives that integer back |
| `Js.LooselyZero` | proxy1.js:120 | `bw == 0` for a possibly undefined string: undefined is never loosely 0, and an empty or all-white-space string always is |
| `Js.LooselyZeroOfDecimal` | proxy1.js:120 | a decimal integer string is loosely equal to 0 exactly when the integer is 0 |
| `Http.AllowedFrom` | proxy1.js:173-177 | the allow-listed headers copied are exactly those the origin sent with a non-empty value, each with the origin's value |
| `Http.BypassHeadersContents` | proxy1.js:171-177 | after the bypass steps `x-proxy-bypass` is 1, each allow-listed header the origin sent has the origin's value, and every other header is unchanged |
| `Http.CopyPresent` | proxy.js:82-86 | the `forEach` over the allow-list adds exactly `AllowedFrom(origin, names)` to the headers and changes nothing else |
| `Http.MarkBypass` | proxy.js:80-86 | the bypass steps leave the headers exactly `BypassHeaders` of the previous ones, with status, body and the sent flag untouched |
| `Http.Response.SetHeader` | proxy1.js:45 | `setHeader` files the value under the lower-cased name and changes nothing else |
| `Http.Response.RemoveHeader` | proxy1.js:46 | `removeHeader` drops the lower-cased name and changes nothing else |
| `Http.Response.End` | proxy1.js:52 | `end` marks the headers sent and the response ended and appends its text; a second `end` changes nothing |
| `Policy.QualityFrom` | proxy1.js:121 | `parseInt(l) \|\| default`: the default when the parse is NaN or 0, the parsed value otherwise |
| `Policy.ParamsFrom` | proxy1.js:112-122 | banner iff `url` is missing or empty; an exception iff decoding fails; otherwise the url is the decoded one, `webp` iff `jpeg` is falsy, `grayscale` iff `bw` is not loosely 0, and quality as `QualityFrom` |
| `Policy.QualityOfDecimal` | proxy1.js:121 | a decimal `l` gives exactly that quality, except that 0 gives the default; negatives pass through |
| `Policy.QualityWithoutNumber` | proxy.js:105 | a missing `l` or one that does not start with a number gives the default quality |
| `Policy.GrayscaleOfDecimal` | proxy.js:104 | `bw` as a decimal integer disables grayscale iff it is 0; an absent `bw` leaves grayscale on |
| `Proxy1.ShouldCompress` | proxy1.js:12-28 | false for non-image types, zero size and any range header; for integer sizes it is exactly `Worthwhile` with 1024 / 102400; WebP flips at 1024, forced-JPEG PNG/GIF at 102400, other forced-JPEG images are never blocked by size; a NaN size decides on type and range alone |
| `Proxy1.BuildParams` | proxy1.js:117-122 | the shared parameter block with default quality 40; a missing `l` gives 40 |
| `Proxy1.Hhproxy` | proxy1.js:111-122 | a request without `url` ends with the body "bandwidth-hero-proxy" and starts no fetch; otherwise the response is untouched and the parameters are `BuildParams` |
| `Proxy1.RedirectHeadersContents` | proxy1.js:45-50 | after a redirect no caching header is left, `content-length` is 0, `location` is the encoded URL, and every other header is as before |
| `Proxy1.Redirect` | proxy1.js:42-53 | a no-op once headers are sent; otherwise headers become `RedirectHeaders(old, encodeURI(url))`, status 302, and the response ends |
| `Proxy1.OnRequestError` | proxy1.js:183-191 | `ERR_INVALID_URL` gives status 400 and "Invalid URL" with headers untouched; any other error is a `Redirect` |
| `Proxy1.CopyHeaders` | proxy1.js:31-39 | every origin header is set on the response with its value; nothing else changes |
| `Proxy1.OriginType` | proxy1.js:163 | the origin's `content-type` when it sent a non-empty one, otherwise "" |
| `Proxy1.RedirectsOn` | proxy1.js:147-154 | status 400 or more always redirects, below 300 never, and a 3xx exactly when a non-empty `location` came with it |
| `Proxy1.OriginSize` | proxy1.js:164 | a missing or empty `content-length` gives size 0 |
| `Proxy1.RouteFor` | proxy1.js:146-181 | redirect iff status >= 400 or a 3xx with a location; otherwise compress iff `ShouldCompress` of the origin's type and size; a compressed response is an image requested without range; no `content-length` means no compression |
| `Proxy1.PassHeadersContents` | proxy1.js:156-161 | every origin header is copied, then the four fixed CORS/encoding headers take precedence; other headers are kept |
| `Proxy1.PassOn` | proxy1.js:156-161 | `copyHeaders` followed by the four fixed `setHeader` calls leaves the headers exactly `PassHeaders` of the previous ones and the origin's |
| `Proxy1.PassThrough` | proxy1.js:156-180 | with no redirect due, the origin's type and size are recorded, the headers are passed on, and the bypass adds its marker and allow-listed headers; nothing is sent; the route is `RouteFor` |
| `Proxy1.HandleOriginResponse` | proxy1.js:146-181 | the route is `RouteFor`; status >= 400 redirects to the unchanged url; a 3xx with location first sets `params.url` to it and redirects there; otherwise the origin type and size are recorded, headers become `PassHeaders`, plus `BypassHeaders` on the bypass path, and nothing is sent yet |
| `Proxy1.Serve` | proxy1.js:111-144 | no `url` gives the banner and no fetch; a response event follows `RouteFor`; an origin status >= 400, or a fetch error other than an invalid URL, ends in a 302 to the encoded original url with caching headers stripped; an invalid URL ends in 400 |
| `Proxy1.PlanFor` | proxy1.js:58-80 | a resize to 16383 without enlargement iff the height exceeds 16383; grayscale as requested; WebP iff `params.webp`; the requested quality and effort 0 |
| `Proxy1.PlannedHeight` | proxy1.js:68-73 | the planned output height is the smaller of the original height and 16383 |
| `Proxy1.SetupResponseHeaders` | proxy1.js:87-95 | the compress path sets the output type, the output length, the original size and `X-Bytes-Saved = originSize - info.size` (possibly negative), and status 200 |
| `Proxy.ShouldCompress` | proxy.js:10-27 | exactly `Worthwhile` with 10000 / 50000: false for non-image types, zero size and any range; WebP flips at 10000, forced-JPEG PNG/GIF at 50000, other forced-JPEG images are never blocked by size |
| `Proxy.ShouldCompressAsWritten` | proxy.js:13 | `originType.startsWith` throws exactly when the stored type is undefined; otherwise the verdict is `ShouldCompress` |
| `Proxy.MissingContentTypeThrows` | proxy.js:119 | an origin response without `content-type` makes `shouldCompress` throw |
| `Proxy.OriginType` | proxy.js:119 | the corrected type: the origin's `content-type`, or "" when it is missing or empty |
| `Proxy.CorrectedOriginType` | proxy.js:119 | with the corrected type a response without `content-type` is passed through, and whenever the origin sent one the verdict equals the as-written verdict |
| `Proxy.OriginSize` | proxy.js:120 | a missing or non-numeric `content-length` gives size 0 |
| `Proxy.NoLengthNoCompression` | proxy.js:120 | a response with a missing or non-numeric `content-length` is never compressed |
| `Proxy.BuildParams` | proxy.js:101-106 | the shared parameter block with default quality 80; a missing `l` gives 80 |
| `Proxy.FetchImageAndHandle` | proxy.js:94-106 | a request without `url` is answered with the banner and starts no fetch; otherwise the response is untouched and the parameters are `BuildParams` |
| `Proxy.RouteFor` | proxy.js:112-129 | failed iff status >= 400, never a redirect; a compressed response is an image of non-zero size requested without range |
| `Proxy.HandleRequest` | proxy.js:76-90 | compress iff `ShouldCompress`, with headers untouched; otherwise headers become `BypassHeaders` |
| `Proxy.OnResponse` | proxy.js:112-129 | status >= 400 is copied onto the response, which ends with "Failed to fetch the image."; otherwise type and size are recorded and `HandleRequest` decides, with nothing sent yet |
| `Proxy.OnFetchError` | proxy.js:132-136 | a fetch error gives status 500 and "Failed to fetch the image." |
| `Proxy.OnCompressError` | proxy.js:36-72 | a codec failure gives status 500 and the failure text of its stage |
| `Proxy.Serve` | proxy.js:94-137 | no `url` gives the banner and no fetch; a response event follows `RouteFor`, and a status >= 400 is copied onto the response with the failure text; a fetch error ends in 500 |
| `Proxy.PlanFor` | proxy.js:31-56 | a resize to 16383 (no enlargement flag) iff the height exceeds 16383; grayscale iff requested; WebP iff `params.webp`; the requested quality, no effort |
| `Proxy.PlannedHeight` | proxy.js:46-48 | the output is never taller than 16383 or than the original, even without the enlargement flag |

## Findings

| source | as written | input that shows it | evidently intended | confidence | as-written member | corrected member |
|---|---|---|---|---|---|---|
| proxy.js:119 | `originType` is the origin's `content-type` as is, so it is undefined when the origin sends none, and `originType.startsWith` (proxy.js:13) throws a TypeError. The request is then neither compressed nor passed through. | an origin answering 200 with no `content-type` header | `content-type \|\| ""`, as `proxy1.js:163` does, so such responses take the bypass path | high that the TypeError is thrown; what the fetch library does with it is not modelled; not executed | `Proxy.ShouldCompressAsWritten`, `Proxy.MissingContentTypeThrows` | `Proxy.OriginType`, `Proxy.CorrectedOriginType` |

`Proxy.OnResponse`, `Proxy.RouteFor` and `Proxy.Serve` use the corrected `Proxy.OriginType`. `Proxy.HandleRequest` requires a recorded origin type (`req.originType.Some?`) for the same reason: with the correction the type is always a string when it gets there.

## Left out

- Origin fetching (`got.stream`) is not modelled. The first event of the fetch is an input. The headers forwarded to the origin (`pick.js`, the generated user agent, `X-Forwarded-For`, `Via`; proxy1.js:124-133) are left out: `pick.js` is not part of this model, and user-agent generation is random.
- Streaming is left out. This covers piping origin bytes or codec output to the client, `write`/`drain` backpressure (proxy1.js:97-107), and the codec's `end` event. These are asynchronous coordination of library streams. The response body holds only the text given to `end`.
- The codec's option validation is not modelled. `toFormat` rejects a quality outside 1-100, which the parameters keep (a negative or too large `l`). On the compress path that ends in the metadata `.catch`: a redirect at proxy1.js:85, a 500 at proxy.js:68-71. `Proxy1.PlanFor` and `Proxy.PlanFor` record such a quality unchanged.
- The image codec is left out beyond the plan it is given. Its metadata height and output size are inputs. Which error event fires when is not modelled; the error handlers are modelled as what each one does.
- Connection teardown on an origin stream error after the response started (proxy1.js:166) is left out.
- Only the first fetch event is modelled. Later events (an `error` after `response`) and their timing are not.
- The `try`/`catch` around `setHeader` inside `copyHeaders` (proxy1.js:33-37) is left out. Node's rejection of invalid header values is not modelled.
- `console` logging is left out.
- The Express wiring in index.js and its favicon route are left out.
- Express extras are left out: the headers `res.send` adds, and what the framework does with an exception that leaves a handler (`DecodeThrew`).
- Query parameters and header values are single strings. Repeated query parameters, which Express turns into arrays, and multi-valued headers such as `set-cookie` are not modelled.
- Numbers are modelled as integers or NaN. `parseInt` on digit strings beyond 2^53 is exact here but rounded in JavaScript. A literal such as `1e-400`, which underflows to 0 in JavaScript, counts as non-zero here.
- `encodeURI` and `decodeURIComponent` are parameters, not re-implementations. Lone surrogates, on which `encodeURI` throws, cannot occur in the model's strings.
- Http.Response.SetHeader: requires that the headers are not yet sent, instead of modelling Node's `ERR_HTTP_HEADERS_SENT` exception. Every call in both handlers runs before anything is written.
