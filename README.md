# go-resize-proxy, modelled in Dafny

This project models the core of `go-resize-proxy`, an HTTP reverse proxy in
front of an S3-style image store that serves resized variants of images on
demand. A request for `<source>_<width>` that the origin does not hold is
answered by fetching `<source>`, resizing it with libvips to `<width>` pixels
and returning the resized bytes.

What is modelled:

- `transport.RoundTrip` (`go-resize-proxy/main.go`): the per-request decision.
  Fetch the exact URL; a 200 passes through. Otherwise split the URL text at
  its last `_`, run the width text through `strconv.Atoi`, parse the source
  text with `url.Parse`, point `req.URL` at it and fetch again; a 200 from that
  fetch is resized in place. `Proxy.Intercept` states, as a value, the fetches
  made, the outcome (response and error, or a panic), the final `req.URL` and
  the write-back scheduled; `Proxy.Transport.RoundTrip` runs the same steps on
  mutable `Request`/`Response` objects and is proved to agree with it. Both
  are split the same way: after a first response that is not a 200
  (`Proxy.MissTrip`, `Proxy.Transport.Miss`), and after the source URL parsed
  (`Proxy.SourceTrip`, `Proxy.Transport.FetchAndResize`).
- `resizeImage` (`go-resize-proxy/main.go`): the height arithmetic, the body
  replacement and the `Content-Length` header rewrite, as `Resizer.Rewrite`
  (a value) and `Resizer.ResizeImage` (in place on a `Response`).
- `S3Storage.Upload` (`go-resize-proxy/storage.go`): the put request built for
  a logical key (`Storage.PutRequest`) and the single put it issues.
- The library behaviour these depend on: `strings.LastIndex`,
  `strings.TrimPrefix`, `strconv.Atoi` for a 64-bit `int` (sign, digits, range
  and syntax errors) and the decimal rendering of an `int`.

The origin, `url.Parse`, libvips and the S3 client are oracles: function
values passed in. The origin answers a fetch of a URL made after n earlier
fetches of any URL (`serve(n, url)`), so a repeated fetch of the same URL may get a different
answer, and `RoundTripper.fetched` records the order of fetches.

Behaviour of the code worth knowing, as the model states it:

- Widths: the code accepts whatever `strconv.Atoi` accepts, so `_0`, `_+7` and `_-5` name variants and
  go on to the source fetch (`VariantKey.ZeroWidthDecodes`,
  `VariantKey.NegativeWidthDecodes`).
- Undecodable suffix: the comment at main.go:47 says the original file is
  served, but a URL with no `_` after position 0 is fetched a second time
  (main.go:49) and that second result is returned; a width Atoi rejects returns the first
  response together with Atoi's error (the named results and a bare `return`).
- Height: the comment at main.go:100 speaks of an aspect ratio, but the code
  divides the two integer dimensions before converting to float64, so the
  factor is 0 or 1: the height is the width for a square image and 0 for any
  other (`Resizer.LandscapeHeightIsZero`: 1000x500 at width 200 gives 0, not
  100). A 0x0 size, which is what `Image.Size()` reports when it fails, divides
  by zero; the model reports that as a panic.
- Resize failure: the error of `Image.Resize` is only logged; the body is
  replaced by whatever bytes it returned and `Content-Length` is set to their
  count.
- Write-back: the background task is started but its `Upload` call is
  commented out (main.go:130). The model returns the job the task has in
  scope (key = path of the URL first requested, the resized bytes, the
  `Content-Type` of the source response) as a ghost value; nothing is stored.
- `Content-Length`: only the header is rewritten; the response's
  `ContentLength` field keeps the source response's value.

## Model

| member | source | states |
|---|---|---|
| GoStrings.LastIndex | go-resize-proxy/main.go:45 | -1 exactly when the character does not occur; otherwise a position holding it with no occurrence after it |
| GoStrings.LastIndexOfJoin | go-resize-proxy/main.go:45 | in `a + "_" + b` with no `_` in `b`, the last `_` is at `|a|` |
| GoStrings.TrimPrefix | go-resize-proxy/storage.go:53 | with the prefix present, prefix + result is the input; without it the input is returned; the result is always a suffix of the input |
| GoStrconv.ScanDigits | go-resize-proxy/main.go:53 | the digit loop succeeds exactly when the text is all digits and its value fits 64 unsigned bits, and then yields that value; all-digit text only fails with a range error |
| GoStrconv.Atoi | go-resize-proxy/main.go:53 | succeeds exactly on an optional sign plus at least one digit whose value is in the int64 range, yielding that value; out-of-range signed text is a range error; a syntax error only for malformed text; the error carries the input |
| GoStrconv.FormatInt | go-resize-proxy/main.go:120 | the rendering is non-empty digits without leading zeros ("0" for zero), with a leading `-` exactly for negatives, and holds no `_` |
| GoStrconv.DecimalValueOfDecimal | go-resize-proxy/main.go:120 | reading back the digits of n gives n |
| GoStrconv.AtoiFormatInt | go-resize-proxy/main.go:120 | Atoi inverts the decimal rendering of every int64 |
| Http.HeaderGetSet | go-resize-proxy/main.go:120-124 | `Header.Get` (the first value stored under a key, or "") after storing values under one key: that key now answers with the first new value (or "" for none), and every other key keeps its old answer; this is why the Content-Type read at line 124 is the source response's despite the Content-Length update at line 120 |
| Http.RoundTripper.RoundTrip | go-resize-proxy/main.go:31 | one fetch is appended to the fetch log; a transport error gives no response and the error, a reply gives a fresh response holding it and no error |
| VariantKey.DecodeKey | go-resize-proxy/main.go:43-58 | no suffix exactly when no `_` occurs after position 0; otherwise source + `_` + width text is the URL text, the source is non-empty, the width text holds no `_`, and the width or error is Atoi's on the width text |
| VariantKey.DecodeJoined | go-resize-proxy/main.go:45-52 | any text joined to a non-empty source by `_` splits back into exactly that source and text, and is a variant exactly when Atoi accepts the text |
| VariantKey.DecodeEncode | go-resize-proxy/main.go:43-58 | decoding `<source>_<width>` recovers the source and width for every int64 width |
| VariantKey.ZeroWidthDecodes | go-resize-proxy/main.go:53 | `_0` decodes to width 0 rather than being rejected |
| VariantKey.NegativeWidthDecodes | go-resize-proxy/main.go:53 | `_-5` decodes to width -5 rather than being rejected |
| VariantKey.MalformedWidthRejected | go-resize-proxy/main.go:53-58 | an empty width, a bare `+` or `abc` is a syntax error carrying that text |
| VariantKey.OversizedWidthRejected | go-resize-proxy/main.go:53-58 | a digit string whose value exceeds the int64 range is a range error carrying its text |
| VariantKey.LeadingDelimiterIsNoSuffix | go-resize-proxy/main.go:45-50 | a `_` only at position 0 names no variant |
| Resizer.TargetHeight | go-resize-proxy/main.go:100-109 | divides by zero exactly for a 0x0 size; otherwise the height is the width for a square image and 0 for any other |
| Resizer.LandscapeHeightIsZero | go-resize-proxy/main.go:102-105 | a 1000x500 image at width 200 gets height 0 |
| Resizer.Rewrite | go-resize-proxy/main.go:85-134 | a read or close failure returns that error with the response untouched and no write-back; a 0x0 readable image panics; any other readable image is rewritten with no error returned, even when the resize reported one: the body is the resized bytes, Content-Length reads back by Atoi as their count, status, ContentLength field and every other header are unchanged, and the write-back carries the given path, those bytes and the source Content-Type |
| Resizer.ResizeImage | go-resize-proxy/main.go:85-134 | in place on the response: panics exactly when Rewrite does (response untouched), otherwise the response, returned error and write-back are Rewrite's |
| Proxy.Intercept | go-resize-proxy/main.go:27-82 | one round trip as a value (fetch sequence, outcome or panic, final `req.URL`, write-back); its contract: the requested URL is fetched first, at most two fetches happen, `req.URL` ends as the last URL fetched, a nil response only comes with an error, and a write-back follows a second fetch and is keyed by the path first requested |
| Proxy.MissTrip | go-resize-proxy/main.go:42-81 | the part of a round trip after a first response that is not a 200: the requested URL is fetched first, at most one more fetch happens, `req.URL` ends as the last URL fetched, a nil response only comes with an error, and a write-back follows a second fetch and is keyed by the path first requested |
| Proxy.SourceTrip | go-resize-proxy/main.go:65-81 | the part of a round trip after the variant source parsed: the requested URL and then the source are the fetches, `req.URL` ends on the source, a nil response only comes with an error, and a write-back only follows a 200 from the source and is keyed by the path first requested |
| Proxy.PassThrough | go-resize-proxy/main.go:31-39 | a 200 for the exact URL is returned unchanged with no error after one fetch, `req.URL` untouched |
| Proxy.FirstTransportErrorIsFatal | go-resize-proxy/main.go:31-34 | a transport error on the first fetch returns no response and that error after one fetch |
| Proxy.NoSuffixRefetches | go-resize-proxy/main.go:45-50 | with no `_` after position 0 the unchanged URL is fetched a second time and that result (response or transport error) returned as is |
| Proxy.BadWidthReturnsFirstResponse | go-resize-proxy/main.go:53-58 | a width Atoi rejects returns the first non-200 response with Atoi's error; no source fetch happens |
| Proxy.BadSourceUrlReturnsFirstResponse | go-resize-proxy/main.go:60-63 | a source text url.Parse rejects returns the first non-200 response with the parse error; no source fetch happens |
| Proxy.SourceFetch | go-resize-proxy/main.go:65-81 | a decoded variant fetches the parsed source URL second and leaves `req.URL` on it; a transport error or non-200 from that fetch is returned as is, with no write-back |
| Proxy.PanicsOnlyOnEmptySize | go-resize-proxy/main.go:100-109 | a round trip panics exactly when the source fetch returns 200 with a readable body whose size is 0x0 |
| Proxy.WriteBackMatchesResponse | go-resize-proxy/main.go:112-131 | a scheduled write-back is keyed by the path first requested, follows a 200 source fetch, and the returned response has status 200, the resized bytes as body, a Content-Length Atoi reads back as their count and the source's other headers |
| Proxy.VariantRequestIsResized | go-resize-proxy/main.go:43-81 | for any URL that decodes to a variant (whatever the width spelling, `_+7` or `_007` included) and misses, with a parsable and present source whose body reads as an image, the source is fetched second and returned with status 200 and no error, its body the libvips resize of the source body at the decoded width and the computed height, and the write-back scheduled for the requested path |
| Proxy.EncodedRequestIsVariant | go-resize-proxy/main.go:43-58 | a URL written `<source>_<width>` with the width in decimal decodes to exactly that source and width |
| Proxy.Transport.RoundTrip | go-resize-proxy/main.go:27-82 | the fetch log grows by exactly the fetches of Intercept, `req.URL` ends where Intercept says, and the panic, error, response (fresh, or nil) and write-back are Intercept's |
| Proxy.Transport.Miss | go-resize-proxy/main.go:42-81 | the fetch log grows by exactly MissTrip's fetches after the first, `req.URL` ends where MissTrip says, and the panic, error, response (fresh, or the first response handed back) and write-back are MissTrip's |
| Proxy.Transport.FetchAndResize | go-resize-proxy/main.go:65-81 | the fetch log grows by exactly the source URL, and the panic, error, response (fresh, or nil) and write-back are those of SourceTrip |
| Storage.ObjectKey | go-resize-proxy/storage.go:53 | a key starting with "/images/" loses that one prefix; any other key is kept; the object key is a suffix of the logical key |
| Storage.PutRequest | go-resize-proxy/storage.go:48-59 | bucket "images" for every key, body bytes and content type forwarded unchanged, object key as ObjectKey says |
| Storage.PrefixStrippedOnce | go-resize-proxy/storage.go:53 | "/images//images/x" becomes "/images/x" |
| Storage.VariantPathKey | go-resize-proxy/storage.go:53 | "/images/" + name is stored under the object key name |
| Storage.S3Client.PutObject | go-resize-proxy/storage.go:55-59 | one put is appended to the client's log and the client's answer returned |
| Storage.S3Storage.Upload | go-resize-proxy/storage.go:48-65 | exactly one put, of PutRequest for the key, bytes and content type; nothing is returned, so a failed put is not propagated |

## Left out

- `main` and `ProxyRequestHandler` (main.go:136-165): process start-up, the reverse-proxy setup and HTTP serving are I/O and library plumbing.
- `url.Parse`, `URL.String` and `URL.Path`: a URL is the pair of its rendered text and its path, and parsing is an oracle that may fail; URL grammar is not modelled.
- The upstream `http.RoundTripper` and the S3 `PutObject` call: oracles indexed by call number; network behaviour and timeouts are not modelled.
- libvips through bimg (`NewImage`, `Size`, `Resize`): oracles giving dimensions and resized bytes with an error; that `Size` reports 0x0 on failure is the oracle's business.
- Resizer.TargetHeight: requires a width of magnitude at most 2^53, because the float64 rounding of larger widths in `int(float64(width) * ratio)` is not modelled; Resizer.Rewrite, Resizer.ResizeImage, Proxy.Intercept, Proxy.MissTrip, Proxy.SourceTrip, Proxy.Transport.RoundTrip, Proxy.Transport.Miss and Proxy.Transport.FetchAndResize carry the same bound on the decoded width.
- Proxy.Transport.RoundTrip: a divide-by-zero panic is reported through its `panicked` result; how `net/http` recovers from the panic is not modelled.
- Resizer.ResizeImage: after a read or close failure, and before a panic, the model leaves the body value as it was; that the stream has been partly or wholly consumed is not modelled.
- The goroutine that would upload the resized image (main.go:125-131): concurrency, and its `Upload` call is commented out; the model only returns the job as a ghost value.
- `NewS3Storage` (storage.go:27-45): credentials, endpoint and session set-up.
- Header key canonicalisation in `Header.Get`: keys are taken to be already canonical, as "Content-Type" is.
- All logging (`fmt.Println`, `fmt.Printf`, `fmt.Fprintln`), including the log line of a failed put.
- Positions are counted in characters rather than UTF-8 bytes; the delimiter is ASCII, so the pieces are the same.

