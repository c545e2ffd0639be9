/**
 * The parts of Go's `net/http` and `net/url` that the proxy touches, as
 * values and small classes. URL parsing and rendering and the upstream
 * transport are not modelled: a URL is the pair of what `URL.String()` and
 * `URL.Path` give, and the upstream is an oracle that answers the n-th fetch
 * of a URL with a reply or a transport error.
 */
module Http {
  import opened Wrappers
  import opened GoStrconv

  newtype byte = b: int | 0 <= b < 256

  /** A Go byte slice: its length is an `int`. */
  type Bytes = s: seq<byte> | |s| <= MaxInt64

  /** The error values that reach the proxy, by where they come from. */
  datatype Error =
    | TransportFailure(reason: string)
    | UrlFailure(input: string, reason: string)
    | AtoiFailure(numError: NumError)
    | BodyFailure(reason: string)

  /** A parsed URL, seen through `URL.String()` (text) and `URL.Path` (path). */
  datatype Url = Url(text: string, path: string)

  type Header = map<string, seq<string>>

  const ContentLength: string := "Content-Length"
  const ContentType: string := "Content-Type"

  /** `Header.Get`: the first value stored under `key`, or "" (keys are taken to be canonical). */
  function HeaderGet(h: Header, key: string): string
  {
    if key in h && h[key] != [] then h[key][0] else ""
  }

  /**
   * Storing values under one key changes what `Header.Get` gives for that key
   * only: the first stored value (or "" for none) there, the old answer for
   * every other key.
   */
  lemma HeaderGetSet(h: Header, k: string, vs: seq<string>, key: string)
    ensures HeaderGet(h[k := vs], key) == (if k == key then (if vs == [] then "" else vs[0]) else HeaderGet(h, key))
  {
  }

  /**
   * A response body stream: the bytes it yields, and whether reading it to the
   * end (`ioutil.ReadAll`) or closing it fails.
   */
  datatype Body = Body(content: Bytes, readFault: Option<Error>, closeFault: Option<Error>)

  /** A body over bytes in memory (`ioutil.NopCloser(bytes.NewReader(b))`), which never fails. */
  function InMemory(b: Bytes): Body
  {
    Body(b, None, None)
  }

  /** What an `*http.Response` holds: status code, header, body and the ContentLength field. */
  datatype Message = Message(status: int, header: Header, body: Body, contentLength: int)

  /** What the upstream `RoundTripper` gives back for one fetch. */
  datatype Reply = Failed(err: Error) | Replied(msg: Message)

  class Request {
    var url: Url

    constructor (url: Url)
      ensures this.url == url
    {
      this.url := url;
    }
  }

  class Response {
    var statusCode: int
    var header: Header
    var body: Body
    var contentLength: int

    constructor (m: Message)
      ensures Value() == m
    {
      statusCode := m.status;
      header := m.header;
      body := m.body;
      contentLength := m.contentLength;
    }

    function Value(): Message
      reads this
    {
      Message(statusCode, header, body, contentLength)
    }
  }

  /**
   * The upstream transport. `serve(n, u)` is what the origin answers to the
   * fetch of `u` made after `n` earlier fetches; `fetched` records the URLs
   * fetched so far, in order.
   */
  class RoundTripper {
    const serve: (nat, Url) -> Reply
    var fetched: seq<Url>

    constructor (serve: (nat, Url) -> Reply)
      ensures this.serve == serve && fetched == []
    {
      this.serve := serve;
      fetched := [];
    }

    /** One fetch of `req.url`: a fresh response, or no response and the transport error. */
    method RoundTrip(req: Request) returns (resp: Response?, err: Option<Error>)
      modifies this
      ensures fetched == old(fetched) + [req.url]
      ensures match serve(|old(fetched)|, req.url)
        case Failed(e) => resp == null && err == Some(e)
        case Replied(m) => resp != null && fresh(resp) && resp.Value() == m && err == None
    {
      var reply := serve(|fetched|, req.url);
      fetched := fetched + [req.url];
      match reply
      case Failed(e) =>
        resp, err := null, Some(e);
      case Replied(m) =>
        resp := new Response(m);
        err := None;
    }
  }
}
