/**
 * The interception in `transport.RoundTrip`. `Intercept` says, as a value,
 * what one round trip does: the URLs it fetches in order, what it returns (a
 * response and an error, or a panic), what `req.URL` ends up as and the
 * write-back it schedules. `Transport.RoundTrip` performs the steps on
 * mutable requests and responses and is proved to agree with it.
 */
module Proxy {
  import opened Wrappers
  import opened GoStrings
  import opened GoStrconv
  import opened Http
  import opened VariantKey
  import opened Resizer

  /** The collaborators a round trip consults: the origin, `url.Parse` and libvips. */
  datatype Collaborators = Collaborators(
    serve: (nat, Url) -> Reply,
    parse: string -> Result<Url, Error>,
    vips: Vips)

  /** What the caller gets: a response (absent for nil) and an error; or a panic. */
  datatype Outcome = Returned(reply: Option<Message>, err: Option<Error>) | Panicked

  datatype Trip = Trip(fetches: seq<Url>, outcome: Outcome, finalUrl: Url, spawned: Option<WriteBack>)

  /** Handing an upstream reply to the caller as it is. */
  function Deliver(r: Reply): Outcome
  {
    match r
    case Failed(e) => Returned(None, Some(e))
    case Replied(m) => Returned(Some(m), None)
  }

  predicate IsOk(r: Reply)
  {
    r.Replied? && r.msg.status == 200
  }

  /** The width a requested URL names, if any, is one float64 holds exactly. */
  predicate WidthIsExact(text: string)
  {
    DecodeKey(text).Variant? ==> ExactInFloat(DecodeKey(text).width)
  }

  /**
   * One round trip for the URL `u`, made after `start` earlier fetches. The
   * requested URL is fetched first, at most two fetches happen and `req.URL`
   * ends as the last URL fetched; a nil response only comes with an error; a
   * write-back follows a second fetch and is keyed by the path first requested.
   */
  function Intercept(c: Collaborators, start: nat, u: Url): (t: Trip)
    requires WidthIsExact(u.text)
    ensures 1 <= |t.fetches| <= 2 && t.fetches[0] == u && t.finalUrl == t.fetches[|t.fetches| - 1]
    ensures t.outcome.Returned? && t.outcome.reply.None? ==> t.outcome.err.Some?
    ensures t.spawned.Some? ==> |t.fetches| == 2 && t.spawned.value.key == u.path
  {
    match c.serve(start, u)
    case Failed(e) => Trip([u], Returned(None, Some(e)), u, None)
    case Replied(first) =>
      if first.status == 200 then Trip([u], Returned(Some(first), None), u, None)
      else MissTrip(c, start + 1, u, first)
  }

  /**
   * The rest of a round trip for `u` once the first fetch answered `first`,
   * not a 200, and `n` fetches have been made: the URL text is decoded; no
   * variant refetches `u`, a bad width or source text hands `first` back with
   * the error, a parsed source goes on to SourceTrip.
   */
  function MissTrip(c: Collaborators, n: nat, u: Url, first: Message): (t: Trip)
    requires WidthIsExact(u.text)
    ensures 1 <= |t.fetches| <= 2 && t.fetches[0] == u && t.finalUrl == t.fetches[|t.fetches| - 1]
    ensures t.outcome.Returned? && t.outcome.reply.None? ==> t.outcome.err.Some?
    ensures t.spawned.Some? ==> |t.fetches| == 2 && t.spawned.value.key == u.path
  {
    match DecodeKey(u.text)
    case NoSuffix => Trip([u, u], Deliver(c.serve(n, u)), u, None)
    case BadWidth(_, _, e) => Trip([u], Returned(Some(first), Some(AtoiFailure(e))), u, None)
    case Variant(source, _, width) =>
      match c.parse(source)
      case Failure(e) => Trip([u], Returned(Some(first), Some(e)), u, None)
      case Success(target) => SourceTrip(c, n, u, target, width)
  }

  /**
   * The rest of a round trip for `u` once its variant source parsed to
   * `target`: `target` is fetched after `n` earlier fetches; anything but a
   * 200 is handed back as it is, a 200 is resized for `width`.
   */
  function SourceTrip(c: Collaborators, n: nat, u: Url, target: Url, width: int): (t: Trip)
    requires ExactInFloat(width)
    ensures t.fetches == [u, target] && t.finalUrl == target
    ensures t.outcome.Returned? && t.outcome.reply.None? ==> t.outcome.err.Some?
    ensures t.spawned.Some? ==> IsOk(c.serve(n, target)) && t.spawned.value.key == u.path
  {
    var second := c.serve(n, target);
    if !IsOk(second) then Trip([u, target], Deliver(second), target, None)
    else match Rewrite(c.vips, u.path, second.msg, width)
      case Panic => Trip([u, target], Panicked, target, None)
      case Rewritten(m, _, job) => Trip([u, target], Returned(Some(m), None), target, job)
  }

  /** A 200 for the exact URL is returned untouched after that single fetch. */
  lemma PassThrough(c: Collaborators, start: nat, u: Url)
    requires WidthIsExact(u.text) && IsOk(c.serve(start, u))
    ensures Intercept(c, start, u) == Trip([u], Returned(Some(c.serve(start, u).msg), None), u, None)
  {
  }

  /** A transport error on the first fetch ends the round trip with no response. */
  lemma FirstTransportErrorIsFatal(c: Collaborators, start: nat, u: Url)
    requires WidthIsExact(u.text) && c.serve(start, u).Failed?
    ensures Intercept(c, start, u) == Trip([u], Returned(None, Some(c.serve(start, u).err)), u, None)
  {
  }

  /** Without a `_` after position 0, the unchanged request is fetched again and that result returned. */
  lemma NoSuffixRefetches(c: Collaborators, start: nat, u: Url)
    requires WidthIsExact(u.text)
    requires c.serve(start, u).Replied? && !IsOk(c.serve(start, u))
    requires forall i | 1 <= i < |u.text| :: u.text[i] != Delimiter
    ensures Intercept(c, start, u) == Trip([u, u], Deliver(c.serve(start + 1, u)), u, None)
  {
  }

  /** A width Atoi rejects returns the first response with Atoi's error, and nothing more is fetched. */
  lemma BadWidthReturnsFirstResponse(c: Collaborators, start: nat, u: Url)
    requires WidthIsExact(u.text)
    requires c.serve(start, u).Replied? && !IsOk(c.serve(start, u))
    requires DecodeKey(u.text).BadWidth?
    ensures Intercept(c, start, u)
      == Trip([u], Returned(Some(c.serve(start, u).msg), Some(AtoiFailure(DecodeKey(u.text).err))), u, None)
  {
  }

  /** A source text `url.Parse` rejects returns the first response with the parse error. */
  lemma BadSourceUrlReturnsFirstResponse(c: Collaborators, start: nat, u: Url)
    requires WidthIsExact(u.text)
    requires c.serve(start, u).Replied? && !IsOk(c.serve(start, u))
    requires DecodeKey(u.text).Variant? && c.parse(DecodeKey(u.text).source).Failure?
    ensures Intercept(c, start, u) == Trip([u],
      Returned(Some(c.serve(start, u).msg), Some(c.parse(DecodeKey(u.text).source).error)), u, None)
  {
  }

  /**
   * A decoded variant rewrites the request to the parsed source URL and fetches
   * it; anything but a 200 from that fetch (a transport error included) is
   * handed back as it is.
   */
  lemma SourceFetch(c: Collaborators, start: nat, u: Url)
    requires WidthIsExact(u.text)
    requires c.serve(start, u).Replied? && !IsOk(c.serve(start, u))
    requires DecodeKey(u.text).Variant? && c.parse(DecodeKey(u.text).source).Success?
    ensures var target := c.parse(DecodeKey(u.text).source).value;
      var t := Intercept(c, start, u);
      && t.fetches == [u, target]
      && t.finalUrl == target
      && (!IsOk(c.serve(start + 1, target)) ==> t.outcome == Deliver(c.serve(start + 1, target)) && t.spawned == None)
  {
  }

  /** A round trip panics exactly when the source's 200 body reads fine but its size is 0x0. */
  lemma PanicsOnlyOnEmptySize(c: Collaborators, start: nat, u: Url)
    requires WidthIsExact(u.text)
    ensures var t := Intercept(c, start, u);
      t.outcome.Panicked? <==>
        && c.serve(start, u).Replied? && !IsOk(c.serve(start, u))
        && DecodeKey(u.text).Variant? && c.parse(DecodeKey(u.text).source).Success?
        && var second := c.serve(start + 1, c.parse(DecodeKey(u.text).source).value);
           && IsOk(second)
           && second.msg.body.readFault.None? && second.msg.body.closeFault.None?
           && c.vips.size(second.msg.body.content) == Dims(0, 0)
  {
    var t := Intercept(c, start, u);
    var first := c.serve(start, u);
    var d := DecodeKey(u.text);
    if first.Failed? || IsOk(first) {
      assert t.outcome == Deliver(first);
    } else if !d.Variant? {
      assert |t.fetches| == 2 ==> t.outcome == Deliver(c.serve(start + 1, u));
      assert |t.fetches| == 1 ==> t.outcome.reply == Some(first.msg);
    } else if c.parse(d.source).Failure? {
      assert t.outcome.reply == Some(first.msg);
    } else {
      var second := c.serve(start + 1, c.parse(d.source).value);
      if !IsOk(second) {
        assert t.outcome == Deliver(second);
      } else {
        var r := Rewrite(c.vips, u.path, second.msg, d.width);
        assert t.outcome.Panicked? <==> r.Panic?;
      }
    }
  }

  /**
   * Whenever a write-back is scheduled, it is keyed by the path of the URL
   * first requested, and the returned response carries the resized bytes with
   * a Content-Length that Atoi reads back as their count; the status and every
   * other header are those of the source response.
   */
  lemma WriteBackMatchesResponse(c: Collaborators, start: nat, u: Url)
    requires WidthIsExact(u.text)
    ensures var t := Intercept(c, start, u);
      t.spawned.Some? ==>
        && |t.fetches| == 2
        && var second := c.serve(start + 1, t.fetches[1]);
           && IsOk(second)
           && t.spawned.value.key == u.path
           && t.outcome.Returned? && t.outcome.err == None && t.outcome.reply.Some?
           && var m := t.outcome.reply.value;
              && m.status == 200
              && m.body == InMemory(t.spawned.value.data)
              && Atoi(m.header[ContentLength][0]) == Success(|m.body.content|)
              && m.header - {ContentLength} == second.msg.header - {ContentLength}
  {
    var t := Intercept(c, start, u);
    var first := c.serve(start, u);
    var d := DecodeKey(u.text);
    if t.spawned.Some? {
      assert first.Replied? && !IsOk(first) && d.Variant? && c.parse(d.source).Success?;
      var target := c.parse(d.source).value;
      var second := c.serve(start + 1, target);
      assert IsOk(second);
      var r := Rewrite(c.vips, u.path, second.msg, d.width);
      assert r.Rewritten? && t.outcome == Returned(Some(r.msg), None) && t.spawned == r.job;
    }
  }

  /**
   * End to end: when a URL naming a variant is absent, its source parses and is
   * found, and the source body reads as an image, the second fetch is of the
   * parsed source and the response body is the libvips resize of the source
   * at the decoded width and the computed height, whatever the spelling of the width (`_+7`, `_007`, ...). The
   * resized bytes replace the body even when the resize reports an error, and
   * no error is returned.
   */
  lemma VariantRequestIsResized(c: Collaborators, start: nat, u: Url)
    requires WidthIsExact(u.text) && DecodeKey(u.text).Variant?
    requires c.serve(start, u).Replied? && !IsOk(c.serve(start, u))
    requires c.parse(DecodeKey(u.text).source).Success?
    requires var second := c.serve(start + 1, c.parse(DecodeKey(u.text).source).value);
      && IsOk(second)
      && second.msg.body.readFault.None? && second.msg.body.closeFault.None?
      && c.vips.size(second.msg.body.content) != Dims(0, 0)
    ensures var width := DecodeKey(u.text).width;
      var target := c.parse(DecodeKey(u.text).source).value;
      var second := c.serve(start + 1, target).msg;
      var h := TargetHeight(c.vips.size(second.body.content), width).h;
      var resized := c.vips.resize(second.body.content, width, h).bytes;
      var t := Intercept(c, start, u);
      && t.fetches == [u, target]
      && t.outcome == Returned(Some(t.outcome.reply.value), None)
      && t.outcome.reply.value.status == 200
      && t.outcome.reply.value.body == InMemory(resized)
      && t.spawned == Some(WriteBack(u.path, resized, HeaderGet(second.header, ContentType)))
  {
    var d := DecodeKey(u.text);
    var target := c.parse(d.source).value;
    var second := c.serve(start + 1, target).msg;
    var r := Rewrite(c.vips, u.path, second, d.width);
    assert r.Rewritten? && r.err.None?;
  }

  /** A request written as `<source>_<width>` with the width rendered in decimal names that source and width. */
  lemma EncodedRequestIsVariant(u: Url, source: string, width: int)
    requires |source| >= 1 && InInt64(width) && ExactInFloat(width)
    requires u.text == EncodeKey(source, width)
    ensures WidthIsExact(u.text)
    ensures DecodeKey(u.text).Variant? && DecodeKey(u.text).source == source && DecodeKey(u.text).width == width
  {
    DecodeEncode(source, width);
  }

  class Transport {
    const inner: RoundTripper
    const parse: string -> Result<Url, Error>
    const vips: Vips

    constructor (inner: RoundTripper, parse: string -> Result<Url, Error>, vips: Vips)
      ensures this.inner == inner && this.parse == parse && this.vips == vips
    {
      this.inner := inner;
      this.parse := parse;
      this.vips := vips;
    }

    function Oracles(): Collaborators
    {
      Collaborators(inner.serve, parse, vips)
    }

    /**
     * `(*transport).RoundTrip`: fetch the exact URL; on anything but 200,
     * decode a variant from the URL text, rewrite `req.url` to its source,
     * fetch that and, on 200, resize the response in place.
     */
    method RoundTrip(req: Request)
      returns (resp: Response?, err: Option<Error>, panicked: bool, ghost spawned: Option<WriteBack>)
      requires WidthIsExact(req.url.text)
      modifies req, inner
      ensures var t := Intercept(Oracles(), |old(inner.fetched)|, old(req.url));
        && inner.fetched == old(inner.fetched) + t.fetches
        && req.url == t.finalUrl
        && spawned == t.spawned
        && (panicked <==> t.outcome.Panicked?)
        && (t.outcome.Returned? ==>
              && err == t.outcome.err
              && (resp == null <==> t.outcome.reply.None?)
              && (resp != null ==> fresh(resp) && resp.Value() == t.outcome.reply.value))
    {
      ghost var c, start, u := Oracles(), |inner.fetched|, req.url;
      spawned := None;
      panicked := false;
      resp, err := inner.RoundTrip(req);
      if err.Some? || resp.statusCode == 200 {
        return;
      }
      ghost var t := MissTrip(c, start + 1, u, resp.Value());
      assert Intercept(c, start, u) == t;
      assert t.fetches == [u] + t.fetches[1..];
      resp, err, panicked, spawned := Miss(req, resp);
    }

    /**
     * `RoundTrip` after a first response `first` that is not a 200: decode a
     * variant from the URL text, rewrite `req.url` to its source and go on
     * with FetchAndResize; otherwise refetch, or hand `first` back with the
     * error.
     */
    method Miss(req: Request, first: Response)
      returns (resp: Response?, err: Option<Error>, panicked: bool, ghost spawned: Option<WriteBack>)
      requires WidthIsExact(req.url.text)
      modifies req, inner
      ensures var t := MissTrip(Oracles(), |old(inner.fetched)|, old(req.url), first.Value());
        && inner.fetched == old(inner.fetched) + t.fetches[1..]
        && req.url == t.finalUrl
        && spawned == t.spawned
        && (panicked <==> t.outcome.Panicked?)
        && (t.outcome.Returned? ==>
              && err == t.outcome.err
              && (resp == null <==> t.outcome.reply.None?)
              && (resp != null ==> (fresh(resp) || resp == first) && resp.Value() == t.outcome.reply.value))
    {
      ghost var c, n, u := Oracles(), |inner.fetched|, req.url;
      ghost var t := MissTrip(c, n, u, first.Value());
      spawned := None;
      panicked := false;
      resp, err := first, None;
      var requestedUrl := req.url.text;
      var requestedUrlPath := req.url.path;
      var position := LastIndex(requestedUrl, Delimiter);
      if position < 1 {
        assert DecodeKey(u.text) == NoSuffix;
        resp, err := inner.RoundTrip(req);
        return;
      }
      var origImageUrl := requestedUrl[..position];
      var widthPart := requestedUrl[position + 1..];
      var width := Atoi(widthPart);
      if width.Failure? {
        assert DecodeKey(u.text) == BadWidth(origImageUrl, widthPart, width.error);
        err := Some(AtoiFailure(width.error));
        return;
      }
      assert DecodeKey(u.text) == Variant(origImageUrl, widthPart, width.value);
      var targetUrl := parse(origImageUrl);
      if targetUrl.Failure? {
        err := Some(targetUrl.error);
        return;
      }
      req.url := targetUrl.value;
      assert t == SourceTrip(c, n, u, req.url, width.value);
      resp, err, panicked, spawned := FetchAndResize(req, requestedUrlPath, width.value, u);
    }

    /**
     * The second half of `RoundTrip`: fetch the source now in `req.url` and,
     * on 200, resize the response in place for the variant `path` names.
     */
    method FetchAndResize(req: Request, path: string, width: int, ghost u: Url)
      returns (resp: Response?, err: Option<Error>, panicked: bool, ghost spawned: Option<WriteBack>)
      requires path == u.path && ExactInFloat(width)
      modifies inner
      ensures var t := SourceTrip(Oracles(), |old(inner.fetched)|, u, req.url, width);
        && inner.fetched == old(inner.fetched) + [req.url]
        && spawned == t.spawned
        && (panicked <==> t.outcome.Panicked?)
        && (t.outcome.Returned? ==>
              && err == t.outcome.err
              && (resp == null <==> t.outcome.reply.None?)
              && (resp != null ==> fresh(resp) && resp.Value() == t.outcome.reply.value))
    {
      ghost var c, n := Oracles(), |inner.fetched|;
      spawned := None;
      panicked := false;
      resp, err := inner.RoundTrip(req);
      if err.Some? || resp.statusCode != 200 {
        return;
      }
      ghost var r := Rewrite(vips, path, resp.Value(), width);
      var resizeErr;
      resizeErr, panicked, spawned := ResizeImage(path, resp, width, vips);
      if panicked {
        resp := null;
      }
    }
  }
}
