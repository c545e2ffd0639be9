/**
 * `resizeImage`: read the source body, work out the target height, resize
 * through libvips, and put the resized bytes and their length back into the
 * response. libvips (via bimg) is an oracle: `size` gives the pixel
 * dimensions that `Image.Size()` reports, with its error discarded as the
 * code discards it, and `resize` gives the bytes and error of `Image.Resize`.
 */
module Resizer {
  import opened Wrappers
  import opened GoStrconv
  import opened Http

  /** 2^53: every integer up to this magnitude survives a trip through float64 exactly. */
  const MaxExactFloat: int := 0x20_0000_0000_0000

  datatype Dims = Dims(width: nat, height: nat)

  datatype Resized = Resized(bytes: Bytes, err: Option<Error>)

  datatype Vips = Vips(size: Bytes -> Dims, resize: (Bytes, int, int) -> Resized)

  /** The height to resize to, or the integer division by zero that panics. */
  datatype Sizing = Height(h: int) | DividesByZero

  predicate ExactInFloat(n: int)
  {
    -MaxExactFloat <= n <= MaxExactFloat
  }

  /**
   * The height computation. The "aspect ratio" is an integer quotient taken
   * before the float conversion, so it is 0 or 1: the height is the width for
   * a square image and 0 for any other; a 0x0 size divides by zero.
   */
  function TargetHeight(orig: Dims, width: int): (r: Sizing)
    requires ExactInFloat(width)
    ensures r.DividesByZero? <==> orig.width == 0 && orig.height == 0
    ensures r.Height? && orig.width == orig.height ==> r.h == width
    ensures orig.width != orig.height ==> r == Height(0)
  {
    if orig.width > orig.height then
      QuotientOfSmaller(orig.height, orig.width);
      Height(width * (orig.height / orig.width))
    else if orig.height == 0 then
      DividesByZero
    else
      QuotientOfSmaller(orig.width, orig.height);
      Height(width * (orig.width / orig.height))
  }

  /** Integer quotient of two non-negative numbers of which the divisor is not smaller. */
  lemma QuotientOfSmaller(a: nat, b: nat)
    requires a <= b && b > 0
    ensures a / b == if a == b then 1 else 0
  {
  }

  /** The background write-back a resize schedules: key, resized bytes, content type. */
  datatype WriteBack = WriteBack(key: string, data: Bytes, contentType: string)

  /**
   * The effect of `resizeImage` on a response: the new message, the error it
   * returns and the write-back it schedules; or a panic.
   */
  datatype Effect = Rewritten(msg: Message, err: Option<Error>, job: Option<WriteBack>) | Panic

  /** Header value Content-Length carries for a body of `n` bytes. */
  function LengthHeader(n: nat): seq<string>
  {
    [FormatInt(n)]
  }

  function Rewrite(vips: Vips, path: string, m: Message, width: int): (r: Effect)
    requires ExactInFloat(width)
    ensures r.Panic? <==>
      m.body.readFault.None? && m.body.closeFault.None? && vips.size(m.body.content) == Dims(0, 0)
    ensures m.body.readFault.None? && m.body.closeFault.None? && vips.size(m.body.content) != Dims(0, 0) ==>
      r.Rewritten? && r.err.None?
    ensures r.Rewritten? && m.body.readFault.Some? ==> r.msg == m && r.err == m.body.readFault && r.job == None
    ensures r.Rewritten? && m.body.readFault.None? && m.body.closeFault.Some? ==>
      r.msg == m && r.err == m.body.closeFault && r.job == None
    ensures r.Rewritten? ==> r.msg.status == m.status && r.msg.contentLength == m.contentLength
    ensures r.Rewritten? && r.err.None? ==>
      && r.job.Some?
      && r.job.value.key == path
      && r.job.value.contentType == HeaderGet(m.header, ContentType)
      && r.msg.body == InMemory(r.job.value.data)
      && ContentLength in r.msg.header
      && r.msg.header[ContentLength] == LengthHeader(|r.job.value.data|)
      && Atoi(r.msg.header[ContentLength][0]) == Success(|r.msg.body.content|)
      && r.msg.header - {ContentLength} == m.header - {ContentLength}
    ensures r.Rewritten? && r.err.None? ==>
      var h := TargetHeight(vips.size(m.body.content), width).h;
      r.job.value.data == vips.resize(m.body.content, width, h).bytes
  {
    if m.body.readFault.Some? then Rewritten(m, m.body.readFault, None)
    else if m.body.closeFault.Some? then Rewritten(m, m.body.closeFault, None)
    else match TargetHeight(vips.size(m.body.content), width)
      case DividesByZero => Panic
      case Height(h) =>
        var newImage := vips.resize(m.body.content, width, h).bytes;
        AtoiFormatInt(|newImage|);
        var header := m.header[ContentLength := LengthHeader(|newImage|)];
        HeaderGetSet(m.header, ContentLength, LengthHeader(|newImage|), ContentType);
        Rewritten(m.(header := header, body := InMemory(newImage)), None,
                  Some(WriteBack(path, newImage, HeaderGet(header, ContentType))))
  }

  /**
   * `resizeImage(path, resp, width)`, changing `resp` in place. The error of
   * the libvips resize is only logged: the body is replaced by whatever bytes
   * it produced. `job` is the write-back handed to the background task.
   */
  method ResizeImage(path: string, resp: Response, width: int, vips: Vips)
    returns (err: Option<Error>, panicked: bool, ghost job: Option<WriteBack>)
    requires ExactInFloat(width)
    modifies resp
    ensures var r := Rewrite(vips, path, old(resp.Value()), width);
      && (panicked <==> r.Panic?)
      && (r.Rewritten? ==> resp.Value() == r.msg && err == r.err && job == r.job)
      && (r.Panic? ==> resp.Value() == old(resp.Value()) && job == None)
  {
    job := None;
    panicked := false;
    var body := resp.body;
    if body.readFault.Some? {
      return body.readFault, false, None;
    }
    if body.closeFault.Some? {
      return body.closeFault, false, None;
    }
    var origSize := vips.size(body.content);
    var sizing := TargetHeight(origSize, width);
    if sizing.DividesByZero? {
      return None, true, None;
    }
    var newImage := vips.resize(body.content, width, sizing.h);
    resp.body := InMemory(newImage.bytes);
    resp.header := resp.header[ContentLength := LengthHeader(|newImage.bytes|)];
    var imageContentType := HeaderGet(resp.header, ContentType);
    job := Some(WriteBack(path, newImage.bytes, imageContentType));
    err := None;
  }

  /** A 1000x500 source at width 200 gets height 0, not 100: the quotient 500/1000 is 0. */
  lemma LandscapeHeightIsZero()
    ensures TargetHeight(Dims(1000, 500), 200) == Height(0)
  {
  }
}
