/**
 * The naming convention for resized variants: a requested URL
 * `<source>_<width>` names the image at `<source>` resized to `<width>`
 * pixels. The split is made at the LAST `_` of the whole URL text (query
 * included); a `_` only at position 0, or none at all, means no variant is
 * named. The width text goes through Atoi, so a sign is accepted and `_0` or
 * `_-5` still name variants.
 */
module VariantKey {
  import opened Wrappers
  import opened GoStrings
  import opened GoStrconv

  const Delimiter: char := '_'

  datatype Decoded =
    | NoSuffix
    | BadWidth(source: string, widthText: string, err: NumError)
    | Variant(source: string, widthText: string, width: int)

  /** Decomposition of a requested URL text into source text and width. */
  function DecodeKey(s: string): (r: Decoded)
    ensures r.NoSuffix? <==> forall i | 1 <= i < |s| :: s[i] != Delimiter
    ensures !r.NoSuffix? ==> |r.source| >= 1 && Delimiter !in r.widthText
    ensures !r.NoSuffix? ==> r.source + [Delimiter] + r.widthText == s
    ensures r.BadWidth? ==> Atoi(r.widthText) == Failure(r.err)
    ensures r.Variant? ==> Atoi(r.widthText) == Success(r.width)
  {
    var p := LastIndex(s, Delimiter);
    if p < 1 then
      assert p == 0 ==> forall i | 1 <= i < |s| :: s[i] == s[1..][i - 1];
      NoSuffix
    else
      var source, widthText := s[..p], s[p + 1..];
      assert s == source + [Delimiter] + widthText;
      match Atoi(widthText)
      case Failure(e) => BadWidth(source, widthText, e)
      case Success(w) => Variant(source, widthText, w)
  }

  /** The requested URL text that names `source` at `width`. */
  function EncodeKey(source: string, width: int): string
  {
    source + [Delimiter] + FormatInt(width)
  }

  /** Any text joined to a non-empty source by `_` is split back exactly there. */
  lemma DecodeJoined(source: string, widthText: string)
    requires |source| >= 1 && Delimiter !in widthText
    ensures var r := DecodeKey(source + [Delimiter] + widthText);
      !r.NoSuffix? && r.source == source && r.widthText == widthText
      && (r.Variant? <==> Atoi(widthText).Success?)
  {
    LastIndexOfJoin(source, Delimiter, widthText);
    var s := source + [Delimiter] + widthText;
    assert s[..|source|] == source;
    assert s[|source| + 1..] == widthText;
  }

  /** Decoding recovers the source and width of every encoded variant. */
  lemma DecodeEncode(source: string, width: int)
    requires |source| >= 1 && InInt64(width)
    ensures DecodeKey(EncodeKey(source, width)) == Variant(source, FormatInt(width), width)
  {
    DecodeJoined(source, FormatInt(width));
    AtoiFormatInt(width);
  }

  /** A zero width is not rejected: it decodes like any other. */
  lemma ZeroWidthDecodes(source: string)
    requires |source| >= 1
    ensures DecodeKey(source + "_0") == Variant(source, "0", 0)
  {
    assert Decimal(0) == "0";
    assert source + "_0" == EncodeKey(source, 0);
    DecodeEncode(source, 0);
  }

  /** A negative width is not rejected: the sign is read by Atoi. */
  lemma NegativeWidthDecodes(source: string)
    requires |source| >= 1
    ensures DecodeKey(source + "_-5") == Variant(source, "-5", -5)
  {
    assert Decimal(5) == "5";
    assert source + "_-5" == EncodeKey(source, -5);
    DecodeEncode(source, -5);
  }

  /** Width text that is not an optional sign and digits is a syntax error. */
  lemma MalformedWidthRejected(source: string, widthText: string)
    requires |source| >= 1 && Delimiter !in widthText
    requires widthText == "" || widthText == "+" || widthText == "abc"
    ensures DecodeKey(source + [Delimiter] + widthText)
      == BadWidth(source, widthText, NumError(widthText, ErrSyntax))
  {
    DecodeJoined(source, widthText);
    assert !Signed(widthText) by {
      if widthText == "abc" { assert !IsDigit(Magnitude(widthText)[0]); }
    }
  }

  /** Digits whose value is beyond the 64-bit range are a range error, not a syntax error. */
  lemma OversizedWidthRejected(source: string, widthText: string)
    requires |source| >= 1 && widthText != [] && AllDigits(widthText)
    requires DecimalValue(0, widthText) > MaxInt64
    ensures DecodeKey(source + [Delimiter] + widthText)
      == BadWidth(source, widthText, NumError(widthText, ErrRange))
  {
    assert Delimiter !in widthText by {
      forall i | 0 <= i < |widthText| ensures widthText[i] != Delimiter { assert IsDigit(widthText[i]); }
    }
    DecodeJoined(source, widthText);
    assert !HasSign(widthText) by { assert IsDigit(widthText[0]); }
  }

  /** Only a `_` after position 0 delimits a width. */
  lemma LeadingDelimiterIsNoSuffix(rest: string)
    requires Delimiter !in rest
    ensures DecodeKey([Delimiter] + rest) == NoSuffix
  {
    var s := [Delimiter] + rest;
    forall i | 1 <= i < |s| ensures s[i] != Delimiter { assert s[i] == rest[i - 1]; }
  }
}
