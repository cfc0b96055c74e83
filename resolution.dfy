/** ResolutionInfo: width, height and bits per pixel of a video format, and
    its status-bar label "Resolution: <Width>x<Height>x<Bpp>". */
module Resolution {
  import opened Common
  import opened Native

  datatype ResolutionInfo = ResolutionInfo(Width: int, Height: int, Bpp: int)

  /** The three numbers read from the format block's BITMAPINFOHEADER. */
  function Create(media: MediaType): (r: ResolutionInfo)
    ensures r.Width == media.width && r.Height == media.height && r.Bpp == media.bitCount
  {
    ResolutionInfo(media.width, media.height, media.bitCount)
  }

  const Prefix: string := "Resolution: "

  predicate IsDigit(c: char) { '0' <= c <= '9' }

  predicate AllDigits(s: string) { forall i :: 0 <= i < |s| ==> IsDigit(s[i]) }

  function DigitChar(d: nat): (c: char)
    requires d < 10
    ensures IsDigit(c) && c as int - '0' as int == d
  {
    (d + '0' as int) as char
  }

  /** Decimal digits of a natural number, most significant first, no leading zeros. */
  function NaturalString(n: nat): (s: string)
    ensures |s| > 0 && AllDigits(s)
  {
    if n < 10 then [DigitChar(n)] else NaturalString(n / 10) + [DigitChar(n % 10)]
  }

  /** An `int` as `AppendFormat` writes it: the digits, after a negative sign
      for a negative value. The culture's negative sign is taken to be '-'. */
  function DecimalString(n: int): string {
    if n < 0 then "-" + NaturalString(-n) else NaturalString(n)
  }

  /** `ResolutionInfo.ToString`: the fixed prefix, then Width, Height and Bpp
      in that order, cut apart by 'x' and by nothing else. */
  function ToString(r: ResolutionInfo): (s: string)
    ensures |Prefix| <= |s| && s[..|Prefix|] == Prefix
    ensures Split(s[|Prefix|..], 'x') == [DecimalString(r.Width), DecimalString(r.Height), DecimalString(r.Bpp)]
  {
    var w, h, b := DecimalString(r.Width), DecimalString(r.Height), DecimalString(r.Bpp);
    DecimalRoundTrip(r.Width);
    DecimalRoundTrip(r.Height);
    DecimalRoundTrip(r.Bpp);
    SplitThree(w, h, b);
    var s := Prefix + w + "x" + h + "x" + b;
    assert s[|Prefix|..] == w + ['x'] + (h + ['x'] + b);
    s
  }

  // ---- Reading a label back: the partner of ToString ----

  function ParseNatural(s: string): nat
    requires |s| > 0 && AllDigits(s)
  {
    var last := s[|s| - 1] as int - '0' as int;
    if |s| == 1 then last else ParseNatural(s[..|s| - 1]) * 10 + last
  }

  function ParseDecimal(s: string): Option<int> {
    if |s| > 1 && s[0] == '-' && AllDigits(s[1..]) then Some(0 - ParseNatural(s[1..]))
    else if |s| > 0 && AllDigits(s) then Some(ParseNatural(s))
    else None
  }

  /** `s` cut at every occurrence of `sep`. */
  function Split(s: string, sep: char): (parts: seq<string>)
    ensures |parts| > 0
  {
    if s == [] then [""]
    else if s[0] == sep then [""] + Split(s[1..], sep)
    else var rest := Split(s[1..], sep); [[s[0]] + rest[0]] + rest[1..]
  }

  /** Width, height and bpp read back from a label. */
  function ParseLabel(s: string): Option<ResolutionInfo> {
    if |s| < |Prefix| || s[..|Prefix|] != Prefix then None
    else
      var parts := Split(s[|Prefix|..], 'x');
      if |parts| != 3 then None
      else match (ParseDecimal(parts[0]), ParseDecimal(parts[1]), ParseDecimal(parts[2]))
        case (Some(w), Some(h), Some(b)) => Some(ResolutionInfo(w, h, b))
        case _ => None
  }

  lemma {:induction false} NaturalRoundTrip(n: nat)
    ensures ParseNatural(NaturalString(n)) == n
  {
    if n >= 10 {
      var s := NaturalString(n);
      NaturalRoundTrip(n / 10);
      assert s[..|s| - 1] == NaturalString(n / 10);
    }
  }

  lemma DecimalRoundTrip(n: int)
    ensures ParseDecimal(DecimalString(n)) == Some(n)
    ensures 'x' !in DecimalString(n)
  {
    if n < 0 {
      NaturalRoundTrip(-n);
      assert DecimalString(n)[1..] == NaturalString(-n);
    } else {
      NaturalRoundTrip(n);
    }
  }

  /** A piece free of the separator stays whole. */
  lemma {:induction false} SplitNone(a: string, sep: char)
    requires sep !in a
    ensures Split(a, sep) == [a]
  {
    if a != [] {
      SplitNone(a[1..], sep);
      assert [a[0]] + a[1..] == a;
    }
  }

  /** Cutting `a + [sep] + b` yields `a` first, then the pieces of `b`. */
  lemma {:induction false} SplitFirst(a: string, sep: char, b: string)
    requires sep !in a
    ensures Split(a + [sep] + b, sep) == [a] + Split(b, sep)
  {
    var s := a + [sep] + b;
    if a == [] {
      assert s[0] == sep && s[1..] == b;
    } else {
      assert s[0] == a[0] && s[1..] == a[1..] + [sep] + b;
      SplitFirst(a[1..], sep, b);
      var rest := Split(s[1..], sep);
      assert rest == [a[1..]] + Split(b, sep);
      assert Split(s, sep) == [[a[0]] + rest[0]] + rest[1..];
      assert [a[0]] + a[1..] == a;
    }
  }

  /** Three separator-free numbers joined by the separator split back into those three. */
  lemma SplitThree(w: string, h: string, b: string)
    requires 'x' !in w && 'x' !in h && 'x' !in b
    ensures Split(w + ['x'] + (h + ['x'] + b), 'x') == [w, h, b]
  {
    SplitNone(b, 'x');
    SplitFirst(h, 'x', b);
    SplitFirst(w, 'x', h + ['x'] + b);
  }

  /** The label names Width, Height and Bpp, in that order, after the fixed
      prefix: reading it back gives the same three numbers. */
  lemma LabelRoundTrip(r: ResolutionInfo)
    ensures ParseLabel(ToString(r)) == Some(r)
  {
    DecimalRoundTrip(r.Width);
    DecimalRoundTrip(r.Height);
    DecimalRoundTrip(r.Bpp);
  }

  /** 640 x 480 at 24 bits per pixel. */
  lemma LabelExample()
    ensures ToString(ResolutionInfo(640, 480, 24)) == "Resolution: 640x480x24"
  {
  }
}
