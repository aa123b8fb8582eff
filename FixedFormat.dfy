/** The two-decimal display of a converted value (JavaScript's
    `Number.prototype.toFixed(2)`), on exact reals: the rounding to hundredths
    and the text it renders, with a reader that recovers the rounded number
    from that text. */
module FixedFormat {
  import opened Basics

  /** A number written with exactly two decimals: its sign and its magnitude
      counted in hundredths. The sign is kept separately because a small
      negative value renders as "-0.00". */
  datatype Fixed = Fixed(negative: bool, hundredths: nat)

  /** The number a two-decimal rendering stands for. */
  function Value(f: Fixed): real
  {
    var m := f.hundredths as real / 100.0;
    if f.negative then -m else m
  }

  /** Rounds `x` to hundredths as toFixed(2) does: the sign is taken off
      first, then the magnitude goes to the nearest hundredth, a tie going to
      the larger one. */
  function ToFixed2(x: real): (f: Fixed)
    ensures f.negative <==> x < 0.0
    ensures f.hundredths as real - 0.5 <= Abs(x) * 100.0 < f.hundredths as real + 0.5
  {
    var n := (Abs(x) * 100.0 + 0.5).Floor;
    Fixed(x < 0.0, n)
  }

  /** The rounding moves the value by at most half a hundredth. */
  lemma ToFixed2Error(x: real)
    ensures -0.005 <= Value(ToFixed2(x)) - x <= 0.005
  {
    var f := ToFixed2(x);
    var m := f.hundredths as real / 100.0;
    assert m - 0.005 <= Abs(x) < m + 0.005;
    if x < 0.0 {
      assert Value(f) == -m && Abs(x) == -x;
    } else {
      assert Value(f) == m && Abs(x) == x;
    }
  }

  /** Rounding a value that already has two decimals gives it back. */
  lemma ToFixed2Exact(f: Fixed)
    requires !(f.negative && f.hundredths == 0)
    ensures ToFixed2(Value(f)) == f
  {
    var g := ToFixed2(Value(f));
    var h := f.hundredths as real;
    assert Abs(Value(f)) * 100.0 == h;
    assert g.hundredths as real - 0.5 <= h < g.hundredths as real + 0.5;
  }

  function DigitChar(d: nat): (ch: char)
    requires d < 10
  {
    "0123456789"[d]
  }

  predicate IsDigit(ch: char)
  {
    '0' <= ch <= '9'
  }

  function DigitValue(ch: char): (d: nat)
    requires IsDigit(ch)
    ensures d < 10
  {
    (ch as int - '0' as int) as nat
  }

  /** The decimal digits of `n`, most significant first, without leading
      zeros ("0" for zero). */
  function NatDigits(n: nat): (s: string)
    decreases n
  {
    if n < 10 then [DigitChar(n)] else NatDigits(n / 10) + [DigitChar(n % 10)]
  }

  /** The number a non-empty string of decimal digits spells. */
  function ParseDigits(s: string): (n: nat)
    requires forall i :: 0 <= i < |s| ==> IsDigit(s[i])
    decreases |s|
  {
    if s == [] then 0 else ParseDigits(s[..|s| - 1]) * 10 + DigitValue(s[|s| - 1])
  }

  /** The digits of a number are digits and spell that number. */
  lemma {:induction false} NatDigitsRoundTrip(n: nat)
    ensures |NatDigits(n)| >= 1
    ensures forall i :: 0 <= i < |NatDigits(n)| ==> IsDigit(NatDigits(n)[i])
    ensures ParseDigits(NatDigits(n)) == n
    decreases n
  {
    if n < 10 {
      assert NatDigits(n) == [DigitChar(n)];
    } else {
      NatDigitsRoundTrip(n / 10);
      var s := NatDigits(n);
      var p := NatDigits(n / 10);
      assert s == p + [DigitChar(n % 10)];
      assert s[..|s| - 1] == p;
    }
  }

  /** The whole part, the tenths digit and the hundredths digit of a count
      of hundredths. */
  function WholePart(h: nat): nat
  {
    h / 100
  }

  function TenthsDigit(h: nat): (d: nat)
    ensures d < 10
  {
    h % 100 / 10
  }

  function HundredthsDigit(h: nat): (d: nat)
    ensures d < 10
  {
    h % 10
  }

  /** The text toFixed(2) produces: an optional minus sign, the whole part
      without leading zeros, a point and exactly two decimals. */
  function Render(f: Fixed): (s: string)
    ensures |s| >= 4 && s[|s| - 3] == '.'
    ensures s[0] == '-' <==> f.negative
  {
    (if f.negative then "-" else "") + MagnitudeText(f.hundredths)
  }

  /** The unsigned text of a count of hundredths: at least one digit, a
      point, then two digits. */
  function MagnitudeText(h: nat): (t: string)
    ensures |t| >= 4 && t[|t| - 3] == '.'
    ensures forall i :: 0 <= i < |t| && i != |t| - 3 ==> IsDigit(t[i])
  {
    NatDigitsRoundTrip(WholePart(h));
    NatDigits(WholePart(h)) + "." + [DigitChar(TenthsDigit(h)), DigitChar(HundredthsDigit(h))]
  }

  /** Reads back the unsigned part of a two-decimal rendering, as a count of
      hundredths; None for any other text. */
  function ParseMagnitude(body: string): (r: Option<nat>)
  {
    var k := |body| - 3;
    if k >= 1 && body[k] == '.'
       && (forall i :: 0 <= i < k ==> IsDigit(body[i]))
       && IsDigit(body[k + 1]) && IsDigit(body[k + 2])
    then Some(ParseDigits(body[..k]) * 100 + DigitValue(body[k + 1]) * 10 + DigitValue(body[k + 2]))
    else None
  }

  /** Reads back a two-decimal rendering; None for any other text. */
  function ParseFixed(s: string): (r: Option<Fixed>)
  {
    var negative := |s| > 0 && s[0] == '-';
    match ParseMagnitude(if negative then s[1..] else s)
    case Some(h) => Some(Fixed(negative, h))
    case None => None
  }

  /** A digit character reads back as its digit. */
  lemma DigitRoundTrip(d: nat)
    requires d < 10
    ensures IsDigit(DigitChar(d)) && DigitValue(DigitChar(d)) == d
  {
  }

  /** ParseMagnitude on text of the shape Render produces after the sign. */
  lemma ParseMagnitudeRendered(whole: string, d1: nat, d2: nat)
    requires |whole| >= 1 && forall i :: 0 <= i < |whole| ==> IsDigit(whole[i])
    requires d1 < 10 && d2 < 10
    ensures ParseMagnitude(whole + "." + [DigitChar(d1), DigitChar(d2)])
         == Some(ParseDigits(whole) * 100 + d1 * 10 + d2)
  {
    DigitRoundTrip(d1);
    DigitRoundTrip(d2);
    var body := whole + "." + [DigitChar(d1), DigitChar(d2)];
    var k := |whole|;
    assert body[..k] == whole;
    assert body[k] == '.' && body[k + 1] == DigitChar(d1) && body[k + 2] == DigitChar(d2);
    assert forall i :: 0 <= i < k ==> IsDigit(body[i]) by {
      forall i | 0 <= i < k ensures IsDigit(body[i]) {
        assert body[i] == whole[i];
      }
    }
  }

  /** ParseFixed takes a leading minus sign as the sign and reads the rest as
      the magnitude. */
  lemma ParseFixedSigned(negative: bool, body: string, h: nat)
    requires |body| > 0 && body[0] != '-' && ParseMagnitude(body) == Some(h)
    ensures ParseFixed((if negative then "-" else "") + body) == Some(Fixed(negative, h))
  {
    var s := (if negative then "-" else "") + body;
    if negative {
      assert s[1..] == body;
    } else {
      assert s == body;
    }
  }

  /** A count of hundredths is its whole part, tenths and hundredths. */
  lemma DecimalSplit(h: nat)
    ensures WholePart(h) * 100 + TenthsDigit(h) * 10 + HundredthsDigit(h) == h
  {
  }

  /** The unsigned text starts with a digit and reads back as its count. */
  lemma MagnitudeRoundTrip(h: nat)
    ensures ParseMagnitude(MagnitudeText(h)) == Some(h)
  {
    var whole := NatDigits(WholePart(h));
    NatDigitsRoundTrip(WholePart(h));
    ParseMagnitudeRendered(whole, TenthsDigit(h), HundredthsDigit(h));
    DecimalSplit(h);
  }

  /** The rendered text reads back as exactly the rounded number. */
  lemma RenderRoundTrip(f: Fixed)
    ensures ParseFixed(Render(f)) == Some(f)
  {
    MagnitudeRoundTrip(f.hundredths);
    ParseFixedSigned(f.negative, MagnitudeText(f.hundredths), f.hundredths);
  }
}
