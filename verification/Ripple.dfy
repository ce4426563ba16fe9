/**
  The ripple colour of a button (buttonRippleForBackground in bot_webview_shell_html/page.js):
  #rrggbb to hue, saturation and value, the value moved by 32, and back to #rrggbb.
  Arithmetic is over the reals.
 */
module Ripple {
  import opened Wrappers

  datatype Rgb = Rgb(red: real, green: real, blue: real)

  function Max(a: real, b: real): real { if a >= b then a else b }

  function Min(a: real, b: real): real { if a <= b then a else b }

  function Maximum(c: Rgb): real { Max(c.red, Max(c.green, c.blue)) }

  function Minimum(c: Rgb): real { Min(c.red, Min(c.green, c.blue)) }

  function Abs(x: real): real { if x < 0.0 then -x else x }

  ghost predicate IsColor(c: Rgb) {
    0.0 <= c.red <= 255.0 && 0.0 <= c.green <= 255.0 && 0.0 <= c.blue <= 255.0
  }

  // ---------- the conversion as the page computes it ----------

  /** The quotient the hue is computed from: a signed distance between two channels over the spread. */
  function Slope(c: Rgb): real
    requires Maximum(c) != Minimum(c)
  {
    var delta := Maximum(c) - Minimum(c);
    if Maximum(c) == c.red then (c.green - c.blue) / delta
    else if Maximum(c) == c.green then (c.blue - c.red) / delta
    else (c.red - c.green) / delta
  }

  /** The remainder of a division that truncates towards zero, as the page's operator has it. */
  function Remainder(x: real, d: real): real
    requires d > 0.0
  {
    x - d * (if x < 0.0 then -((-x / d).Floor as real) else (x / d).Floor as real)
  }

  /** The hue in degrees. */
  function Hue(c: Rgb): real {
    var hue :=
      if Maximum(c) == Minimum(c) then 0.0
      else if Maximum(c) == c.red then 60.0 * Remainder(Slope(c), 6.0)
      else if Maximum(c) == c.green then 60.0 * (Slope(c) + 2.0)
      else 60.0 * (Slope(c) + 4.0);
    if hue < 0.0 then hue + 360.0 else hue
  }

  function Saturation(c: Rgb): real
    requires Maximum(c) >= 0.0
  {
    if Maximum(c) == 0.0 then 0.0 else (Maximum(c) - Minimum(c)) / Maximum(c)
  }

  function NextValue(maximum: real): real {
    Max(0.0, Min(255.0, maximum + if maximum > 128.0 then -32.0 else 32.0))
  }

  /** How far the hue is from the nearest of red, green and blue, in units of 60 degrees. */
  function Fold(hue: real): real { 1.0 - Abs(Remainder(hue / 60.0, 2.0) - 1.0) }

  function FromHue(hue: real, chroma: real, m: real): Rgb {
    var x := chroma * Fold(hue);
    if hue < 60.0 then Rgb(chroma + m, x + m, m)
    else if hue < 120.0 then Rgb(x + m, chroma + m, m)
    else if hue < 180.0 then Rgb(m, chroma + m, x + m)
    else if hue < 240.0 then Rgb(m, x + m, chroma + m)
    else if hue < 300.0 then Rgb(x + m, m, chroma + m)
    else Rgb(chroma + m, m, x + m)
  }

  /** The new channels before rounding. */
  function NextColor(c: Rgb): Rgb
    requires Maximum(c) >= 0.0
  {
    var nextValue := NextValue(Maximum(c));
    FromHue(Hue(c), Chroma(c, nextValue), Base(c, nextValue))
  }

  function Chroma(c: Rgb, nextValue: real): real
    requires Maximum(c) >= 0.0
  {
    nextValue * Saturation(c)
  }

  /** The amount called m in the page. */
  function Base(c: Rgb, nextValue: real): real
    requires Maximum(c) >= 0.0
  {
    nextValue - Chroma(c, nextValue)
  }

  // ---------- the closed form ----------

  /** Each channel multiplied by nextValue / maximum, and grey of that value for black. */
  function Scaled(c: Rgb): Rgb
    requires Maximum(c) >= 0.0
  {
    var v := NextValue(Maximum(c));
    if Maximum(c) == 0.0 then Rgb(v, v, v)
    else Times(c, v / Maximum(c))
  }

  function Times(c: Rgb, k: real): Rgb { Rgb(By(c.red, k), By(c.green, k), By(c.blue, k)) }

  function By(channel: real, k: real): real { channel * k }

  // ---------- the two are the same ----------

  /** The remainder by 6 leaves the slope as it is. */
  lemma SlopeIsItsRemainder(c: Rgb)
    requires Maximum(c) != Minimum(c)
    ensures -1.0 <= Slope(c) <= 1.0 && Remainder(Slope(c), 6.0) == Slope(c)
  {
    var delta := Maximum(c) - Minimum(c);
    if Maximum(c) == c.red {
      QuotientBounds(c.green - c.blue, delta);
    } else if Maximum(c) == c.green {
      QuotientBounds(c.blue - c.red, delta);
    } else {
      QuotientBounds(c.red - c.green, delta);
    }
    var t := Slope(c);
    hide Slope;
    assert (t / 6.0).Floor == (if t < 0.0 then -1 else 0) && (-t / 6.0).Floor == if t > 0.0 then -1 else 0;
  }

  /** The remainder by 2 of a number from 0 up to 6. */
  lemma RemainderByTwo(x: real)
    requires 0.0 <= x < 6.0
    ensures Remainder(x, 2.0) == if x < 2.0 then x else if x < 4.0 then x - 2.0 else x - 4.0
  {
    assert (x / 2.0).Floor == if x < 2.0 then 0 else if x < 4.0 then 1 else 2;
  }

  /** Where a channel lies between the least and the greatest one. */
  function Position(c: Rgb, channel: real): real
    requires Maximum(c) != Minimum(c)
  {
    (channel - Minimum(c)) / (Maximum(c) - Minimum(c))
  }

  lemma QuotientBounds(a: real, b: real)
    requires b > 0.0 && -b <= a <= b
    ensures -1.0 <= a / b <= 1.0
    ensures a / b == 1.0 <==> a == b
    ensures a / b == -1.0 <==> a == -b
    ensures a / b >= 0.0 <==> a >= 0.0
    ensures (0.0 - a) / b == 0.0 - a / b
    ensures b / b == 1.0 && 0.0 / b == 0.0
  {
    var q := a / b;
    assert q * b == a;
    assert (0.0 - q) * b == 0.0 - a;
  }

  function Mix(chroma: real, position: real, m: real): real { chroma * position + m }

  function Lifted(c: Rgb, channel: real, chroma: real, m: real): real
    requires Maximum(c) != Minimum(c)
  {
    Mix(chroma, Position(c, channel), m)
  }

  function Placed(c: Rgb, chroma: real, m: real): Rgb
    requires Maximum(c) != Minimum(c)
  {
    Rgb(Lifted(c, c.red, chroma, m), Lifted(c, c.green, chroma, m), Lifted(c, c.blue, chroma, m))
  }

  lemma FoldIs(hue: real, t: real)
    requires -1.0 <= t <= 1.0 && 0.0 <= hue < 360.0
    requires hue == 60.0 * t || hue == 60.0 * (t + 2.0) || hue == 60.0 * (t + 4.0) || hue == 60.0 * t + 360.0
    ensures Fold(hue) == Abs(t)
  {
    RemainderByTwo(hue / 60.0);
    hide Remainder;
  }

  lemma RedPositions(c: Rgb)
    requires Maximum(c) != Minimum(c) && Maximum(c) == c.red
    ensures Position(c, c.red) == 1.0
    ensures Position(c, c.green) == Max(Slope(c), 0.0) && Position(c, c.blue) == Max(-Slope(c), 0.0)
    ensures -1.0 <= Slope(c) <= 1.0
  {
    QuotientBounds(c.green - c.blue, c.red - Minimum(c));
    QuotientBounds(c.blue - c.green, c.red - Minimum(c));
  }

  lemma GreenPositions(c: Rgb)
    requires Maximum(c) != Minimum(c) && Maximum(c) == c.green && Maximum(c) != c.red
    ensures Position(c, c.green) == 1.0
    ensures Position(c, c.blue) == Max(Slope(c), 0.0) && Position(c, c.red) == Max(-Slope(c), 0.0)
    ensures -1.0 < Slope(c) <= 1.0
  {
    QuotientBounds(c.blue - c.red, c.green - Minimum(c));
    QuotientBounds(c.red - c.blue, c.green - Minimum(c));
  }

  lemma BluePositions(c: Rgb)
    requires Maximum(c) != Minimum(c) && Maximum(c) != c.green && Maximum(c) != c.red
    ensures Position(c, c.blue) == 1.0
    ensures Position(c, c.red) == Max(Slope(c), 0.0) && Position(c, c.green) == Max(-Slope(c), 0.0)
    ensures -1.0 < Slope(c) < 1.0
  {
    QuotientBounds(c.red - c.green, c.blue - Minimum(c));
    QuotientBounds(c.green - c.red, c.blue - Minimum(c));
  }

  /** The sectors of the hue, with the channels between m and chroma + m. */
  function Mixed(hue: real, fold: real, chroma: real, m: real): Rgb {
    var most, between, least := Mix(chroma, 1.0, m), Mix(chroma, fold, m), Mix(chroma, 0.0, m);
    if hue < 60.0 then Rgb(most, between, least)
    else if hue < 120.0 then Rgb(between, most, least)
    else if hue < 180.0 then Rgb(least, most, between)
    else if hue < 240.0 then Rgb(least, between, most)
    else if hue < 300.0 then Rgb(between, least, most)
    else Rgb(most, least, between)
  }

  lemma FromHueMixes(hue: real, chroma: real, m: real)
    ensures FromHue(hue, chroma, m) == Mixed(hue, Fold(hue), chroma, m)
  {
    hide Fold;
    assert Mix(chroma, 1.0, m) == chroma + m && Mix(chroma, 0.0, m) == m;
    assert Mix(chroma, Fold(hue), m) == chroma * Fold(hue) + m;
    hide Mix;
  }

  lemma FromRed(hue: real, t: real, chroma: real, m: real)
    requires -1.0 <= t <= 1.0 && hue == if t < 0.0 then 60.0 * t + 360.0 else 60.0 * t
    ensures FromHue(hue, chroma, m)
            == Rgb(Mix(chroma, 1.0, m), Mix(chroma, Max(t, 0.0), m), Mix(chroma, Max(-t, 0.0), m))
  {
    FoldIs(hue, t);
    FromHueMixes(hue, chroma, m);
    hide Fold, Mix, FromHue;
  }

  lemma RedHue(c: Rgb)
    requires Maximum(c) != Minimum(c) && Maximum(c) == c.red
    ensures Hue(c) == if Slope(c) < 0.0 then 60.0 * Slope(c) + 360.0 else 60.0 * Slope(c)
  {
    SlopeIsItsRemainder(c);
    hide Slope, Remainder;
  }

  lemma FromGreen(hue: real, t: real, chroma: real, m: real)
    requires -1.0 <= t <= 1.0 && hue == 60.0 * (t + 2.0)
    ensures FromHue(hue, chroma, m)
            == Rgb(Mix(chroma, Max(-t, 0.0), m), Mix(chroma, 1.0, m), Mix(chroma, Max(t, 0.0), m))
  {
    FoldIs(hue, t);
    FromHueMixes(hue, chroma, m);
    hide Fold, Mix, FromHue;
  }

  lemma FromBlue(hue: real, t: real, chroma: real, m: real)
    requires -1.0 <= t <= 1.0 && hue == 60.0 * (t + 4.0)
    ensures FromHue(hue, chroma, m)
            == Rgb(Mix(chroma, Max(t, 0.0), m), Mix(chroma, Max(-t, 0.0), m), Mix(chroma, 1.0, m))
  {
    FoldIs(hue, t);
    FromHueMixes(hue, chroma, m);
    hide Fold, Mix, FromHue;
  }

  /** In every hue sector, going back from the hue puts each channel at its position between m and chroma + m. */
  lemma RedSector(c: Rgb, chroma: real, m: real)
    requires Maximum(c) != Minimum(c) && Maximum(c) == c.red
    ensures FromHue(Hue(c), chroma, m) == Placed(c, chroma, m)
  {
    var t := Slope(c);
    RedPositions(c);
    RedHue(c);
    hide Slope, Hue, FromHue, Position, Maximum, Minimum, Mix;
    FromRed(Hue(c), t, chroma, m);
  }

  lemma GreenSector(c: Rgb, chroma: real, m: real)
    requires Maximum(c) != Minimum(c) && Maximum(c) == c.green && Maximum(c) != c.red
    ensures FromHue(Hue(c), chroma, m) == Placed(c, chroma, m)
  {
    var t := Slope(c);
    GreenPositions(c);
    assert Hue(c) == 60.0 * (t + 2.0);
    hide Slope, Hue, FromHue, Position, Maximum, Minimum, Mix;
    FromGreen(Hue(c), t, chroma, m);
  }

  lemma BlueSector(c: Rgb, chroma: real, m: real)
    requires Maximum(c) != Minimum(c) && Maximum(c) != c.green && Maximum(c) != c.red
    ensures FromHue(Hue(c), chroma, m) == Placed(c, chroma, m)
  {
    var t := Slope(c);
    BluePositions(c);
    assert Hue(c) == 60.0 * (t + 4.0);
    hide Slope, Hue, FromHue, Position, Maximum, Minimum, Mix;
    FromBlue(Hue(c), t, chroma, m);
  }

  /** chroma * position + (v - chroma) is v * channel / maximum. */
  lemma Interpolate(v: real, channel: real, least: real, most: real)
    requires most > 0.0 && least < most
    ensures v * ((most - least) / most) * ((channel - least) / (most - least)) + (v - v * ((most - least) / most))
         == channel * (v / most)
  {
    var s := (most - least) / most;
    var p := (channel - least) / (most - least);
    var k := v / most;
    assert s * most == most - least;
    assert p * (most - least) == channel - least;
    assert k * most == v;
    assert v * s == k * (most - least);
    assert v * s * p == k * (channel - least);
  }

  lemma InterpolateChannel(c: Rgb, v: real, channel: real)
    requires Maximum(c) > 0.0 && Maximum(c) != Minimum(c)
    ensures Lifted(c, channel, Chroma(c, v), Base(c, v)) == By(channel, v / Maximum(c))
  {
    Interpolate(v, channel, Minimum(c), Maximum(c));
  }

  lemma HueIsPlaced(c: Rgb, chroma: real, m: real)
    requires Maximum(c) != Minimum(c)
    ensures FromHue(Hue(c), chroma, m) == Placed(c, chroma, m)
  {
    hide FromHue, Hue, Placed, Minimum;
    if Maximum(c) == c.red {
      RedSector(c, chroma, m);
    } else if Maximum(c) == c.green {
      GreenSector(c, chroma, m);
    } else {
      BlueSector(c, chroma, m);
    }
  }

  lemma ColorfulIsScaled(c: Rgb, v: real)
    requires Maximum(c) > 0.0 && Maximum(c) != Minimum(c)
    ensures FromHue(Hue(c), Chroma(c, v), Base(c, v)) == Times(c, v / Maximum(c))
  {
    hide FromHue, Hue, Chroma, Base, Maximum, Minimum, Lifted, By;
    HueIsPlaced(c, Chroma(c, v), Base(c, v));
    InterpolateChannel(c, v, c.red);
    InterpolateChannel(c, v, c.green);
    InterpolateChannel(c, v, c.blue);
  }

  lemma GreyIsScaled(c: Rgb, v: real)
    requires Maximum(c) > 0.0 && Maximum(c) == Minimum(c)
    ensures FromHue(Hue(c), Chroma(c, v), Base(c, v)) == Times(c, v / Maximum(c))
  {
    assert Saturation(c) == 0.0;
    assert v * Saturation(c) == 0.0;
    RemainderByTwo(Hue(c) / 60.0);
    hide Remainder;
    assert Maximum(c) * (v / Maximum(c)) == v;
  }

  lemma BlackIsGrey(c: Rgb, v: real)
    requires IsColor(c) && Maximum(c) == 0.0
    ensures FromHue(Hue(c), Chroma(c, v), Base(c, v)) == Rgb(v, v, v)
  {
    assert v * Saturation(c) == 0.0;
    RemainderByTwo(Hue(c) / 60.0);
    hide Remainder;
  }

  /** The page's way through hue, saturation and value is a scaling of the channels. */
  lemma NextColorIsScaled(c: Rgb)
    requires IsColor(c)
    ensures NextColor(c) == Scaled(c)
  {
    hide FromHue, Hue, NextValue, Chroma, Base, Times;
    var v := NextValue(Maximum(c));
    if Maximum(c) == 0.0 {
      BlackIsGrey(c, v);
    } else if Maximum(c) != Minimum(c) {
      ColorfulIsScaled(c, v);
    } else {
      GreyIsScaled(c, v);
    }
  }

  // ---------- what scaling keeps ----------

  lemma CancelScale(a: real, b: real, k: real)
    requires b != 0.0 && k > 0.0
    ensures b * k != 0.0 && (a * k) / (b * k) == a / b
  {
    var q := a / b;
    assert q * b == a;
    assert q * (b * k) == a * k;
  }

  lemma ScaleOrder(a: real, b: real, k: real)
    requires k > 0.0
    ensures By(a, k) <= By(b, k) <==> a <= b
    ensures By(a, k) - By(b, k) == (a - b) * k
  {
    if a > b {
      assert (a - b) * k > 0.0;
    } else {
      assert (b - a) * k >= 0.0;
    }
  }

  lemma ScaleExtremes(c: Rgb, k: real)
    requires k > 0.0
    ensures Maximum(Times(c, k)) == By(Maximum(c), k) && Minimum(Times(c, k)) == By(Minimum(c), k)
  {
    ScaleOrder(c.red, c.green, k);
    ScaleOrder(c.red, c.blue, k);
    ScaleOrder(c.green, c.blue, k);
  }

  lemma ScaleQuotient(a: real, b: real, p: real, q: real, k: real)
    requires k > 0.0 && p != q
    ensures By(p, k) != By(q, k)
    ensures (By(a, k) - By(b, k)) / (By(p, k) - By(q, k)) == (a - b) / (p - q)
  {
    ScaleOrder(a, b, k);
    ScaleOrder(p, q, k);
    CancelScale(a - b, p - q, k);
  }

  lemma ScaleSame(a: real, b: real, k: real)
    requires k > 0.0
    ensures By(a, k) == By(b, k) <==> a == b
  {
    ScaleOrder(a, b, k);
    ScaleOrder(b, a, k);
  }

  lemma ScaleSlope(c: Rgb, k: real)
    requires k > 0.0 && Maximum(c) != Minimum(c)
    ensures Maximum(Times(c, k)) != Minimum(Times(c, k)) && Slope(Times(c, k)) == Slope(c)
    ensures Maximum(Times(c, k)) == Times(c, k).red <==> Maximum(c) == c.red
    ensures Maximum(Times(c, k)) == Times(c, k).green <==> Maximum(c) == c.green
  {
    hide By, Maximum, Minimum;
    var most, least := Maximum(c), Minimum(c);
    ScaleExtremes(c, k);
    ScaleSame(most, c.red, k);
    ScaleSame(most, c.green, k);
    ScaleQuotient(c.green, c.blue, most, least, k);
    ScaleQuotient(c.blue, c.red, most, least, k);
    ScaleQuotient(c.red, c.green, most, least, k);
  }

  lemma ScaleKeepsHue(c: Rgb, k: real)
    requires k > 0.0
    ensures Hue(Times(c, k)) == Hue(c)
  {
    ScaleExtremes(c, k);
    if Maximum(c) != Minimum(c) {
      ScaleSlope(c, k);
    }
    hide By, Slope, Times, Maximum, Minimum;
  }

  lemma ScaleKeepsSaturation(c: Rgb, k: real)
    requires k > 0.0 && Maximum(c) > 0.0
    ensures Maximum(Times(c, k)) > 0.0 && Saturation(Times(c, k)) == Saturation(c)
  {
    ScaleExtremes(c, k);
    ScaleOrder(Maximum(c), Minimum(c), k);
    ScaleOrder(Maximum(c), 0.0, k);
    ScaleOrder(0.0, Maximum(c), k);
    assert By(0.0, k) == 0.0;
    CancelScale(Maximum(c) - Minimum(c), Maximum(c), k);
    hide Maximum, Minimum, Times;
  }

  /** The factor the page scales a colour by. */
  lemma NextFactor(c: Rgb) returns (k: real)
    requires IsColor(c) && Maximum(c) > 0.0
    ensures k > 0.0 && NextColor(c) == Times(c, k) && By(Maximum(c), k) == NextValue(Maximum(c))
  {
    NextColorIsScaled(c);
    assert 0.0 < Maximum(c) <= 255.0;
    hide NextColor, Times, Maximum, By;
    k := NextValue(Maximum(c)) / Maximum(c);
    Divided(NextValue(Maximum(c)), Maximum(c));
  }

  lemma Divided(v: real, most: real)
    requires v > 0.0 && most > 0.0
    ensures v / most > 0.0 && By(most, v / most) == v
  {
  }

  lemma BlackBecomesGrey(c: Rgb)
    requires IsColor(c) && Maximum(c) == 0.0
    ensures NextColor(c) == Rgb(32.0, 32.0, 32.0)
  {
    NextColorIsScaled(c);
  }

  /** The value moves by exactly 32, and every channel is in range before rounding. */
  lemma ValueMoves(c: Rgb)
    requires IsColor(c)
    ensures Maximum(NextColor(c)) == (if Maximum(c) > 128.0 then Maximum(c) - 32.0 else Maximum(c) + 32.0)
    ensures IsColor(NextColor(c))
  {
    if Maximum(c) == 0.0 {
      BlackBecomesGrey(c);
    } else {
      var k := NextFactor(c);
      ScaleExtremes(c, k);
      ScaleOrder(0.0, Minimum(c), k);
      assert 0.0 <= Minimum(NextColor(c)) by { assert By(0.0, k) == 0.0; }
      hide NextColor, Times, By;
      assert Maximum(NextColor(c)) == NextValue(Maximum(c)) <= 255.0;
    }
  }

  lemma HueAndSaturationStay(c: Rgb)
    requires IsColor(c)
    ensures Maximum(NextColor(c)) >= 0.0
    ensures Hue(NextColor(c)) == Hue(c) && Saturation(NextColor(c)) == Saturation(c)
  {
    if Maximum(c) == 0.0 {
      BlackBecomesGrey(c);
    } else {
      var k := NextFactor(c);
      ScaleKeepsHue(c, k);
      ScaleKeepsSaturation(c, k);
    }
  }

  // ---------- the text of a colour ----------

  const DIGITS := "0123456789abcdef"

  /** The value of a hexadecimal digit of either case, -1 for any other character. */
  function HexValue(ch: char): int {
    if '0' <= ch <= '9' then ch as int - '0' as int
    else if 'a' <= ch <= 'f' then ch as int - 'a' as int + 10
    else if 'A' <= ch <= 'F' then ch as int - 'A' as int + 10
    else -1
  }

  predicate IsColorText(s: string) {
    |s| == 7 && s[0] == '#' && forall i :: 1 <= i < 7 ==> HexValue(s[i]) >= 0
  }

  function ParseByte(s: string): (n: int)
    requires IsHexByte(s)
    ensures 0 <= n < 256
  {
    16 * HexValue(s[0]) + HexValue(s[1])
  }

  function ParseColor(s: string): (c: Rgb)
    requires IsColorText(s)
    ensures IsColor(c)
  {
    Rgb(ParseByte(s[1..3]) as real, ParseByte(s[3..5]) as real, ParseByte(s[5..7]) as real)
  }

  /** Math.round: the nearest whole number, a half rounded up. */
  function Round(x: real): int { (x + 0.5).Floor }

  function Clamp(n: int): (r: int)
    ensures 0 <= r < 256
  {
    if n < 0 then 0 else if n > 255 then 255 else n
  }

  /** toString(16) of a number below 256. */
  function ToHex(n: int): (s: string)
    requires 0 <= n < 256
    ensures 1 <= |s| <= 2
  {
    if n < 16 then [DIGITS[n]] else [DIGITS[n / 16], DIGITS[n % 16]]
  }

  function HexByte(value: real): string {
    var text := ToHex(Clamp(Round(value)));
    (if |text| < 2 then "0" else "") + text
  }

  function ButtonRipple(value: string): Option<string> {
    if !IsColorText(value) then None
    else
      var next := NextColor(ParseColor(value));
      Some("#" + HexByte(next.red) + HexByte(next.green) + HexByte(next.blue))
  }

  lemma HexDigitValue(n: int)
    requires 0 <= n < 16
    ensures HexValue(DIGITS[n]) == n
  {
  }

  lemma HexByteRoundTrip(value: real)
    requires 0.0 <= value <= 255.0
    ensures IsHexByte(HexByte(value))
    ensures ParseByte(HexByte(value)) == Round(value)
  {
    var n := Round(value);
    HexDigitValue(n / 16);
    HexDigitValue(n % 16);
    HexDigitValue(0);
  }

  function RoundChannel(x: real): real { Round(x) as real }

  /** A whole number within one half, the upper one of two that are equally near. */
  ghost predicate Nearest(n: real, x: real) { n.Floor as real == n && n - 0.5 <= x < n + 0.5 }

  /** Rounding yields the nearest whole number, and there is only one. */
  lemma RoundIsNearest(x: real)
    ensures Nearest(RoundChannel(x), x)
    ensures forall n: real :: Nearest(n, x) ==> n == RoundChannel(x)
  {
    var f := (x + 0.5).Floor;
    assert f as real <= x + 0.5 < f as real + 1.0;
    assert (f as real).Floor == f;
    forall n: real | Nearest(n, x) ensures n == f as real { WholeInOne(n.Floor, f, x); }
  }

  lemma WholeInOne(m: int, n: int, x: real)
    requires m as real - 0.5 <= x < m as real + 0.5 && n as real - 0.5 <= x < n as real + 0.5
    ensures m == n
  {
    assert -1.0 < m as real - n as real < 1.0;
  }

  /** The ripple colour is a colour again, and its channels are the scaled ones rounded; anything else has none. */
  lemma RippleText(value: string)
    ensures ButtonRipple(value).Some? <==> IsColorText(value)
    ensures IsColorText(value) ==>
              && IsColorText(ButtonRipple(value).value)
              && var c, r := Scaled(ParseColor(value)), ParseColor(ButtonRipple(value).value);
                 && Nearest(r.red, c.red) && Nearest(r.green, c.green) && Nearest(r.blue, c.blue)
  {
    if IsColorText(value) {
      var c := ParseColor(value);
      var next := NextColor(c);
      NextColorIsScaled(c);
      ValueMoves(c);
      hide NextColor, ParseColor, Scaled, HexByte, IsHexByte, IsColorText, ParseByte, Nearest;
      RoundIsNearest(next.red);
      RoundIsNearest(next.green);
      RoundIsNearest(next.blue);
      HexByteRoundTrip(next.red);
      HexByteRoundTrip(next.green);
      HexByteRoundTrip(next.blue);
      TextOfBytes(HexByte(next.red), HexByte(next.green), HexByte(next.blue));
    }
  }

  predicate IsHexByte(s: string) { |s| == 2 && HexValue(s[0]) >= 0 && HexValue(s[1]) >= 0 }

  lemma TextOfBytes(r: string, g: string, b: string)
    requires IsHexByte(r) && IsHexByte(g) && IsHexByte(b)
    ensures var s := "#" + r + g + b;
            IsColorText(s) && ParseColor(s) == Rgb(ParseByte(r) as real, ParseByte(g) as real, ParseByte(b) as real)
  {
    var s := "#" + r + g + b;
    assert s[1..3] == r && s[3..5] == g && s[5..7] == b;
    hide HexValue;
  }
}
