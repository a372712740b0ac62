/**
 * The colour helper of the category OGP image script:
 * `adjustBrightness(hex, percent)` reads a `#rrggbb` colour, adds
 * `percent` to each of the three channels, clamps each into [0, 255] and
 * prints the colour again as `#` and six lowercase hex digits.
 */
module Ogp {
  import opened Js

  const HASH: Unit := 0x23
  const ZERO: Unit := 0x30
  const COLOR_DIGITS: nat := 6

  /** The place values of the three channels: `>> 16`, `>> 8` and no shift. */
  const RED: int := 0x1_0000
  const GREEN: int := 0x100
  const BLUE: int := 1

  // ---------------------------------------------------------------------
  // parseInt(s, 16)
  // ---------------------------------------------------------------------

  predicate IsHexDigit(u: Unit) {
    IsDigit(u) || 0x41 <= u <= 0x46 || 0x61 <= u <= 0x66
  }

  /** The digits `toString(16)` prints. */
  predicate IsLowerHexDigit(u: Unit) {
    IsDigit(u) || 0x61 <= u <= 0x66
  }

  predicate AllLowerHex(s: JsString) {
    forall i | 0 <= i < |s| :: IsLowerHexDigit(s[i])
  }

  function HexDigitValue(u: Unit): (r: int)
    requires IsHexDigit(u)
    ensures 0 <= r < 16
  {
    if IsDigit(u) then u - 0x30 else if u <= 0x46 then u - 0x41 + 10 else u - 0x61 + 10
  }

  /** The value of a string of hex digits, most significant first. */
  function HexValue(s: JsString): nat
    requires forall i | 0 <= i < |s| :: IsHexDigit(s[i])
    decreases |s|
  {
    if s == [] then 0 else 16 * HexValue(s[..|s| - 1]) + HexDigitValue(s[|s| - 1])
  }

  /** The end of the run of hex digits starting at `k`. */
  function HexFrom(s: JsString, k: nat): (r: nat)
    requires k <= |s|
    ensures k <= r <= |s|
    ensures forall i | k <= i < r :: IsHexDigit(s[i])
    ensures r < |s| ==> !IsHexDigit(s[r])
    decreases |s| - k
  {
    if k == |s| || !IsHexDigit(s[k]) then k else HexFrom(s, k + 1)
  }

  /** Whether `s` starts with `0x` or `0X`, which radix 16 lets `parseInt` skip. */
  predicate HasHexPrefix(s: JsString) {
    |s| >= 2 && s[0] == ZERO && (s[1] == 0x78 || s[1] == 0x58)
  }

  /**
   * `parseInt(s, 16)`: leading blanks are skipped, then an optional sign,
   * then an optional `0x`, then the longest run of hex digits is read;
   * without a digit the result is NaN, here `None`.
   */
  function ParseHex(s: JsString): Option<int> {
    var t := TrimStart(s);
    var signed := t != [] && (t[0] == 0x2D || t[0] == 0x2B);
    var body := if signed then t[1..] else t;
    match ReadHexDigits(if HasHexPrefix(body) then body[2..] else body)
    case None => None
    case Some(n) =>
      var value: int := n;
      if signed && t[0] == 0x2D then Some(-value) else Some(value)
  }

  /** The value of the longest run of hex digits at the start of `digits`, `None` when there is none. */
  function ReadHexDigits(digits: JsString): Option<nat> {
    var n := HexFrom(digits, 0);
    if n == 0 then None else Some(HexValue(digits[..n]))
  }

  // ---------------------------------------------------------------------
  // Number.prototype.toString(16) and padStart
  // ---------------------------------------------------------------------

  function HexChar(d: int): (r: Unit)
    requires 0 <= d < 16
    ensures IsLowerHexDigit(r) && HexDigitValue(r) == d
  {
    if d < 10 then 0x30 + d else 0x61 + d - 10
  }

  /** `n.toString(16)` for a non-negative integer: lowercase digits, no leading zero. */
  function ToString16(n: nat): (r: JsString)
    ensures |r| >= 1 && AllLowerHex(r)
    decreases n
  {
    if n < 16 then [HexChar(n)] else ToString16(n / 16) + [HexChar(n % 16)]
  }

  /** `s.padStart(len, c)` with a one-unit filler. */
  function PadStart(s: JsString, len: nat, c: Unit): (r: JsString)
    ensures |r| == if |s| >= len then |s| else len
    ensures r[|r| - |s|..] == s
    ensures forall i | 0 <= i < |r| - |s| :: r[i] == c
  {
    if |s| >= len then s else seq(len - |s|, _ => c) + s
  }

  function Pow16(k: nat): (r: nat)
    ensures r >= 1
  {
    if k == 0 then 1 else 16 * Pow16(k - 1)
  }

  // ---------------------------------------------------------------------
  // adjustBrightness
  // ---------------------------------------------------------------------

  /** ToInt32 of the parsed number; ToInt32 of NaN is 0. */
  function Int32Of(num: Option<int>): int {
    match num
    case None => 0
    case Some(x) => ToInt32(x)
  }

  /**
   * `(num >> k) & 0xff`: the arithmetic shift is a floor division by the
   * place value and `& 0xff` keeps the low eight bits of the two's
   * complement, which is the non-negative remainder modulo 256.
   */
  function Channel(num: Option<int>, place: int): (r: int)
    requires place == RED || place == GREEN || place == BLUE
    ensures 0 <= r < 256
  {
    (Int32Of(num) / place) % 256
  }

  /** `Math.max(0, Math.min(255, c + percent))` */
  function Adjust(c: int, percent: int): int {
    Max(0, Min(255, c + percent))
  }

  /**
   * `(r << 16) | (g << 8) | b` for channels in [0, 255]: the shifted
   * channels sit in disjoint bits below bit 24, so no sign bit is reached
   * and the `|` adds them.
   */
  function Pack(r: int, g: int, b: int): int {
    r * RED + g * GREEN + b
  }

  function Adjusted(hex: JsString, percent: int, place: int): int
    requires place == RED || place == GREEN || place == BLUE
  {
    Adjust(Channel(ParseHex(ReplaceFirst(hex, [HASH], [])), place), percent)
  }

  /** `adjustBrightness(hex, percent)` with an integral `percent`. */
  function AdjustBrightness(hex: JsString, percent: int): JsString {
    var packed := Pack(Adjusted(hex, percent, RED), Adjusted(hex, percent, GREEN), Adjusted(hex, percent, BLUE));
    [HASH] + PadStart(ToString16(packed), COLOR_DIGITS, ZERO)
  }

  // ---------------------------------------------------------------------
  // Properties
  // ---------------------------------------------------------------------

  /** Every adjusted channel lies in [0, 255], and is the sum itself when that does. */
  lemma AdjustClamps(c: int, percent: int)
    ensures 0 <= Adjust(c, percent) <= 255
    ensures 0 <= c + percent <= 255 ==> Adjust(c, percent) == c + percent
    ensures c + percent < 0 ==> Adjust(c, percent) == 0
    ensures c + percent > 255 ==> Adjust(c, percent) == 255
  {
  }

  /** A larger percent never gives a smaller channel. */
  lemma AdjustMonotone(hex: JsString, p1: int, p2: int, place: int)
    requires place == RED || place == GREEN || place == BLUE
    requires p1 <= p2
    ensures Adjusted(hex, p1, place) <= Adjusted(hex, p2, place)
  {
  }

  /** The channels of a number in [0, 2^24) put back together give the number. */
  lemma ChannelsOfColor(v: int)
    requires 0 <= v < 0x100_0000
    ensures Pack(Channel(Some(v), RED), Channel(Some(v), GREEN), Channel(Some(v), BLUE)) == v
  {
    assert ToInt32(v) == v;
    var r := v / RED;
    var g := (v % RED) / GREEN;
    var b := v % GREEN;
    assert v == r * RED + (v % RED);
    assert v % RED == g * GREEN + b;
    assert r < 256;
    assert Channel(Some(v), RED) == r;
    assert v / GREEN == r * 256 + g;
    assert Channel(Some(v), GREEN) == g;
    assert Channel(Some(v), BLUE) == b;
  }

  /** Packing channels in [0, 255] and reading them again gives the same channels. */
  lemma ColorChannels(r: int, g: int, b: int)
    requires 0 <= r < 256 && 0 <= g < 256 && 0 <= b < 256
    ensures 0 <= Pack(r, g, b) < 0x100_0000
    ensures Channel(Some(Pack(r, g, b)), RED) == r
    ensures Channel(Some(Pack(r, g, b)), GREEN) == g
    ensures Channel(Some(Pack(r, g, b)), BLUE) == b
  {
    var v := Pack(r, g, b);
    assert ToInt32(v) == v;
    assert v / RED == r;
    assert v / GREEN == r * 256 + g;
  }

  /** The printed digits read back as the number. */
  lemma {:induction false} ToString16RoundTrip(n: nat)
    ensures HexValue(ToString16(n)) == n
    decreases n
  {
    if n >= 16 {
      var s := ToString16(n);
      assert s[..|s| - 1] == ToString16(n / 16);
      ToString16RoundTrip(n / 16);
    }
  }

  /** A number below 16^k has at most k hex digits. */
  lemma {:induction false} ToString16Length(n: nat, k: nat)
    requires 1 <= k && n < Pow16(k)
    ensures |ToString16(n)| <= k
    decreases k
  {
    if n >= 16 {
      ToString16Length(n / 16, k - 1);
    }
  }

  /** Leading zeros do not change the value. */
  lemma {:induction false} LeadingZeros(z: JsString, s: JsString)
    requires forall i | 0 <= i < |z| :: z[i] == ZERO
    requires forall i | 0 <= i < |s| :: IsHexDigit(s[i])
    ensures HexValue(z + s) == HexValue(s)
    decreases |s|
  {
    if s == [] {
      assert z + s == z;
      ZerosValue(z);
    } else {
      assert (z + s)[..|z + s| - 1] == z + s[..|s| - 1];
      LeadingZeros(z, s[..|s| - 1]);
    }
  }

  lemma {:induction false} ZerosValue(z: JsString)
    requires forall i | 0 <= i < |z| :: z[i] == ZERO
    ensures HexValue(z) == 0
    decreases |z|
  {
    if z != [] {
      ZerosValue(z[..|z| - 1]);
    }
  }

  /** Two lowercase hex strings of one length with one value are the same string. */
  lemma {:induction false} HexValueInjective(a: JsString, b: JsString)
    requires |a| == |b| && AllLowerHex(a) && AllLowerHex(b)
    requires HexValue(a) == HexValue(b)
    ensures a == b
    decreases |a|
  {
    if a != [] {
      var n := |a| - 1;
      var da := HexDigitValue(a[n]);
      var db := HexDigitValue(b[n]);
      assert HexValue(a) % 16 == da && HexValue(b) % 16 == db;
      assert HexValue(a[..n]) == HexValue(a) / 16 && HexValue(b[..n]) == HexValue(b) / 16;
      HexValueInjective(a[..n], b[..n]);
      assert a[n] == b[n];
      assert a == a[..n] + [a[n]] && b == b[..n] + [b[n]];
    }
  }

  /** A value of k hex digits is below 16^k. */
  lemma {:induction false} HexValueBound(s: JsString)
    requires forall i | 0 <= i < |s| :: IsHexDigit(s[i])
    ensures HexValue(s) < Pow16(|s|)
    decreases |s|
  {
    if s != [] {
      HexValueBound(s[..|s| - 1]);
    }
  }

  /** `16^k` grows with `k`. */
  lemma {:induction false} Pow16Grows(j: nat, k: nat)
    requires j <= k
    ensures Pow16(j) <= Pow16(k)
    decreases k
  {
    if j < k {
      Pow16Grows(j, k - 1);
    }
  }

  /**
   * A run of at most 13 hex digits reads below 2^52, where every integer
   * is a double: for such inputs the exact reading of `parseInt` is the
   * number JavaScript computes.
   */
  lemma ShortRunIsExact(digits: JsString)
    requires HexFrom(digits, 0) <= 13
    ensures ReadHexDigits(digits).Some? ==> ReadHexDigits(digits).value < 0x10_0000_0000_0000
  {
    var n := HexFrom(digits, 0);
    if n > 0 {
      HexValueBound(digits[..n]);
      Pow16Grows(n, 13);
      assert Pow16(13) == 0x10_0000_0000_0000 by {
        assert Pow16(6) == 0x100_0000 by { SixteenToTheSix(); }
        assert Pow16(13) == 16 * 16 * 16 * 16 * 16 * 16 * 16 * Pow16(6);
      }
    }
  }

  /** The six printed digits of a colour: lowercase, zero-padded, reading back as the colour. */
  lemma SixDigits(v: int)
    requires 0 <= v < 0x100_0000
    ensures var d := PadStart(ToString16(v), COLOR_DIGITS, ZERO);
      |d| == COLOR_DIGITS && AllLowerHex(d) && HexValue(d) == v
  {
    SixteenToTheSix();
    ToString16Length(v, 6);
    PaddedHex(ToString16(v), COLOR_DIGITS);
    ToString16RoundTrip(v);
  }

  lemma SixteenToTheSix()
    ensures Pow16(6) == 0x100_0000
  {
  }

  /** Zero padding keeps a lowercase hex string lowercase hex and keeps its value. */
  lemma PaddedHex(s: JsString, len: nat)
    requires AllLowerHex(s)
    ensures AllLowerHex(PadStart(s, len, ZERO))
    ensures HexValue(PadStart(s, len, ZERO)) == HexValue(s)
  {
    if |s| < len {
      var z := seq(len - |s|, _ => ZERO);
      assert PadStart(s, len, ZERO) == z + s;
      LeadingZeros(z, s);
    }
  }

  /** `parseInt` of a string made only of hex digits reads all of it. */
  lemma ParseAllHex(h: JsString)
    requires h != [] && forall i | 0 <= i < |h| :: IsHexDigit(h[i])
    ensures ParseHex(h) == Some(HexValue(h))
  {
    HexStart(h[0], if |h| >= 2 then h[1] else ZERO);
    NoBlankStart(h);
    HexFromAt(h, 0);
    ParsePlain(h);
  }

  /** A text with no blank, sign or `0x` in front that is one run of hex digits is read whole. */
  lemma ParsePlain(h: JsString)
    requires h != [] && TrimStart(h) == h && h[0] != 0x2D && h[0] != 0x2B
    requires !HasHexPrefix(h) && HexFrom(h, 0) == |h|
    ensures ParseHex(h) == Some(HexValue(h))
  {
    ReadAllHexDigits(h);
  }

  /** A text that is one run of hex digits is read whole. */
  lemma ReadAllHexDigits(h: JsString)
    requires h != [] && HexFrom(h, 0) == |h|
    ensures ReadHexDigits(h) == Some(HexValue(h))
  {
    assert h[..|h|] == h;
  }

  lemma HexStart(u0: Unit, u1: Unit)
    requires IsHexDigit(u0) && IsHexDigit(u1)
    ensures !IsTrimmable(u0) && u0 != 0x2D && u0 != 0x2B
    ensures u1 != 0x78 && u1 != 0x58
  {
  }

  /** `trimStart` keeps a text that does not start with a blank. */
  lemma NoBlankStart(h: JsString)
    requires h != [] && !IsTrimmable(h[0])
    ensures TrimStart(h) == h
  {
    TrimStartShape(h);
  }

  /** The hex run of a string made only of hex digits is all of it. */
  lemma {:induction false} HexFromAt(s: JsString, k: nat)
    requires k <= |s|
    requires forall i | k <= i < |s| :: IsHexDigit(s[i])
    ensures HexFrom(s, k) == |s|
    decreases |s| - k
  {
    if k < |s| {
      HexFromAt(s, k + 1);
    }
  }

  /** Removing the leading `#` leaves the digits. */
  lemma StripHash(h: JsString)
    ensures ReplaceFirst([HASH] + h, [HASH], []) == h
  {
    var s := [HASH] + h;
    assert OccursAt(s, [HASH], 0);
    assert s[1..] == h;
  }

  /** The result is always `#` and six lowercase hex digits, which read as the packed channels. */
  lemma ResultShape(hex: JsString, percent: int)
    ensures var out := AdjustBrightness(hex, percent);
      && |out| == 1 + COLOR_DIGITS && out[0] == HASH && AllLowerHex(out[1..])
      && ParseHex(out[1..]) == Some(Pack(Adjusted(hex, percent, RED), Adjusted(hex, percent, GREEN), Adjusted(hex, percent, BLUE)))
  {
    var v := Pack(Adjusted(hex, percent, RED), Adjusted(hex, percent, GREEN), Adjusted(hex, percent, BLUE));
    ColorChannels(Adjusted(hex, percent, RED), Adjusted(hex, percent, GREEN), Adjusted(hex, percent, BLUE));
    SixDigits(v);
    var d := PadStart(ToString16(v), COLOR_DIGITS, ZERO);
    assert AdjustBrightness(hex, percent)[1..] == d;
    ParseAllHex(d);
  }

  /** Reading the result as a colour again gives exactly the three clamped channels. */
  lemma ResultChannels(hex: JsString, percent: int)
    ensures var num := ParseHex(ReplaceFirst(AdjustBrightness(hex, percent), [HASH], []));
      && Channel(num, RED) == Adjusted(hex, percent, RED)
      && Channel(num, GREEN) == Adjusted(hex, percent, GREEN)
      && Channel(num, BLUE) == Adjusted(hex, percent, BLUE)
  {
    var out := AdjustBrightness(hex, percent);
    ResultShape(hex, percent);
    assert out == [HASH] + out[1..];
    StripHash(out[1..]);
    ColorChannels(Adjusted(hex, percent, RED), Adjusted(hex, percent, GREEN), Adjusted(hex, percent, BLUE));
  }

  /** A lowercase `#rrggbb` colour comes back unchanged when percent is 0. */
  lemma ZeroPercentRoundTrip(h: JsString)
    requires |h| == COLOR_DIGITS && AllLowerHex(h)
    ensures AdjustBrightness([HASH] + h, 0) == [HASH] + h
  {
    var hex := [HASH] + h;
    StripHash(h);
    ParseAllHex(h);
    var v := HexValue(h);
    HexValueBound(h);
    SixteenToTheSix();
    ChannelsOfColor(v);
    var r, g, b := Channel(Some(v), RED), Channel(Some(v), GREEN), Channel(Some(v), BLUE);
    assert Adjusted(hex, 0, RED) == r && Adjusted(hex, 0, GREEN) == g && Adjusted(hex, 0, BLUE) == b;
    SixDigits(v);
    HexValueInjective(PadStart(ToString16(v), COLOR_DIGITS, ZERO), h);
  }

  /** The darker shade of the first category's colour, as the gradient uses it. */
  lemma FirstCategoryShade()
    ensures AdjustBrightness(Bmp("#0ea5e9"), -20) == Bmp("#0091d5")
  {
    var hex := Bmp("#0ea5e9");
    FirstCategoryChannels();
    var d := PadStart(ToString16(0x91d5), COLOR_DIGITS, ZERO);
    assert AdjustBrightness(hex, -20) == [HASH] + d;
    ShadeDigits();
  }

  /** The channels of `#0ea5e9` lowered by 20: red clamps at 0. */
  lemma FirstCategoryChannels()
    ensures Adjusted(Bmp("#0ea5e9"), -20, RED) == 0
    ensures Adjusted(Bmp("#0ea5e9"), -20, GREEN) == 0x91
    ensures Adjusted(Bmp("#0ea5e9"), -20, BLUE) == 0xd5
  {
    FirstCategoryParsed();
    assert Pack(0x0e, 0xa5, 0xe9) == 0x0ea5e9;
    ColorChannels(0x0e, 0xa5, 0xe9);
  }

  /** `parseInt('0ea5e9', 16)` */
  lemma FirstCategoryParsed()
    ensures ParseHex(ReplaceFirst(Bmp("#0ea5e9"), [HASH], [])) == Some(0x0ea5e9)
  {
    var digits: JsString := [0x30, 0x65, 0x61, 0x35, 0x65, 0x39];
    assert Bmp("#0ea5e9") == [HASH] + digits;
    StripHash(digits);
    ParseAllHex(digits);
    FirstCategoryValue(digits);
  }

  /** `0ea5e9` read digit by digit. */
  lemma FirstCategoryValue(d: JsString)
    requires d == [0x30, 0x65, 0x61, 0x35, 0x65, 0x39]
    ensures HexValue(d) == 0x0ea5e9
  {
    assert d[..0] == [];
    HexValuePrefix(d, 0);
    HexValuePrefix(d, 1);
    HexValuePrefix(d, 2);
    HexValuePrefix(d, 3);
    HexValuePrefix(d, 4);
    HexValuePrefix(d, 5);
    assert d[..6] == d;
  }

  /** One more digit multiplies the value read so far by 16 and adds the digit. */
  lemma HexValuePrefix(s: JsString, k: nat)
    requires k < |s| && forall i | 0 <= i < |s| :: IsHexDigit(s[i])
    ensures HexValue(s[..k + 1]) == 16 * HexValue(s[..k]) + HexDigitValue(s[k])
  {
    assert s[..k + 1][..k] == s[..k];
  }

  /** `0x0091d5` prints as `0091d5`. */
  lemma ShadeDigits()
    ensures [HASH] + PadStart(ToString16(0x91d5), COLOR_DIGITS, ZERO) == Bmp("#0091d5")
  {
    assert ToString16(9) == [0x39];
    assert ToString16(0x91) == [0x39, 0x31];
    assert ToString16(0x91d) == [0x39, 0x31, 0x64];
    assert ToString16(0x91d5) == [0x39, 0x31, 0x64, 0x35];
    assert PadStart([0x39, 0x31, 0x64, 0x35], COLOR_DIGITS, ZERO) == [0x30, 0x30, 0x39, 0x31, 0x64, 0x35];
  }
}
