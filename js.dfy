/**
 * The fragment of JavaScript string and number semantics that the site's
 * TypeScript and Node.js scripts rely on.  A JavaScript string is a sequence
 * of UTF-16 code units, so `.length`, `substring` and `includes` work on
 * code units, not on Unicode scalar values.
 */
module Js {

  datatype Option<+T> = None | Some(value: T)

  /** A UTF-16 code unit, the element of a JavaScript string. */
  type Unit = x: int | 0 <= x < 0x1_0000

  type JsString = seq<Unit>

  /** A `Math.random()` value. */
  type Random = r: real | 0.0 <= r < 1.0

  // ---------------------------------------------------------------------
  // Literals
  // ---------------------------------------------------------------------

  /** UTF-16 encoding of one Unicode scalar value. */
  function EncodeChar(c: char): (r: JsString)
    ensures 1 <= |r| <= 2
    ensures |r| == 1 <==> c as int < 0x1_0000
  {
    var v := c as int;
    if v < 0x1_0000 then [v]
    else
      var w := v - 0x1_0000;
      [0xD800 + w / 0x400, 0xDC00 + w % 0x400]
  }

  /** UTF-16 encoding of a Dafny string (used for literals holding emoji). */
  function Utf16(s: string): (r: JsString)
    ensures |r| >= |s|
  {
    if s == [] then [] else EncodeChar(s[0]) + Utf16(s[1..])
  }

  predicate IsBmp(s: string) {
    forall i | 0 <= i < |s| :: s[i] as int < 0x1_0000
  }

  /**
   * A literal made only of Basic Multilingual Plane characters (ASCII and
   * Japanese text), one code unit per character.  Characters outside the
   * plane would need `Utf16`; they become U+FFFD here.
   */
  function Bmp(s: string): (r: JsString)
    ensures |r| == |s|
  {
    seq(|s|, i requires 0 <= i < |s| => if s[i] as int < 0x1_0000 then s[i] as int else 0xFFFD)
  }

  /** On BMP text the cheap literal form is the exact UTF-16 encoding. */
  lemma {:induction false} BmpIsUtf16(s: string)
    requires IsBmp(s)
    ensures Bmp(s) == Utf16(s)
  {
    if s != [] {
      assert IsBmp(s[1..]) by {
        forall i | 0 <= i < |s[1..]| ensures s[1..][i] as int < 0x1_0000 {
          assert s[1..][i] == s[i + 1];
        }
      }
      BmpIsUtf16(s[1..]);
      assert Bmp(s) == [s[0] as int] + Bmp(s[1..]);
    }
  }

  // ---------------------------------------------------------------------
  // Truthiness of strings (`a || b`)
  // ---------------------------------------------------------------------

  /** `a || d` where `a` is a possibly undefined string: '' and undefined are falsy. */
  function OrElse(a: Option<JsString>, d: JsString): (r: JsString)
    ensures a.Some? && a.value != [] ==> r == a.value
    ensures !(a.Some? && a.value != []) ==> r == d
  {
    if a.Some? && a.value != [] then a.value else d
  }

  predicate IsTruthy(a: Option<JsString>) {
    a.Some? && a.value != []
  }

  // ---------------------------------------------------------------------
  // Searching
  // ---------------------------------------------------------------------

  predicate StartsWith(s: JsString, p: JsString) {
    |p| <= |s| && s[..|p|] == p
  }

  predicate OccursAt(s: JsString, sub: JsString, i: int) {
    0 <= i && i + |sub| <= |s| && s[i..i + |sub|] == sub
  }

  /** `s.includes(sub)` */
  predicate Includes(s: JsString, sub: JsString) {
    exists i | 0 <= i <= |s| :: OccursAt(s, sub, i)
  }

  function IndexOfFrom(s: JsString, pat: JsString, k: nat): (r: int)
    requires k <= |s|
    ensures r == -1 || (k <= r && OccursAt(s, pat, r))
    ensures r == -1 ==> forall j | k <= j <= |s| :: !OccursAt(s, pat, j)
    ensures r >= 0 ==> forall j | k <= j < r :: !OccursAt(s, pat, j)
    decreases |s| - k
  {
    if k + |pat| > |s| then -1
    else if s[k..k + |pat|] == pat then k
    else if k == |s| then -1
    else IndexOfFrom(s, pat, k + 1)
  }

  /** `s.indexOf(pat)`: the first occurrence, or -1. */
  function IndexOf(s: JsString, pat: JsString): (r: int)
    ensures r >= 0 <==> Includes(s, pat)
    ensures r >= 0 ==> OccursAt(s, pat, r) && forall j | 0 <= j < r :: !OccursAt(s, pat, j)
  {
    IndexOfFrom(s, pat, 0)
  }

  lemma IncludesConcat(a: JsString, b: JsString, c: JsString)
    ensures Includes(a + b + c, b)
  {
    assert (a + b + c)[|a|..|a| + |b|] == b;
    assert OccursAt(a + b + c, b, |a|);
  }

  lemma IncludesTransitive(a: JsString, b: JsString, c: JsString)
    requires Includes(a, b) && Includes(b, c)
    ensures Includes(a, c)
  {
    var i :| 0 <= i <= |a| && OccursAt(a, b, i);
    var j :| 0 <= j <= |b| && OccursAt(b, c, j);
    forall k | 0 <= k < |c| ensures a[i + j + k] == c[k] {
      assert c[k] == b[j..j + |c|][k] == b[j + k];
      assert b[j + k] == a[i..i + |b|][j + k] == a[i + j + k];
    }
    assert a[i + j..i + j + |c|] == c;
    assert OccursAt(a, c, i + j);
  }

  lemma IncludesWithin(x: JsString, a: JsString, y: JsString, b: JsString)
    requires Includes(a, b)
    ensures Includes(x + a + y, b)
  {
    IncludesConcat(x, a, y);
    IncludesTransitive(x + a + y, a, b);
  }

  /** Text around an occurrence keeps it. */
  lemma IncludesExtend(a: JsString, b: JsString, sub: JsString)
    requires Includes(a, sub)
    ensures Includes(a + b, sub) && Includes(b + a, sub)
  {
    var i :| 0 <= i <= |a| && OccursAt(a, sub, i);
    assert (a + b)[i..i + |sub|] == a[i..i + |sub|];
    assert OccursAt(a + b, sub, i);
    assert (b + a)[|b| + i..|b| + i + |sub|] == a[i..i + |sub|];
    assert OccursAt(b + a, sub, |b| + i);
  }

  lemma IncludesSelf(a: JsString)
    ensures Includes(a, a)
  {
    assert OccursAt(a, a, 0);
  }

  // ---------------------------------------------------------------------
  // Slicing and replacing
  // ---------------------------------------------------------------------

  function Min(a: int, b: int): int { if a <= b then a else b }

  function Max(a: int, b: int): int { if a <= b then b else a }

  function Clamp(x: int, lo: int, hi: int): (r: int)
    requires lo <= hi
    ensures lo <= r <= hi
    ensures lo <= x <= hi ==> r == x
  {
    if x < lo then lo else if x > hi then hi else x
  }

  /**
   * `s.substring(start, end)`: both bounds are clamped to [0, length] and
   * swapped when start exceeds end.
   */
  function Substring(s: JsString, start: int, end: int): (r: JsString)
    ensures |r| <= |s|
  {
    var a := Clamp(start, 0, |s|);
    var b := Clamp(end, 0, |s|);
    if a <= b then s[a..b] else s[b..a]
  }

  /** `s.substring(0, n)` is the prefix of length min(max(n, 0), length). */
  lemma PrefixSubstring(s: JsString, n: int)
    ensures Substring(s, 0, n) == s[..Clamp(n, 0, |s|)]
    ensures |Substring(s, 0, n)| == Clamp(n, 0, |s|)
    ensures n >= |s| ==> Substring(s, 0, n) == s
  {
  }

  /** `s.replace(pat, rep)` with a string pattern: only the first occurrence. */
  function ReplaceFirst(s: JsString, pat: JsString, rep: JsString): (r: JsString)
    ensures !Includes(s, pat) ==> r == s
    ensures Includes(s, pat) ==>
      var i := IndexOf(s, pat);
      r == s[..i] + rep + s[i + |pat|..]
  {
    var i := IndexOf(s, pat);
    if i < 0 then s else s[..i] + rep + s[i + |pat|..]
  }

  /** `s.replace(/pat/g, rep)`: every occurrence, left to right, without overlap. */
  function ReplaceAll(s: JsString, pat: JsString, rep: JsString): (r: JsString)
    requires pat != []
    decreases |s|
  {
    var i := IndexOf(s, pat);
    if i < 0 then s else s[..i] + rep + ReplaceAll(s[i + |pat|..], pat, rep)
  }

  /**
   * Both replacements agree up to the first occurrence; the global one then
   * keeps replacing in the rest, the single one leaves the rest untouched.
   */
  lemma ReplaceFirstAndAll(s: JsString, pat: JsString, rep: JsString)
    requires pat != []
    ensures !Includes(s, pat) ==> ReplaceAll(s, pat, rep) == s == ReplaceFirst(s, pat, rep)
    ensures Includes(s, pat) ==>
      var i := IndexOf(s, pat);
      && ReplaceFirst(s, pat, rep) == s[..i] + rep + s[i + |pat|..]
      && ReplaceAll(s, pat, rep) == s[..i] + rep + ReplaceAll(s[i + |pat|..], pat, rep)
      && Includes(ReplaceAll(s, pat, rep), rep)
      && Includes(ReplaceFirst(s, pat, rep), rep)
  {
    if Includes(s, pat) {
      var i := IndexOf(s, pat);
      IncludesConcat(s[..i], rep, ReplaceAll(s[i + |pat|..], pat, rep));
      IncludesConcat(s[..i], rep, s[i + |pat|..]);
    }
  }

  // ---------------------------------------------------------------------
  // Trimming
  // ---------------------------------------------------------------------

  /** The WhiteSpace and LineTerminator code points that `trim` removes. */
  predicate IsTrimmable(u: Unit) {
    || u == 0x09 || u == 0x0A || u == 0x0B || u == 0x0C || u == 0x0D
    || u == 0x20 || u == 0xA0 || u == 0x1680
    || (0x2000 <= u <= 0x200A)
    || u == 0x2028 || u == 0x2029 || u == 0x202F || u == 0x205F
    || u == 0x3000 || u == 0xFEFF
  }

  /** The first position at or after `k` that does not hold a blank, or the length. */
  function BlanksFrom(s: JsString, k: nat): (r: nat)
    requires k <= |s|
    ensures k <= r <= |s|
    decreases |s| - k
  {
    if k == |s| || !IsTrimmable(s[k]) then k else BlanksFrom(s, k + 1)
  }

  /** `BlanksFrom` skips blanks only, and stops at the first non-blank. */
  lemma {:induction false} BlanksFromStops(s: JsString, k: nat)
    requires k <= |s|
    ensures forall i | k <= i < BlanksFrom(s, k) :: IsTrimmable(s[i])
    ensures BlanksFrom(s, k) < |s| ==> !IsTrimmable(s[BlanksFrom(s, k)])
    decreases |s| - k
  {
    if k < |s| && IsTrimmable(s[k]) {
      BlanksFromStops(s, k + 1);
    }
  }

  /** The first position of the run of blanks that ends at `k`. */
  function BlanksBefore(s: JsString, k: nat): (r: nat)
    requires k <= |s|
    ensures r <= k
  {
    if k == 0 || !IsTrimmable(s[k - 1]) then k else BlanksBefore(s, k - 1)
  }

  /** `BlanksBefore` steps back over blanks only, and stops after a non-blank. */
  lemma {:induction false} BlanksBeforeStops(s: JsString, k: nat)
    requires k <= |s|
    ensures forall i | BlanksBefore(s, k) <= i < k :: IsTrimmable(s[i])
    ensures BlanksBefore(s, k) > 0 ==> !IsTrimmable(s[BlanksBefore(s, k) - 1])
  {
    if k > 0 && IsTrimmable(s[k - 1]) {
      BlanksBeforeStops(s, k - 1);
    }
  }

  /** `s.trimStart()` */
  function TrimStart(s: JsString): (r: JsString)
    ensures |r| <= |s|
  {
    s[BlanksFrom(s, 0)..]
  }

  /** `trimStart` drops exactly the leading blanks. */
  lemma TrimStartShape(s: JsString)
    ensures var r := TrimStart(s);
      && r == s[|s| - |r|..]
      && (forall i | 0 <= i < |s| - |r| :: IsTrimmable(s[i]))
      && (r == [] || !IsTrimmable(r[0]))
  {
    BlanksFromStops(s, 0);
  }

  /** `s.trimEnd()` */
  function TrimEnd(s: JsString): (r: JsString)
    ensures |r| <= |s|
  {
    s[..BlanksBefore(s, |s|)]
  }

  /** `trimEnd` drops exactly the trailing blanks. */
  lemma TrimEndShape(s: JsString)
    ensures var r := TrimEnd(s);
      && r == s[..|r|]
      && (forall i | |r| <= i < |s| :: IsTrimmable(s[i]))
      && (r == [] || !IsTrimmable(r[|r| - 1]))
  {
    BlanksBeforeStops(s, |s|);
  }

  /** Both shape lemmas for the two steps of `trim`. */
  lemma TrimSteps(s: JsString)
    ensures var t := TrimStart(s);
      && t == s[|s| - |t|..]
      && (forall i | 0 <= i < |s| - |t| :: IsTrimmable(s[i]))
      && (t == [] || !IsTrimmable(t[0]))
      && Trim(s) == t[..|Trim(s)|]
      && (forall i | |Trim(s)| <= i < |t| :: IsTrimmable(t[i]))
      && (Trim(s) == [] || !IsTrimmable(Trim(s)[|Trim(s)| - 1]))
  {
    TrimStartShape(s);
    TrimEndShape(TrimStart(s));
  }

  /** `s.trim()` */
  function Trim(s: JsString): (r: JsString)
    ensures |r| <= |s|
  {
    TrimEnd(TrimStart(s))
  }

  /**
   * `trim` cuts a run of blanks off each end and keeps the middle: the result
   * is a slice of the input whose ends are not blank, and trimming again
   * changes nothing.
   */
  lemma TrimShape(s: JsString)
    ensures exists a, b | 0 <= a <= b <= |s| :: Trim(s) == s[a..b]
    ensures Trim(s) == [] || (!IsTrimmable(Trim(s)[0]) && !IsTrimmable(Trim(s)[|Trim(s)| - 1]))
    ensures Trim(Trim(s)) == Trim(s)
  {
    TrimSteps(s);
    var t := TrimStart(s);
    var r := TrimEnd(t);
    var a := |s| - |t|;
    assert r == s[a..a + |r|];
    if r != [] {
      assert r[0] == t[0];
    }
  }

  /** The trimmed text has no blank at either end. */
  lemma TrimEnds(s: JsString)
    ensures Trim(s) == [] || (!IsTrimmable(Trim(s)[0]) && !IsTrimmable(Trim(s)[|Trim(s)| - 1]))
  {
    TrimSteps(s);
    var t := TrimStart(s);
    if Trim(s) != [] {
      assert Trim(s)[0] == t[0];
    }
  }

  /** A text with no blank at either end is its own trim. */
  lemma TrimUnchanged(s: JsString)
    requires s == [] || (!IsTrimmable(s[0]) && !IsTrimmable(s[|s| - 1]))
    ensures Trim(s) == s
  {
    assert TrimStart(s) == s;
  }

  /** The trimmed text starts where the leading blanks end. */
  lemma TrimSlice(s: JsString)
    ensures |s| - |TrimStart(s)| + |Trim(s)| <= |s|
    ensures Trim(s) == s[|s| - |TrimStart(s)|..|s| - |TrimStart(s)| + |Trim(s)|]
  {
    TrimSteps(s);
  }

  /** Trimming blanks around a text whose ends are not blank gives back that text. */
  lemma TrimAround(pre: JsString, t: JsString, post: JsString)
    requires t != [] && !IsTrimmable(t[0]) && !IsTrimmable(t[|t| - 1])
    requires forall i | 0 <= i < |pre| :: IsTrimmable(pre[i])
    requires forall i | 0 <= i < |post| :: IsTrimmable(post[i])
    ensures Trim(pre + t + post) == t
  {
    var s := pre + t + post;
    TrimSteps(s);
    var u := TrimStart(s);
    assert s[|pre|] == t[0];
    assert u == t + post;
    var r := TrimEnd(u);
    assert u[|t| - 1] == t[|t| - 1];
    assert r == t;
  }

  /** A piece between two others whose ends are not blank survives trimming. */
  lemma TrimKeepsMiddle(x: JsString, sub: JsString, y: JsString)
    requires sub != [] && !IsTrimmable(sub[0]) && !IsTrimmable(sub[|sub| - 1])
    ensures Includes(Trim(x + sub + y), sub)
  {
    assert (x + sub + y)[|x|..|x| + |sub|] == sub;
    TrimKeepsInner(x + sub + y, sub, |x|);
  }

  /** Trimming keeps every piece of the text whose first and last units are not blank. */
  lemma TrimKeepsInner(s: JsString, sub: JsString, p: int)
    requires OccursAt(s, sub, p) && sub != []
    requires !IsTrimmable(sub[0]) && !IsTrimmable(sub[|sub| - 1])
    ensures OccursAt(Trim(s), sub, p - (|s| - |TrimStart(s)|))
    ensures Includes(Trim(s), sub)
  {
    TrimSteps(s);
    var t := TrimStart(s);
    var a := |s| - |t|;
    var q := p - a;
    assert s[p..p + |sub|][0] == s[p];
    assert !IsTrimmable(s[p]);
    assert a <= p;
    assert t == s[a..];
    assert t[q..q + |sub|] == s[p..p + |sub|];
    var r := TrimEnd(t);
    assert t[q..q + |sub|][|sub| - 1] == t[q + |sub| - 1];
    assert !IsTrimmable(t[q + |sub| - 1]);
    assert q + |sub| <= |r|;
    assert r == t[..|r|];
    assert r[q..q + |sub|] == t[q..q + |sub|];
    assert OccursAt(r, sub, q);
  }

  // ---------------------------------------------------------------------
  // Joining, splitting, case
  // ---------------------------------------------------------------------

  /** `xs.join(sep)` */
  function Join(xs: seq<JsString>, sep: JsString): JsString
    decreases |xs|
  {
    if |xs| == 0 then [] else if |xs| == 1 then xs[0] else xs[0] + sep + Join(xs[1..], sep)
  }

  /** Every joined piece occurs in the joined text. */
  lemma {:induction false} JoinIncludesEach(xs: seq<JsString>, sep: JsString, k: int)
    requires 0 <= k < |xs|
    ensures Includes(Join(xs, sep), xs[k])
    decreases |xs|
  {
    if |xs| == 1 {
      IncludesSelf(xs[0]);
    } else if k == 0 {
      IncludesConcat([], xs[0], sep + Join(xs[1..], sep));
      assert [] + xs[0] + (sep + Join(xs[1..], sep)) == Join(xs, sep);
    } else {
      JoinIncludesEach(xs[1..], sep, k - 1);
      IncludesWithin(xs[0] + sep, Join(xs[1..], sep), [], xs[k]);
      assert xs[0] + sep + Join(xs[1..], sep) + [] == Join(xs, sep);
    }
  }

  function TotalLength(xs: seq<JsString>): nat
    decreases |xs|
  {
    if xs == [] then 0 else |xs[0]| + TotalLength(xs[1..])
  }

  lemma {:induction false} JoinLength(xs: seq<JsString>, sep: JsString)
    requires xs != []
    ensures |Join(xs, sep)| == TotalLength(xs) + (|xs| - 1) * |sep|
    decreases |xs|
  {
    if |xs| > 1 {
      JoinLength(xs[1..], sep);
    }
  }

  function ToLowerAsciiUnit(u: Unit): Unit {
    if 0x41 <= u <= 0x5A then u + 0x20 else u
  }

  /** `s.toLowerCase()` restricted to ASCII letters. */
  function ToLowerAscii(s: JsString): (r: JsString)
    ensures |r| == |s|
    ensures forall i | 0 <= i < |s| :: r[i] == ToLowerAsciiUnit(s[i])
  {
    seq(|s|, i requires 0 <= i < |s| => ToLowerAsciiUnit(s[i]))
  }

  predicate IsUpperAscii(u: Unit) {
    0x41 <= u <= 0x5A
  }

  /** A lower-cased text never contains an upper-case ASCII letter. */
  lemma LowerHasNoUpper(s: JsString, w: JsString)
    requires exists k | 0 <= k < |w| :: IsUpperAscii(w[k])
    ensures !Includes(ToLowerAscii(s), w)
  {
    var k :| 0 <= k < |w| && IsUpperAscii(w[k]);
    var l := ToLowerAscii(s);
    forall i | 0 <= i <= |l| ensures !OccursAt(l, w, i) {
      if i + |w| <= |l| {
        assert l[i..i + |w|][k] == l[i + k];
        assert l[i..i + |w|][k] != w[k];
      }
    }
  }

  // ---------------------------------------------------------------------
  // Numbers
  // ---------------------------------------------------------------------

  predicate IsDigit(u: Unit) {
    0x30 <= u <= 0x39
  }

  /** Decimal digits of a natural number, as `String(n)` prints it. */
  function NatToString(n: nat): (r: JsString)
    ensures |r| >= 1
    ensures forall i | 0 <= i < |r| :: IsDigit(r[i])
    decreases n
  {
    if n < 10 then [0x30 + n] else NatToString(n / 10) + [0x30 + n % 10]
  }

  /** `String(n)` / template interpolation of an integer. */
  function IntToString(n: int): JsString {
    if n < 0 then [0x2D] + NatToString(-n) else NatToString(n)
  }

  /** The value of a string of decimal digits. */
  function DigitsValue(s: JsString): int
    requires forall i | 0 <= i < |s| :: IsDigit(s[i])
    decreases |s|
  {
    if s == [] then 0 else 10 * DigitsValue(s[..|s| - 1]) + (s[|s| - 1] as int - 0x30)
  }

  /** Reading back the printed digits gives the number. */
  lemma {:induction false} DigitsRoundTrip(n: nat)
    ensures DigitsValue(NatToString(n)) == n
    decreases n
  {
    if n >= 10 {
      var s := NatToString(n);
      assert s[..|s| - 1] == NatToString(n / 10);
      DigitsRoundTrip(n / 10);
    }
  }

  /** The length of the run of decimal digits at the start of `s`. */
  function DigitsFrom(s: JsString, k: nat): (r: nat)
    requires k <= |s|
    ensures k <= r <= |s|
    ensures forall i | k <= i < r :: IsDigit(s[i])
    ensures r < |s| ==> !IsDigit(s[r])
    decreases |s| - k
  {
    if k == |s| || !IsDigit(s[k]) then k else DigitsFrom(s, k + 1)
  }

  /** The length of the run of decimal digits `s` starts with. */
  function DigitRun(s: JsString): (r: nat)
    ensures r <= |s|
    ensures forall i | 0 <= i < r :: IsDigit(s[i])
    ensures r < |s| ==> !IsDigit(s[r])
  {
    DigitsFrom(s, 0)
  }

  /**
   * `parseInt(s, 10)`: leading blanks are skipped, then an optional sign,
   * then the longest run of decimal digits is read; without a digit the
   * result is NaN, here `None`.
   */
  function ParseInt(s: JsString): Option<int> {
    var t := TrimStart(s);
    var signed := t != [] && (t[0] == 0x2D || t[0] == 0x2B);
    var body := if signed then t[1..] else t;
    var n := DigitRun(body);
    if n == 0 then None
    else if signed && t[0] == 0x2D then Some(-DigitsValue(body[..n]))
    else Some(DigitsValue(body[..n]))
  }

  /** `parseInt(String(n), 10) == n`. */
  lemma ParseIntOfString(n: int)
    ensures ParseInt(IntToString(n)) == Some(n)
  {
    assert IntToString(n) + [] == IntToString(n);
    ParseIntOfStringThen(n, []);
  }

  /** `parseInt` reads a printed integer back even with text after it that does not start with a digit. */
  lemma ParseIntOfStringThen(n: int, rest: JsString)
    requires rest == [] || !IsDigit(rest[0])
    ensures ParseInt(IntToString(n) + rest) == Some(n)
  {
    var m: nat := if n < 0 then -n else n;
    var body := NatToString(m) + rest;
    PrintedDigitRun(m, rest);
    if n < 0 {
      assert IntToString(n) + rest == [0x2D] + body;
      ParseNegative(body);
    } else {
      assert IntToString(n) + rest == body;
      ParseNonNegative(body);
    }
  }

  /** The digit run of a printed number followed by a non-digit is that number. */
  lemma PrintedDigitRun(m: nat, rest: JsString)
    requires rest == [] || !IsDigit(rest[0])
    ensures DigitRun(NatToString(m) + rest) == |NatToString(m)|
    ensures DigitsValue((NatToString(m) + rest)[..|NatToString(m)|]) == m
  {
    var digits := NatToString(m);
    var body := digits + rest;
    DigitsFromAt(body, 0, |digits|);
    assert body[..|digits|] == digits;
    DigitsRoundTrip(m);
  }

  /** A minus sign followed by digits. */
  lemma ParseNegative(body: JsString)
    requires DigitRun(body) > 0
    ensures ParseInt([0x2D] + body) == Some(-DigitsValue(body[..DigitRun(body)]))
  {
    var s := [0x2D] + body;
    TrimStartKeeps(s);
    assert s[1..] == body;
  }

  /** Text that starts with a digit. */
  lemma ParseNonNegative(s: JsString)
    requires DigitRun(s) > 0
    ensures ParseInt(s) == Some(DigitsValue(s[..DigitRun(s)]))
  {
    TrimStartKeeps(s);
  }

  /** `trimStart` keeps a text that starts with a non-blank. */
  lemma TrimStartKeeps(s: JsString)
    requires s != [] && (s[0] == 0x2D || IsDigit(s[0]))
    ensures TrimStart(s) == s
  {
  }

  /** The digit run from `k` ends at the first non-digit. */
  lemma {:induction false} DigitsFromAt(s: JsString, k: nat, e: nat)
    requires k <= e <= |s|
    requires forall i | k <= i < e :: IsDigit(s[i])
    requires e == |s| || !IsDigit(s[e])
    ensures DigitsFrom(s, k) == e
    decreases e - k
  {
    if k < e {
      DigitsFromAt(s, k + 1, e);
    }
  }

  const TWO_32: int := 0x1_0000_0000

  /** ECMAScript ToInt32 (section 7.1.6 of ECMA-262) on an integral number. */
  function ToInt32(x: int): (r: int)
    ensures -0x8000_0000 <= r < 0x8000_0000
    ensures (x - r) % TWO_32 == 0
  {
    var m := x % TWO_32;
    if m >= 0x8000_0000 then m - TWO_32 else m
  }

  /** ToInt32 is the unique signed 32-bit value congruent to its input. */
  lemma ToInt32Unique(x: int, y: int)
    requires -0x8000_0000 <= y < 0x8000_0000
    requires (x - y) % TWO_32 == 0
    ensures ToInt32(x) == y
  {
    var r := ToInt32(x);
    var k1 := (x - r) / TWO_32;
    var k2 := (x - y) / TWO_32;
    assert x - r == k1 * TWO_32;
    assert x - y == k2 * TWO_32;
    assert y - r == (k1 - k2) * TWO_32;
  }

  /** Congruent inputs have the same ToInt32. */
  lemma ToInt32Congruent(x: int, y: int)
    requires (x - y) % TWO_32 == 0
    ensures ToInt32(x) == ToInt32(y)
  {
    var r := ToInt32(y);
    var k1 := (x - y) / TWO_32;
    var k2 := (y - r) / TWO_32;
    assert x - y == k1 * TWO_32;
    assert y - r == k2 * TWO_32;
    assert x - r == (k1 + k2) * TWO_32;
    ToInt32Unique(x, r);
  }

  function Abs(x: int): nat {
    if x < 0 then -x else x
  }
}
