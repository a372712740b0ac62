/**
 * The excerpt the AI article generators store next to an article:
 * `content.replace(/^#.*\n/gm, '').replace(/\n/g, ' ').substring(0, 200).trim()`.
 * Heading lines are dropped with their newline, the remaining newlines
 * become spaces, the text is cut to 200 code units and trimmed.
 */
module Excerpt {
  import opened Js

  const NEWLINE: Unit := 0x0A
  const SPACE: Unit := 0x20
  const HASH: Unit := 0x23
  const EXCERPT_LENGTH: int := 200

  /** The code points `.` does not match and after which `^` matches in multiline mode. */
  predicate IsLineTerminator(u: Unit) {
    u == 0x0A || u == 0x0D || u == 0x2028 || u == 0x2029
  }

  /** Whether `^` matches at position `p` under the `m` flag. */
  predicate AtLineStart(s: JsString, p: int)
    requires 0 <= p <= |s|
  {
    p == 0 || IsLineTerminator(s[p - 1])
  }

  /** The first position at or after `k` holding a line terminator, or the length. */
  function LineEnd(s: JsString, k: int): (r: int)
    requires 0 <= k <= |s|
    ensures k <= r <= |s|
    ensures forall j | k <= j < r :: !IsLineTerminator(s[j])
    ensures r < |s| ==> IsLineTerminator(s[r])
    decreases |s| - k
  {
    if k == |s| || IsLineTerminator(s[k]) then k else LineEnd(s, k + 1)
  }

  /**
   * Whether `/^#.*\n/` matches at `p`.  `.*` cannot cross a line
   * terminator, so the match, when there is one, ends just after the first
   * terminator of the line, and that terminator must be `\n`.
   */
  predicate HeadingAt(s: JsString, p: int)
    requires 0 <= p <= |s|
  {
    && p < |s| && AtLineStart(s, p) && s[p] == HASH
    && LineEnd(s, p + 1) < |s| && s[LineEnd(s, p + 1)] == NEWLINE
  }

  /** The global replacement scanning from `p` on. */
  function StripHeadingsFrom(s: JsString, p: int): (r: JsString)
    requires 0 <= p <= |s|
    ensures |r| <= |s| - p
    decreases |s| - p
  {
    if p == |s| then []
    else if HeadingAt(s, p) then StripHeadingsFrom(s, LineEnd(s, p + 1) + 1)
    else [s[p]] + StripHeadingsFrom(s, p + 1)
  }

  /** `content.replace(/^#.*\n/gm, '')` */
  function StripHeadings(s: JsString): (r: JsString)
    ensures |r| <= |s|
  {
    StripHeadingsFrom(s, 0)
  }

  /** `s.replace(/\n/g, ' ')` */
  function SpacesForNewlines(s: JsString): (r: JsString)
    ensures |r| == |s|
    ensures forall i | 0 <= i < |s| :: r[i] == (if s[i] == NEWLINE then SPACE else s[i])
  {
    seq(|s|, i requires 0 <= i < |s| => if s[i] == NEWLINE then SPACE else s[i])
  }

  /** The content with headings dropped and newlines turned into spaces. */
  function Flatten(content: JsString): (r: JsString)
    ensures |r| <= |content|
  {
    SpacesForNewlines(StripHeadings(content))
  }

  /** The flattened content is on one line. */
  lemma FlattenIsOneLine(content: JsString)
    ensures forall i | 0 <= i < |Flatten(content)| :: Flatten(content)[i] != NEWLINE
  {
  }

  /** `substring(0, 200)`: the first 200 code units, or all of a shorter text. */
  function Cut(flat: JsString): (r: JsString)
    ensures |r| <= EXCERPT_LENGTH && |r| <= |flat| && r == flat[..|r|]
    ensures |flat| <= EXCERPT_LENGTH ==> r == flat
  {
    PrefixSubstring(flat, EXCERPT_LENGTH);
    Substring(flat, 0, EXCERPT_LENGTH)
  }

  /** The stored excerpt: at most 200 code units. */
  function Derive(content: JsString): (r: JsString)
    ensures |r| <= EXCERPT_LENGTH
  {
    Trim(Cut(Flatten(content)))
  }

  /** The excerpt is on one line and has no blank at either end. */
  lemma DeriveShape(content: JsString)
    ensures forall i | 0 <= i < |Derive(content)| :: Derive(content)[i] != NEWLINE
    ensures Derive(content) == [] || (!IsTrimmable(Derive(content)[0]) && !IsTrimmable(Derive(content)[|Derive(content)| - 1]))
  {
    var flat := Flatten(content);
    FlattenIsOneLine(content);
    var cut := Cut(flat);
    assert forall i | 0 <= i < |cut| :: cut[i] == flat[i];
    TrimEnds(cut);
    TrimKeepsSingleLine(cut);
  }

  /** Trimming a text on one line leaves it on one line. */
  lemma TrimKeepsSingleLine(s: JsString)
    requires forall i | 0 <= i < |s| :: s[i] != NEWLINE
    ensures forall i | 0 <= i < |Trim(s)| :: Trim(s)[i] != NEWLINE
  {
    TrimSlice(s);
    var a := |s| - |TrimStart(s)|;
    forall i | 0 <= i < |Trim(s)| ensures Trim(s)[i] != NEWLINE {
      assert Trim(s)[i] == s[a + i];
    }
  }

  /** Text without `#` has no heading to drop. */
  lemma {:induction false} NoHashNoHeadings(s: JsString, p: int)
    requires 0 <= p <= |s|
    requires forall i | 0 <= i < |s| :: s[i] != HASH
    ensures StripHeadingsFrom(s, p) == s[p..]
    decreases |s| - p
  {
    if p < |s| {
      NoHashNoHeadings(s, p + 1);
      assert s[p..] == [s[p]] + s[p + 1..];
    }
  }

  /**
   * A short text without `#` or newlines and with no blank at its ends is
   * its own excerpt.
   */
  lemma PlainShortTextIsItsOwnExcerpt(s: JsString)
    requires |s| <= EXCERPT_LENGTH
    requires forall i | 0 <= i < |s| :: s[i] != HASH && s[i] != NEWLINE
    requires s == [] || (!IsTrimmable(s[0]) && !IsTrimmable(s[|s| - 1]))
    ensures Derive(s) == s
  {
    NoHashNoHeadings(s, 0);
    assert StripHeadings(s) == s;
    var f := SpacesForNewlines(s);
    assert forall i | 0 <= i < |s| :: f[i] == s[i];
    assert Flatten(s) == s;
    assert Cut(s) == s;
    TrimUnchanged(s);
  }

  /**
   * A heading line at the start of the content is dropped together with its
   * newline; what follows is scanned as usual.
   */
  lemma LeadingHeadingDropped(heading: JsString, rest: JsString)
    requires forall i | 0 <= i < |heading| :: !IsLineTerminator(heading[i])
    ensures StripHeadings([HASH] + heading + [NEWLINE] + rest)
      == StripHeadingsFrom([HASH] + heading + [NEWLINE] + rest, |heading| + 2)
  {
    var s := [HASH] + heading + [NEWLINE] + rest;
    assert forall j | 1 <= j < |heading| + 1 :: s[j] == heading[j - 1];
    LineEndAt(s, 1, |heading| + 1);
  }

  /** `LineEnd` stops at the first line terminator. */
  lemma LineEndAt(s: JsString, k: int, e: int)
    requires 0 <= k <= e < |s|
    requires forall j | k <= j < e :: !IsLineTerminator(s[j])
    requires IsLineTerminator(s[e])
    ensures LineEnd(s, k) == e
  {
  }
}
