/**
 * The search for articles to improve: for each search query that drew
 * impressions but no clicks, the published articles whose text contains
 * one of the query's words, of which the first three are shown.
 */
module FindLowCtrArticles {
  import opened Js
  import opened Store

  const SPACE: Unit := 0x20

  /** A search query with the figures the search console reported for it. */
  datatype Target = Target(query: JsString, impressions: nat, clicks: nat)

  const TARGET_KEYWORDS: seq<Target> := [
    Target(Bmp("オッズが上がるとは"), 11, 0),
    Target(Bmp("競馬 馬券 購入"), 11, 0),
    Target(Bmp("オッズ 見方"), 9, 0)
  ]

  /** At most this many matching articles are shown per query. */
  const SHOWN: nat := 3

  /** The position of the first `c` in `s`, or `|s|`. */
  function FirstUnit(s: JsString, c: Unit): (r: nat)
    ensures r <= |s|
    ensures r < |s| ==> s[r] == c
    ensures forall i | 0 <= i < r :: s[i] != c
    decreases |s|
  {
    if s == [] then 0 else if s[0] == c then 0 else 1 + FirstUnit(s[1..], c)
  }

  /** `s.split(c)` for a one-unit separator. */
  function Split(s: JsString, c: Unit): (r: seq<JsString>)
    ensures |r| >= 1
    ensures forall i | 0 <= i < |r| :: c !in r[i]
    decreases |s|
  {
    var k := FirstUnit(s, c);
    if k == |s| then [s] else [s[..k]] + Split(s[k + 1..], c)
  }

  /** Joining the pieces with the separator gives the text back. */
  lemma {:induction false} SplitJoin(s: JsString, c: Unit)
    ensures Join(Split(s, c), [c]) == s
    decreases |s|
  {
    var k := FirstUnit(s, c);
    if k < |s| {
      var rest := Split(s[k + 1..], c);
      SplitJoin(s[k + 1..], c);
      assert Split(s, c) == [s[..k]] + rest;
      assert ([s[..k]] + rest)[1..] == rest;
      assert s == s[..k] + [c] + s[k + 1..];
    }
  }

  /** `` `${title} ${content} ${excerpt}`.toLowerCase() `` with missing fields read as `''`. */
  function SearchText(f: Fields): JsString {
    ToLowerAscii(TextOr(f, Title, []) + [SPACE] + TextOr(f, Content, []) + [SPACE] + TextOr(f, Excerpt, []))
  }

  /** `keywords.some(kw => searchText.includes(kw))` */
  function AnyIncluded(text: JsString, words: seq<JsString>): (r: bool)
    ensures r <==> exists i | 0 <= i < |words| :: Includes(text, words[i])
    decreases |words|
  {
    if words == [] then false
    else Includes(text, words[0]) || AnyIncluded(text, words[1..])
  }

  /** The filter of one query: some space-separated word of the query occurs in the text. */
  predicate Matches(rec: Record, query: JsString) {
    AnyIncluded(SearchText(rec.fields), Split(query, SPACE))
  }

  /**
   * An empty word (two spaces in a row, or a space at either end) occurs
   * in every text, so such a query matches every article.
   */
  lemma EmptyWordMatchesAll(rec: Record, query: JsString)
    requires [] in Split(query, SPACE)
    ensures Matches(rec, query)
  {
    var words := Split(query, SPACE);
    var i :| 0 <= i < |words| && words[i] == [];
    assert OccursAt(SearchText(rec.fields), words[i], 0);
  }

  /**
   * Only the text is lower-cased: a query word with an upper-case ASCII
   * letter never occurs in it.
   */
  lemma UpperCaseWordNeverMatches(f: Fields, w: JsString)
    requires exists k | 0 <= k < |w| :: IsUpperAscii(w[k])
    ensures !Includes(SearchText(f), w)
  {
    LowerHasNoUpper(TextOr(f, Title, []) + [SPACE] + TextOr(f, Content, []) + [SPACE] + TextOr(f, Excerpt, []), w);
  }

  /** A missing title, content or excerpt reads as the empty text. */
  lemma MissingFieldsAreEmpty(f: Fields)
    requires Title !in f && Content !in f && Excerpt !in f
    ensures SearchText(f) == [SPACE, SPACE]
  {
  }

  /** `records.filter(...)`: the matching articles, in the query's order. */
  function Matching(records: seq<Record>, query: JsString): (r: seq<Record>)
    ensures |r| <= |records|
    ensures forall x | x in r :: x in records && Matches(x, query)
    ensures forall x | x in records && Matches(x, query) :: x in r
  {
    if records == [] then []
    else (if Matches(records[0], query) then [records[0]] else []) + Matching(records[1..], query)
  }

  /** What is printed for one query. */
  datatype Finding = NoMatch(query: JsString) | Found(query: JsString, count: nat, shown: seq<Record>)

  /** The report for one query: `該当記事なし`, or the count and the first three matches. */
  function FindingFor(records: seq<Record>, t: Target): Finding {
    var matching := Matching(records, t.query);
    if |matching| == 0 then NoMatch(t.query)
    else Found(t.query, |matching|, matching[..Min(SHOWN, |matching|)])
  }

  /**
   * No match is reported exactly when no article matches; otherwise the
   * count is the number of matches and the first three of them, in the
   * query's order, are shown.
   */
  lemma FindingShape(records: seq<Record>, t: Target)
    ensures FindingFor(records, t).NoMatch? <==> forall x | x in records :: !Matches(x, t.query)
    ensures FindingFor(records, t).Found? ==>
      && FindingFor(records, t).count == |Matching(records, t.query)|
      && |FindingFor(records, t).shown| == Min(SHOWN, |Matching(records, t.query)|)
      && FindingFor(records, t).shown == Matching(records, t.query)[..|FindingFor(records, t).shown|]
      && forall x | x in FindingFor(records, t).shown :: x in records && Matches(x, t.query)
  {
    var m := Matching(records, t.query);
    if m != [] {
      assert m[0] in m;
    }
  }

  /** `findArticles()`: one finding per target query, in order. */
  function FindArticles(records: seq<Record>, targets: seq<Target>): (r: seq<Finding>)
    ensures |r| == |targets|
    ensures forall i | 0 <= i < |targets| :: r[i] == FindingFor(records, targets[i])
  {
    seq(|targets|, i requires 0 <= i < |targets| => FindingFor(records, targets[i]))
  }
}
