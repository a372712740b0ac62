/**
 * The duplicate-image check of the front page: for the ten newest
 * published articles, the first article showing each image URL is
 * remembered, later articles with the same URL are reported as duplicates
 * of it, and the number of distinct images is summarised.
 */
module CheckDuplicates {
  import opened Js
  import opened Store
  import Config

  /** The key of an article without an image. */
  const NO_IMAGE: JsString := Bmp("なし")

  /** The number of articles the front page shows. */
  const FRONT_PAGE: nat := 10

  /** `record.fields.Thumbnail?.[0]?.url || 'なし'` */
  function ImageKey(rec: Record): (r: JsString)
    ensures r != []
    ensures IsTruthy(FirstFileUrl(rec.fields)) ==> r == FirstFileUrl(rec.fields).value
    ensures !IsTruthy(FirstFileUrl(rec.fields)) ==> r == NO_IMAGE
  {
    OrElse(FirstFileUrl(rec.fields), NO_IMAGE)
  }

  function ImageKeys(records: seq<Record>): (r: seq<JsString>)
    ensures |r| == |records|
    ensures forall i | 0 <= i < |records| :: r[i] == ImageKey(records[i])
  {
    seq(|records|, i requires 0 <= i < |records| => ImageKey(records[i]))
  }

  /** The position of the first occurrence of `k`. */
  function Position(keys: seq<JsString>, k: JsString): (r: nat)
    requires k in keys
    ensures r < |keys| && keys[r] == k
    ensures forall j | 0 <= j < r :: keys[j] != k
  {
    if keys[0] == k then 0 else 1 + Position(keys[1..], k)
  }

  /** The keys of the first `n` articles. */
  function Seen(keys: seq<JsString>, n: nat): set<JsString>
    requires n <= |keys|
  {
    set j | 0 <= j < n :: keys[j]
  }

  /**
   * What is reported for article `i`: the 1-based position of the first
   * article with the same image when that one comes earlier, else nothing.
   */
  function DuplicateOf(keys: seq<JsString>, i: nat): Option<nat>
    requires i < |keys|
  {
    var p := Position(keys, keys[i]);
    if p < i then Some(p + 1) else None
  }

  /** The report of each article, in order. */
  function Duplicates(keys: seq<JsString>): (r: seq<Option<nat>>)
    ensures |r| == |keys|
    ensures forall i | 0 <= i < |keys| :: r[i] == DuplicateOf(keys, i)
  {
    seq(|keys|, i requires 0 <= i < |keys| => DuplicateOf(keys, i))
  }

  /** The first occurrence of an article's key is at or before it, and before it exactly when the key was seen. */
  lemma PositionAt(keys: seq<JsString>, i: nat)
    requires i < |keys|
    ensures Position(keys, keys[i]) <= i
    ensures Position(keys, keys[i]) < i <==> keys[i] in Seen(keys, i)
    ensures Seen(keys, i + 1) == Seen(keys, i) + {keys[i]}
  {
    var p := Position(keys, keys[i]);
    if p < i {
      assert keys[p] in Seen(keys, i);
    }
  }

  /**
   * An article is reported exactly when an earlier article has the same
   * image, and then as a duplicate of the first of those.
   */
  lemma DuplicateIffSeenEarlier(keys: seq<JsString>, i: nat)
    requires i < |keys|
    ensures DuplicateOf(keys, i).Some? <==> exists j | 0 <= j < i :: keys[j] == keys[i]
    ensures DuplicateOf(keys, i).Some? ==>
      var j := DuplicateOf(keys, i).value - 1;
      && 0 <= j < i && keys[j] == keys[i]
      && forall l | 0 <= l < j :: keys[l] != keys[i]
  {
    PositionAt(keys, i);
  }

  /** The number of articles among the first `n` reported as duplicates. */
  function DuplicateCount(keys: seq<JsString>, n: nat): nat
    requires n <= |keys|
  {
    if n == 0 then 0 else DuplicateCount(keys, n - 1) + (if DuplicateOf(keys, n - 1).Some? then 1 else 0)
  }

  /**
   * Every article either brings a new image or is reported: the distinct
   * images and the duplicates add up to the number of articles, so there
   * are never more distinct images than articles.
   */
  lemma {:induction false} DistinctPlusDuplicates(keys: seq<JsString>, n: nat)
    requires n <= |keys|
    ensures |Seen(keys, n)| + DuplicateCount(keys, n) == n
    ensures |Seen(keys, n)| <= n
  {
    if n == 0 {
      assert Seen(keys, 0) == {};
    } else {
      DistinctPlusDuplicates(keys, n - 1);
      PositionAt(keys, n - 1);
      var before := Seen(keys, n - 1);
      if DuplicateOf(keys, n - 1).Some? {
        assert Seen(keys, n) == before;
      } else {
        assert keys[n - 1] !in before;
        assert |Seen(keys, n)| == |before| + 1;
      }
    }
  }

  /** No article is reported exactly when the count of duplicates is zero. */
  lemma {:induction false} NoDuplicateCount(keys: seq<JsString>, n: nat)
    requires n <= |keys|
    ensures DuplicateCount(keys, n) == 0 <==> forall i | 0 <= i < n :: DuplicateOf(keys, i).None?
  {
    if n > 0 {
      NoDuplicateCount(keys, n - 1);
    }
  }

  /** `reports` are the reports of the first `|reports|` articles. */
  predicate ReportedUpTo(keys: seq<JsString>, reports: seq<Option<nat>>) {
    |reports| <= |keys| && forall j | 0 <= j < |reports| :: reports[j] == DuplicateOf(keys, j)
  }

  /** One more article reported. */
  lemma ReportStep(keys: seq<JsString>, reports: seq<Option<nat>>)
    requires ReportedUpTo(keys, reports) && |reports| < |keys|
    ensures ReportedUpTo(keys, reports + [DuplicateOf(keys, |reports|)])
  {
  }

  /** `imageUrls` after the first `n` articles: each image seen, with the position of its first article. */
  predicate Remembered(imageUrls: map<JsString, nat>, keys: seq<JsString>, n: nat)
    requires n <= |keys|
  {
    && imageUrls.Keys == Seen(keys, n)
    && forall k | k in imageUrls :: k in keys && imageUrls[k] == Position(keys, k) + 1
  }

  /**
   * Article `i` is a duplicate of the remembered position when its image
   * was seen, and otherwise its position is remembered.
   */
  lemma RememberStep(imageUrls: map<JsString, nat>, keys: seq<JsString>, i: nat)
    requires i < |keys| && Remembered(imageUrls, keys, i)
    ensures keys[i] in imageUrls ==> Remembered(imageUrls, keys, i + 1) && DuplicateOf(keys, i) == Some(imageUrls[keys[i]])
    ensures keys[i] !in imageUrls ==> Remembered(imageUrls[keys[i] := i + 1], keys, i + 1) && DuplicateOf(keys, i) == None
  {
    PositionAt(keys, i);
  }

  /**
   * The `forEach` loop: `imageUrls` maps each image seen to the 1-based
   * position of its first article, and each article is reported as a
   * duplicate or not.
   */
  method Inspect(records: seq<Record>) returns (imageUrls: map<JsString, nat>, reports: seq<Option<nat>>, uniqueImages: nat)
    ensures var keys := ImageKeys(records);
      && imageUrls.Keys == Seen(keys, |keys|)
      && (forall k | k in imageUrls :: k in keys && imageUrls[k] == Position(keys, k) + 1)
      && reports == Duplicates(keys)
      && uniqueImages == |Seen(keys, |keys|)|
  {
    ghost var keys := ImageKeys(records);
    imageUrls, reports := map[], [];
    for i := 0 to |records|
      invariant Remembered(imageUrls, keys, i)
      invariant |reports| == i && ReportedUpTo(keys, reports)
    {
      var thumbnail := OrElse(FirstFileUrl(records[i].fields), NO_IMAGE);
      assert thumbnail == keys[i];
      RememberStep(imageUrls, keys, i);
      ReportStep(keys, reports);
      if thumbnail in imageUrls {
        reports := reports + [Some(imageUrls[thumbnail])];
      } else {
        imageUrls := imageUrls[thumbnail := i + 1];
        reports := reports + [None];
      }
    }
    uniqueImages := |imageUrls|;
  }

  datatype Summary = AllDistinct | Repeated(count: int)

  /** The summary as the script writes it, against the literal ten. */
  function SummaryAsWritten(uniqueImages: nat): Summary {
    if uniqueImages == FRONT_PAGE then AllDistinct else Repeated(FRONT_PAGE - uniqueImages)
  }

  /**
   * With fewer than ten published articles the literal ten is wrong: a
   * single article is reported as nobody's duplicate, yet the summary
   * counts nine duplicates.
   */
  lemma SummaryAsWrittenMiscounts(rec: Record)
    ensures var keys := ImageKeys([rec]);
      && DuplicateOf(keys, 0).None?
      && SummaryAsWritten(|Seen(keys, 1)|) == Repeated(9)
  {
    var keys := ImageKeys([rec]);
    assert Seen(keys, 1) == {keys[0]};
  }

  /** The summary against the number of articles actually fetched. */
  function SummaryOf(uniqueImages: nat, total: nat): Summary {
    if uniqueImages == total then AllDistinct else Repeated(total - uniqueImages)
  }

  /**
   * Against the number of articles fetched, all images are reported
   * distinct exactly when no article is reported as a duplicate, and
   * otherwise the count is the number of articles reported.
   */
  lemma SummaryCounts(keys: seq<JsString>)
    ensures var s := SummaryOf(|Seen(keys, |keys|)|, |keys|);
      && (s == AllDistinct <==> forall i | 0 <= i < |keys| :: DuplicateOf(keys, i).None?)
      && (s.Repeated? ==> s.count == DuplicateCount(keys, |keys|) > 0)
  {
    DistinctPlusDuplicates(keys, |keys|);
    NoDuplicateCount(keys, |keys|);
  }

  /**
   * On a full front page of ten articles the literal ten is right: the
   * summary as written says all distinct exactly when no article is
   * reported, and otherwise counts the articles reported.
   */
  lemma SummaryAsWrittenOnFullPage(keys: seq<JsString>)
    requires |keys| == FRONT_PAGE
    ensures var s := SummaryAsWritten(|Seen(keys, |keys|)|);
      && (s == AllDistinct <==> forall i | 0 <= i < |keys| :: DuplicateOf(keys, i).None?)
      && (s.Repeated? ==> s.count == DuplicateCount(keys, |keys|) > 0)
  {
    SummaryCounts(keys);
  }

  datatype Outcome = Exit(code: int) | Failed | Checked(reports: seq<Option<nat>>, uniqueImages: nat, summary: Summary)

  /**
   * The script.  `newest` is the answer of the query for the ten newest
   * published articles, `None` when it fails; a failure is only logged.
   * The summary compares the number of distinct images with the literal
   * ten, however many articles were fetched.
   */
  method Run(env: Config.Env, newest: Option<seq<Record>>) returns (outcome: Outcome)
    ensures !Config.ScriptCredentials(env) ==> outcome == Exit(1)
    ensures Config.ScriptCredentials(env) && newest.None? ==> outcome == Failed
    ensures Config.ScriptCredentials(env) && newest.Some? ==>
      var keys := ImageKeys(newest.value);
      outcome == Checked(Duplicates(keys), |Seen(keys, |keys|)|, SummaryAsWritten(|Seen(keys, |keys|)|))
  {
    if !Config.ScriptCredentials(env) {
      return Exit(1);
    }
    if newest.None? {
      return Failed;
    }
    var records := newest.value;
    var imageUrls, reports, uniqueImages := Inspect(records);
    outcome := Checked(reports, uniqueImages, SummaryAsWritten(uniqueImages));
  }
}
