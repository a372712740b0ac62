/**
 * What the X and Bluesky posting scripts share: the article URL, the
 * category emoji, the hashtags, the post template, and the loop that posts
 * each unposted article and records the post on its record.
 */
module Social {
  import opened Js
  import opened Store

  const DEFAULT_SITE_URL: JsString := Bmp("https://keiba-nyumon.jp")

  /** `process.env.SITE_URL || 'https://keiba-nyumon.jp'` */
  function SiteUrl(env: Option<JsString>): (r: JsString)
    ensures r != []
    ensures IsTruthy(env) ==> r == env.value
  {
    OrElse(env, DEFAULT_SITE_URL)
  }

  /** An unposted article as the query maps it; each field may be absent. */
  datatype Item = Item(
    id: JsString,
    title: Option<JsString>,
    slug: Option<JsString>,
    category: Option<JsString>,
    tags: Option<seq<JsString>>,
    thumbnailUrl: Option<JsString>)

  /** `encodeURIComponent`, left uninterpreted. */
  type Encoder = JsString -> JsString

  const PERCENT: JsString := Bmp("%")

  /** A slug that already holds a `%` is taken as encoded and used as is. */
  function EncodedSlug(slug: JsString, encode: Encoder): (r: JsString)
    ensures Includes(slug, PERCENT) ==> r == slug
    ensures !Includes(slug, PERCENT) ==> r == encode(slug)
  {
    if Includes(slug, PERCENT) then slug else encode(slug)
  }

  /** The article's page: `SITE_URL/news/<slug>/`. */
  function ArticleUrl(site: JsString, slug: JsString, encode: Encoder): JsString {
    site + Bmp("/news/") + EncodedSlug(slug, encode) + Bmp("/")
  }

  const HORSE: JsString := Utf16("🐴")

  /** The category's emoji, a horse for any other category; always two code units. */
  function Emoji(category: Option<JsString>): (r: JsString)
    ensures |r| == 2
  {
    if category == Some(Bmp("kiso")) then Utf16("📚")
    else if category == Some(Bmp("baken")) then Utf16("🎫")
    else if category == Some(Bmp("yougo")) then Utf16("📖")
    else if category == Some(Bmp("nankan")) then Utf16("🏇")
    else if category == Some(Bmp("data")) then Utf16("📊")
    else HORSE
  }

  /** An absent or unknown category gets the horse. */
  lemma UnknownCategoryHorse(category: Option<JsString>)
    requires category.None? || category.value !in {Bmp("kiso"), Bmp("baken"), Bmp("yougo"), Bmp("nankan"), Bmp("data")}
    ensures Emoji(category) == HORSE
  {
  }

  const BASE_TAGS: seq<JsString> := [Bmp("#競馬初心者"), Bmp("#競馬入門")]

  /** The two fixed hashtags, then `#` and the first tag when there is one. */
  function Hashtags(tags: Option<seq<JsString>>): (r: seq<JsString>)
    ensures 2 <= |r| <= 3 && r[..2] == BASE_TAGS
    ensures |r| == 3 <==> tags.Some? && |tags.value| > 0
    ensures |r| == 3 ==> r[2] == Bmp("#") + tags.value[0]
  {
    if tags.Some? && |tags.value| > 0 then BASE_TAGS + [Bmp("#") + tags.value[0]] else BASE_TAGS
  }

  /** The joined hashtags are 12 code units, plus two and the tag's length. */
  lemma HashtagsLength(tags: Option<seq<JsString>>)
    ensures |Join(Hashtags(tags), Bmp(" "))| ==
      if tags.Some? && |tags.value| > 0 then 14 + |tags.value[0]| else 12
  {
    var h := Hashtags(tags);
    JoinLength(h, Bmp(" "));
    assert TotalLength(h) == |h[0]| + TotalLength(h[1..]);
    assert TotalLength(h[1..]) == |h[1]| + TotalLength(h[2..]);
    if |h| == 3 {
      assert TotalLength(h[2..]) == |h[2]| + TotalLength(h[3..]);
      assert h[3..] == [];
    } else {
      assert h[2..] == [];
    }
  }

  const DETAILS: JsString := Utf16("👉 詳細はこちら")

  /** `👉 詳細はこちら` is nine code units: a surrogate pair, a space and six more. */
  lemma DetailsLength()
    ensures |DETAILS| == 9
  {
    assert |EncodeChar('👉')| == 2;
    assert Utf16(" 詳細はこちら") == Bmp(" 詳細はこちら") by {
      BmpIsUtf16(" 詳細はこちら");
    }
  }

  /** The post: `emoji title`, a blank line, the link line and URL, a blank line, the hashtags. */
  function PostText(emoji: JsString, title: JsString, url: JsString, hashtags: seq<JsString>): JsString {
    Headline(emoji, title) + Footer(url, hashtags)
  }

  function Headline(emoji: JsString, title: JsString): JsString {
    emoji + Bmp(" ") + title
  }

  function Footer(url: JsString, hashtags: seq<JsString>): JsString {
    Bmp("\n\n") + DETAILS + Bmp("\n") + url + Bmp("\n\n") + Join(hashtags, Bmp(" "))
  }

  /** The template adds 15 code units around its four parts. */
  lemma PostTextLength(emoji: JsString, title: JsString, url: JsString, hashtags: seq<JsString>)
    ensures |PostText(emoji, title, url, hashtags)| == |emoji| + |title| + |url| + |Join(hashtags, Bmp(" "))| + 15
  {
    DetailsLength();
  }

  // ---------------------------------------------------------------------
  // The posting loop
  // ---------------------------------------------------------------------

  /** What the loop does, in order: a post, a failed attempt, or a pause. */
  datatype Step = Posted(index: int, text: JsString, postId: JsString) | Failed(index: int) | Paused(ms: int)

  /**
   * What the world does for one article: the post's id the service returns
   * (`None` when posting threw), whether the record update reaches the
   * store, and the clock when it is made.
   */
  datatype Outcome = Outcome(result: Option<JsString>, reached: bool, at: int)

  /** One article as the loop sees it: its record id, its post text (`None` when building it throws) and what happened. */
  datatype Attempt = Attempt(id: JsString, text: Option<JsString>, outcome: Outcome)

  predicate Succeeded(a: Attempt) {
    a.text.Some? && a.outcome.result.Some?
  }

  /**
   * The steps for article `i` of `n`: the post and, unless it is the last
   * article, the pause; or the failure, which skips the pause.
   */
  function StepsAt(i: int, n: int, a: Attempt, pauseMs: int): seq<Step> {
    if Succeeded(a) then
      [Posted(i, a.text.value, a.outcome.result.value)] + (if i < n - 1 then [Paused(pauseMs)] else [])
    else [Failed(i)]
  }

  /** The steps for the first `k` articles. */
  function Log(attempts: seq<Attempt>, pauseMs: int, k: int): seq<Step>
    requires 0 <= k <= |attempts|
    decreases k
  {
    if k == 0 then [] else Log(attempts, pauseMs, k - 1) + StepsAt(k - 1, |attempts|, attempts[k - 1], pauseMs)
  }

  /** The article indices the steps attempt, in order. */
  function Attempted(log: seq<Step>): seq<int>
    decreases |log|
  {
    if log == [] then []
    else Attempted(log[..|log| - 1]) + (if log[|log| - 1].Paused? then [] else [log[|log| - 1].index])
  }

  lemma AttemptedAppend(a: seq<Step>, b: seq<Step>)
    ensures Attempted(a + b) == Attempted(a) + Attempted(b)
    decreases |b|
  {
    if b == [] {
      assert a + b == a;
    } else {
      var ab := a + b;
      assert ab[..|ab| - 1] == a + b[..|b| - 1];
      assert ab[|ab| - 1] == b[|b| - 1];
      AttemptedAppend(a, b[..|b| - 1]);
    }
  }

  /** The steps for one article attempt that article once. */
  lemma AttemptedAt(i: int, n: int, a: Attempt, pauseMs: int)
    ensures Attempted(StepsAt(i, n, a, pauseMs)) == [i]
  {
    var steps := StepsAt(i, n, a, pauseMs);
    assert Attempted(steps[..1]) == [i] by {
      assert steps[..1][..0] == [];
    }
    if |steps| == 2 {
      assert steps[..|steps| - 1] == steps[..1];
    }
  }

  /** The indices `0, 1, ..., k - 1`. */
  function Upto(k: nat): (r: seq<int>)
    ensures |r| == k && forall i | 0 <= i < k :: r[i] == i
  {
    if k == 0 then [] else Upto(k - 1) + [k - 1]
  }

  /**
   * Every article is attempted exactly once and in order, whatever failed
   * before it.
   */
  lemma {:induction false} EachArticleOnce(attempts: seq<Attempt>, pauseMs: int, k: int)
    requires 0 <= k <= |attempts|
    ensures Attempted(Log(attempts, pauseMs, k)) == Upto(k)
  {
    if k > 0 {
      EachArticleOnce(attempts, pauseMs, k - 1);
      var prev := Log(attempts, pauseMs, k - 1);
      var steps := StepsAt(k - 1, |attempts|, attempts[k - 1], pauseMs);
      assert Log(attempts, pauseMs, k) == prev + steps;
      AttemptedAt(k - 1, |attempts|, attempts[k - 1], pauseMs);
      AttemptedAppend(prev, steps);
    }
  }

  /** The loop never ends on a pause. */
  lemma NoTrailingPause(attempts: seq<Attempt>, pauseMs: int)
    requires 0 < |attempts|
    ensures var log := Log(attempts, pauseMs, |attempts|);
      |log| > 0 && !log[|log| - 1].Paused?
  {
  }

  /** Each pause lasts `pauseMs` and follows a post of an article other than the last of `n`. */
  predicate PausesFollowPosts(log: seq<Step>, n: int, pauseMs: int) {
    forall j | 0 <= j < |log| && log[j].Paused? ::
      j > 0 && log[j - 1].Posted? && log[j - 1].index < n - 1 && log[j].ms == pauseMs
  }

  /** A pause follows only a post that is not the last article's. */
  lemma {:induction false} PauseOnlyBetweenPosts(attempts: seq<Attempt>, pauseMs: int, k: int)
    requires 0 <= k <= |attempts|
    ensures PausesFollowPosts(Log(attempts, pauseMs, k), |attempts|, pauseMs)
  {
    if k > 0 {
      PauseOnlyBetweenPosts(attempts, pauseMs, k - 1);
      var prev := Log(attempts, pauseMs, k - 1);
      var steps := StepsAt(k - 1, |attempts|, attempts[k - 1], pauseMs);
      var log := prev + steps;
      assert log == Log(attempts, pauseMs, k);
      forall j | 0 <= j < |log| && log[j].Paused?
        ensures j > 0 && log[j - 1].Posted? && log[j - 1].index < |attempts| - 1 && log[j].ms == pauseMs
      {
        if j < |prev| {
          assert log[j] == prev[j];
          assert PausesFollowPosts(prev, |attempts|, pauseMs);
          assert log[j - 1] == prev[j - 1];
        } else {
          assert log[j] == steps[j - |prev|];
          assert j - |prev| == 1;
          assert log[j - 1] == steps[0];
        }
      }
    }
  }

  /** The two fields a recorded post sets: the post's id and when it was recorded. */
  function RecordPatch(idField: FieldName, atField: FieldName, postId: JsString, at: int): Fields {
    map[idField := Text(postId), atField := Timestamp(at)]
  }

  /** The record update for one article: only a successful post whose update gets through. */
  function RecordOne(before: map<JsString, Fields>, a: Attempt, idField: FieldName, atField: FieldName): map<JsString, Fields> {
    if Succeeded(a) && a.outcome.reached && a.id in before then
      before[a.id := before[a.id] + RecordPatch(idField, atField, a.outcome.result.value, a.outcome.at)]
    else before
  }

  /** The rows after the record updates of the first `k` articles. */
  function Recorded(rows: map<JsString, Fields>, attempts: seq<Attempt>, idField: FieldName, atField: FieldName, k: int): map<JsString, Fields>
    requires 0 <= k <= |attempts|
    decreases k
  {
    if k == 0 then rows else RecordOne(Recorded(rows, attempts, idField, atField, k - 1), attempts[k - 1], idField, atField)
  }

  /** One update keeps the record set and touches only the two post fields. */
  lemma RecordOneOnlyPostFields(before: map<JsString, Fields>, a: Attempt, idField: FieldName, atField: FieldName)
    ensures var after := RecordOne(before, a, idField, atField);
      after.Keys == before.Keys
      && (forall id | id in before :: OnlyTouches(before[id], after[id], {idField, atField}))
      && (forall id | id in before && id != a.id :: after[id] == before[id])
  {
    var after := RecordOne(before, a, idField, atField);
    if Succeeded(a) && a.outcome.reached && a.id in before {
      var patch := RecordPatch(idField, atField, a.outcome.result.value, a.outcome.at);
      assert patch.Keys == {idField, atField};
      MergeTouchesOnlyPatch(before[a.id], patch);
      assert after == before[a.id := before[a.id] + patch];
      forall id | id in before ensures OnlyTouches(before[id], after[id], {idField, atField}) {
        if id != a.id {
          OnlyTouchesNothing(before[id], {idField, atField});
        }
      }
    } else {
      forall id | id in before ensures OnlyTouches(before[id], after[id], {idField, atField}) {
        OnlyTouchesNothing(before[id], {idField, atField});
      }
    }
  }

  /** A record left as it is touches no field. */
  lemma OnlyTouchesNothing(f: Fields, names: set<FieldName>)
    ensures OnlyTouches(f, f, names)
  {
  }

  /**
   * Posting never adds or removes a record, and changes nothing but the two
   * post fields.
   */
  lemma {:induction false} RecordedOnlyPostFields(rows: map<JsString, Fields>, attempts: seq<Attempt>, idField: FieldName, atField: FieldName, k: int)
    requires 0 <= k <= |attempts|
    ensures var after := Recorded(rows, attempts, idField, atField, k);
      after.Keys == rows.Keys
      && forall id | id in rows :: OnlyTouches(rows[id], after[id], {idField, atField})
  {
    if k > 0 {
      RecordedOnlyPostFields(rows, attempts, idField, atField, k - 1);
      var before := Recorded(rows, attempts, idField, atField, k - 1);
      RecordOneOnlyPostFields(before, attempts[k - 1], idField, atField);
      var after := RecordOne(before, attempts[k - 1], idField, atField);
      forall id | id in rows ensures OnlyTouches(rows[id], after[id], {idField, atField}) {
        OnlyTouchesTrans(rows[id], before[id], after[id], {idField, atField});
      }
    }
  }

  /** Touching only some fields twice touches only those fields. */
  lemma OnlyTouchesTrans(f: Fields, g: Fields, h: Fields, names: set<FieldName>)
    requires OnlyTouches(f, g, names) && OnlyTouches(g, h, names)
    ensures OnlyTouches(f, h, names)
  {
  }

  /**
   * With distinct record ids, a successful post whose record update got
   * through leaves the post's id on its record.
   */
  lemma {:induction false} RecordedPostId(rows: map<JsString, Fields>, attempts: seq<Attempt>, idField: FieldName, atField: FieldName, k: int, i: int)
    requires 0 <= i < k <= |attempts|
    requires forall a, b | 0 <= a < b < |attempts| :: attempts[a].id != attempts[b].id
    requires idField != atField
    requires Succeeded(attempts[i]) && attempts[i].outcome.reached && attempts[i].id in rows
    ensures var after := Recorded(rows, attempts, idField, atField, k);
      attempts[i].id in after && idField in after[attempts[i].id]
      && after[attempts[i].id][idField] == Text(attempts[i].outcome.result.value)
  {
    var before := Recorded(rows, attempts, idField, atField, k - 1);
    RecordedStep(rows, attempts, idField, atField, k - 1);
    RecordedOnlyPostFields(rows, attempts, idField, atField, k - 1);
    RecordOneOnlyPostFields(before, attempts[k - 1], idField, atField);
    if i < k - 1 {
      RecordedPostId(rows, attempts, idField, atField, k - 1, i);
      assert attempts[k - 1].id != attempts[i].id;
    } else {
      var a := attempts[i];
      MergeTouchesOnlyPatch(before[a.id], RecordPatch(idField, atField, a.outcome.result.value, a.outcome.at));
    }
  }

  /**
   * The loop of `main`: for each article, post, record the post on the
   * article's row (errors there are swallowed), and pause before the next
   * article.
   */
  method PostEach(table: Table, attempts: seq<Attempt>, idField: FieldName, atField: FieldName, pauseMs: int)
    returns (log: seq<Step>)
    modifies table
    ensures log == Log(attempts, pauseMs, |attempts|)
    ensures table.rows == Recorded(old(table.rows), attempts, idField, atField, |attempts|)
  {
    log := [];
    var i := 0;
    while i < |attempts|
      invariant 0 <= i <= |attempts|
      invariant log == Log(attempts, pauseMs, i)
      invariant table.rows == Recorded(old(table.rows), attempts, idField, atField, i)
    {
      log := PostOne(table, log, i, |attempts|, attempts[i], idField, atField, pauseMs);
      LogStep(attempts, pauseMs, i);
      RecordedStep(old(table.rows), attempts, idField, atField, i);
      i := i + 1;
    }
  }

  /** One more article appends its steps. */
  lemma LogStep(attempts: seq<Attempt>, pauseMs: int, i: int)
    requires 0 <= i < |attempts|
    ensures Log(attempts, pauseMs, i + 1) == Log(attempts, pauseMs, i) + StepsAt(i, |attempts|, attempts[i], pauseMs)
  {
  }

  /** One more article applies its record update. */
  lemma RecordedStep(rows: map<JsString, Fields>, attempts: seq<Attempt>, idField: FieldName, atField: FieldName, i: int)
    requires 0 <= i < |attempts|
    ensures Recorded(rows, attempts, idField, atField, i + 1) == RecordOne(Recorded(rows, attempts, idField, atField, i), attempts[i], idField, atField)
  {
  }

  /** One article of the loop: post, record the post, pause. */
  method PostOne(table: Table, log: seq<Step>, i: int, n: int, a: Attempt, idField: FieldName, atField: FieldName, pauseMs: int)
    returns (log': seq<Step>)
    modifies table
    ensures log' == log + StepsAt(i, n, a, pauseMs)
    ensures table.rows == RecordOne(old(table.rows), a, idField, atField)
  {
    if Succeeded(a) {
      var _ := table.Update(a.id, RecordPatch(idField, atField, a.outcome.result.value, a.outcome.at), a.outcome.reached);
      var pause := if i < n - 1 then [Paused(pauseMs)] else [];
      log' := log + ([Posted(i, a.text.value, a.outcome.result.value)] + pause);
    } else {
      log' := log + [Failed(i)];
    }
  }
}
