/**
 * The sample-article seeder: each sample article is created with a fresh
 * slug and then given a placeholder thumbnail chosen by its category; a
 * failed thumbnail update does not undo or fail the article.
 */
module SampleNews {
  import opened Js
  import opened Store
  import Config

  // ---------------------------------------------------------------------
  // Placeholder image
  // ---------------------------------------------------------------------

  const DEFAULT_KEYWORD: JsString := Bmp("horse,racing")
  const SOURCE_PREFIX: JsString := Bmp("https://source.unsplash.com/1200x675/?")

  /** The seven-entry keyword table, with `horse,racing` for any other category. */
  function PlaceholderKeyword(category: JsString): JsString {
    if category == Bmp("ニュース") then Bmp("newspaper,news")
    else if category == Bmp("ランキング") then Bmp("podium,trophy,winner")
    else if category == Bmp("ガイド") then Bmp("education,guide,learning")
    else if category == Bmp("まとめ") then Bmp("collection,summary")
    else if category == Bmp("速報") then Bmp("breaking,urgent,alert")
    else if category == Bmp("炎上") then Bmp("fire,controversy")
    else if category == Bmp("G1レース") then Bmp("horse,racing,competition")
    else DEFAULT_KEYWORD
  }

  predicate KnownCategory(category: JsString) {
    category in {Bmp("ニュース"), Bmp("ランキング"), Bmp("ガイド"), Bmp("まとめ"), Bmp("速報"), Bmp("炎上"), Bmp("G1レース")}
  }

  /** Each listed category has its own keyword; every other category gets the default. */
  lemma KeywordTable(category: JsString)
    ensures PlaceholderKeyword(Bmp("ニュース")) == Bmp("newspaper,news")
    ensures PlaceholderKeyword(Bmp("ランキング")) == Bmp("podium,trophy,winner")
    ensures PlaceholderKeyword(Bmp("ガイド")) == Bmp("education,guide,learning")
    ensures PlaceholderKeyword(Bmp("まとめ")) == Bmp("collection,summary")
    ensures PlaceholderKeyword(Bmp("速報")) == Bmp("breaking,urgent,alert")
    ensures PlaceholderKeyword(Bmp("炎上")) == Bmp("fire,controversy")
    ensures PlaceholderKeyword(Bmp("G1レース")) == Bmp("horse,racing,competition")
    ensures !KnownCategory(category) ==> PlaceholderKeyword(category) == DEFAULT_KEYWORD
    ensures KnownCategory(category) ==> PlaceholderKeyword(category) != DEFAULT_KEYWORD
  {
    assert Bmp("まとめ")[0] != Bmp("ガイド")[0];
    assert Bmp("炎上")[0] != Bmp("速報")[0];
    assert Bmp("G1レース")[0] != Bmp("ランキング")[0];
    assert Bmp("horse,racing,competition") != DEFAULT_KEYWORD by {
      assert |Bmp("horse,racing,competition")| != |DEFAULT_KEYWORD|;
    }
  }

  /** `getPlaceholderImageUrl(category)`: the keyword is what follows the fixed prefix. */
  function PlaceholderUrl(category: JsString): (r: JsString)
    ensures StartsWith(r, SOURCE_PREFIX)
    ensures r[|SOURCE_PREFIX|..] == PlaceholderKeyword(category)
  {
    var r := SOURCE_PREFIX + PlaceholderKeyword(category);
    assert r[..|SOURCE_PREFIX|] == SOURCE_PREFIX;
    r
  }

  /** Different keywords give different URLs, so the URL names the keyword. */
  lemma PlaceholderUrlInjective(c1: JsString, c2: JsString)
    requires PlaceholderKeyword(c1) != PlaceholderKeyword(c2)
    ensures PlaceholderUrl(c1) != PlaceholderUrl(c2)
  {
  }

  // ---------------------------------------------------------------------
  // Saving one article
  // ---------------------------------------------------------------------

  /** A sample article as listed in the script. */
  datatype Sample = Sample(
    title: JsString, category: JsString, tags: seq<JsString>, excerpt: JsString,
    content: JsString, isFeatured: bool, author: JsString)

  /** The fields of the create call. */
  function Created(a: Sample, slug: JsString): Fields {
    map[
      Title := Text(a.title), Slug := Text(slug), Category := Text(a.category), Tags := Texts(a.tags),
      Excerpt := Text(a.excerpt), Content := Text(a.content), Status := Text(Bmp("published")),
      IsFeatured := Flag(a.isFeatured), Author := Text(a.author)
    ]
  }

  /** The create call carries every listed field of the sample, its slug and the published status. */
  lemma CreatedFields(a: Sample, slug: JsString)
    ensures var r := Created(a, slug);
      && r.Keys == {Title, Slug, Category, Tags, Excerpt, Content, Status, IsFeatured, Author}
      && r[Title] == Text(a.title) && r[Slug] == Text(slug) && r[Category] == Text(a.category)
      && r[Tags] == Texts(a.tags) && r[Excerpt] == Text(a.excerpt) && r[Content] == Text(a.content)
      && r[Status] == Text(Bmp("published")) && r[IsFeatured] == Flag(a.isFeatured) && r[Author] == Text(a.author)
  {
  }

  /** The thumbnail update: one attachment, the placeholder URL, named after the category. */
  function ImagePatch(category: JsString): Fields {
    map[Thumbnail := Files([Attachment(Some(PlaceholderUrl(category)), Some(category + Bmp(".jpg")))])]
  }

  /** What the services do for one article: the slug's random part, the new id and the two calls. */
  datatype Draw = Draw(now: int, suffix: JsString, id: JsString, createReached: bool, updateReached: bool)

  function SlugOf(d: Draw): JsString {
    IntToString(d.now) + [0x2D] + d.suffix
  }

  /** The record `saveArticle` leaves behind when its create call succeeds. */
  function Stored(a: Sample, d: Draw): Fields {
    if d.updateReached then Created(a, SlugOf(d)) + ImagePatch(a.category) else Created(a, SlugOf(d))
  }

  /**
   * `saveArticle(article)`: the created record's id, or `None` when the
   * create fails; a failed thumbnail update is only logged.
   */
  method SaveArticle(table: Table, a: Sample, d: Draw) returns (record: Option<JsString>)
    modifies table
    ensures record.Some? <==> d.createReached && d.id !in old(table.rows)
    ensures record.Some? ==> record.value == d.id && table.rows == old(table.rows)[d.id := Stored(a, d)]
    ensures record.None? ==> table.rows == old(table.rows)
  {
    var ok := table.Create(d.id, Created(a, SlugOf(d)), d.createReached);
    if !ok {
      return None;
    }
    var _ := table.Update(d.id, ImagePatch(a.category), d.updateReached);
    record := Some(d.id);
  }

  /**
   * A stored sample carries all its created fields; the thumbnail is there
   * exactly when the update went through, and nothing else is added.
   */
  lemma StoredFields(a: Sample, d: Draw)
    ensures var r := Stored(a, d);
      && (forall n | n in Created(a, SlugOf(d)) :: n in r && r[n] == Created(a, SlugOf(d))[n])
      && (Thumbnail in r <==> d.updateReached)
      && r.Keys <= Created(a, SlugOf(d)).Keys + {Thumbnail}
  {
  }

  // ---------------------------------------------------------------------
  // Main
  // ---------------------------------------------------------------------

  /** The rows and the success count after some articles. */
  datatype Tally = Tally(rows: map<JsString, Fields>, successes: nat)

  function Step(t: Tally, d: Draw, f: Fields): Tally {
    if d.createReached && d.id !in t.rows then Tally(t.rows[d.id := f], t.successes + 1) else t
  }

  /** The record each sample would be stored as. */
  function Records(samples: seq<Sample>, draws: seq<Draw>): (r: seq<Fields>)
    requires |draws| == |samples|
    ensures |r| == |samples| && forall i | 0 <= i < |r| :: r[i] == Stored(samples[i], draws[i])
  {
    seq(|samples|, i requires 0 <= i < |samples| => Stored(samples[i], draws[i]))
  }

  /** The rows after the first `k` create calls, each storing its record when the call goes through. */
  function SaveAll(rows: map<JsString, Fields>, records: seq<Fields>, draws: seq<Draw>, k: int): Tally
    requires |draws| == |records| && 0 <= k <= |records|
  {
    if k == 0 then Tally(rows, 0) else Step(SaveAll(rows, records, draws, k - 1), draws[k - 1], records[k - 1])
  }

  /** One article adds at most its own record and changes no stored one. */
  lemma StepCounts(t: Tally, d: Draw, f: Fields)
    ensures var r := Step(t, d, f);
      && t.successes <= r.successes <= t.successes + 1
      && |r.rows.Keys| == |t.rows.Keys| + (r.successes - t.successes)
      && (forall id | id in t.rows :: id in r.rows && r.rows[id] == t.rows[id])
      && (forall id | id in r.rows :: id in t.rows || id == d.id)
      && (d.createReached && d.id !in t.rows ==> r.successes == t.successes + 1 && d.id in r.rows)
  {
    if d.createReached && d.id !in t.rows {
      assert t.rows[d.id := f].Keys == t.rows.Keys + {d.id};
    }
  }

  /**
   * The success count never exceeds the articles tried and equals the
   * number of records added; stored records are never changed.
   */
  lemma {:induction false} SaveAllCounts(rows: map<JsString, Fields>, records: seq<Fields>, draws: seq<Draw>, k: int)
    requires |draws| == |records| && 0 <= k <= |records|
    ensures var t := SaveAll(rows, records, draws, k);
      && t.successes <= k
      && |t.rows.Keys| == |rows.Keys| + t.successes
      && (forall id | id in rows :: id in t.rows && t.rows[id] == rows[id])
  {
    if k > 0 {
      SaveAllCounts(rows, records, draws, k - 1);
      StepCounts(SaveAll(rows, records, draws, k - 1), draws[k - 1], records[k - 1]);
    }
  }

  /** When every create call succeeds with a fresh id, every article counts, image or not. */
  lemma {:induction false} AllCreatedAllCount(rows: map<JsString, Fields>, records: seq<Fields>, draws: seq<Draw>, k: int)
    requires |draws| == |records| && 0 <= k <= |records|
    requires forall i | 0 <= i < k :: draws[i].createReached && draws[i].id !in rows
    requires forall i, j | 0 <= i < j < k :: draws[i].id != draws[j].id
    ensures SaveAll(rows, records, draws, k).successes == k
  {
    if k > 0 {
      AllCreatedAllCount(rows, records, draws, k - 1);
      assert forall i | 0 <= i < k - 1 :: draws[i].id != draws[k - 1].id;
      FreshIdStaysFree(rows, records, draws, k - 1, draws[k - 1].id);
      StepCounts(SaveAll(rows, records, draws, k - 1), draws[k - 1], records[k - 1]);
    }
  }

  /** The only ids the loop adds are those of its create calls. */
  lemma {:induction false} FreshIdStaysFree(rows: map<JsString, Fields>, records: seq<Fields>, draws: seq<Draw>, k: int, id: JsString)
    requires |draws| == |records| && 0 <= k <= |records|
    requires id !in rows && forall i | 0 <= i < k :: draws[i].id != id
    ensures id !in SaveAll(rows, records, draws, k).rows
  {
    if k > 0 {
      FreshIdStaysFree(rows, records, draws, k - 1, id);
      StepCounts(SaveAll(rows, records, draws, k - 1), draws[k - 1], records[k - 1]);
    }
  }

  datatype Outcome = Exit(code: int) | Done(successCount: nat, total: nat)

  /** `main()`: each sample in turn, a 500 ms pause after each, and the count of created articles. */
  method Run(table: Table, env: Config.Env, samples: seq<Sample>, draws: seq<Draw>) returns (outcome: Outcome)
    requires |draws| == |samples|
    modifies table
    ensures !Config.ScriptCredentials(env) ==> outcome == Exit(1) && table.rows == old(table.rows)
    ensures Config.ScriptCredentials(env) ==>
      var t := SaveAll(old(table.rows), Records(samples, draws), draws, |samples|);
      outcome == Done(t.successes, |samples|) && table.rows == t.rows
  {
    if !Config.ScriptCredentials(env) {
      return Exit(1);
    }
    ghost var records := Records(samples, draws);
    var successCount := 0;
    var i := 0;
    while i < |samples|
      invariant 0 <= i <= |samples|
      invariant Tally(table.rows, successCount) == SaveAll(old(table.rows), records, draws, i)
    {
      ghost var before := Tally(table.rows, successCount);
      var result := SaveArticle(table, samples[i], draws[i]);
      if result.Some? {
        successCount := successCount + 1;
      }
      assert Tally(table.rows, successCount) == Step(before, draws[i], records[i]);
      i := i + 1;
    }
    outcome := Done(successCount, |samples|);
  }
}
