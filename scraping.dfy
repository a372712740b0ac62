/**
 * Saving scraped news items: the record each item becomes and the loop
 * that skips items whose source URL is already stored and creates the
 * others.  The daily generation script and the archived scraper share the
 * loop and differ only in the record layout.
 */
module Scraping {
  import opened Js
  import opened Store

  /** An item a scraper returns (its date is not used when saving). */
  datatype Scraped = Scraped(title: JsString, url: JsString, excerpt: JsString, source: JsString)

  /**
   * What the world does for one item: the random slug, the day of the
   * clock, whether the duplicate lookup and the create request succeed,
   * and the id the service assigns.
   */
  datatype Draw = Draw(slug: JsString, day: int, lookupReached: bool, id: JsString, saveReached: bool)

  /** The record layout of the daily script or of the archived scraper. */
  datatype Layout = Daily | Archived

  const NEWS_CATEGORY: JsString := Bmp("ニュース")
  const PUBLISHED: JsString := Bmp("published")
  const EDITORS: JsString := Bmp("編集部")
  const EXCERPT_LENGTH: int := 200
  const NEWLINE: Unit := 0x0A

  const READ_MORE: JsString := Bmp("\n\n続きは元記事でご覧ください。\n\n")
  const CITATION: JsString := Bmp("\n\n---\n\n**引用元**: ")

  function Link(url: JsString): JsString {
    Bmp("[元記事を読む](") + url + Bmp(")")
  }

  /** The content body: the excerpt, a pointer to the original and the source name. */
  function Body(a: Scraped): JsString {
    a.excerpt + READ_MORE + Link(a.url) + CITATION + a.source
  }

  /** The archived scraper writes the body between newlines and trims it. */
  function ArchivedContent(a: Scraped): JsString {
    Trim([NEWLINE] + Body(a) + [NEWLINE])
  }

  function ContentOf(layout: Layout, a: Scraped): JsString {
    match layout
    case Daily => Body(a)
    case Archived => ArchivedContent(a)
  }

  /** The stored source URL of a record, if any. */
  function SourceOf(f: Fields): Option<JsString> {
    TextField(f, SourceUrl)
  }

  /** The fields both layouts write, given the stored excerpt and content. */
  function CommonFields(a: Scraped, d: Draw, excerpt: JsString, content: JsString): Fields {
    map[
      Title := Text(a.title),
      Slug := Text(d.slug),
      Category := Text(NEWS_CATEGORY),
      Excerpt := Text(excerpt),
      Content := Text(content),
      SourceUrl := Text(a.url),
      SourceName := Text(a.source),
      PublishedAt := Day(d.day),
      Status := Text(PUBLISHED),
      IsFeatured := Flag(false)
    ]
  }

  /** The record an item becomes; it carries the item's URL as its source. */
  function ScrapedRecord(layout: Layout, a: Scraped, d: Draw): (r: Fields)
    ensures SourceOf(r) == Some(a.url)
  {
    var common := CommonFields(a, d, Substring(a.excerpt, 0, EXCERPT_LENGTH), ContentOf(layout, a));
    if layout == Daily then common[Author := Text(EDITORS)] else common
  }

  /**
   * A scraped record is a published, unfeatured news item whose title,
   * source URL and source name are the item's, with an excerpt of at most
   * 200 code units taken from the start of the item's excerpt; only the
   * daily script names an author.
   */
  lemma ScrapedRecordFields(layout: Layout, a: Scraped, d: Draw, r: Fields)
    requires r == ScrapedRecord(layout, a, d)
    ensures Title in r && r[Title] == Text(a.title)
    ensures Slug in r && r[Slug] == Text(d.slug)
    ensures Category in r && r[Category] == Text(NEWS_CATEGORY)
    ensures Status in r && r[Status] == Text(PUBLISHED)
    ensures IsFeatured in r && r[IsFeatured] == Flag(false)
    ensures SourceName in r && r[SourceName] == Text(a.source)
    ensures PublishedAt in r && r[PublishedAt] == Day(d.day)
    ensures Content in r && r[Content] == Text(ContentOf(layout, a))
    ensures Excerpt in r && r[Excerpt] == Text(Substring(a.excerpt, 0, EXCERPT_LENGTH))
    ensures Author in r <==> layout == Daily
    ensures Author in r ==> r[Author] == Text(EDITORS)
  {
    var e := Substring(a.excerpt, 0, EXCERPT_LENGTH);
    var content := ContentOf(layout, a);
    var c := CommonFields(a, d, e, content);
    CommonFieldsSet(a, d, e, content, c);
    assert forall n | n in c :: n in r && r[n] == c[n];
  }

  lemma CommonFieldsSet(a: Scraped, d: Draw, excerpt: JsString, content: JsString, c: Fields)
    requires c == CommonFields(a, d, excerpt, content)
    ensures Title in c && c[Title] == Text(a.title)
    ensures Slug in c && c[Slug] == Text(d.slug)
    ensures Category in c && c[Category] == Text(NEWS_CATEGORY)
    ensures Status in c && c[Status] == Text(PUBLISHED)
    ensures IsFeatured in c && c[IsFeatured] == Flag(false)
    ensures SourceName in c && c[SourceName] == Text(a.source)
    ensures PublishedAt in c && c[PublishedAt] == Day(d.day)
    ensures Content in c && c[Content] == Text(content)
    ensures Excerpt in c && c[Excerpt] == Text(excerpt)
    ensures Author !in c
  {
  }

  /** The stored excerpt is the first 200 code units of the item's excerpt. */
  lemma ScrapedExcerpt(layout: Layout, a: Scraped, d: Draw)
    ensures var r := ScrapedRecord(layout, a, d);
      && Excerpt in r && r[Excerpt].Text?
      && |r[Excerpt].text| <= EXCERPT_LENGTH && |r[Excerpt].text| <= |a.excerpt|
      && r[Excerpt].text == a.excerpt[..|r[Excerpt].text|]
      && (|a.excerpt| <= EXCERPT_LENGTH ==> r[Excerpt].text == a.excerpt)
  {
    ScrapedRecordFields(layout, a, d, ScrapedRecord(layout, a, d));
    PrefixSubstring(a.excerpt, EXCERPT_LENGTH);
  }

  /** The link to the original survives the archived scraper's trimming. */
  lemma ArchivedContentLinks(a: Scraped)
    ensures Includes(ArchivedContent(a), Link(a.url))
  {
    var l := Link(a.url);
    var x := [NEWLINE] + a.excerpt + READ_MORE;
    var y := CITATION + a.source + [NEWLINE];
    assert [NEWLINE] + Body(a) + [NEWLINE] == x + l + y;
    assert l[0] == 0x5B && l[|l| - 1] == 0x29;
    TrimKeepsMiddle(x, l, y);
  }

  /**
   * When the excerpt does not start and the source name does not end with
   * a blank, both scripts store the same content.
   */
  lemma LayoutsAgreeOnContent(a: Scraped)
    requires a.excerpt != [] && !IsTrimmable(a.excerpt[0])
    requires a.source != [] && !IsTrimmable(a.source[|a.source| - 1])
    ensures ContentOf(Archived, a) == ContentOf(Daily, a)
  {
    var b := Body(a);
    assert b[0] == a.excerpt[0];
    assert b[|b| - 1] == a.source[|a.source| - 1];
    TrimAround([NEWLINE], b, [NEWLINE]);
  }

  /**
   * `isDuplicateArticle(url)`: true when the lookup reaches the store and
   * some stored record has that source URL; a failed lookup counts as
   * "not a duplicate".
   */
  predicate IsDuplicate(rows: map<JsString, Fields>, url: JsString, reached: bool) {
    reached && exists id | id in rows :: SourceOf(rows[id]) == Some(url)
  }

  /** How an item becomes a record: one of the two layouts. */
  type Recorder = (Scraped, Draw) -> Fields

  function RecordOf(layout: Layout): Recorder {
    (a: Scraped, d: Draw) => ScrapedRecord(layout, a, d)
  }

  /** Both layouts store the item's URL as the record's source. */
  ghost predicate KeepsSource(rec: Recorder) {
    forall a: Scraped, d: Draw :: SourceOf(rec(a, d)) == Some(a.url)
  }

  lemma LayoutsKeepSource(layout: Layout)
    ensures KeepsSource(RecordOf(layout))
  {
    forall a: Scraped, d: Draw ensures SourceOf(RecordOf(layout)(a, d)) == Some(a.url) {
      var r := ScrapedRecord(layout, a, d);
    }
  }

  /** The stored rows and the two counters after some items. */
  datatype Tally = Tally(rows: map<JsString, Fields>, saved: nat, duplicates: nat)

  /**
   * One item of the loop, given the URL it is looked up by and the record
   * it would be stored as.
   */
  function Step(t: Tally, url: JsString, d: Draw, f: Fields): Tally {
    if IsDuplicate(t.rows, url, d.lookupReached) then t.(duplicates := t.duplicates + 1)
    else if d.saveReached && d.id !in t.rows then Tally(t.rows[d.id := f], t.saved + 1, t.duplicates)
    else t
  }

  /** The loop after its first `k` items. */
  function Scrape(rec: Recorder, rows: map<JsString, Fields>, items: seq<Scraped>, draws: seq<Draw>, k: int): Tally
    requires |draws| == |items| && 0 <= k <= |items|
  {
    if k == 0 then Tally(rows, 0, 0)
    else Step(Scrape(rec, rows, items, draws, k - 1), items[k - 1].url, draws[k - 1], rec(items[k - 1], draws[k - 1]))
  }

  /**
   * One item bumps at most one counter; a saved item adds exactly one
   * record and a stored record is never changed.
   */
  lemma StepCounts(t: Tally, url: JsString, d: Draw, f: Fields)
    ensures var r := Step(t, url, d, f);
      && t.saved <= r.saved && t.duplicates <= r.duplicates
      && r.saved + r.duplicates <= t.saved + t.duplicates + 1
      && t.rows.Keys <= r.rows.Keys
      && |r.rows.Keys| == |t.rows.Keys| + (r.saved - t.saved)
      && (forall id | id in t.rows :: r.rows[id] == t.rows[id])
      && (forall id | id in r.rows && id !in t.rows :: r.rows[id] == f)
  {
    if !IsDuplicate(t.rows, url, d.lookupReached) && d.saveReached && d.id !in t.rows {
      assert t.rows[d.id := f].Keys == t.rows.Keys + {d.id};
    }
  }

  /**
   * Each item is either skipped as a duplicate, stored, or lost to a failed
   * save: the counters never exceed the items, the saved counter is the
   * number of new records, and the records already stored are kept.
   */
  lemma {:induction false} ScrapeCounts(rec: Recorder, rows: map<JsString, Fields>, items: seq<Scraped>, draws: seq<Draw>, k: int)
    requires |draws| == |items| && 0 <= k <= |items|
    ensures var t := Scrape(rec, rows, items, draws, k);
      && t.saved + t.duplicates <= k
      && rows.Keys <= t.rows.Keys
      && |t.rows.Keys| == |rows.Keys| + t.saved
      && forall id | id in rows :: t.rows[id] == rows[id]
  {
    if k > 0 {
      ScrapeCounts(rec, rows, items, draws, k - 1);
      StepCounts(Scrape(rec, rows, items, draws, k - 1), items[k - 1].url, draws[k - 1], rec(items[k - 1], draws[k - 1]));
    }
  }

  /** Whether record `id` came from one of the first `k` items. */
  predicate FromItem(rec: Recorder, f: Fields, items: seq<Scraped>, draws: seq<Draw>, k: int)
    requires |draws| == |items| && 0 <= k <= |items|
  {
    exists i | 0 <= i < k :: f == rec(items[i], draws[i])
  }

  /** Every record the loop adds is the record of one of the items. */
  lemma {:induction false} NewRowsAreScrapedRecords(rec: Recorder, rows: map<JsString, Fields>, items: seq<Scraped>, draws: seq<Draw>, k: int)
    requires |draws| == |items| && 0 <= k <= |items|
    ensures var t := Scrape(rec, rows, items, draws, k);
      forall id | id in t.rows && id !in rows :: FromItem(rec, t.rows[id], items, draws, k)
  {
    if k > 0 {
      NewRowsAreScrapedRecords(rec, rows, items, draws, k - 1);
      var t := Scrape(rec, rows, items, draws, k - 1);
      var f := rec(items[k - 1], draws[k - 1]);
      var r := Step(t, items[k - 1].url, draws[k - 1], f);
      StepCounts(t, items[k - 1].url, draws[k - 1], f);
      forall id | id in r.rows && id !in rows ensures FromItem(rec, r.rows[id], items, draws, k) {
        if id in t.rows {
          var i :| 0 <= i < k - 1 && t.rows[id] == rec(items[i], draws[i]);
          assert r.rows[id] == rec(items[i], draws[i]);
        } else {
          assert r.rows[id] == rec(items[k - 1], draws[k - 1]);
        }
      }
    }
  }

  /** No record added after `rows` shares its source URL with another record. */
  predicate NewSourcesUnique(rows: map<JsString, Fields>, now: map<JsString, Fields>) {
    forall x, y | x in now && y in now && x != y && x !in rows :: SourceOf(now[x]) != SourceOf(now[y])
  }

  /**
   * When every duplicate lookup reaches the store, the loop never stores a
   * second record with the same source URL: each new record's URL differs
   * from that of every other record, old or new.
   */
  lemma {:induction false} NoDuplicateSaved(rec: Recorder, rows: map<JsString, Fields>, items: seq<Scraped>, draws: seq<Draw>, k: int)
    requires |draws| == |items| && 0 <= k <= |items|
    requires KeepsSource(rec)
    requires forall i | 0 <= i < k :: draws[i].lookupReached
    ensures NewSourcesUnique(rows, Scrape(rec, rows, items, draws, k).rows)
  {
    if k > 0 {
      NoDuplicateSaved(rec, rows, items, draws, k - 1);
      var t := Scrape(rec, rows, items, draws, k - 1);
      forall x | x in t.rows && x !in rows ensures SourceOf(t.rows[x]).Some? {
        NewRowHasSource(rec, rows, items, draws, k - 1, x);
      }
      assert draws[k - 1].lookupReached;
      StepKeepsSourcesUnique(rows, t, items[k - 1].url, draws[k - 1], rec(items[k - 1], draws[k - 1]));
    }
  }

  /**
   * An item whose lookup reaches the store is only saved when no record has
   * its URL, so the new URLs stay unique.
   */
  lemma StepKeepsSourcesUnique(rows: map<JsString, Fields>, t: Tally, url: JsString, d: Draw, f: Fields)
    requires NewSourcesUnique(rows, t.rows)
    requires forall x | x in t.rows && x !in rows :: SourceOf(t.rows[x]).Some?
    requires d.lookupReached && SourceOf(f) == Some(url)
    ensures NewSourcesUnique(rows, Step(t, url, d, f).rows)
  {
    if !IsDuplicate(t.rows, url, d.lookupReached) && d.saveReached && d.id !in t.rows {
      AddUniqueSource(rows, t.rows, d.id, f, url);
    }
  }

  /** Adding a record whose URL no stored record has keeps the new URLs unique. */
  lemma AddUniqueSource(rows: map<JsString, Fields>, now: map<JsString, Fields>, id: JsString, f: Fields, url: JsString)
    requires NewSourcesUnique(rows, now)
    requires id !in now && SourceOf(f) == Some(url)
    requires forall y | y in now :: SourceOf(now[y]) != Some(url)
    requires forall x | x in now && x !in rows :: SourceOf(now[x]).Some?
    ensures NewSourcesUnique(rows, now[id := f])
  {
    var now' := now[id := f];
    forall x, y | x in now' && y in now' && x != y && x !in rows
      ensures SourceOf(now'[x]) != SourceOf(now'[y])
    {
      if x == id {
        assert now'[y] == now[y];
      } else if y == id {
        assert now'[x] == now[x];
      } else {
        assert now'[x] == now[x] && now'[y] == now[y];
      }
    }
  }

  /** A record the loop added carries a source URL. */
  lemma NewRowHasSource(rec: Recorder, rows: map<JsString, Fields>, items: seq<Scraped>, draws: seq<Draw>, k: int, id: JsString)
    requires |draws| == |items| && 0 <= k <= |items|
    requires KeepsSource(rec)
    requires id in Scrape(rec, rows, items, draws, k).rows && id !in rows
    ensures SourceOf(Scrape(rec, rows, items, draws, k).rows[id]).Some?
  {
    NewRowsAreScrapedRecords(rec, rows, items, draws, k);
    var i :| 0 <= i < k && Scrape(rec, rows, items, draws, k).rows[id] == rec(items[i], draws[i]);
  }

  /**
   * The dedupe/save loop: for each item, look its URL up, skip and count
   * it when it is stored already, otherwise create its record and count
   * the save when the store accepts it.
   */
  method SaveEach(table: Table, rec: Recorder, items: seq<Scraped>, draws: seq<Draw>) returns (savedCount: nat, duplicateCount: nat)
    requires |draws| == |items|
    modifies table
    ensures Tally(table.rows, savedCount, duplicateCount) == Scrape(rec, old(table.rows), items, draws, |items|)
  {
    savedCount, duplicateCount := 0, 0;
    var i := 0;
    while i < |items|
      invariant 0 <= i <= |items|
      invariant Tally(table.rows, savedCount, duplicateCount) == Scrape(rec, old(table.rows), items, draws, i)
    {
      savedCount, duplicateCount := SaveOne(table, items[i].url, draws[i], rec(items[i], draws[i]), savedCount, duplicateCount);
      i := i + 1;
    }
  }

  /** One item: look its URL up, then count it as a duplicate or create its record. */
  method SaveOne(table: Table, url: JsString, d: Draw, f: Fields, saved: nat, duplicates: nat) returns (saved': nat, duplicates': nat)
    modifies table
    ensures Tally(table.rows, saved', duplicates') == Step(Tally(old(table.rows), saved, duplicates), url, d, f)
  {
    saved', duplicates' := saved, duplicates;
    if IsDuplicate(table.rows, url, d.lookupReached) {
      duplicates' := duplicates + 1;
    } else {
      var ok := table.Create(d.id, f, d.saveReached);
      if ok {
        saved' := saved + 1;
      }
    }
  }
}
