/**
 * The news generator for prediction sites (`scripts/generate-news-articles.cjs`):
 * a breaking-news article per recently added site, one forum-thread
 * summary about a randomly chosen one, and on Mondays the weekly ranking.
 * The first failed save aborts the run.  The file as written does not
 * parse (a function name with a space in it), so the model describes the
 * functions as they would behave if it did.
 */
module GenerateNewsArticles {
  import opened Js
  import opened Store
  import ImageGenerator

  // ---------------------------------------------------------------------
  // Relative time
  // ---------------------------------------------------------------------

  /** `getRelativeTime(date)` for `diff = now - date` milliseconds. */
  function RelativeTime(diff: int): JsString {
    var hours := diff / HOUR_MS;
    if hours < 1 then IntToString(diff / MINUTE_MS) + Bmp("分前")
    else if hours < 24 then IntToString(hours) + Bmp("時間前")
    else IntToString(hours / 24) + Bmp("日前")
  }

  /** The count shown and the unit it is in, by elapsed time. */
  function Elapsed(diff: int): (int, JsString) {
    if diff < HOUR_MS then (diff / MINUTE_MS, Bmp("分前"))
    else if diff < DAY_MS then (diff / HOUR_MS, Bmp("時間前"))
    else (diff / DAY_MS, Bmp("日前"))
  }

  /**
   * The label is the floor of the elapsed time in minutes below an hour,
   * in hours below a day and in days from then on; whole days are counted
   * from the elapsed hours, which is the same as counting them directly.
   */
  lemma RelativeTimeBands(diff: int)
    ensures RelativeTime(diff) == IntToString(Elapsed(diff).0) + Elapsed(diff).1
    ensures 0 <= diff < HOUR_MS ==> 0 <= Elapsed(diff).0 < 60
    ensures HOUR_MS <= diff < DAY_MS ==> 1 <= Elapsed(diff).0 < 24
    ensures diff >= DAY_MS ==> Elapsed(diff).0 >= 1
  {
    if diff >= DAY_MS {
      FloorOfFloor(diff);
    }
  }

  /** `Math.floor(Math.floor(d / hour) / 24) == Math.floor(d / day)`. */
  lemma FloorOfFloor(d: int)
    ensures (d / HOUR_MS) / 24 == d / DAY_MS
  {
    var h := d / HOUR_MS;
    var r := d % HOUR_MS;
    var q := h / 24;
    var s := h % 24;
    assert d == h * HOUR_MS + r;
    assert h == q * 24 + s;
    assert d == q * DAY_MS + (s * HOUR_MS + r);
    assert 0 <= s * HOUR_MS + r < DAY_MS;
  }

  /** Reading the label with `parseInt` gives back the count it shows. */
  lemma RelativeTimeReadsBack(diff: int)
    ensures ParseInt(RelativeTime(diff)) == Some(Elapsed(diff).0)
  {
    RelativeTimeBands(diff);
    var (n, unit) := Elapsed(diff);
    assert !IsDigit(unit[0]);
    ParseIntOfStringThen(n, unit);
  }

  lemma RelativeTimeExamples()
    ensures RelativeTime(59 * MINUTE_MS) == Bmp("59分前")
    ensures RelativeTime(23 * HOUR_MS + 59 * MINUTE_MS) == Bmp("23時間前")
    ensures RelativeTime(3 * DAY_MS + 23 * HOUR_MS) == Bmp("3日前")
  {
    assert IntToString(59) == Bmp("59");
    assert IntToString(23) == Bmp("23");
    assert IntToString(3) == Bmp("3");
  }

  // ---------------------------------------------------------------------
  // Sites
  // ---------------------------------------------------------------------

  /** A row of the Sites table: its id and the three fields the articles use. */
  datatype Site = Site(id: JsString, name: Option<JsString>, category: Option<JsString>, url: Option<JsString>)

  /** Template interpolation of a possibly missing field. */
  function Shown(v: Option<JsString>): JsString {
    if v.Some? then v.value else Bmp("undefined")
  }

  /** `generateSlug(title)`: the current time and a random suffix. */
  function SlugOf(now: int, randomSuffix: JsString): JsString {
    IntToString(now) + [0x2D] + randomSuffix
  }

  /** `Math.floor(Math.random() * span) + base` */
  function RandomCount(rnd: Random, span: nat, base: int): (r: int)
    requires span > 0
    ensures base <= r < base + span
  {
    base + ImageGenerator.RandomIndex(rnd, span)
  }

  // ---------------------------------------------------------------------
  // Breaking news about a new site
  // ---------------------------------------------------------------------

  /** The random values one article consumes. */
  datatype Draw = Draw(pick: Random, views: Random, feature: Random, now: int, suffix: JsString)

  /** The fields every generated article has, in the order the script writes them. */
  function Article(title: JsString, category: JsString, content: JsString, related: seq<JsString>,
                   tags: seq<JsString>, slug: JsString, now: int, views: int, featured: bool): (r: Fields)
    ensures r.Keys == {Title, Slug, Category, Content, RelatedSites, Tags, PublishedAt, ViewCount, IsPublished, IsFeatured}
    ensures r[Title] == Text(title) && r[Slug] == Text(slug) && r[Category] == Text(category)
    ensures r[Content] == Text(content) && r[RelatedSites] == Texts(related) && r[Tags] == Texts(tags)
    ensures r[PublishedAt] == Timestamp(now) && r[ViewCount] == Num(views)
    ensures r[IsPublished] == Flag(true) && r[IsFeatured] == Flag(featured)
  {
    map[
      Title := Text(title),
      Slug := Text(slug),
      Category := Text(category),
      Content := Text(content),
      RelatedSites := Texts(related),
      Tags := Texts(tags),
      PublishedAt := Timestamp(now),
      ViewCount := Num(views),
      IsPublished := Flag(true),
      IsFeatured := Flag(featured)
    ]
  }

  function NewSiteTitle(template: int, name: JsString): JsString {
    if template == 0 then Bmp("【速報】") + name + Bmp("が新規オープン！南関競馬予想に特化")
    else Bmp("【新着】") + name + Bmp(" - 競馬予想サイトが新登場")
  }

  function NewSiteContent(template: int, s: Site): JsString {
    if template == 0 then
      Bmp("\n本日、新しい競馬予想サイト「") + Shown(s.name) + Bmp("」がオープンしました。\n\n## サイト概要\n- サイト名: ")
      + Shown(s.name) + Bmp("\n- カテゴリ: ") + Shown(s.category)
      + Bmp("\n- 特徴: 無料予想も提供\n\n## 注目ポイント\n初回登録で無料予想を提供しているとのこと。的中実績は今後チェックしていく必要がありそうです。\n\n## 利用者の反応\nまだオープンしたばかりで口コミは少ないですが、今後の動向に注目です。\n\n[公式サイトはこちら](")
      + Shown(s.url) + Bmp(")\n")
    else
      Bmp("\n競馬予想サイト業界に新しいサイトが登場しました。\n\n") + Shown(s.name) + Bmp("は") + Shown(s.category)
      + Bmp("を中心とした予想情報を提供するサイトです。\n\n### サイトの特徴\n- 無料予想あり\n- 登録無料\n- ")
      + Shown(s.category) + Bmp("に特化\n\n今後の的中実績に注目していきます。\n")
  }

  /** `generateNewSiteArticle(site)` */
  function NewSiteArticle(s: Site, d: Draw): Fields {
    var template := ImageGenerator.RandomIndex(d.pick, 2);
    Article(NewSiteTitle(template, Shown(s.name)), BREAKING, NewSiteContent(template, s), [s.id], [NEW_SITE_TAG],
      SlugOf(d.now, d.suffix), d.now, RandomCount(d.views, 500, 100), d.feature > 0.7)
  }

  const BREAKING: JsString := Bmp("速報")
  const SUMMARY: JsString := Bmp("まとめ")
  const RANKING: JsString := Bmp("ランキング")
  const NEW_SITE_TAG: JsString := Bmp("新規オープン")

  /**
   * A breaking-news article is about its one site, under 速報 with the
   * new-site tag, published now with 100 to 599 views, and its title names
   * the site in one of the two templates.
   */
  lemma NewSiteArticleFields(s: Site, d: Draw)
    ensures var r := NewSiteArticle(s, d);
      && r[Category] == Text(BREAKING)
      && r[RelatedSites] == Texts([s.id])
      && r[Tags] == Texts([NEW_SITE_TAG])
      && r[PublishedAt] == Timestamp(d.now)
      && r[ViewCount].Num? && 100 <= r[ViewCount].num < 600
      && r[IsPublished] == Flag(true)
      && r[IsFeatured] == Flag(d.feature > 0.7)
      && r[Title].Text? && Includes(r[Title].text, Shown(s.name))
  {
    NewSiteTitleNames(ImageGenerator.RandomIndex(d.pick, 2), Shown(s.name));
  }

  lemma NewSiteTitleNames(template: int, name: JsString)
    ensures Includes(NewSiteTitle(template, name), name)
  {
    if template == 0 {
      IncludesConcat(Bmp("【速報】"), name, Bmp("が新規オープン！南関競馬予想に特化"));
    } else {
      IncludesConcat(Bmp("【新着】"), name, Bmp(" - 競馬予想サイトが新登場"));
    }
  }

  // ---------------------------------------------------------------------
  // Forum-thread summary
  // ---------------------------------------------------------------------

  /** One post of the quoted thread. */
  datatype Post = Post(number: int, name: JsString, date: JsString, content: JsString)

  /** `${res.number}: ${res.name} ${res.date}\n${res.content}\n\n` */
  function Block(p: Post): JsString {
    IntToString(p.number) + Bmp(": ") + p.name + [0x20] + p.date + [0x0A] + p.content + Bmp("\n\n")
  }

  /** The blocks of the posts, one after another. */
  function Thread(posts: seq<Post>): JsString {
    Blocks((n: int, p: Post) => Block(p), posts, 1)
  }

  /** `responses.forEach(res => { threadContent += ... })` */
  method ThreadText(posts: seq<Post>) returns (text: JsString)
    ensures text == Thread(posts)
  {
    ghost var f := (n: int, p: Post) => Block(p);
    text := [];
    var i := 0;
    while i < |posts|
      invariant 0 <= i <= |posts|
      invariant text == Blocks(f, posts[..i], 1)
    {
      BlocksSnoc(f, posts, i, 1);
      text := text + Block(posts[i]);
      i := i + 1;
    }
    assert posts[..|posts|] == posts;
  }

  /** Post `i`'s block stands between the blocks of the posts before and after it. */
  lemma ThreadAt(posts: seq<Post>, i: int)
    requires 0 <= i < |posts|
    ensures Thread(posts) == Thread(posts[..i]) + Block(posts[i]) + Thread(posts[i + 1..])
  {
    var f := (n: int, p: Post) => Block(p);
    BlocksAt(f, posts, i, 1);
    BlocksRenumbered(f, posts[i + 1..], i + 2, 1);
    BlocksRenumbered(f, posts[..i], 1, 1);
  }

  const POSTER: JsString := Bmp("名無しの競馬ファン")

  /** The six quoted posts; only the first mentions the site. */
  function Posts(name: JsString): (r: seq<Post>)
    ensures |r| == 6
  {
    [
      Post(1, POSTER, Bmp("2025/12/11(水) 12:34:56"), name + Bmp("使ってる人いる？")),
      Post(2, POSTER, Bmp("2025/12/11(水) 12:36:12"), Bmp("使ってるけど全然当たらんwww")),
      Post(3, POSTER, Bmp("2025/12/11(水) 12:37:45"), Bmp(">>2\nマジか、俺も先週登録したけどやめとくわ")),
      Post(5, POSTER, Bmp("2025/12/11(水) 12:40:23"), Bmp("無料予想は当たるけど有料は微妙だった")),
      Post(8, POSTER, Bmp("2025/12/11(水) 12:45:12"), Bmp("高額プラン勧められて萎えた")),
      Post(12, POSTER, Bmp("2025/12/11(水) 13:01:34"), Bmp("他のサイトの方がマシだわ"))
    ]
  }

  const SUMMARY_HEAD: JsString := Bmp("\n## スレまとめ\n\n")

  /** The summary body: a heading, the thread, and the verdict with a link to the site. */
  function SummaryContent(s: Site, thread: JsString): JsString {
    SUMMARY_HEAD + thread + SummaryTail(s)
  }

  function SummaryTail(s: Site): JsString {
    Bmp("\n\n### まとめ\n") + Shown(s.name)
    + Bmp("は無料予想の評判は良いが、有料情報は期待外れという声が多い。\n高額プランへの誘導が強いため、慎重に判断する必要がありそうです。\n\n関連: [")
    + Shown(s.name) + Bmp("の詳細](") + Shown(s.url) + Bmp(")\n")
  }

  /** `generateSummaryArticle(site)`; the slug is drawn from the site name. */
  function SummaryArticle(s: Site, d: Draw): Fields {
    Article(SummaryTitle(Shown(s.name)), SUMMARY, SummaryContent(s, Thread(Posts(Shown(s.name)))), [s.id], [],
      SlugOf(d.now, d.suffix), d.now, RandomCount(d.views, 1000, 500), false)
  }

  function SummaryTitle(name: JsString): JsString {
    Bmp("【まとめ】") + name + Bmp("の評判まとめ【5ch転載】")
  }

  /**
   * The summary is a never-featured まとめ article about its site, with no
   * tags and 500 to 1499 views; its body quotes every post's block.
   */
  lemma SummaryArticleFields(s: Site, d: Draw, i: int)
    requires 0 <= i < 6
    ensures var r := SummaryArticle(s, d);
      && r[Category] == Text(SUMMARY)
      && r[RelatedSites] == Texts([s.id])
      && r[Tags] == Texts([])
      && r[IsFeatured] == Flag(false)
      && r[ViewCount].Num? && 500 <= r[ViewCount].num < 1500
      && r[Content].Text? && Includes(r[Content].text, Block(Posts(Shown(s.name))[i]))
  {
    var posts := Posts(Shown(s.name));
    var thread := Thread(posts);
    ThreadAt(posts, i);
    IncludesConcat(Thread(posts[..i]), Block(posts[i]), Thread(posts[i + 1..]));
    SummaryIncludesThread(s, thread);
    IncludesTransitive(SummaryContent(s, thread), thread, Block(posts[i]));
  }

  lemma SummaryIncludesThread(s: Site, thread: JsString)
    ensures Includes(SummaryContent(s, thread), thread)
  {
    IncludesConcat(SUMMARY_HEAD, thread, SummaryTail(s));
  }

  // ---------------------------------------------------------------------
  // Weekly ranking
  // ---------------------------------------------------------------------

  const RANKING_HEAD: JsString := Bmp("# 今週の競馬予想サイトランキング TOP10\n\n今週最も注目を集めた競馬予想サイトのランキングを発表します！\n\n")
  const RANKING_FOOT: JsString := Bmp("\n※ランキングは当サイトのアクセス数を元に集計しています\n")

  /** A site's entry at rank `rank`: a heading, its category and its link. */
  function Entry(rank: int, s: Site): JsString {
    Bmp("## ") + IntToString(rank) + Bmp("位: ") + Shown(s.name) + Bmp("\n\n")
    + Bmp("- カテゴリ: ") + Shown(s.category) + [0x0A]
    + Bmp("- [公式サイト](") + Shown(s.url) + Bmp(")\n\n")
  }

  /** The entries of `sites` numbered from `first` on. */
  function Entries(sites: seq<Site>, first: int): JsString {
    Blocks(Entry, sites, first)
  }

  /** The ranking body: the heading lines, the numbered entries, the note. */
  function RankingBody(sites: seq<Site>): JsString {
    RANKING_HEAD + Entries(sites, 1) + RANKING_FOOT
  }

  /** The ranking body, built by `+=` over the sites in query order. */
  method RankingText(sites: seq<Site>) returns (text: JsString)
    ensures text == RankingBody(sites)
  {
    var body: JsString := [];
    var i := 0;
    while i < |sites|
      invariant 0 <= i <= |sites|
      invariant body == Blocks(Entry, sites[..i], 1)
    {
      BlocksSnoc(Entry, sites, i, 1);
      body := body + Entry(i + 1, sites[i]);
      i := i + 1;
    }
    assert sites[..|sites|] == sites;
    text := RANKING_HEAD + body + RANKING_FOOT;
  }

  /** Site `i` of the query stands at rank `i + 1`, after the sites before it. */
  lemma EntryAt(sites: seq<Site>, i: int)
    requires 0 <= i < |sites|
    ensures Entries(sites, 1) == Entries(sites[..i], 1) + Entry(i + 1, sites[i]) + Entries(sites[i + 1..], i + 2)
  {
    BlocksAt(Entry, sites, i, 1);
  }

  // ---------------------------------------------------------------------
  // Numbered blocks
  // ---------------------------------------------------------------------

  /** `f(first, xs[0]) + f(first + 1, xs[1]) + ...` */
  function Blocks<T>(f: (int, T) -> JsString, xs: seq<T>, first: int): JsString
    decreases |xs|
  {
    if xs == [] then [] else f(first, xs[0]) + Blocks(f, xs[1..], first + 1)
  }

  /** Numbering goes on across two lists. */
  lemma {:induction false} BlocksAppend<T>(f: (int, T) -> JsString, a: seq<T>, b: seq<T>, first: int)
    ensures Blocks(f, a + b, first) == Blocks(f, a, first) + Blocks(f, b, first + |a|)
    decreases |a|
  {
    if a == [] {
      assert a + b == b;
    } else {
      assert (a + b)[0] == a[0];
      assert (a + b)[1..] == a[1..] + b;
      BlocksAppend(f, a[1..], b, first + 1);
    }
  }

  /** Extending the prefix by one element appends that element's block with the next number. */
  lemma BlocksSnoc<T>(f: (int, T) -> JsString, xs: seq<T>, i: int, first: int)
    requires 0 <= i < |xs|
    ensures Blocks(f, xs[..i + 1], first) == Blocks(f, xs[..i], first) + f(first + i, xs[i])
  {
    assert xs[..i + 1] == xs[..i] + [xs[i]];
    BlocksAppend(f, xs[..i], [xs[i]], first);
    assert Blocks(f, [xs[i]], first + i) == f(first + i, xs[i]) + Blocks(f, [], first + i + 1);
  }

  /** Element `i`'s block stands between those of the elements before and after it. */
  lemma BlocksAt<T>(f: (int, T) -> JsString, xs: seq<T>, i: int, first: int)
    requires 0 <= i < |xs|
    ensures Blocks(f, xs, first) == Blocks(f, xs[..i], first) + f(first + i, xs[i]) + Blocks(f, xs[i + 1..], first + i + 1)
  {
    assert xs == xs[..i] + xs[i..];
    BlocksAppend(f, xs[..i], xs[i..], first);
    assert xs[i..][0] == xs[i] && xs[i..][1..] == xs[i + 1..];
  }

  /** Blocks that ignore their number do not depend on where the numbering starts. */
  lemma {:induction false} BlocksRenumbered<T>(f: (int, T) -> JsString, xs: seq<T>, m: int, n: int)
    requires forall k: int, x: T :: f(k, x) == f(0, x)
    ensures Blocks(f, xs, m) == Blocks(f, xs, n)
    decreases |xs|
  {
    if xs != [] {
      BlocksRenumbered(f, xs[1..], m + 1, n + 1);
    }
  }

  /** `sites.map(s => s.id).slice(0, 3)` */
  function TopIds(sites: seq<Site>): (r: seq<JsString>)
    ensures |r| == Min(3, |sites|)
    ensures forall i | 0 <= i < |r| :: r[i] == sites[i].id
  {
    var ids := seq(|sites|, i requires 0 <= i < |sites| => sites[i].id);
    ids[..Min(3, |sites|)]
  }

  /** `generateWeeklyRanking()` once the sites are fetched. */
  function RankingArticle(sites: seq<Site>, d: Draw): Fields {
    Article(RANKING_TITLE, RANKING, RankingBody(sites), TopIds(sites), [],
      WEEKLY_PREFIX + IntToString(d.now), d.now, RandomCount(d.views, 2000, 1000), true)
  }

  const RANKING_TITLE: JsString := Bmp("【週間】競馬予想サイトランキング TOP10")
  const WEEKLY_PREFIX: JsString := Bmp("weekly-ranking-")

  /**
   * The ranking is a featured ランキング article related to the first three
   * sites at most, with 1000 to 2999 views, and its slug carries the time.
   */
  lemma RankingArticleFields(sites: seq<Site>, d: Draw)
    ensures var r := RankingArticle(sites, d);
      && r[Category] == Text(RANKING)
      && r[RelatedSites].Texts? && |r[RelatedSites].texts| <= 3
      && r[RelatedSites].texts == TopIds(sites)
      && r[IsFeatured] == Flag(true)
      && r[ViewCount].Num? && 1000 <= r[ViewCount].num < 3000
      && r[Slug].Text? && StartsWith(r[Slug].text, WEEKLY_PREFIX)
  {
  }

  // ---------------------------------------------------------------------
  // Main
  // ---------------------------------------------------------------------

  /** `new Date().getDay() === 1` */
  predicate IsMonday(weekday: int) {
    weekday == 1
  }

  /** How sites become articles; the script uses `Writers()`. */
  datatype Writer = Writer(news: (Site, Draw) -> Fields, summary: (Site, Draw) -> Fields, ranking: (seq<Site>, Draw) -> Fields)

  function Writers(): Writer {
    Writer((s: Site, d: Draw) => NewSiteArticle(s, d), (s: Site, d: Draw) => SummaryArticle(s, d), (xs: seq<Site>, d: Draw) => RankingArticle(xs, d))
  }

  /**
   * The articles `main` saves before it looks at the weekday, in order:
   * one per new site, then the summary about a random one when there is a
   * site.
   */
  function Early(wr: Writer, sites: seq<Site>, siteDraws: seq<Draw>, summaryPick: Random, summaryDraw: Draw): seq<Fields>
    requires |siteDraws| == |sites|
  {
    var news := seq(|sites|, i requires 0 <= i < |sites| => wr.news(sites[i], siteDraws[i]));
    if sites == [] then news else news + [wr.summary(sites[ImageGenerator.RandomIndex(summaryPick, |sites|)], summaryDraw)]
  }

  /** Site `i`'s article comes `i`-th, and the summary, when there is a site, is about one of them. */
  lemma EarlyShape(wr: Writer, sites: seq<Site>, siteDraws: seq<Draw>, summaryPick: Random, summaryDraw: Draw)
    requires |siteDraws| == |sites|
    ensures var r := Early(wr, sites, siteDraws, summaryPick, summaryDraw);
      && |r| == |sites| + (if sites == [] then 0 else 1)
      && (forall i | 0 <= i < |sites| :: r[i] == wr.news(sites[i], siteDraws[i]))
      && (sites != [] ==> exists j | 0 <= j < |sites| :: r[|sites|] == wr.summary(sites[j], summaryDraw))
  {
    if sites != [] {
      var r := Early(wr, sites, siteDraws, summaryPick, summaryDraw);
      var j := ImageGenerator.RandomIndex(summaryPick, |sites|);
      assert r[|sites|] == wr.summary(sites[j], summaryDraw);
    }
  }

  /** What one create call does: the id it is given and whether it succeeds. */
  datatype Save = Save(id: JsString, reached: bool)

  /** The rows after the saves so far, how many succeeded, and whether one threw. */
  datatype Progress = Progress(rows: map<JsString, Fields>, saved: nat, aborted: bool)

  /** `await saveNewsArticle(article)`: a failed create rethrows and ends the run. */
  function SaveStep(p: Progress, f: Fields, s: Save): Progress {
    if p.aborted then p
    else if s.reached && s.id !in p.rows then Progress(p.rows[s.id := f], p.saved + 1, false)
    else p.(aborted := true)
  }

  /** The first `k` saves of `articles`. */
  function SaveAll(rows: map<JsString, Fields>, articles: seq<Fields>, saves: seq<Save>, k: int): (p: Progress)
    requires |saves| >= |articles| && 0 <= k <= |articles|
    ensures p.saved <= k
    ensures !p.aborted ==> p.saved == k
  {
    if k == 0 then Progress(rows, 0, false) else SaveStep(SaveAll(rows, articles, saves, k - 1), articles[k - 1], saves[k - 1])
  }

  lemma SaveAllStep(rows: map<JsString, Fields>, articles: seq<Fields>, saves: seq<Save>, k: int)
    requires |saves| >= |articles| && 0 <= k < |articles|
    ensures SaveAll(rows, articles, saves, k + 1) == SaveStep(SaveAll(rows, articles, saves, k), articles[k], saves[k])
  {
  }

  /** Once a save has thrown, nothing further happens. */
  lemma {:induction false} AbortedStays(rows: map<JsString, Fields>, articles: seq<Fields>, saves: seq<Save>, j: int, k: int)
    requires |saves| >= |articles| && 0 <= j <= k <= |articles|
    requires SaveAll(rows, articles, saves, j).aborted
    ensures SaveAll(rows, articles, saves, k) == SaveAll(rows, articles, saves, j)
    decreases k - j
  {
    if j < k {
      AbortedStays(rows, articles, saves, j, k - 1);
    }
  }

  /**
   * Saves go through in order until the first failure: without one, all
   * `k` articles are stored; after one, nothing more is stored.  Each
   * successful save adds one record and stored records are never
   * replaced.
   */
  lemma {:induction false} SaveAllCounts(rows: map<JsString, Fields>, articles: seq<Fields>, saves: seq<Save>, k: int)
    requires |saves| >= |articles| && 0 <= k <= |articles|
    ensures var p := SaveAll(rows, articles, saves, k);
      && |p.rows.Keys| == |rows.Keys| + p.saved
      && (forall id | id in rows :: id in p.rows && p.rows[id] == rows[id])
  {
    if k > 0 {
      SaveAllCounts(rows, articles, saves, k - 1);
      SaveStepCounts(SaveAll(rows, articles, saves, k - 1), articles[k - 1], saves[k - 1]);
    }
  }

  /** A successful save adds exactly its record; any save keeps the stored ones. */
  lemma SaveStepCounts(p: Progress, f: Fields, s: Save)
    ensures var q := SaveStep(p, f, s);
      && |q.rows.Keys| == |p.rows.Keys| + (q.saved - p.saved)
      && p.saved <= q.saved <= p.saved + 1
      && (forall id | id in p.rows :: id in q.rows && q.rows[id] == p.rows[id])
      && (q.saved > p.saved ==> s.id in q.rows && q.rows[s.id] == f)
  {
    if !p.aborted && s.reached && s.id !in p.rows {
      assert p.rows[s.id := f].Keys == p.rows.Keys + {s.id};
    }
  }

  /** After a failure the run stopped right at the failing save: the ones before it all went through. */
  lemma {:induction false} FirstFailure(rows: map<JsString, Fields>, articles: seq<Fields>, saves: seq<Save>, k: int)
    requires |saves| >= |articles| && 0 <= k <= |articles|
    requires SaveAll(rows, articles, saves, k).aborted
    ensures var p := SaveAll(rows, articles, saves, k);
      && p.saved < k
      && !SaveAll(rows, articles, saves, p.saved).aborted
      && SaveAll(rows, articles, saves, p.saved + 1) == p
  {
    var q := SaveAll(rows, articles, saves, k - 1);
    if q.aborted {
      FirstFailure(rows, articles, saves, k - 1);
    }
  }

  /** The saved articles are exactly the first ones, each under the id its create call was given. */
  lemma {:induction false} SaveAllStores(rows: map<JsString, Fields>, articles: seq<Fields>, saves: seq<Save>, k: int)
    requires |saves| >= |articles| && 0 <= k <= |articles|
    ensures var p := SaveAll(rows, articles, saves, k);
      forall i | 0 <= i < p.saved :: saves[i].id in p.rows && p.rows[saves[i].id] == articles[i]
  {
    if k > 0 {
      SaveAllStores(rows, articles, saves, k - 1);
      var q := SaveAll(rows, articles, saves, k - 1);
      SaveStepCounts(q, articles[k - 1], saves[k - 1]);
    }
  }

  /** Saves `articles` in order and stops at the first failure. */
  method SaveInOrder(table: Table, articles: seq<Fields>, saves: seq<Save>) returns (aborted: bool)
    requires |saves| >= |articles|
    modifies table
    ensures var p := SaveAll(old(table.rows), articles, saves, |articles|);
      aborted == p.aborted && table.rows == p.rows
  {
    var i := 0;
    while i < |articles|
      invariant 0 <= i <= |articles|
      invariant var p := SaveAll(old(table.rows), articles, saves, i);
        !p.aborted && table.rows == p.rows
    {
      var ok := table.Create(saves[i].id, articles[i], saves[i].reached);
      SaveAllStep(old(table.rows), articles, saves, i);
      if !ok {
        AbortedStays(old(table.rows), articles, saves, i + 1, |articles|);
        return true;
      }
      i := i + 1;
    }
    aborted := false;
  }

  /** How the run ends: `process.exit(1)` from the catch, or normally. */
  datatype Outcome = Exit(code: int) | Done

  /** The answers of the Sites queries, the random values, the weekday and the create calls. */
  datatype World = World(
    newSites: Option<seq<Site>>, siteDraws: seq<Draw>, summaryPick: Random, summaryDraw: Draw,
    weekday: int, ranking: Option<seq<Site>>, rankingDraw: Draw, saves: seq<Save>)

  predicate ValidWorld(w: World) {
    w.newSites.Some? ==> |w.siteDraws| == |w.newSites.value| && |w.saves| == |w.newSites.value| + 2
  }

  function EarlyOf(wr: Writer, w: World): seq<Fields>
    requires ValidWorld(w) && w.newSites.Some?
  {
    Early(wr, w.newSites.value, w.siteDraws, w.summaryPick, w.summaryDraw)
  }

  /**
   * `main()`: a failed first Sites query ends the run with exit code 1
   * before any save; the breaking news and the summary are saved in turn
   * and the first failed save ends the run with code 1; then, on Mondays
   * only, the ranking is fetched and saved, and a failure there ends the
   * run with code 1 too.
   */
  method Run(table: Table, wr: Writer, w: World) returns (outcome: Outcome)
    requires ValidWorld(w)
    modifies table
    ensures w.newSites.None? ==> outcome == Exit(1) && table.rows == old(table.rows)
    ensures w.newSites.Some? ==>
      var e := SaveAll(old(table.rows), EarlyOf(wr, w), w.saves, |EarlyOf(wr, w)|);
      if e.aborted then outcome == Exit(1) && table.rows == e.rows
      else if !IsMonday(w.weekday) then outcome == Done && table.rows == e.rows
      else if w.ranking.None? then outcome == Exit(1) && table.rows == e.rows
      else
        var last := SaveStep(e, wr.ranking(w.ranking.value, w.rankingDraw), w.saves[|EarlyOf(wr, w)|]);
        table.rows == last.rows && outcome == (if last.aborted then Exit(1) else Done)
  {
    if w.newSites.None? {
      return Exit(1);
    }
    var early := EarlyOf(wr, w);
    EarlyShape(wr, w.newSites.value, w.siteDraws, w.summaryPick, w.summaryDraw);
    var aborted := SaveInOrder(table, early, w.saves);
    if aborted {
      return Exit(1);
    }
    if !IsMonday(w.weekday) {
      return Done;
    }
    if w.ranking.None? {
      return Exit(1);
    }
    var s := w.saves[|early|];
    var ok := table.Create(s.id, wr.ranking(w.ranking.value, w.rankingDraw), s.reached);
    outcome := if ok then Done else Exit(1);
  }
}
