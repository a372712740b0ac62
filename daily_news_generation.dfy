/**
 * The daily job: depending on the mode it saves scraped news items, then
 * generates AI articles (which may quote the scraped titles), and reports
 * how many records it created.
 */
module DailyNewsGeneration {
  import opened Js
  import opened Store
  import Scraping
  import Excerpt
  import ImageGenerator
  import AiArticles

  // ---------------------------------------------------------------------
  // Mode
  // ---------------------------------------------------------------------

  /** `process.env.MODE || 'both'` */
  function Mode(env: Option<JsString>): JsString {
    OrElse(env, Bmp("both"))
  }

  predicate RunsScraping(mode: JsString) {
    mode == Bmp("scrape") || mode == Bmp("both")
  }

  predicate RunsAi(mode: JsString) {
    mode == Bmp("ai") || mode == Bmp("both")
  }

  /** Without a mode both parts run. */
  lemma DefaultModeRunsBoth()
    ensures RunsScraping(Mode(None)) && RunsAi(Mode(None))
    ensures RunsScraping(Mode(Some(Bmp("scrape")))) && !RunsAi(Mode(Some(Bmp("scrape"))))
    ensures !RunsScraping(Mode(Some(Bmp("ai")))) && RunsAi(Mode(Some(Bmp("ai"))))
  {
    assert Bmp("scrape")[0] != Bmp("both")[0] && Bmp("scrape")[0] != Bmp("ai")[0];
    assert Bmp("ai")[0] != Bmp("both")[0];
  }

  // ---------------------------------------------------------------------
  // Templates, topics and the fallback images
  // ---------------------------------------------------------------------

  /** A title template `prefix{topic}suffix`, its category and tags. */
  datatype Template = Template(prefix: JsString, suffix: JsString, category: JsString, tags: seq<JsString>)

  function TitleTemplate(t: Template): JsString {
    t.prefix + AiArticles.PLACEHOLDER + t.suffix
  }

  const TEMPLATES: seq<Template> := [
    Template(Bmp("【初心者向け】"), Bmp("の選び方ガイド"), Bmp("ガイド"), [Bmp("初心者向け"), Bmp("選び方")]),
    Template(Bmp("【2025年版】"), Bmp("おすすめランキングTOP5"), Bmp("ランキング"), [Bmp("おすすめ"), Bmp("ランキング")]),
    Template(Bmp("【速報】"), Bmp("に関する最新情報"), Bmp("ニュース"), [Bmp("最新情報")]),
    Template(Bmp("【必読】"), Bmp("で成功するための5つのコツ"), Bmp("ガイド"), [Bmp("ノウハウ"), Bmp("初心者向け")]),
    Template(Bmp("【徹底比較】"), Bmp("：どちらを選ぶべき？"), Bmp("まとめ"), [Bmp("比較"), Bmp("選び方")])
  ]

  const TOPICS: seq<JsString> := [
    Bmp("競馬予想サイトの選び方"),
    Bmp("無料予想と有料予想の違い"),
    Bmp("南関競馬予想サイト"),
    Bmp("地方競馬予想サイト"),
    Bmp("JRA（中央競馬）予想サイト"),
    Bmp("競馬予想サイトの的中率"),
    Bmp("悪質な競馬予想サイトの見分け方"),
    Bmp("競馬予想AIと人間予想家"),
    Bmp("競馬初心者向け予想サイト"),
    Bmp("高額配当を狙える予想サイト")
  ]

  /** Every template's prefix is free of `{`, so its title has the topic in place. */
  lemma TemplateTitles(i: int, topic: JsString)
    requires 0 <= i < |TEMPLATES|
    ensures AiArticles.Title(TitleTemplate(TEMPLATES[i]), topic)
      == TEMPLATES[i].prefix + topic + TEMPLATES[i].suffix
  {
    var p := TEMPLATES[i].prefix;
    assert forall j | 0 <= j < |p| :: p[j] != AiArticles.BRACE;
    AiArticles.TitleFillsPlaceholder(p, TEMPLATES[i].suffix, topic);
  }

  const NEWS_PHOTO: JsString := ImageGenerator.Photo(ImageGenerator.PhotoId(1504711434969, 0xe33886168f5c))

  /** `getFallbackThumbnailUrl(category)`: a fixed photo per category, the news one otherwise. */
  function FallbackThumbnail(category: JsString): (r: JsString)
    ensures StartsWith(r, ImageGenerator.PHOTO_PREFIX)
    ensures !(category in FALLBACK_CATEGORIES) ==> r == NEWS_PHOTO
  {
    if category == Bmp("ニュース") then NEWS_PHOTO
    else if category == Bmp("ランキング") then ImageGenerator.Photo(ImageGenerator.PhotoId(1552566626, 0x52f8b828add9))
    else if category == Bmp("ガイド") then ImageGenerator.Photo(ImageGenerator.PhotoId(1456513080510, 0x7bf3a84b82f8))
    else if category == Bmp("まとめ") then ImageGenerator.Photo(ImageGenerator.PhotoId(1484480974693, 0x6ca0a78fb36b))
    else if category == Bmp("速報") then ImageGenerator.Photo(ImageGenerator.PhotoId(1495020689067, 0x958852a7765e))
    else if category == Bmp("炎上") then ImageGenerator.Photo(ImageGenerator.PhotoId(1525268771113, 0x32d9e9021a97))
    else if category == Bmp("G1レース") then ImageGenerator.Photo(ImageGenerator.PhotoId(1624526267942, 0xab0ff8a3e972))
    else NEWS_PHOTO
  }

  const FALLBACK_CATEGORIES: set<JsString> := {
    Bmp("ニュース"), Bmp("ランキング"), Bmp("ガイド"), Bmp("まとめ"), Bmp("速報"), Bmp("炎上"), Bmp("G1レース")
  }

  // ---------------------------------------------------------------------
  // One AI article
  // ---------------------------------------------------------------------

  /** One `- title` line per scraped item, for the first five items. */
  function ContextLines(scraped: seq<Scraping.Scraped>): (r: seq<JsString>)
    ensures |r| == Min(5, |scraped|)
    ensures forall i | 0 <= i < |r| :: r[i] == Bmp("- ") + scraped[i].title
  {
    var n := Min(5, |scraped|);
    seq(n, i requires 0 <= i < n => Bmp("- ") + scraped[i].title)
  }

  /** The "today's news" part of the prompt: empty without scraped items. */
  function NewsContext(scraped: seq<Scraping.Scraped>): (r: JsString)
    ensures r == [] <==> scraped == []
  {
    if |scraped| > 0 then Bmp("\n\n参考情報（本日の競馬ニュース）:\n") + Join(ContextLines(scraped), Bmp("\n")) + Bmp("\n")
    else []
  }

  /** The context lists each of the first five scraped titles, and no more than five. */
  lemma ContextListsFirstFive(scraped: seq<Scraping.Scraped>, i: int)
    requires 0 <= i < Min(5, |scraped|)
    ensures |ContextLines(scraped)| <= 5
    ensures Includes(NewsContext(scraped), Bmp("- ") + scraped[i].title)
  {
    var lines := ContextLines(scraped);
    JoinIncludesEach(lines, Bmp("\n"), i);
    IncludesWithin(Bmp("\n\n参考情報（本日の競馬ニュース）:\n"), Join(lines, Bmp("\n")), Bmp("\n"), lines[i]);
  }

  /** What the model is asked: the topic and the context. */
  datatype Request = Request(topic: JsString, newsContext: JsString)

  /**
   * What the world does in one iteration: the random draws, the model's
   * answer (`None` when the call fails), what `generateAndUploadThumbnail`
   * resolved to (`None` for `null`), the slug, the day, the id the service
   * assigns and whether the create request succeeds.
   */
  datatype Draw = Draw(
    templateDraw: real, topicDraw: real, content: Option<JsString>, thumbnail: Option<JsString>,
    featureDraw: real, slug: JsString, day: int, id: JsString, saveReached: bool)

  predicate ValidDraw(d: Draw) {
    AiArticles.IsRandom(d.templateDraw) && AiArticles.IsRandom(d.topicDraw) && AiArticles.IsRandom(d.featureDraw)
  }

  /** The thumbnail URL: the generated one, or the category's fallback when that is falsy. */
  function ThumbnailUrl(t: Template, generated: Option<JsString>): (r: JsString)
    ensures IsTruthy(generated) ==> r == generated.value
    ensures !IsTruthy(generated) ==> r == FallbackThumbnail(t.category)
    ensures r != []
  {
    var r := OrElse(generated, FallbackThumbnail(t.category));
    assert StartsWith(FallbackThumbnail(t.category), ImageGenerator.PHOTO_PREFIX);
    r
  }

  /**
   * When the image generator answers as `ImageGenerator.Thumbnail` says, it
   * always yields a photo for a titled article, so the fallback is never used.
   */
  lemma FallbackNeverUsed(t: Template, title: JsString, rnd: real)
    requires AiArticles.IsRandom(rnd)
    ensures var g := ImageGenerator.Thumbnail(t.category, Some(title), None, rnd);
      && ThumbnailUrl(t, g) == g.value
      && ThumbnailUrl(t, g) in ImageGenerator.Pool(ImageGenerator.UnsplashKeyword(t.category, title))
  {
    var g := ImageGenerator.Thumbnail(t.category, Some(title), None, rnd);
    assert StartsWith(g.value, ImageGenerator.PHOTO_PREFIX);
    assert |ImageGenerator.PHOTO_PREFIX| > 0;
  }

  /**
   * The fields of a generated article other than its thumbnail, given its
   * title, excerpt and trimmed body.
   */
  function ArticleBase(t: Template, title: JsString, excerpt: JsString, body: JsString, d: Draw): Fields {
    map[
      Title := Text(title),
      Slug := Text(d.slug),
      Category := Text(t.category),
      Excerpt := Text(excerpt),
      Content := Text(body),
      Tags := Texts(t.tags),
      PublishedAt := Day(d.day),
      Status := Text(AiArticles.PUBLISHED),
      IsFeatured := Flag(d.featureDraw < AiArticles.FEATURED_RATE),
      Author := Text(AiArticles.AI_EDITORS)
    ]
  }

  /** The record of a generated article (`generateArticleWithAI`). */
  function AiArticle(t: Template, topic: JsString, content: JsString, d: Draw): Fields {
    var title := AiArticles.Title(TitleTemplate(t), topic);
    var thumb := ThumbnailUrl(t, d.thumbnail);
    var article := ArticleBase(t, title, Excerpt.Derive(content), Trim(content), d);
    if thumb != [] then article[Thumbnail := Files([Attachment(Some(thumb), None)])] else article
  }

  lemma ArticleBaseFields(t: Template, title: JsString, excerpt: JsString, body: JsString, d: Draw, b: Fields)
    requires b == ArticleBase(t, title, excerpt, body, d)
    ensures Category in b && b[Category] == Text(t.category)
    ensures Tags in b && b[Tags] == Texts(t.tags)
    ensures Author in b && b[Author] == Text(AiArticles.AI_EDITORS)
    ensures Status in b && b[Status] == Text(AiArticles.PUBLISHED)
    ensures Excerpt in b && b[Excerpt] == Text(excerpt)
    ensures Content in b && b[Content] == Text(body)
    ensures Thumbnail !in b
  {
  }

  /**
   * A generated article keeps the template's category and tags, has a
   * one-line excerpt of at most 200 code units and always a thumbnail
   * attachment: the generated photo, or the category's fallback photo.
   */
  lemma AiArticleFields(t: Template, topic: JsString, content: JsString, d: Draw, r: Fields)
    requires r == AiArticle(t, topic, content, d)
    ensures Category in r && r[Category] == Text(t.category)
    ensures Tags in r && r[Tags] == Texts(t.tags)
    ensures Author in r && r[Author] == Text(AiArticles.AI_EDITORS)
    ensures Status in r && r[Status] == Text(AiArticles.PUBLISHED)
    ensures Excerpt in r && r[Excerpt].Text? && |r[Excerpt].text| <= Excerpt.EXCERPT_LENGTH
    ensures Excerpt in r && r[Excerpt].Text? && forall i | 0 <= i < |r[Excerpt].text| :: r[Excerpt].text[i] != Excerpt.NEWLINE
    ensures Thumbnail in r && r[Thumbnail] == Files([Attachment(Some(ThumbnailUrl(t, d.thumbnail)), None)])
  {
    var title := AiArticles.Title(TitleTemplate(t), topic);
    var thumb := ThumbnailUrl(t, d.thumbnail);
    var e := Excerpt.Derive(content);
    var b := ArticleBase(t, title, e, Trim(content), d);
    ArticleBaseFields(t, title, e, Trim(content), d, b);
    assert r == b[Thumbnail := Files([Attachment(Some(thumb), None)])];
    assert r[Excerpt] == Text(e);
    Excerpt.DeriveShape(content);
  }

  /**
   * With the image generator's answer for the article's title, the
   * attachment is a photo of the pool for the title's keyword.
   */
  lemma AiArticleThumbnail(t: Template, topic: JsString, content: JsString, d: Draw, rnd: real)
    requires AiArticles.IsRandom(rnd)
    requires d.thumbnail == ImageGenerator.Thumbnail(t.category, Some(AiArticles.Title(TitleTemplate(t), topic)), None, rnd)
    ensures var r := AiArticle(t, topic, content, d);
      && Thumbnail in r && r[Thumbnail].Files? && |r[Thumbnail].files| == 1 && r[Thumbnail].files[0].url.Some?
      && r[Thumbnail].files[0].url.value in ImageGenerator.Pool(ImageGenerator.UnsplashKeyword(t.category, AiArticles.Title(TitleTemplate(t), topic)))
  {
    var title := AiArticles.Title(TitleTemplate(t), topic);
    FallbackNeverUsed(t, title, rnd);
    AiArticleFields(t, topic, content, d, AiArticle(t, topic, content, d));
  }

  // ---------------------------------------------------------------------
  // The AI loop
  // ---------------------------------------------------------------------

  /** The stored rows, the counter and the requests after some iterations. */
  datatype AiTally = AiTally(rows: map<JsString, Fields>, generated: nat, requests: seq<Request>)

  /**
   * How an answer becomes a record: from the template, the topic, the
   * model's text and the draw.
   */
  type Writer = (Template, JsString, JsString, Draw) -> Fields

  /**
   * What the loop draws from and how it writes a record.  The loop is
   * stated for any generator with non-empty lists; the job uses
   * `AiGenerator()`: the module's templates and topics and `AiArticle`.
   */
  datatype Generator = Generator(templates: seq<Template>, topics: seq<JsString>, write: Writer)

  predicate Ready(g: Generator) {
    |g.templates| > 0 && |g.topics| > 0
  }

  function AiGenerator(): (g: Generator)
    ensures Ready(g)
  {
    Generator(TEMPLATES, TOPICS, (t: Template, topic: JsString, content: JsString, d: Draw) => AiArticle(t, topic, content, d))
  }

  function TemplateOf(g: Generator, d: Draw): (r: Template)
    requires Ready(g) && ValidDraw(d)
  {
    AiArticles.Pick(g.templates, d.templateDraw)
  }

  function TopicOf(g: Generator, d: Draw): (r: JsString)
    requires Ready(g) && ValidDraw(d)
  {
    AiArticles.Pick(g.topics, d.topicDraw)
  }

  /** One iteration of `runAIGeneration`'s loop. */
  function AiStep(g: Generator, t: AiTally, scraped: seq<Scraping.Scraped>, d: Draw): AiTally
    requires Ready(g) && ValidDraw(d)
  {
    var request := Request(TopicOf(g, d), NewsContext(scraped));
    match d.content
    case None => t.(requests := t.requests + [request])
    case Some(content) =>
      var article := g.write(TemplateOf(g, d), TopicOf(g, d), content, d);
      var rows' := if d.saveReached && d.id !in t.rows then t.rows[d.id := article] else t.rows;
      AiTally(rows', t.generated + 1, t.requests + [request])
  }

  /** `runAIGeneration` after its first `k` iterations. */
  function AiRun(g: Generator, rows: map<JsString, Fields>, scraped: seq<Scraping.Scraped>, draws: seq<Draw>, k: int): AiTally
    requires 0 <= k <= |draws|
    requires Ready(g)
    requires forall i | 0 <= i < |draws| :: ValidDraw(draws[i])
  {
    if k == 0 then AiTally(rows, 0, [])
    else AiStep(g, AiRun(g, rows, scraped, draws, k - 1), scraped, draws[k - 1])
  }

  /**
   * Every iteration asks the model once, with a listed topic and the same
   * news context; an article is counted when the model answers, whether or
   * not saving it succeeds, so the count never exceeds the iterations.
   */
  lemma {:induction false} AiRunCounts(g: Generator, rows: map<JsString, Fields>, scraped: seq<Scraping.Scraped>, draws: seq<Draw>, k: int)
    requires 0 <= k <= |draws|
    requires Ready(g)
    requires forall i | 0 <= i < |draws| :: ValidDraw(draws[i])
    ensures var t := AiRun(g, rows, scraped, draws, k);
      && t.generated <= k
      && |t.requests| == k
      && (forall i | 0 <= i < k :: t.requests[i].topic in g.topics && t.requests[i].newsContext == NewsContext(scraped))
      && forall id | id in rows :: id in t.rows && t.rows[id] == rows[id]
  {
    if k > 0 {
      AiRunCounts(g, rows, scraped, draws, k - 1);
      AiRunStep(g, rows, scraped, draws, k - 1);
      AiStepCounts(g, AiRun(g, rows, scraped, draws, k - 1), scraped, draws[k - 1]);
    }
  }

  /** One iteration asks once, counts at most one article and keeps every stored row. */
  lemma AiStepCounts(g: Generator, t: AiTally, scraped: seq<Scraping.Scraped>, d: Draw)
    requires Ready(g) && ValidDraw(d)
    ensures var t' := AiStep(g, t, scraped, d);
      && t'.generated <= t.generated + 1
      && t'.requests == t.requests + [Request(TopicOf(g, d), NewsContext(scraped))]
      && forall id | id in t.rows :: id in t'.rows && t'.rows[id] == t.rows[id]
  {
  }

  lemma AiRunStep(g: Generator, rows: map<JsString, Fields>, scraped: seq<Scraping.Scraped>, draws: seq<Draw>, k: int)
    requires 0 <= k < |draws|
    requires Ready(g)
    requires forall i | 0 <= i < |draws| :: ValidDraw(draws[i])
    ensures AiRun(g, rows, scraped, draws, k + 1) == AiStep(g, AiRun(g, rows, scraped, draws, k), scraped, draws[k])
  {
  }

  /** `runAIGeneration(scrapedNews)` */
  method RunAiGeneration(table: Table, g: Generator, anthropicReady: bool, count: Option<int>, scraped: seq<Scraping.Scraped>, draws: seq<Draw>)
    returns (generatedCount: nat, requests: seq<Request>)
    requires |draws| >= AiArticles.Iterations(count)
    requires Ready(g)
    requires forall i | 0 <= i < |draws| :: ValidDraw(draws[i])
    modifies table
    ensures !anthropicReady ==> generatedCount == 0 && requests == [] && table.rows == old(table.rows)
    ensures anthropicReady ==>
      AiTally(table.rows, generatedCount, requests) == AiRun(g, old(table.rows), scraped, draws, AiArticles.Iterations(count))
  {
    if !anthropicReady {
      return 0, [];
    }
    var n := AiArticles.Iterations(count);
    generatedCount, requests := 0, [];
    var i := 0;
    while i < n
      invariant 0 <= i <= n
      invariant AiTally(table.rows, generatedCount, requests) == AiRun(g, old(table.rows), scraped, draws, i)
    {
      generatedCount, requests := AiIteration(table, g, scraped, draws[i], generatedCount, requests);
      AiRunStep(g, old(table.rows), scraped, draws, i);
      i := i + 1;
    }
  }

  /** One pass of the loop: pick, ask, and save when the model answered. */
  method AiIteration(table: Table, g: Generator, scraped: seq<Scraping.Scraped>, d: Draw, generated: nat, requests: seq<Request>)
    returns (generated': nat, requests': seq<Request>)
    requires Ready(g) && ValidDraw(d)
    modifies table
    ensures AiTally(table.rows, generated', requests') == AiStep(g, AiTally(old(table.rows), generated, requests), scraped, d)
  {
    var template := TemplateOf(g, d);
    var topic := TopicOf(g, d);
    requests' := requests + [Request(topic, NewsContext(scraped))];
    generated' := generated;
    match d.content
    case None =>
    case Some(content) =>
      var article := g.write(template, topic, content, d);
      var _ := table.Create(d.id, article, d.saveReached);
      generated' := generated + 1;
  }

  // ---------------------------------------------------------------------
  // Scraping and the job
  // ---------------------------------------------------------------------

  datatype ScrapeResult = ScrapeResult(savedCount: nat, duplicateCount: nat, allArticles: seq<Scraping.Scraped>)

  /**
   * `runScraping()`: `scraped` is what the two scrapers return, `None` when
   * the browser fails, which yields zero counts and no items.
   */
  method RunScraping(table: Table, scraped: Option<seq<Scraping.Scraped>>, draws: seq<Scraping.Draw>)
    returns (r: ScrapeResult)
    requires scraped.Some? ==> |draws| == |scraped.value|
    modifies table
    ensures scraped.None? ==> r == ScrapeResult(0, 0, []) && table.rows == old(table.rows)
    ensures scraped.Some? ==> r.allArticles == scraped.value
    ensures scraped.Some? ==>
      Scraping.Tally(table.rows, r.savedCount, r.duplicateCount)
        == Scraping.Scrape(Scraping.RecordOf(Scraping.Daily), old(table.rows), scraped.value, draws, |scraped.value|)
  {
    if scraped.None? {
      return ScrapeResult(0, 0, []);
    }
    var saved, duplicates := Scraping.SaveEach(table, Scraping.RecordOf(Scraping.Daily), scraped.value, draws);
    r := ScrapeResult(saved, duplicates, scraped.value);
  }

  /** The scraping part of the job: the tally of the save loop, or an empty one on untouched rows when it does not run or the browser fails. */
  function ScrapePart(rows: map<JsString, Fields>, mode: JsString, scraped: Option<seq<Scraping.Scraped>>, draws: seq<Scraping.Draw>): Scraping.Tally
    requires scraped.Some? ==> |draws| == |scraped.value|
  {
    if RunsScraping(mode) && scraped.Some? then Scraping.Scrape(Scraping.RecordOf(Scraping.Daily), rows, scraped.value, draws, |scraped.value|)
    else Scraping.Tally(rows, 0, 0)
  }

  /** The items the AI part is given: the scraped ones, or none when scraping did not run or failed. */
  function SeenItems(mode: JsString, scraped: Option<seq<Scraping.Scraped>>): seq<Scraping.Scraped> {
    if RunsScraping(mode) && scraped.Some? then scraped.value else []
  }

  /** The AI part of the job: the tally of its loop, or an empty one on untouched rows when it does not run or has no key. */
  function AiPart(rows: map<JsString, Fields>, mode: JsString, anthropicReady: bool, countEnv: Option<JsString>, seen: seq<Scraping.Scraped>, draws: seq<Draw>): AiTally
    requires |draws| >= AiArticles.Iterations(AiArticles.ArticleCount(countEnv))
    requires forall i | 0 <= i < |draws| :: ValidDraw(draws[i])
  {
    if RunsAi(mode) && anthropicReady then AiRun(AiGenerator(), rows, seen, draws, AiArticles.Iterations(AiArticles.ArticleCount(countEnv)))
    else AiTally(rows, 0, [])
  }

  /**
   * The job never changes or removes a record that was stored before it:
   * each part only adds records.
   */
  lemma JobKeepsStoredRows(
    rows: map<JsString, Fields>, mode: JsString, scraped: Option<seq<Scraping.Scraped>>, scrapeDraws: seq<Scraping.Draw>,
    anthropicReady: bool, countEnv: Option<JsString>, aiDraws: seq<Draw>)
    requires scraped.Some? ==> |scrapeDraws| == |scraped.value|
    requires |aiDraws| >= AiArticles.Iterations(AiArticles.ArticleCount(countEnv))
    requires forall i | 0 <= i < |aiDraws| :: ValidDraw(aiDraws[i])
    ensures var sp := ScrapePart(rows, mode, scraped, scrapeDraws);
      var ap := AiPart(sp.rows, mode, anthropicReady, countEnv, SeenItems(mode, scraped), aiDraws);
      && sp.saved <= (if scraped.Some? then |scraped.value| else 0)
      && ap.generated <= AiArticles.Iterations(AiArticles.ArticleCount(countEnv))
      && forall id | id in rows :: id in ap.rows && ap.rows[id] == rows[id]
  {
    if RunsScraping(mode) && scraped.Some? {
      Scraping.ScrapeCounts(Scraping.RecordOf(Scraping.Daily), rows, scraped.value, scrapeDraws, |scraped.value|);
    }
    var sp := ScrapePart(rows, mode, scraped, scrapeDraws);
    if RunsAi(mode) && anthropicReady {
      AiRunCounts(AiGenerator(), sp.rows, SeenItems(mode, scraped), aiDraws, AiArticles.Iterations(AiArticles.ArticleCount(countEnv)));
    }
  }

  /** How the job ends: the exit code at start-up, or the two counts it reports. */
  datatype Outcome =
    | Exit(code: int)
    | Summary(scrapeRan: bool, aiRan: bool, savedCount: nat, generatedCount: nat, requests: seq<Request>)

  /**
   * The whole job.  Without Airtable credentials it exits with code 1
   * before doing anything; otherwise scraping runs in modes `scrape` and
   * `both`, AI generation in modes `ai` and `both`, and the AI part sees the
   * scraped items, or none when scraping did not run.
   */
  method Run(
    table: Table, credentialsReady: bool, modeEnv: Option<JsString>,
    scraped: Option<seq<Scraping.Scraped>>, scrapeDraws: seq<Scraping.Draw>,
    anthropicReady: bool, countEnv: Option<JsString>, aiDraws: seq<Draw>)
    returns (outcome: Outcome)
    requires scraped.Some? ==> |scrapeDraws| == |scraped.value|
    requires |aiDraws| >= AiArticles.Iterations(AiArticles.ArticleCount(countEnv))
    requires forall i | 0 <= i < |aiDraws| :: ValidDraw(aiDraws[i])
    modifies table
    ensures !credentialsReady ==> outcome == Exit(1) && table.rows == old(table.rows)
    ensures credentialsReady ==> outcome.Summary?
    ensures outcome.Summary? ==>
      && outcome.scrapeRan == RunsScraping(Mode(modeEnv))
      && outcome.aiRan == RunsAi(Mode(modeEnv))
      && (!outcome.scrapeRan ==> outcome.savedCount == 0)
      && (!outcome.aiRan ==> outcome.generatedCount == 0 && outcome.requests == [])
      && (!anthropicReady ==> outcome.generatedCount == 0)
      && var seen := if outcome.scrapeRan && scraped.Some? then scraped.value else [];
         forall i | 0 <= i < |outcome.requests| :: outcome.requests[i].newsContext == NewsContext(seen)
    ensures credentialsReady ==>
      var mode := Mode(modeEnv);
      var sp := ScrapePart(old(table.rows), mode, scraped, scrapeDraws);
      var ap := AiPart(sp.rows, mode, anthropicReady, countEnv, SeenItems(mode, scraped), aiDraws);
      && table.rows == ap.rows
      && outcome == Summary(RunsScraping(mode), RunsAi(mode), sp.saved, ap.generated, ap.requests)
  {
    if !credentialsReady {
      return Exit(1);
    }
    var mode := Mode(modeEnv);
    var scrapingResult := ScrapeResult(0, 0, []);
    if RunsScraping(mode) {
      scrapingResult := RunScraping(table, scraped, scrapeDraws);
    }
    var generated: nat, requests: seq<Request> := 0, [];
    if RunsAi(mode) {
      var rowsBefore := table.rows;
      generated, requests := RunAiGeneration(table, AiGenerator(), anthropicReady, AiArticles.ArticleCount(countEnv), scrapingResult.allArticles, aiDraws);
      if anthropicReady {
        AiRunCounts(AiGenerator(), rowsBefore, scrapingResult.allArticles, aiDraws, AiArticles.Iterations(AiArticles.ArticleCount(countEnv)));
      }
    }
    outcome := Summary(RunsScraping(mode), RunsAi(mode), scrapingResult.savedCount, generated, requests);
  }
}
