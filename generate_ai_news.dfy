/**
 * The stand-alone AI article generator: it picks a template and a topic per
 * iteration, asks the model with the template's prompt, turns the answer
 * into a News record dated nine hours ahead, attaches the image
 * generator's URL when there is one and saves the record.
 */
module GenerateAiNews {
  import opened Js
  import opened Store
  import Excerpt
  import AiArticles
  import ImageGenerator

  // ---------------------------------------------------------------------
  // Templates
  // ---------------------------------------------------------------------

  /**
   * An article template: the title `prefix{topic}suffix`, the category,
   * the tags and the prompt text sent to the model.
   */
  datatype NewsTemplate = NewsTemplate(prefix: JsString, suffix: JsString, category: JsString, tags: seq<JsString>, prompt: JsString)

  function TitleTemplate(t: NewsTemplate): JsString {
    t.prefix + AiArticles.PLACEHOLDER + t.suffix
  }

  /**
   * The five templates, with their prompt texts given in the same order
   * (how-to, ranking, news, tips, comparison).
   */
  function Templates(prompts: seq<JsString>): (r: seq<NewsTemplate>)
    requires |prompts| == 5
    ensures |r| == 5
    ensures forall i | 0 <= i < 5 :: r[i].prompt == prompts[i] && AiArticles.NoBrace(r[i].prefix)
  {
    var r := [
      NewsTemplate(Bmp("【初心者向け】"), Bmp("の選び方ガイド"), Bmp("ニュース"), [Bmp("初心者向け"), Bmp("ガイド")], prompts[0]),
      NewsTemplate(Bmp("【2025年版】"), Bmp("おすすめランキングTOP5"), Bmp("ランキング"), [Bmp("ランキング"), Bmp("おすすめ")], prompts[1]),
      NewsTemplate(Bmp("【速報】"), Bmp("に関する最新情報"), Bmp("速報"), [Bmp("速報"), Bmp("最新情報")], prompts[2]),
      NewsTemplate(Bmp("【必読】"), Bmp("で成功するための5つのコツ"), Bmp("ニュース"), [Bmp("ノウハウ"), Bmp("コツ")], prompts[3]),
      NewsTemplate(Bmp("【徹底比較】"), Bmp("：どちらを選ぶべき？"), Bmp("まとめ"), [Bmp("比較"), Bmp("選び方")], prompts[4])
    ];
    assert forall i | 0 <= i < 5 :: forall j | 0 <= j < |r[i].prefix| :: r[i].prefix[j] != AiArticles.BRACE;
    r
  }

  const TOPICS: seq<JsString> := [
    Bmp("競馬予想サイトの選び方"),
    Bmp("無料予想と有料予想の違い"),
    Bmp("南関競馬予想サイト"),
    Bmp("地方競馬予想サイト"),
    Bmp("JRA（中央競馬）予想サイト"),
    Bmp("競馬予想サイトの的中率"),
    Bmp("悪質な競馬予想サイトの見分け方"),
    Bmp("競馬予想サイトの返金トラブル"),
    Bmp("競馬予想AIと人間予想家"),
    Bmp("競馬データ分析サイト"),
    Bmp("競馬初心者向け予想サイト"),
    Bmp("高額配当を狙える予想サイト"),
    Bmp("競馬予想サイトの口コミの信頼性"),
    Bmp("競馬予想サイトの登録方法"),
    Bmp("競馬予想サイトの解約方法")
  ]

  // ---------------------------------------------------------------------
  // Prompt and title
  // ---------------------------------------------------------------------

  /** `template.prompt.replace(/{topic}/g, topic)`: every placeholder is filled. */
  function Prompt(t: NewsTemplate, topic: JsString): JsString {
    ReplaceAll(t.prompt, AiArticles.PLACEHOLDER, topic)
  }

  /**
   * Why the prompt's replacement is global: each shipped prompt holds the
   * placeholder once, but one with two would get the topic at both, while
   * the title's single replacement leaves the second placeholder in place.
   */
  lemma PromptFillsEveryPlaceholder(pre: JsString, mid: JsString, post: JsString, topic: JsString)
    requires AiArticles.NoBrace(pre) && AiArticles.NoBrace(mid) && AiArticles.NoBrace(post)
    ensures ReplaceAll(pre + AiArticles.PLACEHOLDER + (mid + AiArticles.PLACEHOLDER + post), AiArticles.PLACEHOLDER, topic)
      == pre + topic + (mid + topic + post)
    ensures AiArticles.Title(pre + AiArticles.PLACEHOLDER + (mid + AiArticles.PLACEHOLDER + post), topic)
      == pre + topic + (mid + AiArticles.PLACEHOLDER + post)
  {
    ReplaceAllAt(pre, mid + AiArticles.PLACEHOLDER + post, topic);
    SinglePlaceholderPrompt(mid, post, topic);
    AiArticles.TitleFillsPlaceholder(pre, mid + AiArticles.PLACEHOLDER + post, topic);
  }

  /** A prompt with a single placeholder gets the topic there. */
  lemma SinglePlaceholderPrompt(pre: JsString, post: JsString, topic: JsString)
    requires AiArticles.NoBrace(pre) && AiArticles.NoBrace(post)
    ensures ReplaceAll(pre + AiArticles.PLACEHOLDER + post, AiArticles.PLACEHOLDER, topic) == pre + topic + post
  {
    ReplaceAllAt(pre, post, topic);
    NoPlaceholderKept(post, topic);
  }

  /** The global replacement fills the first placeholder and goes on after it. */
  lemma ReplaceAllAt(pre: JsString, rest: JsString, topic: JsString)
    requires AiArticles.NoBrace(pre)
    ensures ReplaceAll(pre + AiArticles.PLACEHOLDER + rest, AiArticles.PLACEHOLDER, topic)
      == pre + topic + ReplaceAll(rest, AiArticles.PLACEHOLDER, topic)
  {
    var P := AiArticles.PLACEHOLDER;
    var s := pre + P + rest;
    AiArticles.FirstPlaceholderAt(pre, rest);
    assert s[..|pre|] == pre;
    assert s[|pre| + |P|..] == rest;
  }

  /** Text without `{` is left as it is. */
  lemma NoPlaceholderKept(s: JsString, topic: JsString)
    requires AiArticles.NoBrace(s)
    ensures ReplaceAll(s, AiArticles.PLACEHOLDER, topic) == s
  {
    AiArticles.NoBraceNoPlaceholder(s);
  }

  // ---------------------------------------------------------------------
  // One article
  // ---------------------------------------------------------------------

  /** Japan Standard Time is nine hours ahead of UTC. */
  const JST_OFFSET_MS: int := 9 * HOUR_MS

  /**
   * `generateArticle(template, topic)` once the model has answered
   * `content` at instant `now`: the slug and the featured draw are inputs.
   * The date is `toISOString()` of the instant nine hours after `now`.
   */
  function Article(t: NewsTemplate, topic: JsString, content: JsString, now: int, slug: JsString, featureDraw: real): Fields {
    map[
      Title := Text(AiArticles.Title(TitleTemplate(t), topic)),
      Slug := Text(slug),
      Category := Text(t.category),
      Excerpt := Text(Excerpt.Derive(content)),
      Content := Text(Trim(content)),
      PublishedAt := Timestamp(now + JST_OFFSET_MS),
      Status := Text(AiArticles.PUBLISHED),
      IsFeatured := Flag(featureDraw < AiArticles.FEATURED_RATE),
      Author := Text(AiArticles.AI_EDITORS)
    ]
  }

  /**
   * A generated article is published by the AI editors under the
   * template's category and titled from the template; it is dated nine
   * hours after it was made, its excerpt is a single line of at most 200
   * code units, and it carries neither tags nor a thumbnail.
   */
  lemma ArticleFields(t: NewsTemplate, topic: JsString, content: JsString, now: int, slug: JsString, featureDraw: real)
    requires AiArticles.NoBrace(t.prefix)
    ensures var r := Article(t, topic, content, now, slug, featureDraw);
      && r[Title] == Text(t.prefix + topic + t.suffix)
      && r[Category] == Text(t.category)
      && r[Status] == Text(AiArticles.PUBLISHED)
      && r[Author] == Text(AiArticles.AI_EDITORS)
      && r[PublishedAt] == Timestamp(now + 9 * 3_600_000)
      && r[Excerpt].Text? && |r[Excerpt].text| <= 200
      && (forall i | 0 <= i < |r[Excerpt].text| :: r[Excerpt].text[i] != Excerpt.NEWLINE)
      && Tags !in r && Thumbnail !in r && ThumbnailUrl !in r
  {
    AiArticles.TitleFillsPlaceholder(t.prefix, t.suffix, topic);
    Excerpt.DeriveShape(content);
  }

  /**
   * `saveNewsArticle(article, thumbnailUrl)`: the fields sent are a copy of
   * the article with `ThumbnailUrl` added when the URL is truthy.
   */
  function WithThumbnail(article: Fields, thumbnailUrl: Option<JsString>): (r: Fields)
    ensures IsTruthy(thumbnailUrl) ==> ThumbnailUrl in r && r[ThumbnailUrl] == Text(thumbnailUrl.value)
    ensures !IsTruthy(thumbnailUrl) ==> r == article
    ensures forall n | n in article && n != ThumbnailUrl :: n in r && r[n] == article[n]
    ensures forall n | n in r && n != ThumbnailUrl :: n in article
  {
    if IsTruthy(thumbnailUrl) then article[ThumbnailUrl := Text(thumbnailUrl.value)] else article
  }

  /** `saveNewsArticle`: the created record's id, or `None` when the create request fails. */
  method SaveNewsArticle(table: Table, article: Fields, thumbnailUrl: Option<JsString>, id: JsString, reachable: bool)
    returns (record: Option<JsString>)
    modifies table
    ensures record.Some? <==> reachable && id !in old(table.rows)
    ensures record.Some? ==> record.value == id && table.rows == old(table.rows)[id := WithThumbnail(article, thumbnailUrl)]
    ensures record.None? ==> table.rows == old(table.rows)
  {
    var ok := table.Create(id, WithThumbnail(article, thumbnailUrl), reachable);
    record := if ok then Some(id) else None;
  }

  // ---------------------------------------------------------------------
  // The loop
  // ---------------------------------------------------------------------

  /**
   * What the world does in one iteration: the two picks, the model's
   * answer (`None` when the call fails), the instant, the slug, the
   * featured draw, the image generator's `Math.random()` draw, the id the
   * service assigns and whether the create request succeeds.
   */
  datatype Draw = Draw(
    templateDraw: real, topicDraw: real, answer: Option<JsString>, now: int, slug: JsString,
    featureDraw: real, thumbnailDraw: real, id: JsString, saveReached: bool)

  predicate ValidDraw(d: Draw) {
    AiArticles.IsRandom(d.templateDraw) && AiArticles.IsRandom(d.topicDraw) && AiArticles.IsRandom(d.thumbnailDraw)
  }

  /**
   * `generateAndUploadThumbnail(template.category, article.Title, null)`:
   * a photo of the pool for the title's keyword, never missing.
   */
  function ThumbnailFor(t: NewsTemplate, topic: JsString, d: Draw): (r: Option<JsString>)
    requires ValidDraw(d)
    ensures IsTruthy(r)
    ensures r.value in ImageGenerator.Pool(ImageGenerator.UnsplashKeyword(t.category, AiArticles.Title(TitleTemplate(t), topic)))
  {
    var r := ImageGenerator.Thumbnail(t.category, Some(AiArticles.Title(TitleTemplate(t), topic)), None, d.thumbnailDraw);
    assert StartsWith(r.value, ImageGenerator.PHOTO_PREFIX);
    r
  }

  /** How an answer becomes a record; the job uses `Article`. */
  type Writer = (NewsTemplate, JsString, JsString, Draw) -> Fields

  /** What the loop draws from and how it writes; stated for any non-empty lists. */
  datatype Generator = Generator(templates: seq<NewsTemplate>, topics: seq<JsString>, write: Writer)

  predicate Ready(g: Generator) {
    |g.templates| > 0 && |g.topics| > 0
  }

  function Job(prompts: seq<JsString>): (g: Generator)
    requires |prompts| == 5
    ensures Ready(g)
  {
    Generator(Templates(prompts), TOPICS,
      (t: NewsTemplate, topic: JsString, content: JsString, d: Draw) => Article(t, topic, content, d.now, d.slug, d.featureDraw))
  }

  /** The stored rows, the generated articles and the two-second waits so far. */
  datatype Tally = Tally(rows: map<JsString, Fields>, generated: seq<Fields>, waits: nat)

  const WAIT_MS: int := 2000

  /** One iteration of `main`'s loop. */
  function Step(g: Generator, t: Tally, d: Draw): Tally
    requires Ready(g) && ValidDraw(d)
  {
    match d.answer
    case None => t
    case Some(content) =>
      var template := AiArticles.Pick(g.templates, d.templateDraw);
      var topic := AiArticles.Pick(g.topics, d.topicDraw);
      var article := g.write(template, topic, content, d);
      var stored := WithThumbnail(article, ThumbnailFor(template, topic, d));
      var rows' := if d.saveReached && d.id !in t.rows then t.rows[d.id := stored] else t.rows;
      Tally(rows', t.generated + [article], t.waits + 1)
  }

  /** `main`'s loop after its first `k` iterations. */
  function Generate(g: Generator, rows: map<JsString, Fields>, draws: seq<Draw>, k: int): Tally
    requires Ready(g)
    requires 0 <= k <= |draws|
    requires forall i | 0 <= i < |draws| :: ValidDraw(draws[i])
  {
    if k == 0 then Tally(rows, [], 0) else Step(g, Generate(g, rows, draws, k - 1), draws[k - 1])
  }

  lemma GenerateStep(g: Generator, rows: map<JsString, Fields>, draws: seq<Draw>, k: int)
    requires Ready(g)
    requires 0 <= k < |draws|
    requires forall i | 0 <= i < |draws| :: ValidDraw(draws[i])
    ensures Generate(g, rows, draws, k + 1) == Step(g, Generate(g, rows, draws, k), draws[k])
  {
  }

  /** Iterations whose model call failed contribute nothing. */
  function Answered(draws: seq<Draw>, k: int): (r: nat)
    requires 0 <= k <= |draws|
  {
    if k == 0 then 0 else Answered(draws, k - 1) + (if draws[k - 1].answer.Some? then 1 else 0)
  }

  /**
   * An iteration adds an article exactly when the model answered, and
   * waits after it; stored rows are never replaced, and every new row is
   * one of the answered iterations' records.
   */
  lemma StepCounts(g: Generator, t: Tally, d: Draw)
    requires Ready(g) && ValidDraw(d)
    ensures var t' := Step(g, t, d);
      && |t'.generated| == |t.generated| + (if d.answer.Some? then 1 else 0)
      && t'.generated[..|t.generated|] == t.generated
      && t'.waits == t.waits + (if d.answer.Some? then 1 else 0)
      && (forall id | id in t.rows :: id in t'.rows && t'.rows[id] == t.rows[id])
      && |t'.rows.Keys| <= |t.rows.Keys| + 1
  {
    var t' := Step(g, t, d);
    if d.answer.Some? && d.saveReached && d.id !in t.rows {
      assert t'.rows.Keys == t.rows.Keys + {d.id};
    }
  }

  /**
   * A saved record carries the image generator's photo for the picked
   * template's category and title.
   */
  lemma StepStoresThumbnail(g: Generator, t: Tally, d: Draw)
    requires Ready(g) && ValidDraw(d)
    requires d.answer.Some? && d.saveReached && d.id !in t.rows
    ensures var template := AiArticles.Pick(g.templates, d.templateDraw);
      var topic := AiArticles.Pick(g.topics, d.topicDraw);
      var t' := Step(g, t, d);
      && d.id in t'.rows && ThumbnailUrl in t'.rows[d.id]
      && t'.rows[d.id][ThumbnailUrl].Text?
      && t'.rows[d.id][ThumbnailUrl].text in ImageGenerator.Pool(ImageGenerator.UnsplashKeyword(template.category, AiArticles.Title(TitleTemplate(template), topic)))
  {
  }

  /**
   * After `k` iterations the generated list holds one article per answered
   * call, so never more than `k`; there is one wait per article; the rows
   * stored before are untouched and at most one row per article was added.
   */
  lemma {:induction false} GenerateCounts(g: Generator, rows: map<JsString, Fields>, draws: seq<Draw>, k: int)
    requires Ready(g)
    requires 0 <= k <= |draws|
    requires forall i | 0 <= i < |draws| :: ValidDraw(draws[i])
    ensures var t := Generate(g, rows, draws, k);
      && |t.generated| == Answered(draws, k) <= k
      && t.waits == |t.generated|
      && (forall id | id in rows :: id in t.rows && t.rows[id] == rows[id])
      && |t.rows.Keys| <= |rows.Keys| + |t.generated|
  {
    if k > 0 {
      GenerateCounts(g, rows, draws, k - 1);
      GenerateStep(g, rows, draws, k - 1);
      StepCounts(g, Generate(g, rows, draws, k - 1), draws[k - 1]);
    }
  }

  /** How the script ends. */
  datatype Outcome = Exit(code: int) | Done(generated: seq<Fields>, waits: nat)

  /**
   * `main()`: both keys are required, else the process exits with code 1
   * before any request; then `parseInt(ARTICLE_COUNT || '3')` iterations.
   * `anthropicKey` is `ANTHROPIC_API_KEY`; `airtableKey` is
   * `KEIBA_GUIDE_AIRTABLE_API_KEY || AIRTABLE_API_KEY`.
   */
  method Run(table: Table, g: Generator, anthropicKey: Option<JsString>, airtableKey: Option<JsString>,
             countEnv: Option<JsString>, draws: seq<Draw>)
    returns (outcome: Outcome)
    requires Ready(g)
    requires |draws| >= AiArticles.Iterations(AiArticles.ArticleCount(countEnv))
    requires forall i | 0 <= i < |draws| :: ValidDraw(draws[i])
    modifies table
    ensures !IsTruthy(anthropicKey) || !IsTruthy(airtableKey) ==> outcome == Exit(1) && table.rows == old(table.rows)
    ensures IsTruthy(anthropicKey) && IsTruthy(airtableKey) ==>
      var t := Generate(g, old(table.rows), draws, AiArticles.Iterations(AiArticles.ArticleCount(countEnv)));
      outcome == Done(t.generated, t.waits) && table.rows == t.rows
  {
    if !IsTruthy(anthropicKey) {
      return Exit(1);
    }
    if !IsTruthy(airtableKey) {
      return Exit(1);
    }
    var n := AiArticles.Iterations(AiArticles.ArticleCount(countEnv));
    var generated: seq<Fields> := [];
    var waits := 0;
    var i := 0;
    while i < n
      invariant 0 <= i <= n
      invariant Tally(table.rows, generated, waits) == Generate(g, old(table.rows), draws, i)
    {
      generated, waits := Iteration(table, g, draws[i], generated, waits);
      GenerateStep(g, old(table.rows), draws, i);
      i := i + 1;
    }
    outcome := Done(generated, waits);
  }

  /** One pass: pick, ask, and when the model answered keep, save and wait. */
  method Iteration(table: Table, g: Generator, d: Draw, generated: seq<Fields>, waits: nat)
    returns (generated': seq<Fields>, waits': nat)
    requires Ready(g) && ValidDraw(d)
    modifies table
    ensures Tally(table.rows, generated', waits') == Step(g, Tally(old(table.rows), generated, waits), d)
  {
    var template := AiArticles.Pick(g.templates, d.templateDraw);
    var topic := AiArticles.Pick(g.topics, d.topicDraw);
    generated', waits' := generated, waits;
    match d.answer
    case None =>
    case Some(content) =>
      var article := g.write(template, topic, content, d);
      generated' := generated + [article];
      var thumbnailUrl := ImageGenerator.GenerateAndUploadThumbnail(
        template.category, Some(AiArticles.Title(TitleTemplate(template), topic)), None, d.thumbnailDraw);
      var _ := SaveNewsArticle(table, article, thumbnailUrl, d.id, d.saveReached);
      waits' := waits + 1;
  }

  /** With the key set and three iterations at most three articles come out. */
  lemma AtMostArticleCount(g: Generator, rows: map<JsString, Fields>, countEnv: Option<JsString>, draws: seq<Draw>)
    requires Ready(g)
    requires |draws| >= AiArticles.Iterations(AiArticles.ArticleCount(countEnv))
    requires forall i | 0 <= i < |draws| :: ValidDraw(draws[i])
    ensures var n := AiArticles.Iterations(AiArticles.ArticleCount(countEnv));
      |Generate(g, rows, draws, n).generated| <= n
    ensures countEnv == None ==> |Generate(g, rows, draws, AiArticles.Iterations(AiArticles.ArticleCount(countEnv))).generated| <= 3
  {
    GenerateCounts(g, rows, draws, AiArticles.Iterations(AiArticles.ArticleCount(countEnv)));
    AiArticles.DefaultArticleCount();
  }
}
