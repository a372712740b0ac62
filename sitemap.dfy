/**
 * The `/sitemap.xml` endpoint: five fixed pages plus one entry per
 * published article (at most 100), in the sitemaps.org 0.9 format.
 */
module Sitemap {
  import opened Js
  import opened Store
  import News

  const SITE_URL: JsString := Bmp("https://keiba-guide.jp")
  const ARTICLE_LIMIT: int := 100

  datatype UrlEntry = UrlEntry(loc: JsString, lastmod: Option<JsString>, changefreq: JsString, priority: JsString)

  function StaticEntry(path: JsString, priority: JsString, changefreq: JsString): UrlEntry {
    UrlEntry(SITE_URL + path, None, changefreq, priority)
  }

  const STATIC_PAGES: seq<UrlEntry> := [
    StaticEntry(Bmp("/"), Bmp("1.0"), Bmp("daily")),
    StaticEntry(Bmp("/about/"), Bmp("0.5"), Bmp("monthly")),
    StaticEntry(Bmp("/terms/"), Bmp("0.3"), Bmp("yearly")),
    StaticEntry(Bmp("/privacy/"), Bmp("0.3"), Bmp("yearly")),
    StaticEntry(Bmp("/contact/"), Bmp("0.5"), Bmp("monthly"))
  ]

  // ---------------------------------------------------------------------
  // Entries and document
  // ---------------------------------------------------------------------

  /**
   * An article's entry.  `dateText` renders the article's Date the way
   * template interpolation does; since a Date is always truthy, the
   * fallback to today's ISO day is never used.
   */
  function ArticleEntry(a: News.Article, dateText: int -> JsString): UrlEntry {
    UrlEntry(SITE_URL + Bmp("/news/") + a.slug + Bmp("/"), Some(dateText(a.publishedAt)), Bmp("weekly"), Bmp("0.8"))
  }

  function ArticleEntries(articles: seq<News.Article>, dateText: int -> JsString): (r: seq<UrlEntry>)
    ensures |r| == |articles|
    ensures forall i | 0 <= i < |r| :: r[i] == ArticleEntry(articles[i], dateText)
  {
    seq(|articles|, i requires 0 <= i < |articles| => ArticleEntry(articles[i], dateText))
  }

  function LocXml(loc: JsString): JsString {
    Bmp("<loc>") + loc + Bmp("</loc>")
  }

  function EntryXml(e: UrlEntry): JsString {
    Bmp("  <url>\n    ") + LocXml(e.loc) + Bmp("\n")
    + (if e.lastmod.Some? then Bmp("    <lastmod>") + e.lastmod.value + Bmp("</lastmod>\n") else [])
    + Bmp("    <changefreq>") + e.changefreq + Bmp("</changefreq>\n")
    + Bmp("    <priority>") + e.priority + Bmp("</priority>\n  </url>")
  }

  function EntriesXml(es: seq<UrlEntry>): (r: seq<JsString>)
    ensures |r| == |es|
    ensures forall i | 0 <= i < |r| :: r[i] == EntryXml(es[i])
  {
    seq(|es|, i requires 0 <= i < |es| => EntryXml(es[i]))
  }

  const HEADER: JsString :=
    Bmp("<?xml version=\"1.0\" encoding=\"UTF-8\"?>\n<urlset xmlns=\"http://www.sitemaps.org/schemas/sitemap/0.9\">\n")

  const FOOTER: JsString := Bmp("\n</urlset>")

  /** The XML text for the given fixed pages and articles. */
  function Render(pages: seq<UrlEntry>, articles: seq<News.Article>, dateText: int -> JsString): JsString {
    HEADER + Join(EntriesXml(pages), Bmp("\n")) + Bmp("\n")
    + Join(EntriesXml(ArticleEntries(articles, dateText)), Bmp("\n")) + FOOTER
  }

  /** The XML text the endpoint serves. */
  function Document(articles: seq<News.Article>, dateText: int -> JsString): JsString {
    Render(STATIC_PAGES, articles, dateText)
  }

  /** All entries, fixed pages first, in the order of the document. */
  function Entries(articles: seq<News.Article>, dateText: int -> JsString): seq<UrlEntry> {
    STATIC_PAGES + ArticleEntries(articles, dateText)
  }

  lemma EntryListsLoc(e: UrlEntry)
    ensures Includes(EntryXml(e), LocXml(e.loc))
  {
    var tail := EntryXml(e)[|Bmp("  <url>\n    ")| + |LocXml(e.loc)|..];
    assert EntryXml(e) == Bmp("  <url>\n    ") + LocXml(e.loc) + tail;
    IncludesConcat(Bmp("  <url>\n    "), LocXml(e.loc), tail);
  }

  /** Every fixed page gets a `<loc>` element in the rendered document. */
  lemma PageLocListed(pages: seq<UrlEntry>, articles: seq<News.Article>, dateText: int -> JsString, k: int)
    requires 0 <= k < |pages|
    ensures Includes(Render(pages, articles, dateText), LocXml(pages[k].loc))
  {
    var e := pages[k];
    var loc := LocXml(e.loc);
    var pagesXml := Join(EntriesXml(pages), Bmp("\n"));
    EntryListsLoc(e);
    JoinIncludesEach(EntriesXml(pages), Bmp("\n"), k);
    IncludesTransitive(pagesXml, EntryXml(e), loc);
    IncludesExtend(pagesXml, HEADER, loc);
    IncludesExtend(HEADER + pagesXml, Bmp("\n"), loc);
    IncludesExtend(HEADER + pagesXml + Bmp("\n"), Join(EntriesXml(ArticleEntries(articles, dateText)), Bmp("\n")), loc);
    IncludesExtend(HEADER + pagesXml + Bmp("\n") + Join(EntriesXml(ArticleEntries(articles, dateText)), Bmp("\n")), FOOTER, loc);
  }

  lemma ArticleLocListed(pages: seq<UrlEntry>, articles: seq<News.Article>, dateText: int -> JsString, k: int)
    requires 0 <= k < |articles|
    ensures Includes(Render(pages, articles, dateText), LocXml(ArticleEntry(articles[k], dateText).loc))
  {
    var es := ArticleEntries(articles, dateText);
    var e := es[k];
    var articleXml := Join(EntriesXml(es), Bmp("\n"));
    var prefix := HEADER + Join(EntriesXml(pages), Bmp("\n")) + Bmp("\n");
    EntryListsLoc(e);
    JoinIncludesEach(EntriesXml(es), Bmp("\n"), k);
    IncludesTransitive(articleXml, EntryXml(e), LocXml(e.loc));
    IncludesWithin(prefix, articleXml, FOOTER, LocXml(e.loc));
  }

  lemma AllLocsListed(pages: seq<UrlEntry>, articles: seq<News.Article>, dateText: int -> JsString)
    ensures forall i | 0 <= i < |pages| + |articles| ::
      Includes(Render(pages, articles, dateText), LocXml((pages + ArticleEntries(articles, dateText))[i].loc))
  {
    var es := pages + ArticleEntries(articles, dateText);
    forall i | 0 <= i < |es| ensures Includes(Render(pages, articles, dateText), LocXml(es[i].loc)) {
      if i < |pages| {
        PageLocListed(pages, articles, dateText, i);
      } else {
        ArticleLocListed(pages, articles, dateText, i - |pages|);
      }
    }
  }

  /**
   * The fixed pages come first with their own values, then one entry per
   * article, weekly with priority 0.8 at `SITE_URL/news/<slug>/`, and every
   * entry gets a `<loc>` element in the document.
   */
  lemma EveryLocListed(articles: seq<News.Article>, dateText: int -> JsString)
    ensures |Entries(articles, dateText)| == 5 + |articles|
    ensures forall i | 0 <= i < |articles| ::
      Entries(articles, dateText)[5 + i].loc == SITE_URL + Bmp("/news/") + articles[i].slug + Bmp("/")
    ensures Entries(articles, dateText)[..5] == STATIC_PAGES
    ensures forall i | 0 <= i < |articles| ::
      && Entries(articles, dateText)[5 + i].changefreq == Bmp("weekly")
      && Entries(articles, dateText)[5 + i].priority == Bmp("0.8")
      && Entries(articles, dateText)[5 + i].lastmod == Some(dateText(articles[i].publishedAt))
    ensures forall i | 0 <= i < |Entries(articles, dateText)| :: Includes(Document(articles, dateText), LocXml(Entries(articles, dateText)[i].loc))
  {
    var pages := STATIC_PAGES;
    assert |pages| == 5;
    AllLocsListed(pages, articles, dateText);
    forall i | 0 <= i < |articles| ensures Entries(articles, dateText)[5 + i] == ArticleEntry(articles[i], dateText) {
      assert Entries(articles, dateText)[5 + i] == ArticleEntries(articles, dateText)[i];
    }
  }

  /** Without articles the document still lists the five fixed pages and nothing else. */
  lemma NoArticlesOnlyStatic(dateText: int -> JsString)
    ensures Entries([], dateText) == STATIC_PAGES
    ensures Document([], dateText) == HEADER + Join(EntriesXml(STATIC_PAGES), Bmp("\n")) + Bmp("\n") + FOOTER
  {
    assert Entries([], dateText) == STATIC_PAGES + [];
    NoArticlesRender(STATIC_PAGES, dateText);
  }

  /** Without articles only the given fixed pages are rendered. */
  lemma NoArticlesRender(pages: seq<UrlEntry>, dateText: int -> JsString)
    ensures Render(pages, [], dateText) == HEADER + Join(EntriesXml(pages), Bmp("\n")) + Bmp("\n") + FOOTER
  {
    var xs := EntriesXml(ArticleEntries([], dateText));
    assert xs == [];
    var pre := HEADER + Join(EntriesXml(pages), Bmp("\n")) + Bmp("\n");
    assert pre + Join(xs, Bmp("\n")) == pre;
  }

  // ---------------------------------------------------------------------
  // The endpoint
  // ---------------------------------------------------------------------

  datatype Response = Response(body: JsString, headers: seq<(JsString, JsString)>)

  const HEADERS: seq<(JsString, JsString)> := [
    (Bmp("Content-Type"), Bmp("application/xml")),
    (Bmp("Cache-Control"), Bmp("public, max-age=3600"))
  ]

  method Get(repo: News.Repository, backend: News.Backend, now: int, dateText: int -> JsString) returns (r: Response, query: Option<News.Query>)
    requires repo.Valid()
    modifies repo
    ensures repo.Valid() && repo.base == repo.BaseAfter(old(repo.base))
    ensures var fetched := News.List(repo.WillQuery(old(repo.base)), News.LatestQuery(ARTICLE_LIMIT), backend, now);
      r == Response(Document(fetched.value, dateText), HEADERS) && query == fetched.query
  {
    var fetched := repo.GetLatestNews(ARTICLE_LIMIT, backend, now);
    r := Response(Document(fetched.value, dateText), HEADERS);
    query := fetched.query;
  }

  /** When Airtable honors the limit, the sitemap has at most 105 entries. */
  lemma AtMostLimitEntries(ready: bool, backend: News.Backend, now: int, dateText: int -> JsString)
    requires News.HonorsQuery(News.LatestQuery(ARTICLE_LIMIT), backend(News.LatestQuery(ARTICLE_LIMIT)))
    ensures |Entries(News.List(ready, News.LatestQuery(ARTICLE_LIMIT), backend, now).value, dateText)| <= 5 + ARTICLE_LIMIT
  {
    News.ListHonorsQuery(ready, News.LatestQuery(ARTICLE_LIMIT), backend, now);
    EveryLocListed(News.List(ready, News.LatestQuery(ARTICLE_LIMIT), backend, now).value, dateText);
  }
}
