/**
 * The site's news library: it turns Airtable rows of the News table into
 * articles, asks Airtable for the lists the pages show, and counts views.
 * Airtable itself is a `Backend`: a function from the query sent to the
 * answer received, `Failure` standing for any rejected request.
 */
module News {
  import opened Js
  import opened Store
  import Config

  const DEFAULT_CATEGORY: JsString := Bmp("ニュース")
  const PUBLISHED: JsString := Bmp("published")

  const DEFAULT_LATEST_LIMIT: int := 10
  const DEFAULT_CATEGORY_LIMIT: int := 10
  const DEFAULT_FEATURED_LIMIT: int := 3
  const DEFAULT_TIMELINE_LIMIT: int := 6

  datatype Article = Article(
    id: JsString,
    title: JsString,
    slug: JsString,
    category: JsString,
    excerpt: JsString,
    content: JsString,
    publishedAt: int,
    viewCount: int,
    isFeatured: bool,
    tags: seq<JsString>,
    author: Option<JsString>,
    thumbnail: Option<JsString>,
    thumbnailUrl: Option<JsString>)

  datatype TimelineItem = TimelineItem(time: JsString, category: JsString, title: JsString, slug: JsString)

  // ---------------------------------------------------------------------
  // Rows to articles
  // ---------------------------------------------------------------------

  /** `fields.ViewCount || 0` */
  function ViewCountOf(f: Fields): int {
    if ViewCount in f && f[ViewCount].Num? then f[ViewCount].num else 0
  }

  /** `fields.ThumbnailUrl || fields.Thumbnail?.[0]?.url || undefined` */
  function ThumbnailOf(f: Fields): Option<JsString> {
    if IsTruthy(TextField(f, ThumbnailUrl)) then TextField(f, ThumbnailUrl)
    else if IsTruthy(FirstFileUrl(f)) then FirstFileUrl(f)
    else None
  }

  function RecordToArticle(r: Record, now: int): (a: Article)
    ensures a.id == r.id
  {
    var f := r.fields;
    var thumb := ThumbnailOf(f);
    Article(
      r.id,
      TextOr(f, Title, []),
      TextOr(f, Slug, []),
      TextOr(f, Category, DEFAULT_CATEGORY),
      TextOr(f, Excerpt, []),
      TextOr(f, Content, []),
      PublishedMs(f, now),
      ViewCountOf(f),
      IsFeatured in f && f[IsFeatured] == Flag(true),
      if Tags in f && f[Tags].Texts? then f[Tags].texts else [],
      TextField(f, Author),
      thumb,
      thumb)
  }

  /** What the pages can rely on in an article read from a row. */
  lemma RecordToArticleShape(r: Record, now: int)
    ensures var a := RecordToArticle(r, now);
      // every text the pages print has a value; the category is never blank
      && (a.category != [])
      && (!IsTruthy(TextField(r.fields, Category)) ==> a.category == DEFAULT_CATEGORY)
      && (a.title != [] ==> TextField(r.fields, Title) == Some(a.title))
      && (a.slug != [] ==> TextField(r.fields, Slug) == Some(a.slug))
      && (IsTruthy(TextField(r.fields, Slug)) ==> a.slug == TextField(r.fields, Slug).value)
      // the text URL wins over the attachment; an empty URL is never exposed
      && (a.thumbnail == a.thumbnailUrl)
      && (a.thumbnail.Some? ==> a.thumbnail.value != [])
      && (IsTruthy(TextField(r.fields, ThumbnailUrl)) ==> a.thumbnail == TextField(r.fields, ThumbnailUrl))
      && (!IsTruthy(TextField(r.fields, ThumbnailUrl)) ==> a.thumbnail == (if IsTruthy(FirstFileUrl(r.fields)) then FirstFileUrl(r.fields) else None))
      // a row without a date is dated at the moment it is read
      && (PublishedAt !in r.fields ==> a.publishedAt == now)
      && (a.viewCount != 0 ==> ViewCount in r.fields && r.fields[ViewCount] == Num(a.viewCount))
      && (a.isFeatured ==> IsFeatured in r.fields && r.fields[IsFeatured] == Flag(true))
  {
  }

  // ---------------------------------------------------------------------
  // Queries and answers
  // ---------------------------------------------------------------------

  datatype Filter =
    | Published
    | PublishedInCategory(category: JsString)
    | PublishedFeatured
    | PublishedWithSlug(slug: JsString)

  /** A `select` on the News table; `newestFirst` is the sort on PublishedAt, descending. */
  datatype Query = Query(filter: Filter, maxRecords: Option<int>, newestFirst: bool)

  datatype Answer = Rows(records: seq<Record>) | Failure

  type Backend = Query -> Answer

  /** The value a getter returns together with the query it sent, if any. */
  datatype Fetched<T> = Fetched(value: T, query: Option<Query>)

  function LatestQuery(limit: int): Query { Query(Published, Some(limit), true) }

  function CategoryQuery(category: JsString, limit: int): Query { Query(PublishedInCategory(category), Some(limit), true) }

  function FeaturedQuery(limit: int): Query { Query(PublishedFeatured, Some(limit), true) }

  const ALL_QUERY: Query := Query(Published, None, true)

  function SlugQuery(slug: JsString): Query { Query(PublishedWithSlug(slug), Some(1), false) }

  /** Whether a row satisfies a filter formula. */
  predicate Satisfies(f: Fields, filter: Filter) {
    && Status in f && f[Status] == Text(PUBLISHED)
    && match filter
       case Published => true
       case PublishedInCategory(c) => Category in f && f[Category] == Text(c)
       case PublishedFeatured => IsFeatured in f && f[IsFeatured] == Flag(true)
       case PublishedWithSlug(s) => Slug in f && f[Slug] == Text(s)
  }

  /** What Airtable promises for one query: at most maxRecords rows, each matching the formula. */
  predicate HonorsQuery(q: Query, a: Answer) {
    a.Rows? ==>
      && (q.maxRecords.Some? && q.maxRecords.value >= 0 ==> |a.records| <= q.maxRecords.value)
      && forall i | 0 <= i < |a.records| :: Satisfies(a.records[i].fields, q.filter)
  }

  /** `records.map(recordToArticle)`, with a failed request caught as []. */
  function ArticlesOf(a: Answer, now: int): (r: seq<Article>)
    ensures a.Failure? ==> r == []
    ensures a.Rows? ==> |r| == |a.records|
    ensures a.Rows? ==> forall i | 0 <= i < |r| :: r[i] == RecordToArticle(a.records[i], now)
  {
    if a.Failure? then []
    else seq(|a.records|, i requires 0 <= i < |a.records| => RecordToArticle(a.records[i], now))
  }

  /**
   * A list getter once the credential check and `getBase()` are behind it:
   * `ready` says whether a client was obtained.
   */
  function List(ready: bool, q: Query, backend: Backend, now: int): (r: Fetched<seq<Article>>)
    ensures !ready ==> r == Fetched([], None)
    ensures ready ==> r.query == Some(q) && r.value == ArticlesOf(backend(q), now)
  {
    if ready then Fetched(ArticlesOf(backend(q), now), Some(q)) else Fetched([], None)
  }

  /**
   * Under a backend that honors the query, a list getter returns at most
   * `limit` articles, and every article passed the query's filter: the
   * category page only shows that category, the featured block only
   * featured articles.
   */
  lemma ListHonorsQuery(ready: bool, q: Query, backend: Backend, now: int)
    requires HonorsQuery(q, backend(q))
    ensures q.maxRecords.Some? && q.maxRecords.value >= 0 ==> |List(ready, q, backend, now).value| <= q.maxRecords.value
    ensures q.filter.PublishedInCategory? && q.filter.category != [] ==>
      forall a | a in List(ready, q, backend, now).value :: a.category == q.filter.category
    ensures q.filter.PublishedFeatured? ==>
      forall a | a in List(ready, q, backend, now).value :: a.isFeatured
  {
    var r := List(ready, q, backend, now).value;
    if ready && backend(q).Rows? {
      var rows := backend(q).records;
      forall a | a in r
        ensures q.filter.PublishedInCategory? && q.filter.category != [] ==> a.category == q.filter.category
        ensures q.filter.PublishedFeatured? ==> a.isFeatured
      {
        var i :| 0 <= i < |r| && r[i] == a;
        assert Satisfies(rows[i].fields, q.filter);
      }
    }
  }

  /** `getNewsBySlug` after the guard: the first row, or null when there is none or the request failed. */
  function BySlug(ready: bool, slug: JsString, backend: Backend, now: int): (r: Fetched<Option<Article>>)
    ensures !ready ==> r == Fetched(None, None)
    ensures ready ==> r.query == Some(SlugQuery(slug))
    ensures ready && backend(SlugQuery(slug)).Rows? && |backend(SlugQuery(slug)).records| > 0 ==>
      r.value == Some(RecordToArticle(backend(SlugQuery(slug)).records[0], now))
    ensures r.value.None? <==>
      !ready || backend(SlugQuery(slug)).Failure? || backend(SlugQuery(slug)).records == []
  {
    if !ready then Fetched(None, None)
    else
      var a := backend(SlugQuery(slug));
      Fetched(if a.Failure? || a.records == [] then None else Some(RecordToArticle(a.records[0], now)), Some(SlugQuery(slug)))
  }

  /** An article found by slug carries that slug, when the backend honors the query. */
  lemma BySlugFindsThatSlug(ready: bool, slug: JsString, backend: Backend, now: int)
    requires HonorsQuery(SlugQuery(slug), backend(SlugQuery(slug)))
    requires slug != []
    ensures BySlug(ready, slug, backend, now).value.Some? ==> BySlug(ready, slug, backend, now).value.value.slug == slug
  {
    if BySlug(ready, slug, backend, now).value.Some? {
      assert Satisfies(backend(SlugQuery(slug)).records[0].fields, PublishedWithSlug(slug));
    }
  }

  // ---------------------------------------------------------------------
  // Timeline
  // ---------------------------------------------------------------------

  /**
   * The relative time shown on the timeline for an article published
   * `diff` milliseconds ago; `clockText` is the hour:minute text of the
   * publication time used for anything older than a day.
   */
  function TimeLabel(diff: int, clockText: JsString): JsString {
    var minutes := diff / MINUTE_MS;
    var hours := diff / HOUR_MS;
    if hours < 1 then IntToString(minutes) + Bmp("分前")
    else if hours < 24 then IntToString(hours) + Bmp("時間前")
    else clockText
  }

  /**
   * The label falls in three bands of the elapsed time: minutes below one
   * hour, whole hours from one to 23, the clock time from a day on.
   */
  lemma TimeLabelBands(diff: int, clockText: JsString)
    ensures diff < HOUR_MS ==> TimeLabel(diff, clockText) == IntToString(diff / MINUTE_MS) + Bmp("分前")
    ensures 0 <= diff < HOUR_MS ==> 0 <= diff / MINUTE_MS < 60
    ensures HOUR_MS <= diff < DAY_MS ==>
      && TimeLabel(diff, clockText) == IntToString(diff / HOUR_MS) + Bmp("時間前")
      && 1 <= diff / HOUR_MS <= 23
    ensures diff >= DAY_MS ==> TimeLabel(diff, clockText) == clockText
  {
  }

  lemma TimeLabelExamples(clockText: JsString)
    ensures TimeLabel(5 * MINUTE_MS + 59_999, clockText) == Bmp("5分前")
    ensures TimeLabel(3 * HOUR_MS, clockText) == Bmp("3時間前")
    ensures TimeLabel(-1, clockText) == Bmp("-1分前")
  {
    assert IntToString(5) == Bmp("5");
    assert IntToString(3) == Bmp("3");
    assert IntToString(-1) == Bmp("-1");
  }

  function TimelineItemOf(r: Record, now: int, clock: int -> JsString): TimelineItem {
    var published := PublishedMs(r.fields, now);
    TimelineItem(
      TimeLabel(now - published, clock(published)),
      TextOr(r.fields, Category, DEFAULT_CATEGORY),
      TextOr(r.fields, Title, []),
      TextOr(r.fields, Slug, []))
  }

  /** `getTimelineItems` after the guard; `clock` renders an instant as `toLocaleTimeString` does. */
  function Timeline(ready: bool, limit: int, backend: Backend, now: int, clock: int -> JsString): (r: Fetched<seq<TimelineItem>>)
    ensures !ready ==> r == Fetched([], None)
    ensures ready ==> r.query == Some(LatestQuery(limit))
    ensures ready && backend(LatestQuery(limit)).Rows? ==> |r.value| == |backend(LatestQuery(limit)).records|
    ensures ready && backend(LatestQuery(limit)).Failure? ==> r.value == []
    // each item agrees with the article the same row gives
    ensures ready && backend(LatestQuery(limit)).Rows? ==>
      forall i | 0 <= i < |r.value| ::
        var a := RecordToArticle(backend(LatestQuery(limit)).records[i], now);
        && r.value[i].category == a.category
        && r.value[i].title == a.title
        && r.value[i].slug == a.slug
        && r.value[i].time == TimeLabel(now - a.publishedAt, clock(a.publishedAt))
  {
    if !ready then Fetched([], None)
    else
      var a := backend(LatestQuery(limit));
      var items := if a.Failure? then [] else seq(|a.records|, i requires 0 <= i < |a.records| => TimelineItemOf(a.records[i], now, clock));
      Fetched(items, Some(LatestQuery(limit)))
  }

  // ---------------------------------------------------------------------
  // View counter
  // ---------------------------------------------------------------------

  /** The update `incrementViewCount` sends, merged into the row. */
  function Bumped(f: Fields): Fields {
    f + map[ViewCount := Num(ViewCountOf(f) + 1)]
  }

  /**
   * After the increment the article read from the row differs from the old
   * one only in its view count, which is one higher (an absent, zero or
   * non-numeric count counts as zero).
   */
  lemma BumpedArticle(r: Record, now: int)
    ensures RecordToArticle(Record(r.id, Bumped(r.fields)), now)
         == RecordToArticle(r, now).(viewCount := RecordToArticle(r, now).viewCount + 1)
  {
    var s := Record(r.id, Bumped(r.fields));
    BumpedKeepsOtherFields(r.fields);
    AgreeingRecordsAgree(r, s, now);
    assert RecordToArticle(r, now).viewCount == ViewCountOf(r.fields);
  }

  /** The increment writes the view count and no other field. */
  lemma BumpedKeepsOtherFields(f: Fields)
    ensures forall n | n != ViewCount :: Lookup(Bumped(f), n) == Lookup(f, n)
    ensures AgreeOnRead(f, Bumped(f))
    ensures ViewCountOf(Bumped(f)) == ViewCountOf(f) + 1
  {
  }

  /** The value a row holds under a name, if any. */
  function Lookup(f: Fields, n: FieldName): Option<Value> {
    if n in f then Some(f[n]) else None
  }

  /** The rows hold the same values under every name an article is read from, but the view count. */
  predicate AgreeOnRead(f: Fields, g: Fields) {
    && Lookup(g, Title) == Lookup(f, Title)
    && Lookup(g, Slug) == Lookup(f, Slug)
    && Lookup(g, Category) == Lookup(f, Category)
    && Lookup(g, Excerpt) == Lookup(f, Excerpt)
    && Lookup(g, Content) == Lookup(f, Content)
    && Lookup(g, Author) == Lookup(f, Author)
    && Lookup(g, ThumbnailUrl) == Lookup(f, ThumbnailUrl)
    && Lookup(g, Thumbnail) == Lookup(f, Thumbnail)
    && Lookup(g, PublishedAt) == Lookup(f, PublishedAt)
    && Lookup(g, IsFeatured) == Lookup(f, IsFeatured)
    && Lookup(g, Tags) == Lookup(f, Tags)
  }

  /** Two rows that agree outside the view count are read as the same article but for its count. */
  lemma AgreeingRecordsAgree(r: Record, s: Record, now: int)
    requires r.id == s.id
    requires AgreeOnRead(r.fields, s.fields)
    ensures RecordToArticle(s, now) == RecordToArticle(r, now).(viewCount := ViewCountOf(s.fields))
  {
    var f, g := r.fields, s.fields;
    SameText(f, g, Title);
    SameText(f, g, Slug);
    SameText(f, g, Category);
    SameText(f, g, Excerpt);
    SameText(f, g, Content);
    SameText(f, g, Author);
    SameText(f, g, ThumbnailUrl);
    assert FirstFileUrl(g) == FirstFileUrl(f);
    assert ThumbnailOf(g) == ThumbnailOf(f);
    assert PublishedMs(g, now) == PublishedMs(f, now);
  }

  /** Rows holding the same value under a name read the same text there. */
  lemma SameText(f: Fields, g: Fields, n: FieldName)
    requires Lookup(g, n) == Lookup(f, n)
    ensures TextField(g, n) == TextField(f, n)
    ensures forall d :: TextOr(g, n, d) == TextOr(f, n, d)
  {
  }

  // ---------------------------------------------------------------------
  // The module-level client
  // ---------------------------------------------------------------------

  datatype Client = Client(apiKey: JsString, baseId: JsString)

  /** What `getBase()` yields: a client, null (in the browser), or the credentials error it throws. */
  datatype BaseResult = Ready(client: Client) | NoClient | NotConfigured

  /**
   * The library module: its settings, whether it runs on the server
   * (`typeof window === 'undefined'`), and the lazily created client that
   * every getter shares.
   */
  class Repository {
    const settings: Config.AirtableConfig
    const onServer: bool
    var base: Option<Client>

    /** The client, once created, was built from this module's own settings. */
    ghost predicate Valid()
      reads this
    {
      base.Some? ==> base.value == Client(settings.apiKey, settings.baseId) && onServer
    }

    constructor(settings: Config.AirtableConfig, onServer: bool)
      ensures this.settings == settings && this.onServer == onServer
      ensures base == None
      ensures Valid()
    {
      this.settings := settings;
      this.onServer := onServer;
      base := None;
    }

    /** Whether a getter that passed the credential guard obtains a client from `b`. */
    predicate WillQuery(b: Option<Client>) {
      !Config.CredentialsMissing(settings) && (b.Some? || onServer)
    }

    /** The client state after a getter has run. */
    function BaseAfter(b: Option<Client>): Option<Client> {
      if WillQuery(b) && b.None? then Some(Client(settings.apiKey, settings.baseId)) else b
    }

    method GetBase() returns (r: BaseResult)
      requires Valid()
      modifies this
      ensures Valid()
      ensures old(base).Some? ==> base == old(base) && r == Ready(base.value)
      ensures old(base).None? && !onServer ==> base == None && r == NoClient
      ensures old(base).None? && onServer && Config.CredentialsMissing(settings) ==> base == None && r == NotConfigured
      ensures old(base).None? && onServer && !Config.CredentialsMissing(settings) ==>
        base == Some(Client(settings.apiKey, settings.baseId)) && r == Ready(base.value)
    {
      if base.None? && onServer {
        if Config.CredentialsMissing(settings) {
          return NotConfigured;
        }
        base := Some(Client(settings.apiKey, settings.baseId));
      }
      if base.Some? {
        r := Ready(base.value);
      } else {
        r := NoClient;
      }
    }

    /** The credential guard and `getBase()` that open every getter. */
    method Connect() returns (ready: bool)
      requires Valid()
      modifies this
      ensures Valid()
      ensures ready == WillQuery(old(base))
      ensures base == BaseAfter(old(base))
    {
      if Config.CredentialsMissing(settings) {
        return false;
      }
      var b := GetBase();
      ready := b.Ready?;
    }

    method GetLatestNews(limit: int, backend: Backend, now: int) returns (r: Fetched<seq<Article>>)
      requires Valid()
      modifies this
      ensures Valid() && base == BaseAfter(old(base))
      ensures r == List(WillQuery(old(base)), LatestQuery(limit), backend, now)
    {
      var ready := Connect();
      r := List(ready, LatestQuery(limit), backend, now);
    }

    method GetNewsByCategory(category: JsString, limit: int, backend: Backend, now: int) returns (r: Fetched<seq<Article>>)
      requires Valid()
      modifies this
      ensures Valid() && base == BaseAfter(old(base))
      ensures r == List(WillQuery(old(base)), CategoryQuery(category, limit), backend, now)
    {
      var ready := Connect();
      r := List(ready, CategoryQuery(category, limit), backend, now);
    }

    method GetFeaturedNews(limit: int, backend: Backend, now: int) returns (r: Fetched<seq<Article>>)
      requires Valid()
      modifies this
      ensures Valid() && base == BaseAfter(old(base))
      ensures r == List(WillQuery(old(base)), FeaturedQuery(limit), backend, now)
    {
      var ready := Connect();
      r := List(ready, FeaturedQuery(limit), backend, now);
    }

    method GetAllNews(backend: Backend, now: int) returns (r: Fetched<seq<Article>>)
      requires Valid()
      modifies this
      ensures Valid() && base == BaseAfter(old(base))
      ensures r == List(WillQuery(old(base)), ALL_QUERY, backend, now)
    {
      var ready := Connect();
      r := List(ready, ALL_QUERY, backend, now);
    }

    method GetNewsBySlug(slug: JsString, backend: Backend, now: int) returns (r: Fetched<Option<Article>>)
      requires Valid()
      modifies this
      ensures Valid() && base == BaseAfter(old(base))
      ensures r == BySlug(WillQuery(old(base)), slug, backend, now)
    {
      var ready := Connect();
      r := BySlug(ready, slug, backend, now);
    }

    /** The old name, kept as an alias. */
    method GetArticleBySlug(slug: JsString, backend: Backend, now: int) returns (r: Fetched<Option<Article>>)
      requires Valid()
      modifies this
      ensures Valid() && base == BaseAfter(old(base))
      ensures r == BySlug(WillQuery(old(base)), slug, backend, now)
    {
      r := GetNewsBySlug(slug, backend, now);
    }

    method GetTimelineItems(limit: int, backend: Backend, now: int, clock: int -> JsString) returns (r: Fetched<seq<TimelineItem>>)
      requires Valid()
      modifies this
      ensures Valid() && base == BaseAfter(old(base))
      ensures r == Timeline(WillQuery(old(base)), limit, backend, now, clock)
    {
      var ready := Connect();
      r := Timeline(ready, limit, backend, now, clock);
    }

    /**
     * Reads the row and writes back its count plus one.  `reachable` says
     * whether Airtable answers; a missing row, an unreachable service or
     * missing credentials leave the table as it was, and no error escapes.
     */
    method IncrementViewCount(table: Table, articleId: JsString, reachable: bool)
      requires Valid()
      modifies this, table
      ensures Valid() && base == BaseAfter(old(base))
      ensures WillQuery(old(base)) && reachable && articleId in old(table.rows) ==>
        table.rows == old(table.rows)[articleId := Bumped(old(table.rows)[articleId])]
      ensures !(WillQuery(old(base)) && reachable && articleId in old(table.rows)) ==>
        table.rows == old(table.rows)
    {
      var ready := Connect();
      if ready && reachable && articleId in table.rows {
        var current := table.rows[articleId];
        table.rows := table.rows[articleId := Bumped(current)];
      }
    }
  }
}
