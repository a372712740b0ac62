/**
 * The Bluesky posting script: the post text, and the loop that posts each
 * unposted article and records the post's URI.
 */
module PostToBluesky {
  import opened Js
  import opened Store
  import opened Social

  const PAUSE_MS: int := 5000

  /** A missing title is interpolated as the text `undefined`. */
  function TitleText(title: Option<JsString>): JsString {
    if title.Some? then title.value else Bmp("undefined")
  }

  /** `generatePostText`; `None` where reading the missing slug throws. */
  function BlueskyText(item: Item, site: JsString, encode: Encoder): (r: Option<JsString>)
    ensures r.Some? <==> item.slug.Some?
  {
    if item.slug.None? then None
    else Some(PostText(Emoji(item.category), TitleText(item.title),
                       ArticleUrl(site, item.slug.value, encode), Hashtags(item.tags)))
  }

  /**
   * The title goes in verbatim, however long: the post is the same
   * template as the tweet with no budget, so its length grows one for one
   * with the title's.
   */
  lemma TitleVerbatim(item: Item, site: JsString, encode: Encoder)
    requires item.slug.Some? && item.title.Some?
    ensures var text := BlueskyText(item, site, encode).value;
      var url := ArticleUrl(site, item.slug.value, encode);
      && text[3..3 + |item.title.value|] == item.title.value
      && |text| == |item.title.value| + |url| + |Join(Hashtags(item.tags), Bmp(" "))| + 17
  {
    var emoji, title := Emoji(item.category), item.title.value;
    var url := ArticleUrl(site, item.slug.value, encode);
    PostTextLength(emoji, title, url, Hashtags(item.tags));
    var head := Headline(emoji, title);
    var text := head + Footer(url, Hashtags(item.tags));
    assert |head| == 3 + |title|;
    assert text[3..3 + |title|] == head[3..];
    assert head[3..] == title;
  }

  /** Each article with its post text and what the world did with it. */
  function Attempts(items: seq<Item>, site: JsString, encode: Encoder, outcomes: seq<Outcome>): (r: seq<Attempt>)
    requires |outcomes| == |items|
    ensures |r| == |items|
    ensures forall i | 0 <= i < |items| :: r[i].id == items[i].id && r[i].text == BlueskyText(items[i], site, encode) && r[i].outcome == outcomes[i]
  {
    seq(|items|, i requires 0 <= i < |items| => Attempt(items[i].id, BlueskyText(items[i], site, encode), outcomes[i]))
  }

  /**
   * `main`: each unposted article is posted (`outcomes[i].result` is the
   * post URI, `None` when login or posting threw), its record gets
   * `BlueskyPostUri` and `BlueskyPostedAt` (an update error is swallowed),
   * and a 5 s pause separates a post from the next article.
   */
  method Run(table: Table, items: seq<Item>, siteEnv: Option<JsString>, encode: Encoder, outcomes: seq<Outcome>)
    returns (log: seq<Step>)
    requires |outcomes| == |items|
    modifies table
    ensures log == Log(Attempts(items, SiteUrl(siteEnv), encode, outcomes), PAUSE_MS, |items|)
    ensures table.rows == Recorded(old(table.rows), Attempts(items, SiteUrl(siteEnv), encode, outcomes), BlueskyPostUri, BlueskyPostedAt, |items|)
  {
    if |items| == 0 {
      return [];
    }
    var site := SiteUrl(siteEnv);
    log := PostEach(table, Attempts(items, site, encode, outcomes), BlueskyPostUri, BlueskyPostedAt, PAUSE_MS);
  }
}
