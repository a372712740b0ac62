/**
 * The X posting script: the tweet text with its title budget, and the
 * loop that posts each unposted article and records the tweet id.
 */
module PostToX {
  import opened Js
  import opened Store
  import opened Social

  /** X counts every URL as 23 characters, whatever its length. */
  const URL_CHAR_COUNT: int := 23
  const TWEET_LIMIT: int := 280
  const PAUSE_MS: int := 15000

  /** The template's length outside the title, with the URL counted as 23. */
  function FixedPartsLength(emoji: JsString, hashtags: seq<JsString>): int {
    |emoji| + 1 + 2 + 9 + 1 + URL_CHAR_COUNT + 2 + |Join(hashtags, Bmp(" "))|
  }

  function MaxTitleLength(item: Item): int {
    TWEET_LIMIT - FixedPartsLength(Emoji(item.category), Hashtags(item.tags))
  }

  /** The budget is 228 code units, less two and the first tag's length when there is a tag. */
  lemma TitleBudget(item: Item)
    ensures MaxTitleLength(item) ==
      if item.tags.Some? && |item.tags.value| > 0 then 226 - |item.tags.value[0]| else 228
  {
    HashtagsLength(item.tags);
  }

  /** The title as tweeted: unchanged when it fits, else cut and marked with `...`. */
  function DisplayTitle(title: JsString, max: int): (r: JsString)
    ensures |title| <= max ==> r == title
    ensures |title| > max && max >= 3 ==> r == title[..max - 3] + Bmp("...")
    ensures |title| > max ==> |r| == Max(max, 3)
  {
    if |title| > max then Substring(title, 0, max - 3) + Bmp("...") else title
  }

  /** `generateTweetText`; `None` where reading the missing slug or title throws. */
  function TweetText(item: Item, site: JsString, encode: Encoder): (r: Option<JsString>)
    ensures r.Some? <==> item.title.Some? && item.slug.Some?
  {
    if item.slug.None? || item.title.None? then None
    else Some(PostText(Emoji(item.category), DisplayTitle(item.title.value, MaxTitleLength(item)),
                       ArticleUrl(site, item.slug.value, encode), Hashtags(item.tags)))
  }

  /** The tweet's length as post-to-x.cjs estimates it: every code unit, but the URL as 23. */
  function WeightedLength(text: JsString, url: JsString): int {
    |text| - |url| + URL_CHAR_COUNT
  }

  /**
   * The weighted tweet fits in 280 exactly when the title fits its budget
   * or the budget leaves room for the `...` mark; the title's part of the
   * weighted length is all of the budget when it is cut.
   */
  lemma TweetWithinLimit(item: Item, site: JsString, encode: Encoder)
    requires item.title.Some? && item.slug.Some?
    ensures var url := ArticleUrl(site, item.slug.value, encode);
      var max := MaxTitleLength(item);
      var w := WeightedLength(TweetText(item, site, encode).value, url);
      && (w <= TWEET_LIMIT <==> |item.title.value| <= max || max >= 3)
      && (|item.title.value| > max && max >= 3 ==> w == TWEET_LIMIT)
  {
    var emoji, hashtags := Emoji(item.category), Hashtags(item.tags);
    var title := DisplayTitle(item.title.value, MaxTitleLength(item));
    PostTextLength(emoji, title, ArticleUrl(site, item.slug.value, encode), hashtags);
  }

  /** Every tag of at most 223 code units leaves room for the mark. */
  lemma ShortTagLeavesRoom(item: Item)
    requires item.tags.Some? && |item.tags.value| > 0 ==> |item.tags.value[0]| <= 223
    ensures MaxTitleLength(item) >= 3
  {
    TitleBudget(item);
  }

  /** The image attached to the tweet: the article's thumbnail, else the default OGP image. */
  function MediaUrl(item: Item, site: JsString): (r: JsString)
    ensures IsTruthy(item.thumbnailUrl) ==> r == item.thumbnailUrl.value
    ensures !IsTruthy(item.thumbnailUrl) ==> r == site + Bmp("/og/default.png")
  {
    OrElse(item.thumbnailUrl, site + Bmp("/og/default.png"))
  }

  /** Each article with its post text and what the world did with it. */
  function Attempts(items: seq<Item>, site: JsString, encode: Encoder, outcomes: seq<Outcome>): (r: seq<Attempt>)
    requires |outcomes| == |items|
    ensures |r| == |items|
    ensures forall i | 0 <= i < |items| :: r[i].id == items[i].id && r[i].text == TweetText(items[i], site, encode) && r[i].outcome == outcomes[i]
  {
    seq(|items|, i requires 0 <= i < |items| => Attempt(items[i].id, TweetText(items[i], site, encode), outcomes[i]))
  }

  /**
   * `main`: each unposted article is tweeted (`outcomes[i].result` is the
   * tweet id, `None` when downloading, uploading or tweeting threw), its
   * record gets `TweetID` and `TweetedAt` (an update error is swallowed),
   * and a 15 s pause separates a tweet from the next article.
   */
  method Run(table: Table, items: seq<Item>, siteEnv: Option<JsString>, encode: Encoder, outcomes: seq<Outcome>)
    returns (log: seq<Step>)
    requires |outcomes| == |items|
    modifies table
    ensures log == Log(Attempts(items, SiteUrl(siteEnv), encode, outcomes), PAUSE_MS, |items|)
    ensures table.rows == Recorded(old(table.rows), Attempts(items, SiteUrl(siteEnv), encode, outcomes), TweetID, TweetedAt, |items|)
  {
    if |items| == 0 {
      return [];
    }
    var site := SiteUrl(siteEnv);
    log := PostEach(table, Attempts(items, site, encode, outcomes), TweetID, TweetedAt, PAUSE_MS);
  }
}
