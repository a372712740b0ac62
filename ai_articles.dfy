/**
 * What the two AI article generators share: the `{topic}` title
 * template, the article count read from the environment, the random
 * template and topic picks and the featured draw.
 */
module AiArticles {
  import opened Js
  import ImageGenerator

  const PLACEHOLDER: JsString := Bmp("{topic}")
  const BRACE: Unit := 0x7B
  const AI_EDITORS: JsString := Bmp("AI編集部")
  const PUBLISHED: JsString := Bmp("published")

  /** `Math.random() < 0.3`: an article is featured with probability 0.3. */
  const FEATURED_RATE: real := 0.3

  /** `titleTemplate.replace('{topic}', topic)`: only the first placeholder is filled. */
  function Title(titleTemplate: JsString, topic: JsString): JsString {
    ReplaceFirst(titleTemplate, PLACEHOLDER, topic)
  }

  /**
   * A template whose text before the placeholder has no `{` gets the topic
   * exactly there, and the rest of the template is kept as it is.
   */
  lemma TitleFillsPlaceholder(pre: JsString, post: JsString, topic: JsString)
    requires NoBrace(pre)
    ensures Title(pre + PLACEHOLDER + post, topic) == pre + topic + post
  {
    var s := pre + PLACEHOLDER + post;
    FirstPlaceholderAt(pre, post);
    assert s[..|pre|] == pre;
    assert s[|pre| + |PLACEHOLDER|..] == post;
  }

  predicate NoBrace(s: JsString) {
    forall i | 0 <= i < |s| :: s[i] != BRACE
  }

  /** The first placeholder is found right after a prefix without `{`. */
  lemma FirstPlaceholderAt(pre: JsString, post: JsString)
    requires NoBrace(pre)
    ensures IndexOf(pre + PLACEHOLDER + post, PLACEHOLDER) == |pre|
    ensures Includes(pre + PLACEHOLDER + post, PLACEHOLDER)
  {
    var s := pre + PLACEHOLDER + post;
    assert s[|pre|..|pre| + |PLACEHOLDER|] == PLACEHOLDER;
    assert OccursAt(s, PLACEHOLDER, |pre|);
    assert PLACEHOLDER[0] == BRACE;
    forall j | 0 <= j < |pre| ensures !OccursAt(s, PLACEHOLDER, j) {
      assert s[j] == pre[j] != BRACE;
      if j + |PLACEHOLDER| <= |s| {
        assert s[j..j + |PLACEHOLDER|][0] == s[j];
      }
    }
  }

  /** A text without `{` holds no placeholder. */
  lemma NoBraceNoPlaceholder(s: JsString)
    requires NoBrace(s)
    ensures !Includes(s, PLACEHOLDER)
  {
    assert PLACEHOLDER[0] == BRACE;
    forall j | 0 <= j <= |s| ensures !OccursAt(s, PLACEHOLDER, j) {
      if j + |PLACEHOLDER| <= |s| {
        assert s[j..j + |PLACEHOLDER|][0] == s[j] != BRACE;
      }
    }
  }

  /**
   * `parseInt(process.env.ARTICLE_COUNT || '3', 10)`: `None` stands for NaN.
   */
  function ArticleCount(env: Option<JsString>): Option<int> {
    ParseInt(OrElse(env, Bmp("3")))
  }

  /** Without the variable (or with it empty) three articles are generated. */
  lemma DefaultArticleCount()
    ensures ArticleCount(None) == Some(3)
    ensures ArticleCount(Some([])) == Some(3)
    ensures forall n: int :: ArticleCount(Some(IntToString(n))) == Some(n)
  {
    var three := Bmp("3");
    assert three == [0x33] == NatToString(3);
    ParseIntOfString(3);
    assert OrElse(None, three) == three && OrElse(Some([]), three) == three;
    forall n: int ensures ArticleCount(Some(IntToString(n))) == Some(n) {
      ParseIntOfString(n);
      DefaultNotUsed(IntToString(n));
    }
  }

  /** A non-empty variable is read as it is. */
  lemma DefaultNotUsed(s: JsString)
    requires s != []
    ensures ArticleCount(Some(s)) == ParseInt(s)
  {
  }

  /** How often `for (let i = 0; i < count; i++)` runs; a NaN count runs it never. */
  function Iterations(count: Option<int>): (r: nat)
    ensures count.None? ==> r == 0
    ensures count.Some? && count.value <= 0 ==> r == 0
    ensures count.Some? && count.value > 0 ==> r == count.value
  {
    match count
    case None => 0
    case Some(n) => if n > 0 then n else 0
  }

  /** `xs[Math.floor(Math.random() * xs.length)]` */
  function Pick<T>(xs: seq<T>, rnd: real): (r: T)
    requires |xs| > 0 && 0.0 <= rnd < 1.0
    ensures r in xs
  {
    xs[ImageGenerator.RandomIndex(rnd, |xs|)]
  }

  /** A `Math.random()` value. */
  predicate IsRandom(rnd: real) {
    0.0 <= rnd < 1.0
  }
}
