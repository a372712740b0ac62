/**
 * Thumbnail selection for articles: a search keyword derived from the
 * category and the title, a fixed pool of Unsplash photos per keyword, and
 * a pick from the pool that is seeded by the Airtable record id when there
 * is one.  Also the URL extraction of the (deprecated) Replicate image run.
 */
module ImageGenerator {
  import opened Js

  // ---------------------------------------------------------------------
  // Keywords
  // ---------------------------------------------------------------------

  /** The twelve search keywords the keyword rules can produce. */
  datatype Keyword =
    | TechnologyNews | AnalyticsDashboard | DigitalLearning | DataVisualization
    | BreakingNews | WarningAlert | PremiumGold
    | ArtificialIntelligence | DataAnalytics | LearningBeginner | SecurityWarning
    | TechnologyAbstract

  function KeywordText(k: Keyword): JsString {
    match k
    case TechnologyNews => Bmp("technology news digital screen")
    case AnalyticsDashboard => Bmp("data analytics dashboard chart")
    case DigitalLearning => Bmp("digital learning technology education")
    case DataVisualization => Bmp("data visualization statistics")
    case BreakingNews => Bmp("breaking news digital alert")
    case WarningAlert => Bmp("warning alert technology")
    case PremiumGold => Bmp("premium technology gold digital")
    case ArtificialIntelligence => Bmp("artificial intelligence technology")
    case DataAnalytics => Bmp("data analytics technology")
    case LearningBeginner => Bmp("learning technology beginner")
    case SecurityWarning => Bmp("security warning technology")
    case TechnologyAbstract => Bmp("technology digital abstract")
  }

  /** The seven-entry category table; `None` for any other category. */
  function CategoryKeyword(category: JsString): (r: Option<Keyword>)
    ensures r.Some? ==> r.value in {TechnologyNews, AnalyticsDashboard, DigitalLearning,
                                    DataVisualization, BreakingNews, WarningAlert, PremiumGold}
  {
    if category == Bmp("ニュース") then Some(TechnologyNews)
    else if category == Bmp("ランキング") then Some(AnalyticsDashboard)
    else if category == Bmp("ガイド") then Some(DigitalLearning)
    else if category == Bmp("まとめ") then Some(DataVisualization)
    else if category == Bmp("速報") then Some(BreakingNews)
    else if category == Bmp("炎上") then Some(WarningAlert)
    else if category == Bmp("G1レース") then Some(PremiumGold)
    else None
  }

  /** Each of the seven categories maps to its own keyword. */
  lemma CategoryTable()
    ensures CategoryKeyword(Bmp("ニュース")) == Some(TechnologyNews)
    ensures CategoryKeyword(Bmp("ランキング")) == Some(AnalyticsDashboard)
    ensures CategoryKeyword(Bmp("ガイド")) == Some(DigitalLearning)
    ensures CategoryKeyword(Bmp("まとめ")) == Some(DataVisualization)
    ensures CategoryKeyword(Bmp("速報")) == Some(BreakingNews)
    ensures CategoryKeyword(Bmp("炎上")) == Some(WarningAlert)
    ensures CategoryKeyword(Bmp("G1レース")) == Some(PremiumGold)
  {
    assert Bmp("まとめ")[0] != Bmp("ガイド")[0];
    assert Bmp("炎上")[0] != Bmp("速報")[0];
    assert Bmp("G1レース")[0] != Bmp("ランキング")[0];
  }

  /** One of the title words that fix the keyword whatever the category is. */
  predicate TitleRuleApplies(title: JsString) {
    Includes(title, Bmp("AI")) || Includes(title, Bmp("データ分析")) || Includes(title, Bmp("初心者"))
    || Includes(title, Bmp("悪質")) || Includes(title, Bmp("詐欺"))
  }

  /** The search keyword for an article. */
  function UnsplashKeyword(category: JsString, title: JsString): (r: Keyword)
    ensures TitleRuleApplies(title) ==>
      r in {ArtificialIntelligence, DataAnalytics, LearningBeginner, SecurityWarning}
    ensures !TitleRuleApplies(title) ==>
      (CategoryKeyword(category).Some? ==> r == CategoryKeyword(category).value)
    ensures r == TechnologyAbstract <==> !TitleRuleApplies(title) && CategoryKeyword(category).None?
  {
    if Includes(title, Bmp("AI")) then ArtificialIntelligence
    else if Includes(title, Bmp("データ分析")) then DataAnalytics
    else if Includes(title, Bmp("初心者")) then LearningBeginner
    else if Includes(title, Bmp("悪質")) || Includes(title, Bmp("詐欺")) then SecurityWarning
    else match CategoryKeyword(category)
      case Some(k) => k
      case None => TechnologyAbstract
  }

  /**
   * The title rules win over the category and are tried in a fixed order:
   * "AI" before "データ分析" before "初心者" before "悪質"/"詐欺".
   */
  lemma TitleRulesOverrideCategory(c1: JsString, c2: JsString, title: JsString)
    requires TitleRuleApplies(title)
    ensures UnsplashKeyword(c1, title) == UnsplashKeyword(c2, title)
    ensures Includes(title, Bmp("AI")) ==> UnsplashKeyword(c1, title) == ArtificialIntelligence
    ensures !Includes(title, Bmp("AI")) && Includes(title, Bmp("データ分析")) ==>
      UnsplashKeyword(c1, title) == DataAnalytics
    ensures !Includes(title, Bmp("AI")) && !Includes(title, Bmp("データ分析")) && Includes(title, Bmp("初心者")) ==>
      UnsplashKeyword(c1, title) == LearningBeginner
  {
  }

  // ---------------------------------------------------------------------
  // Photo pools
  // ---------------------------------------------------------------------

  const PHOTO_PREFIX: JsString := Bmp("https://images.unsplash.com/photo-")
  const PHOTO_SUFFIX: JsString := Bmp("?w=1200&h=675&fit=crop")

  /**
   * An Unsplash photo id: the upload time in milliseconds (written in
   * decimal) and a 48-bit suffix (written as 12 lower-case hex digits),
   * joined by `-`.
   */
  datatype PhotoId = PhotoId(uploaded: nat, suffix: nat)

  /** The hex digits of the last `width` nibbles of `n`, most significant first. */
  function Hex(n: nat, width: nat): (r: JsString)
    ensures |r| == width
    ensures forall i | 0 <= i < |r| :: IsDigit(r[i]) || 0x61 <= r[i] <= 0x66
  {
    if width == 0 then [] else Hex(n / 16, width - 1) + [if n % 16 < 10 then 0x30 + n % 16 else 0x57 + n % 16]
  }

  /** The id as it appears in a photo URL. */
  function IdText(id: PhotoId): JsString {
    NatToString(id.uploaded) + [0x2D] + Hex(id.suffix, 12)
  }

  /** A 1200x675 crop of the Unsplash photo with the given id. */
  function Photo(id: PhotoId): (r: JsString)
    ensures StartsWith(r, PHOTO_PREFIX)
  {
    PHOTO_PREFIX + IdText(id) + PHOTO_SUFFIX
  }

  /** The photo ids listed for a keyword, `None` for a keyword without a pool. */
  function ListedPool(k: Keyword): (r: Option<seq<PhotoId>>)
    ensures r.Some? <==> k != PremiumGold && k != TechnologyAbstract
    ensures r.Some? ==> |r.value| == 10
  {
    match k
    case PremiumGold => None
    case TechnologyAbstract => None
    case TechnologyNews => Some(TechnologyNewsIds())
    case AnalyticsDashboard => Some(AnalyticsDashboardIds())
    case DigitalLearning => Some(DigitalLearningIds())
    case DataVisualization => Some(DataVisualizationIds())
    case BreakingNews => Some(BreakingNewsIds())
    case WarningAlert => Some(WarningAlertIds())
    case ArtificialIntelligence => Some(ArtificialIntelligenceIds())
    case SecurityWarning => Some(SecurityWarningIds())
    case LearningBeginner => Some(LearningBeginnerIds())
    case DataAnalytics => Some(DataAnalyticsIds())
  }

  function TechnologyNewsIds(): (r: seq<PhotoId>)
    ensures |r| == 10
  {
    [
      PhotoId(1504711434969, 0xe33886168f5c),
      PhotoId(1519389950473, 0x47ba0277781c),
      PhotoId(1550751827, 0x4bd374c3f58b),
      PhotoId(1531297484001, 0x80022131f5a1),
      PhotoId(1498050108023, 0xc5249f4df085),
      PhotoId(1517694712202, 0x14dd9538aa97),
      PhotoId(1461749280684, 0xdccba630e2f6),
      PhotoId(1484788984921, 0x03950022c9ef),
      PhotoId(1522071820081, 0x009f0129c71c),
      PhotoId(1517430816045, 0xdf4b7de11d1d)
    ]
  }

  function AnalyticsDashboardIds(): (r: seq<PhotoId>)
    ensures |r| == 10
  {
    [
      PhotoId(1551288049, 0xbebda4e38f71),
      PhotoId(1543286386, 0x713bdd548da4),
      PhotoId(1460925895917, 0xafdab827c52f),
      PhotoId(1504868584819, 0xf8e8b4b6d7e3),
      PhotoId(1518186285589, 0x2f7649de83e0),
      PhotoId(1559028012, 0x481c04fa702d),
      PhotoId(1516321318423, 0xf06f85e504b3),
      PhotoId(1507925921958, 0x8a62f3d1a50d),
      PhotoId(1509228468518, 0x180dd4864904),
      PhotoId(1573164713714, 0xd95e436ab8d6)
    ]
  }

  function DigitalLearningIds(): (r: seq<PhotoId>)
    ensures |r| == 10
  {
    [
      PhotoId(1488590528505, 0x98d2b5aba04b),
      PhotoId(1516321318423, 0xf06f85e504b3),
      PhotoId(1434030216411, 0x0b793f4b4173),
      PhotoId(1509062522246, 0x3755977927d7),
      PhotoId(1454165804606, 0xc3d57bc86b40),
      PhotoId(1531297484001, 0x80022131f5a1),
      PhotoId(1522202176988, 0x66273c2fd55f),
      PhotoId(1517245386807, 0xbb43f82c33c4),
      PhotoId(1515378791036, 0x0648a3ef77b2),
      PhotoId(1524178232363, 0x1fb2b075b655)
    ]
  }

  function DataVisualizationIds(): (r: seq<PhotoId>)
    ensures |r| == 10
  {
    [
      PhotoId(1460925895917, 0xafdab827c52f),
      PhotoId(1551288049, 0xbebda4e38f71),
      PhotoId(1543286386, 0x713bdd548da4),
      PhotoId(1504868584819, 0xf8e8b4b6d7e3),
      PhotoId(1518186285589, 0x2f7649de83e0),
      PhotoId(1507925921958, 0x8a62f3d1a50d),
      PhotoId(1509228468518, 0x180dd4864904),
      PhotoId(1573164713714, 0xd95e436ab8d6),
      PhotoId(1559028012, 0x481c04fa702d),
      PhotoId(1542744173, 0x8e7e53415bb0)
    ]
  }

  function BreakingNewsIds(): (r: seq<PhotoId>)
    ensures |r| == 10
  {
    [
      PhotoId(1504711434969, 0xe33886168f5c),
      PhotoId(1585776245991, 0xcf89dd7fc73a),
      PhotoId(1593640495253, 0x23196b27a87f),
      PhotoId(1519389950473, 0x47ba0277781c),
      PhotoId(1550751827, 0x4bd374c3f58b),
      PhotoId(1531297484001, 0x80022131f5a1),
      PhotoId(1498050108023, 0xc5249f4df085),
      PhotoId(1517694712202, 0x14dd9538aa97),
      PhotoId(1461749280684, 0xdccba630e2f6),
      PhotoId(1484788984921, 0x03950022c9ef)
    ]
  }

  function WarningAlertIds(): (r: seq<PhotoId>)
    ensures |r| == 10
  {
    [
      PhotoId(1563986768609, 0x322da13575f3),
      PhotoId(1550751827, 0x4bd374c3f58b),
      PhotoId(1526374965328, 0x7f61d4dc18c5),
      PhotoId(1614064641938, 0x3bbee52942c7),
      PhotoId(1558494949, 0xef010cbdcc31),
      PhotoId(1573496359142, 0xb8d87734a5a2),
      PhotoId(1555949963, 0xff9fe0c870eb),
      PhotoId(1633265486064, 0x086b219458ec),
      PhotoId(1580894894513, 0x541e068a3e2b),
      PhotoId(1589149098258, 0x3e9102cd63d3)
    ]
  }

  function ArtificialIntelligenceIds(): (r: seq<PhotoId>)
    ensures |r| == 10
  {
    [
      PhotoId(1677442136019, 0x21780ecad995),
      PhotoId(1620712943543, 0xbcc4688e7485),
      PhotoId(1635070041078, 0xe363dbe005cb),
      PhotoId(1655720828018, 0xedd2daec9349),
      PhotoId(1675557009875, 0x4637c5f02669),
      PhotoId(1686191128892, 0x34817c0b13ae),
      PhotoId(1655393001768, 0xd946c97d6fd1),
      PhotoId(1676299081847, 0x824916de030a),
      PhotoId(1655635643486, 0xa17bc48771ff),
      PhotoId(1676277791608, 0xac65a7a85a36)
    ]
  }

  function SecurityWarningIds(): (r: seq<PhotoId>)
    ensures |r| == 10
  {
    [
      PhotoId(1563986768609, 0x322da13575f3),
      PhotoId(1614064641938, 0x3bbee52942c7),
      PhotoId(1550751827, 0x4bd374c3f58b),
      PhotoId(1558494949, 0xef010cbdcc31),
      PhotoId(1573496359142, 0xb8d87734a5a2),
      PhotoId(1555949963, 0xff9fe0c870eb),
      PhotoId(1633265486064, 0x086b219458ec),
      PhotoId(1580894894513, 0x541e068a3e2b),
      PhotoId(1589149098258, 0x3e9102cd63d3),
      PhotoId(1526374965328, 0x7f61d4dc18c5)
    ]
  }

  function LearningBeginnerIds(): (r: seq<PhotoId>)
    ensures |r| == 10
  {
    [
      PhotoId(1488590528505, 0x98d2b5aba04b),
      PhotoId(1509062522246, 0x3755977927d7),
      PhotoId(1454165804606, 0xc3d57bc86b40),
      PhotoId(1516321318423, 0xf06f85e504b3),
      PhotoId(1522202176988, 0x66273c2fd55f),
      PhotoId(1517245386807, 0xbb43f82c33c4),
      PhotoId(1515378791036, 0x0648a3ef77b2),
      PhotoId(1524178232363, 0x1fb2b075b655),
      PhotoId(1531297484001, 0x80022131f5a1),
      PhotoId(1434030216411, 0x0b793f4b4173)
    ]
  }

  function DataAnalyticsIds(): (r: seq<PhotoId>)
    ensures |r| == 10
  {
    [
      PhotoId(1551288049, 0xbebda4e38f71),
      PhotoId(1504868584819, 0xf8e8b4b6d7e3),
      PhotoId(1518186285589, 0x2f7649de83e0),
      PhotoId(1543286386, 0x713bdd548da4),
      PhotoId(1460925895917, 0xafdab827c52f),
      PhotoId(1559028012, 0x481c04fa702d),
      PhotoId(1507925921958, 0x8a62f3d1a50d),
      PhotoId(1509228468518, 0x180dd4864904),
      PhotoId(1573164713714, 0xd95e436ab8d6),
      PhotoId(1516321318423, 0xf06f85e504b3)
    ]
  }

  /** The pool a keyword draws from: its own, else the technology-news pool. */
  function Pool(k: Keyword): (r: seq<JsString>)
    ensures |r| == 10
    ensures forall i | 0 <= i < |r| :: StartsWith(r[i], PHOTO_PREFIX)
  {
    var ids := match ListedPool(k)
      case Some(ids) => ids
      case None => ListedPool(TechnologyNews).value;
    seq(|ids|, i requires 0 <= i < |ids| => Photo(ids[i]))
  }

  /** Keywords without a pool of their own share the technology-news pool. */
  lemma FallbackPool(k: Keyword)
    requires k == PremiumGold || k == TechnologyAbstract
    ensures Pool(k) == Pool(TechnologyNews)
  {
  }

  // ---------------------------------------------------------------------
  // The seeded pick
  // ---------------------------------------------------------------------

  /** One step of the string hash: `31 * h + c` wrapped to 32 bits. */
  function HashStep(h: int, c: Unit): int {
    ToInt32(31 * h + c)
  }

  /** The hash of a record id: the left fold of `HashStep` from 0. */
  function Hash(s: JsString): (r: int)
    ensures -0x8000_0000 <= r < 0x8000_0000
    decreases |s|
  {
    if s == [] then 0 else HashStep(Hash(s[..|s| - 1]), s[|s| - 1])
  }

  /**
   * `((h << 5) - h) + c` followed by `& h`-with-itself is the wrapped
   * `31 * h + c`: the shift wraps `32 * h` to 32 bits, and the final
   * bitwise AND of a value with itself is its ToInt32.
   */
  lemma ShiftSubtractIsStep(h: int, c: Unit)
    requires -0x8000_0000 <= h < 0x8000_0000
    ensures ToInt32(ToInt32(ToInt32(h) * 32) - h + c) == HashStep(h, c)
  {
    ToInt32Unique(h, h);
    var t := ToInt32(h * 32);
    var k := (h * 32 - t) / TWO_32;
    assert h * 32 - t == k * TWO_32;
    var x := t - h + c;
    var y := 31 * h + c;
    assert x - y == (-k) * TWO_32;
    ToInt32Congruent(x, y);
  }

  /** The hash loop over the record id's UTF-16 code units. */
  method HashCode(recordId: JsString) returns (hash: int)
    ensures hash == Hash(recordId)
  {
    hash := 0;
    var i := 0;
    while i < |recordId|
      invariant 0 <= i <= |recordId|
      invariant hash == Hash(recordId[..i])
    {
      var code := recordId[i];
      ShiftSubtractIsStep(hash, code);
      hash := (ToInt32(ToInt32(hash) * 32) - hash) + code;
      hash := ToInt32(hash);
      assert recordId[..i + 1][..i] == recordId[..i];
      i := i + 1;
    }
    assert recordId[..i] == recordId;
  }

  lemma HashSnoc(s: JsString, c: Unit)
    ensures Hash(s + [c]) == HashStep(Hash(s), c)
  {
    assert (s + [c])[..|s|] == s;
  }

  /** A hand-computed value without wrap-around. */
  lemma HashOfAbc()
    ensures Hash(Bmp("abc")) == 96354
  {
    assert Bmp("abc") == [97] + [98] + [99];
    assert [] + [97] == [97];
    HashStepWithin([], 97, 0, 97);
    HashStepWithin([97], 98, 97, 3105);
    HashStepWithin([97] + [98], 99, 3105, 96354);
  }

  /** A hand-computed value whose last step wraps around 32 bits. */
  lemma HashOfRecXyz()
    ensures Hash(Bmp("recXYZ")) == -934931735
  {
    var s3: JsString := [114, 101, 99];
    HashPrefixRe();
    HashSnoc([114, 101], 99);
    assert [114, 101] + [99] == s3;
    HashSuffixXyz(s3);
    assert Bmp("recXYZ") == s3 + [88] + [89] + [90];
  }

  lemma HashSuffixXyz(s3: JsString)
    requires Hash(s3) == 112784
    ensures Hash(s3 + [88] + [89] + [90]) == -934931735
  {
    HashStepWithin(s3, 88, 112784, 3496392);
    HashStepWithin(s3 + [88], 89, 3496392, 108388241);
    HashSnoc(s3 + [88] + [89], 90);
    ToInt32Unique(31 * 108388241 + 90, -934931735);
  }

  /** One step whose sum stays within 32 bits needs no wrap-around. */
  lemma HashStepWithin(s: JsString, c: Unit, h: int, h': int)
    requires Hash(s) == h && h' == 31 * h + c
    requires -0x8000_0000 <= h' < 0x8000_0000
    ensures Hash(s + [c]) == h'
  {
    HashSnoc(s, c);
    ToInt32Unique(h', h');
  }

  lemma HashPrefixRe()
    ensures Hash([114, 101]) == 3635
  {
    assert [] + [114] == [114];
    HashStepWithin([], 114, 0, 114);
    assert [114] + [101] == [114, 101];
    HashStepWithin([114], 101, 114, 3635);
  }

  /** The index a record id selects: the hash's magnitude modulo the pool size. */
  function SeededIndex(recordId: JsString, size: int): (r: int)
    requires size > 0
    ensures 0 <= r < size
  {
    Abs(Hash(recordId)) % size
  }

  /** `Math.floor(rnd * size)` for a `Math.random()` value `rnd` in [0, 1). */
  function RandomIndex(rnd: real, size: int): (r: int)
    requires 0.0 <= rnd < 1.0 && size > 0
    ensures 0 <= r < size
  {
    var x := rnd * size as real;
    assert x < size as real;
    x.Floor
  }

  /** The access key is the placeholder literal. */
  const UNSPLASH_ACCESS_KEY: JsString := Bmp("YOUR_UNSPLASH_ACCESS_KEY")

  /** Whether the search API would be used instead of the fixed pools. */
  predicate UsesSearchApi() {
    UNSPLASH_ACCESS_KEY != [] && UNSPLASH_ACCESS_KEY != Bmp("YOUR_UNSPLASH_ACCESS_KEY")
  }

  /** The URL chosen for a keyword: seeded when the record id is non-empty. */
  function PoolImage(k: Keyword, recordId: Option<JsString>, rnd: real): (r: JsString)
    requires 0.0 <= rnd < 1.0
    ensures r in Pool(k)
    ensures IsTruthy(recordId) ==> r == Pool(k)[Abs(Hash(recordId.value)) % 10]
  {
    var pool := Pool(k);
    if IsTruthy(recordId) then pool[SeededIndex(recordId.value, |pool|)]
    else pool[RandomIndex(rnd, |pool|)]
  }

  /**
   * Picking from the fixed pools is the only reachable branch, and with a
   * non-empty record id the pick does not depend on the random draw.
   */
  lemma SeededPickIsDeterministic(k: Keyword, recordId: JsString, rnd1: real, rnd2: real)
    requires recordId != []
    requires 0.0 <= rnd1 < 1.0 && 0.0 <= rnd2 < 1.0
    ensures !UsesSearchApi()
    ensures PoolImage(k, Some(recordId), rnd1) == PoolImage(k, Some(recordId), rnd2)
  {
  }

  /** The image for a keyword, from the fixed pools. */
  method FetchUnsplashImage(keyword: Keyword, recordId: Option<JsString>, rnd: real) returns (url: JsString)
    requires 0.0 <= rnd < 1.0
    ensures url == PoolImage(keyword, recordId, rnd)
  {
    // The search-API branch is not taken: the access key is the placeholder.
    var pool := Pool(keyword);
    if IsTruthy(recordId) {
      var hash := HashCode(recordId.value);
      url := pool[Abs(hash) % |pool|];
    } else {
      url := pool[RandomIndex(rnd, |pool|)];
    }
  }

  /**
   * The thumbnail of an article: `None` when the title is missing (reading
   * its prefix throws and the error is caught), else a photo from the
   * keyword's pool.
   */
  function Thumbnail(category: JsString, title: Option<JsString>, recordId: Option<JsString>, rnd: real): (r: Option<JsString>)
    requires 0.0 <= rnd < 1.0
    ensures r.Some? <==> title.Some?
    ensures r.Some? ==> r.value in Pool(UnsplashKeyword(category, title.value))
    ensures r.Some? ==> StartsWith(r.value, PHOTO_PREFIX)
  {
    if title.None? then None else Some(PoolImage(UnsplashKeyword(category, title.value), recordId, rnd))
  }

  method GenerateAndUploadThumbnail(category: JsString, title: Option<JsString>, recordId: Option<JsString>, rnd: real)
    returns (r: Option<JsString>)
    requires 0.0 <= rnd < 1.0
    ensures r == Thumbnail(category, title, recordId, rnd)
  {
    if title.None? {
      return None;
    }
    var keyword := UnsplashKeyword(category, title.value);
    var url := FetchUnsplashImage(keyword, recordId, rnd);
    r := Some(url);
  }

  // ---------------------------------------------------------------------
  // The Replicate run (deprecated path)
  // ---------------------------------------------------------------------

  /** The prompt of the deprecated image generator: always empty. */
  function ImagePrompt(category: JsString, title: JsString): JsString {
    []
  }

  /**
   * A JavaScript value as returned by the image model: `VObject` is any
   * non-array object, with its `url` property and the text its `toString`
   * method returns (`None` when it has no callable `toString`).
   */
  datatype Value =
    | VNull
    | VText(text: JsString)
    | VNumber(n: int)
    | VArray(items: seq<Value>)
    | VObject(url: Option<Value>, toText: Option<JsString>)

  predicate Truthy(v: Value) {
    match v
    case VNull => false
    case VText(t) => t != []
    case VNumber(n) => n != 0
    case _ => true
  }

  /** Whether `String(v)` succeeds, as one element of a joined array. */
  predicate Printable(v: Value)
    decreases v
  {
    match v
    case VObject(_, t) => t.Some?
    case VArray(items) => forall i | 0 <= i < |items| :: Printable(items[i])
    case _ => true
  }

  /** `Array.prototype.join(",")`'s text for an element: null is written as ''. */
  function ElementText(v: Value): JsString
    requires Printable(v)
    decreases v
  {
    match v
    case VNull => []
    case VText(t) => t
    case VNumber(n) => IntToString(n)
    case VObject(_, t) => t.value
    case VArray(items) =>
      Join(seq(|items|, i requires 0 <= i < |items| => ElementText(items[i])), Bmp(","))
  }

  /** `value.toString()` for an object that has one (arrays always do). */
  function ObjectText(v: Value): Option<JsString>
    requires v.VArray? || v.VObject?
  {
    match v
    case VArray(_) => if Printable(v) then Some(ElementText(v)) else None
    case VObject(_, t) => t
  }

  /** The candidate URL an output yields, `None` where a conversion throws. */
  datatype Candidate = Candidate(value: Value) | Throws

  const HTTP: JsString := Bmp("http")

  /** The check before the download: a string that starts with "http". */
  function Checked(c: Candidate): (r: Option<JsString>)
    ensures r.Some? <==> c.Candidate? && c.value.VText? && StartsWith(c.value.text, HTTP)
    ensures r.Some? ==> r.value == c.value.text
  {
    if c.Candidate? && c.value.VText? && c.value.text != [] && StartsWith(c.value.text, HTTP)
    then Some(c.value.text) else None
  }

  /** The URL of the image the run produced, or `None`. */
  function ImageUrlOf(output: Value): (r: Option<JsString>)
    ensures r.Some? ==> StartsWith(r.value, HTTP)
    ensures output.VText? ==> (r.Some? <==> StartsWith(output.text, HTTP))
    ensures output.VNull? || output.VNumber? || output == VArray([]) ==> r.None?
    ensures output.VArray? && |output.items| > 0 && output.items[0].VText? ==>
      r == Checked(Candidate(output.items[0]))
  {
    Checked(CandidateOf(output))
  }

  /** The candidate URL the branches of `generateThumbnailImage` settle on, as a function. */
  function CandidateOf(output: Value): Candidate {
    if output.VArray? && |output.items| > 0 then
      var first := output.items[0];
      if first.VArray? || first.VObject? then
        // Objects with a callable toString are converted; others use `.url`.
        if first.VArray? || first.toText.Some? then
          match ObjectText(first)
          case Some(t) => Candidate(VText(t))
          case None => Throws
        else if first.url.Some? && Truthy(first.url.value) then Candidate(first.url.value)
        else Candidate(first)
      else Candidate(first)
    else if output.VText? then Candidate(output)
    else if output.VObject? && output.url.Some? && Truthy(output.url.value) then Candidate(output.url.value)
    else Candidate(VNull)
  }

  /** The URL extraction, updating the candidate step by step. */
  method ExtractImageUrl(output: Value) returns (imageUrl: Option<JsString>)
    ensures imageUrl == ImageUrlOf(output)
  {
    var candidate := Candidate(VNull);
    if output.VArray? && |output.items| > 0 {
      candidate := Candidate(output.items[0]);
      var first := output.items[0];
      if first.VArray? || first.VObject? {
        if first.VArray? || first.toText.Some? {
          var text := ObjectText(first);
          if text.None? {
            // `toString` throws; the caller's handler turns this into null.
            return None;
          }
          candidate := Candidate(VText(text.value));
        } else if first.url.Some? && Truthy(first.url.value) {
          candidate := Candidate(first.url.value);
        }
      }
    } else if output.VText? {
      candidate := Candidate(output);
    } else if output.VObject? && output.url.Some? && Truthy(output.url.value) {
      candidate := Candidate(output.url.value);
    }
    if candidate.Candidate? && candidate.value.VText? && candidate.value.text != []
       && StartsWith(candidate.value.text, HTTP) {
      imageUrl := Some(candidate.value.text);
    } else {
      imageUrl := None;
    }
  }

  /** What the image model's run came back with. */
  datatype RunOutcome = Produced(output: Value) | RunFailed

  /**
   * The local path of the generated image, or `None`.  `replicateReady` is
   * whether the API token was configured, `run` what the model returned to
   * the prompt that is reported in `prompt`, `downloaded` whether the
   * download of the extracted URL succeeded, and `tempDir`/`timestamp` the
   * directory and clock the file name is built from.
   */
  method GenerateThumbnailImage(replicateReady: bool, category: JsString, title: Option<JsString>,
                                run: RunOutcome, downloaded: bool, tempDir: JsString, timestamp: int)
    returns (path: Option<JsString>, prompt: Option<JsString>)
    ensures prompt.Some? <==> replicateReady && title.Some?
    ensures prompt.Some? ==> prompt.value == []
    ensures path.Some? <==>
      replicateReady && title.Some? && run.Produced? && ImageUrlOf(run.output).Some? && downloaded
    ensures path.Some? ==>
      path.value == tempDir + Bmp("/thumbnail-") + IntToString(timestamp) + Bmp(".webp")
  {
    path, prompt := None, None;
    if !replicateReady {
      return;
    }
    if title.None? {
      // `title.substring` throws before the prompt is built.
      return;
    }
    prompt := Some(ImagePrompt(category, title.value));
    if run.RunFailed? {
      return;
    }
    var imageUrl := ExtractImageUrl(run.output);
    if imageUrl.None? || !downloaded {
      return;
    }
    path := Some(tempDir + Bmp("/thumbnail-") + IntToString(timestamp) + Bmp(".webp"));
  }
}
