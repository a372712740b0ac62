/**
 * The three thumbnail regeneration scripts.  Each walks the published
 * articles, works out a category (the stored one, else one guessed from the
 * title), asks the image generator for a thumbnail and writes it as the
 * record's only changed field, counting successes and failures.
 *
 * - `Remaining` only visits articles whose thumbnail is not on Cloudinary
 *   and pauses after every article, a minute after every sixth;
 * - `AllUnsplash` visits every article and seeds the pick with the record id;
 * - `AllThumbnails` visits every article with an unseeded pick.
 */
module Regenerate {
  import opened Js
  import opened Store
  import Config
  import ImageGenerator

  // ---------------------------------------------------------------------
  // detectCategory
  // ---------------------------------------------------------------------

  const BREAKING: JsString := Bmp("速報")
  const RANKING: JsString := Bmp("ランキング")
  const GUIDE: JsString := Bmp("ガイド")
  const SUMMARY: JsString := Bmp("まとめ")
  const NEWS: JsString := Bmp("ニュース")

  /** One title rule: any of its words selects its category. */
  datatype Rule = Rule(words: seq<JsString>, category: JsString)

  /** The title rules in the order they are tried. */
  const RULES: seq<Rule> := [
    Rule([BREAKING, Bmp("最新情報")], BREAKING),
    Rule([RANKING, Bmp("TOP")], RANKING),
    Rule([Bmp("初心者"), GUIDE, Bmp("選び方")], GUIDE),
    Rule([Bmp("徹底比較"), Bmp("比較")], SUMMARY),
    Rule([Bmp("必読"), Bmp("コツ"), Bmp("見分け方")], GUIDE)
  ]

  predicate Mentions(title: JsString, words: seq<JsString>) {
    exists j | 0 <= j < |words| :: Includes(title, words[j])
  }

  /** The category of the first rule whose words the title mentions, else `default`. */
  function FirstMatch(rules: seq<Rule>, title: JsString, default: JsString): (r: JsString)
    decreases |rules|
  {
    if rules == [] then default
    else if Mentions(title, rules[0].words) then rules[0].category
    else FirstMatch(rules[1..], title, default)
  }

  /** With no rule mentioned the default is the result. */
  lemma {:induction false} FirstMatchNone(rules: seq<Rule>, title: JsString, default: JsString)
    requires forall i | 0 <= i < |rules| :: !Mentions(title, rules[i].words)
    ensures FirstMatch(rules, title, default) == default
    decreases |rules|
  {
    if rules != [] {
      assert forall i | 0 <= i < |rules| - 1 :: rules[1..][i] == rules[i + 1];
      FirstMatchNone(rules[1..], title, default);
    }
  }

  /** The first rule the title mentions decides the result, whatever later rules say. */
  lemma {:induction false} FirstMatchAt(rules: seq<Rule>, title: JsString, default: JsString, i: int)
    requires 0 <= i < |rules| && Mentions(title, rules[i].words)
    requires forall j | 0 <= j < i :: !Mentions(title, rules[j].words)
    ensures FirstMatch(rules, title, default) == rules[i].category
    decreases i
  {
    if i > 0 {
      assert !Mentions(title, rules[0].words);
      assert forall j | 0 <= j < i - 1 :: rules[1..][j] == rules[j + 1];
      assert rules[1..][i - 1] == rules[i];
      FirstMatchAt(rules[1..], title, default, i - 1);
    }
  }

  /** `detectCategory(title)` as the script writes it: five `includes` tests in turn. */
  function DetectCategory(title: JsString): JsString {
    if Includes(title, BREAKING) || Includes(title, Bmp("最新情報")) then BREAKING
    else if Includes(title, RANKING) || Includes(title, Bmp("TOP")) then RANKING
    else if Includes(title, Bmp("初心者")) || Includes(title, GUIDE) || Includes(title, Bmp("選び方")) then GUIDE
    else if Includes(title, Bmp("徹底比較")) || Includes(title, Bmp("比較")) then SUMMARY
    else if Includes(title, Bmp("必読")) || Includes(title, Bmp("コツ")) || Includes(title, Bmp("見分け方")) then GUIDE
    else NEWS
  }

  /** The script's tests are the rule table applied first-match, with ニュース as the default. */
  lemma DetectCategoryIsFirstMatch(title: JsString)
    ensures DetectCategory(title) == FirstMatch(RULES, title, NEWS)
  {
    var rest := RULES[1..];
    assert rest == [RULES[1], RULES[2], RULES[3], RULES[4]];
    FirstRule(RULES, title, NEWS, BREAKING, Bmp("最新情報"), BREAKING);
    FirstRule(rest, title, NEWS, RANKING, Bmp("TOP"), RANKING);
    var rest2 := rest[1..];
    assert rest2 == [RULES[2], RULES[3], RULES[4]];
    FirstRuleOfThree(rest2, title, NEWS, Bmp("初心者"), GUIDE, Bmp("選び方"), GUIDE);
    var rest3 := rest2[1..];
    assert rest3 == [RULES[3], RULES[4]];
    FirstRule(rest3, title, NEWS, Bmp("徹底比較"), Bmp("比較"), SUMMARY);
    var rest4 := rest3[1..];
    assert rest4 == [RULES[4]];
    FirstRuleOfThree(rest4, title, NEWS, Bmp("必読"), Bmp("コツ"), Bmp("見分け方"), GUIDE);
    assert rest4[1..] == [];
  }

  /** Unfolding a rule with two words. */
  lemma FirstRule(rules: seq<Rule>, title: JsString, default: JsString, w0: JsString, w1: JsString, c: JsString)
    requires rules != [] && rules[0] == Rule([w0, w1], c)
    ensures FirstMatch(rules, title, default)
      == if Includes(title, w0) || Includes(title, w1) then c else FirstMatch(rules[1..], title, default)
  {
    MentionsTwo(title, [w0, w1]);
  }

  /** Unfolding a rule with three words. */
  lemma FirstRuleOfThree(rules: seq<Rule>, title: JsString, default: JsString, w0: JsString, w1: JsString, w2: JsString, c: JsString)
    requires rules != [] && rules[0] == Rule([w0, w1, w2], c)
    ensures FirstMatch(rules, title, default)
      == if Includes(title, w0) || Includes(title, w1) || Includes(title, w2) then c else FirstMatch(rules[1..], title, default)
  {
    MentionsThree(title, [w0, w1, w2]);
  }

  lemma MentionsTwo(title: JsString, words: seq<JsString>)
    requires |words| == 2
    ensures Mentions(title, words) <==> Includes(title, words[0]) || Includes(title, words[1])
  {
  }

  lemma MentionsThree(title: JsString, words: seq<JsString>)
    requires |words| == 3
    ensures Mentions(title, words) <==> Includes(title, words[0]) || Includes(title, words[1]) || Includes(title, words[2])
  {
  }

  /**
   * The category is that of the first rule the title mentions, and ニュース
   * when it mentions none.
   */
  lemma DetectCategoryOrder(title: JsString, i: int)
    requires 0 <= i < |RULES|
    ensures Mentions(title, RULES[i].words) && (forall j | 0 <= j < i :: !Mentions(title, RULES[j].words))
      ==> DetectCategory(title) == RULES[i].category
    ensures (forall j | 0 <= j < |RULES| :: !Mentions(title, RULES[j].words)) ==> DetectCategory(title) == NEWS
  {
    DetectCategoryIsFirstMatch(title);
    if Mentions(title, RULES[i].words) && (forall j | 0 <= j < i :: !Mentions(title, RULES[j].words)) {
      FirstMatchAt(RULES, title, NEWS, i);
    }
    if forall j | 0 <= j < |RULES| :: !Mentions(title, RULES[j].words) {
      FirstMatchNone(RULES, title, NEWS);
    }
  }

  // ---------------------------------------------------------------------
  // Target selection
  // ---------------------------------------------------------------------

  const CLOUDINARY: JsString := Bmp("cloudinary.com")

  /**
   * `hasCloudinaryThumbnail(record)`: false without a first attachment or
   * without its url, else whether that url mentions `cloudinary.com`.
   */
  predicate HasCloudinaryThumbnail(f: Fields) {
    var url := FirstFileUrl(f);
    IsTruthy(url) && Includes(url.value, CLOUDINARY)
  }

  /** `records.filter(r => !hasCloudinaryThumbnail(r))` */
  function Targets(records: seq<Record>): (r: seq<Record>)
    ensures |r| <= |records|
    ensures forall i | 0 <= i < |r| :: !HasCloudinaryThumbnail(r[i].fields)
    decreases |records|
  {
    if records == [] then []
    else
      var rest := Targets(records[1..]);
      if HasCloudinaryThumbnail(records[0].fields) then rest else [records[0]] + rest
  }

  /** Every record without a Cloudinary thumbnail is a target, and no other (order is kept). */
  lemma {:induction false} TargetsSelect(records: seq<Record>)
    ensures forall x | x in records && !HasCloudinaryThumbnail(x.fields) :: x in Targets(records)
    ensures forall x | x in Targets(records) :: x in records
    decreases |records|
  {
    if records != [] {
      var head, rest := records[0], records[1..];
      TargetsSelect(rest);
      assert records == [head] + rest;
      if HasCloudinaryThumbnail(head.fields) {
        assert Targets(records) == Targets(rest);
      } else {
        assert Targets(records) == [head] + Targets(rest);
      }
    }
  }

  /** When no record has a Cloudinary thumbnail, all of them are targets, in order. */
  lemma {:induction false} TargetsKeepAll(records: seq<Record>)
    requires forall i | 0 <= i < |records| :: !HasCloudinaryThumbnail(records[i].fields)
    ensures Targets(records) == records
    decreases |records|
  {
    if records != [] {
      TargetsKeepAll(records[1..]);
    }
  }

  // ---------------------------------------------------------------------
  // One article
  // ---------------------------------------------------------------------

  datatype Script = Remaining | AllUnsplash | AllThumbnails

  /**
   * `record.fields.Category || detectCategory(title)`; `None` when the
   * category is missing and so is the title, where `title.includes` throws
   * outside the per-article `try`.
   */
  function CategoryOf(f: Fields): (r: Option<JsString>)
    ensures IsTruthy(TextField(f, Category)) ==> r == TextField(f, Category)
    ensures !IsTruthy(TextField(f, Category)) && TextField(f, Title).Some? ==> r == Some(DetectCategory(TextField(f, Title).value))
    ensures r.None? <==> !IsTruthy(TextField(f, Category)) && TextField(f, Title).None?
  {
    var stored := TextField(f, Category);
    if IsTruthy(stored) then stored
    else match TextField(f, Title)
      case None => None
      case Some(t) => Some(DetectCategory(t))
  }

  /** The record id is the seed only in the Unsplash script. */
  function Seed(script: Script, id: JsString): Option<JsString> {
    if script == AllUnsplash then Some(id) else None
  }

  /** What the per-article step gets from the category line and the image generator. */
  datatype Attempt = Throws | NoImage | Image(url: JsString)

  /** What the services do for one article: the random draw of an unseeded pick and the update call. */
  datatype Draw = Draw(rnd: Random, updateReached: bool)

  function AttemptOf(script: Script, rec: Record, d: Draw): Attempt {
    match CategoryOf(rec.fields)
    case None => Throws
    case Some(c) =>
      var url := ImageGenerator.Thumbnail(c, TextField(rec.fields, Title), Seed(script, rec.id), d.rnd);
      if IsTruthy(url) then Image(url.value) else NoImage
  }

  /** The Unsplash script's pick does not depend on the random draw. */
  lemma SeededAttempt(rec: Record, d1: Draw, d2: Draw)
    requires rec.id != []
    ensures AttemptOf(AllUnsplash, rec, d1) == AttemptOf(AllUnsplash, rec, d2)
  {
    if CategoryOf(rec.fields).Some? && TextField(rec.fields, Title).Some? {
      var k := ImageGenerator.UnsplashKeyword(CategoryOf(rec.fields).value, TextField(rec.fields, Title).value);
      ImageGenerator.SeededPickIsDeterministic(k, rec.id, d1.rnd, d2.rnd);
    }
  }

  /** The other two scripts pick from the keyword's pool by the random draw. */
  lemma UnseededAttempt(script: Script, rec: Record, d: Draw)
    requires script != AllUnsplash
    requires CategoryOf(rec.fields).Some? && TextField(rec.fields, Title).Some?
    ensures var pool := ImageGenerator.Pool(ImageGenerator.UnsplashKeyword(CategoryOf(rec.fields).value, TextField(rec.fields, Title).value));
      AttemptOf(script, rec, d) == Image(pool[ImageGenerator.RandomIndex(d.rnd, |pool|)])
  {
  }

  /** `{ Thumbnail: [{ url }] }` */
  function ThumbnailPatch(url: JsString): Fields {
    map[Thumbnail := SingleFile(url)]
  }

  // ---------------------------------------------------------------------
  // Pauses
  // ---------------------------------------------------------------------

  const LONG_PAUSE_MS: int := 60_000
  const SHORT_PAUSE_MS: int := 2_000
  const UNSPLASH_PAUSE_MS: int := 500
  const GROUP_SIZE: int := 6

  /** The pause after article `i` of `n` in the `Remaining` script. */
  function PauseAfter(i: int, n: int): int {
    if (i + 1) % GROUP_SIZE == 0 && i < n - 1 then LONG_PAUSE_MS else SHORT_PAUSE_MS
  }

  /**
   * The pauses after article `i`: `Remaining` pauses after every article,
   * whatever happened to it; the other two pause only after a success.
   */
  function Pause(script: Script, succeeded: bool, i: int, n: int): seq<int> {
    match script
    case Remaining => [PauseAfter(i, n)]
    case AllUnsplash => if succeeded then [UNSPLASH_PAUSE_MS] else []
    case AllThumbnails => if succeeded then [SHORT_PAUSE_MS] else []
  }

  /** The long pause falls after every sixth article and never after the last one. */
  lemma PauseSchedule(i: int, n: int)
    requires 0 <= i < n
    ensures PauseAfter(i, n) == LONG_PAUSE_MS <==> (i + 1) % GROUP_SIZE == 0 && i != n - 1
    ensures PauseAfter(n - 1, n) == SHORT_PAUSE_MS
    ensures PauseAfter(i, n) in {LONG_PAUSE_MS, SHORT_PAUSE_MS}
  {
  }

  // ---------------------------------------------------------------------
  // The loop
  // ---------------------------------------------------------------------

  /** How the attempt of each article is decided; the scripts use `AttemptOf`. */
  type Picker = (Record, Draw) -> Attempt

  /** The rows, the two counters and the pauses so far; `aborted` once an article threw outside its `try`. */
  datatype Progress = Progress(rows: map<JsString, Fields>, success: nat, fail: nat, pauses: seq<int>, aborted: bool)

  function Step(script: Script, p: Progress, id: JsString, a: Attempt, reached: bool, i: int, n: int): Progress {
    if p.aborted then p
    else match a
      case Throws => p.(aborted := true)
      case NoImage => p.(fail := p.fail + 1, pauses := p.pauses + Pause(script, false, i, n))
      case Image(url) =>
        if reached && id in p.rows then
          p.(rows := p.rows[id := p.rows[id] + ThumbnailPatch(url)], success := p.success + 1,
             pauses := p.pauses + Pause(script, true, i, n))
        else p.(fail := p.fail + 1, pauses := p.pauses + Pause(script, false, i, n))
  }

  function Loop(script: Script, pick: Picker, rows: map<JsString, Fields>, records: seq<Record>, draws: seq<Draw>, k: int): Progress
    requires |draws| == |records| && 0 <= k <= |records|
  {
    if k == 0 then Progress(rows, 0, 0, [], false)
    else
      var i := k - 1;
      Step(script, Loop(script, pick, rows, records, draws, i), records[i].id, pick(records[i], draws[i]), draws[i].updateReached, i, |records|)
  }

  /** One article is counted once, as a success or a failure, unless it throws. */
  lemma StepTally(script: Script, p: Progress, id: JsString, a: Attempt, reached: bool, i: int, n: int)
    ensures var q := Step(script, p, id, a, reached, i, n);
      && (q.aborted ==> q.success + q.fail == p.success + p.fail && q.pauses == p.pauses)
      && (!q.aborted ==> !p.aborted && q.success + q.fail == p.success + p.fail + 1)
      && (!q.aborted ==> q.pauses == p.pauses + Pause(script, q.success > p.success, i, n))
  {
  }

  /** One article changes at most its own record, and only in `Thumbnail`. */
  lemma StepRows(script: Script, p: Progress, id: JsString, a: Attempt, reached: bool, i: int, n: int)
    ensures var q := Step(script, p, id, a, reached, i, n);
      && q.rows.Keys == p.rows.Keys
      && (forall x | x in p.rows :: OnlyTouches(p.rows[x], q.rows[x], {Thumbnail}))
      && (forall x | x in p.rows && q.rows[x] != p.rows[x] :: x == id && a.Image? && q.rows[x][Thumbnail] == SingleFile(a.url))
  {
    if !p.aborted && a.Image? && reached && id in p.rows {
      MergeTouchesOnlyPatch(p.rows[id], ThumbnailPatch(a.url));
    }
    forall x | x in p.rows ensures OnlyTouches(p.rows[x], Step(script, p, id, a, reached, i, n).rows[x], {Thumbnail}) {
      if x != id || p.aborted || !a.Image? || !reached {
        assert Step(script, p, id, a, reached, i, n).rows[x] == p.rows[x];
      }
    }
  }

  /** Every article before an abort is counted exactly once, as a success or a failure. */
  lemma {:induction false} LoopTally(script: Script, pick: Picker, rows: map<JsString, Fields>, records: seq<Record>, draws: seq<Draw>, k: int)
    requires |draws| == |records| && 0 <= k <= |records|
    ensures var p := Loop(script, pick, rows, records, draws, k);
      && p.success + p.fail <= k
      && (!p.aborted ==> p.success + p.fail == k)
  {
    if k > 0 {
      LoopTally(script, pick, rows, records, draws, k - 1);
      StepTally(script, Loop(script, pick, rows, records, draws, k - 1), records[k - 1].id, pick(records[k - 1], draws[k - 1]), draws[k - 1].updateReached, k - 1, |records|);
    }
  }

  /** Each success writes `Thumbnail` and nothing else; no record is added or removed. */
  lemma {:induction false} LoopRows(script: Script, pick: Picker, rows: map<JsString, Fields>, records: seq<Record>, draws: seq<Draw>, k: int)
    requires |draws| == |records| && 0 <= k <= |records|
    ensures var p := Loop(script, pick, rows, records, draws, k);
      && p.rows.Keys == rows.Keys
      && (forall x | x in rows :: OnlyTouches(rows[x], p.rows[x], {Thumbnail}))
  {
    if k > 0 {
      LoopRows(script, pick, rows, records, draws, k - 1);
      var p := Loop(script, pick, rows, records, draws, k - 1);
      var q := Loop(script, pick, rows, records, draws, k);
      StepRows(script, p, records[k - 1].id, pick(records[k - 1], draws[k - 1]), draws[k - 1].updateReached, k - 1, |records|);
      forall x | x in rows ensures OnlyTouches(rows[x], q.rows[x], {Thumbnail}) {
        OnlyTouchesTrans(rows[x], p.rows[x], q.rows[x], {Thumbnail});
      }
    }
  }

  lemma OnlyTouchesTrans(a: Fields, b: Fields, c: Fields, names: set<FieldName>)
    requires OnlyTouches(a, b, names) && OnlyTouches(b, c, names)
    ensures OnlyTouches(a, c, names)
  {
  }

  /** The pauses of the first `m` articles of `n` in the `Remaining` script. */
  function Schedule(m: nat, n: int): seq<int> {
    if m == 0 then [] else Schedule(m - 1, n) + [PauseAfter(m - 1, n)]
  }

  /** The schedule holds, for each article in turn, the pause after it. */
  lemma {:induction false} ScheduleAt(m: nat, n: int)
    ensures |Schedule(m, n)| == m
    ensures forall j | 0 <= j < m :: Schedule(m, n)[j] == PauseAfter(j, n)
  {
    if m > 0 {
      ScheduleAt(m - 1, n);
      assert forall j | 0 <= j < m - 1 :: Schedule(m, n)[j] == Schedule(m - 1, n)[j];
    }
  }

  /**
   * In `Remaining` the pauses do not depend on what happened: until an
   * abort, the articles counted are followed by the scheduled pauses,
   * success or not.
   */
  lemma {:induction false} RemainingPauses(pick: Picker, rows: map<JsString, Fields>, records: seq<Record>, draws: seq<Draw>, k: int)
    requires |draws| == |records| && 0 <= k <= |records|
    ensures var p := Loop(Remaining, pick, rows, records, draws, k);
      && p.pauses == Schedule(p.success + p.fail, |records|)
      && (!p.aborted ==> p.success + p.fail == k)
  {
    if k > 0 {
      RemainingPauses(pick, rows, records, draws, k - 1);
      var p := Loop(Remaining, pick, rows, records, draws, k - 1);
      var a := pick(records[k - 1], draws[k - 1]);
      LoopUnfolds(Remaining, pick, rows, records, draws, k);
      var q := Step(Remaining, p, records[k - 1].id, a, draws[k - 1].updateReached, k - 1, |records|);
      RemainingStep(p, records[k - 1].id, a, draws[k - 1].updateReached, k - 1, |records|);
      assert Loop(Remaining, pick, rows, records, draws, k) == q;
    } else {
      assert Loop(Remaining, pick, rows, records, draws, 0).pauses == Schedule(0, |records|);
    }
  }

  /** The loop after `k` articles is one more step after `k - 1`, whatever the picker. */
  lemma LoopUnfolds(script: Script, pick: Picker, rows: map<JsString, Fields>, records: seq<Record>, draws: seq<Draw>, k: int)
    requires |draws| == |records| && 0 < k <= |records|
    ensures Loop(script, pick, rows, records, draws, k)
      == Step(script, Loop(script, pick, rows, records, draws, k - 1), records[k - 1].id, pick(records[k - 1], draws[k - 1]), draws[k - 1].updateReached, k - 1, |records|)
  {
  }

  /** One article of `Remaining` appends the scheduled pause for its position. */
  lemma RemainingStep(p: Progress, id: JsString, a: Attempt, reached: bool, i: int, n: int)
    requires p.pauses == Schedule(p.success + p.fail, n)
    requires !p.aborted ==> p.success + p.fail == i
    ensures var q := Step(Remaining, p, id, a, reached, i, n);
      && q.pauses == Schedule(q.success + q.fail, n)
      && (!q.aborted ==> q.success + q.fail == i + 1)
  {
    StepTally(Remaining, p, id, a, reached, i, n);
    var q := Step(Remaining, p, id, a, reached, i, n);
    if !q.aborted {
      assert q.pauses == p.pauses + [PauseAfter(i, n)];
    }
  }

  /** In the other two scripts there is one fixed pause per success and none per failure. */
  lemma {:induction false} SuccessPauses(script: Script, pick: Picker, rows: map<JsString, Fields>, records: seq<Record>, draws: seq<Draw>, k: int)
    requires script != Remaining
    requires |draws| == |records| && 0 <= k <= |records|
    ensures var p := Loop(script, pick, rows, records, draws, k);
      && |p.pauses| == p.success
      && forall i | 0 <= i < |p.pauses| :: p.pauses[i] == (if script == AllUnsplash then UNSPLASH_PAUSE_MS else SHORT_PAUSE_MS)
  {
    if k > 0 {
      SuccessPauses(script, pick, rows, records, draws, k - 1);
      var p := Loop(script, pick, rows, records, draws, k - 1);
      StepTally(script, p, records[k - 1].id, pick(records[k - 1], draws[k - 1]), draws[k - 1].updateReached, k - 1, |records|);
    }
  }

  /** Once an article has thrown, later articles change nothing. */
  lemma {:induction false} AbortedStays(script: Script, pick: Picker, rows: map<JsString, Fields>, records: seq<Record>, draws: seq<Draw>, k: int, m: int)
    requires |draws| == |records| && 0 <= k <= m <= |records|
    requires Loop(script, pick, rows, records, draws, k).aborted
    ensures Loop(script, pick, rows, records, draws, m) == Loop(script, pick, rows, records, draws, k)
    decreases m - k
  {
    if k < m {
      AbortedStays(script, pick, rows, records, draws, k, m - 1);
    }
  }

  /**
   * With the record id as seed the Unsplash run ends the same whatever the
   * random draws, as long as the update calls fare the same.
   */
  lemma {:induction false} UnsplashRunIsSeeded(rows: map<JsString, Fields>, records: seq<Record>, d1: seq<Draw>, d2: seq<Draw>, k: int)
    requires |d1| == |records| && |d2| == |records| && 0 <= k <= |records|
    requires forall i | 0 <= i < |records| :: records[i].id != [] && d1[i].updateReached == d2[i].updateReached
    ensures Loop(AllUnsplash, Pick(AllUnsplash), rows, records, d1, k) == Loop(AllUnsplash, Pick(AllUnsplash), rows, records, d2, k)
  {
    if k > 0 {
      UnsplashRunIsSeeded(rows, records, d1, d2, k - 1);
      SeededAttempt(records[k - 1], d1[k - 1], d2[k - 1]);
    }
  }

  /** The attempts the scripts make. */
  function Pick(script: Script): Picker {
    (rec, d) => AttemptOf(script, rec, d)
  }

  // ---------------------------------------------------------------------
  // The scripts
  // ---------------------------------------------------------------------

  /**
   * The loop shared by the three scripts: each article in turn, stopping
   * when the category line throws.
   */
  method RegenerateEach(table: Table, script: Script, records: seq<Record>, draws: seq<Draw>)
    returns (success: nat, fail: nat, pauses: seq<int>, aborted: bool)
    requires |draws| == |records|
    modifies table
    ensures Progress(table.rows, success, fail, pauses, aborted) == Loop(script, Pick(script), old(table.rows), records, draws, |records|)
  {
    success, fail, pauses, aborted := 0, 0, [], false;
    var n := |records|;
    var i := 0;
    while i < n && !aborted
      invariant 0 <= i <= n
      invariant Progress(table.rows, success, fail, pauses, aborted) == Loop(script, Pick(script), old(table.rows), records, draws, i)
    {
      LoopNext(script, old(table.rows), records, draws, i);
      success, fail, pauses, aborted := RegenerateOne(table, script, records[i], draws[i], i, n, success, fail, pauses);
      i := i + 1;
    }
    if aborted {
      AbortedStays(script, Pick(script), old(table.rows), records, draws, i, n);
    }
  }

  /** The body of the loop for article `i` of `n`: the category line, the thumbnail and the update. */
  method RegenerateOne(table: Table, script: Script, rec: Record, d: Draw, i: int, n: int, success0: nat, fail0: nat, pauses0: seq<int>)
    returns (success: nat, fail: nat, pauses: seq<int>, aborted: bool)
    modifies table
    ensures Progress(table.rows, success, fail, pauses, aborted)
      == Step(script, Progress(old(table.rows), success0, fail0, pauses0, false), rec.id, AttemptOf(script, rec, d), d.updateReached, i, n)
  {
    success, fail, pauses, aborted := success0, fail0, pauses0, false;
    var title := TextField(rec.fields, Title);
    var stored := TextField(rec.fields, Category);
    var category: JsString;
    if IsTruthy(stored) {
      category := stored.value;
    } else if title.None? {
      aborted := true;
      return;
    } else {
      category := DetectCategory(title.value);
    }
    var url := ImageGenerator.GenerateAndUploadThumbnail(category, title, Seed(script, rec.id), d.rnd);
    AttemptParts(script, rec, d, category);
    if !IsTruthy(url) {
      fail := fail + 1;
      pauses := pauses + Pause(script, false, i, n);
    } else {
      var ok := table.Update(rec.id, ThumbnailPatch(url.value), d.updateReached);
      if ok {
        success := success + 1;
        pauses := pauses + Pause(script, true, i, n);
      } else {
        fail := fail + 1;
        pauses := pauses + Pause(script, false, i, n);
      }
    }
  }

  /** One more article of the scripts' loop. */
  lemma LoopNext(script: Script, rows: map<JsString, Fields>, records: seq<Record>, draws: seq<Draw>, i: int)
    requires |draws| == |records| && 0 <= i < |records|
    ensures Loop(script, Pick(script), rows, records, draws, i + 1)
      == Step(script, Loop(script, Pick(script), rows, records, draws, i), records[i].id,
              AttemptOf(script, records[i], draws[i]), draws[i].updateReached, i, |records|)
  {
  }

  /** The attempt of an article whose category line does not throw, from its parts. */
  lemma AttemptParts(script: Script, rec: Record, d: Draw, category: JsString)
    requires CategoryOf(rec.fields) == Some(category)
    ensures var url := ImageGenerator.Thumbnail(category, TextField(rec.fields, Title), Seed(script, rec.id), d.rnd);
      AttemptOf(script, rec, d) == if IsTruthy(url) then Image(url.value) else NoImage
  {
  }

  datatype Outcome = Exit(code: int) | NothingToDo | Done(success: nat, fail: nat, pauses: seq<int>)

  /** The ending of a run of the shared loop. */
  function Ending(p: Progress): Outcome {
    if p.aborted then Exit(1) else Done(p.success, p.fail, p.pauses)
  }

  /**
   * `regenerateRemainingThumbnails()`: only articles without a Cloudinary
   * thumbnail, nothing at all when there are none.  `published` is the
   * answer of the published-articles query, `None` when it fails.
   */
  method RunRemaining(table: Table, env: Config.Env, published: Option<seq<Record>>, draws: seq<Draw>) returns (outcome: Outcome)
    requires published.Some? ==> |draws| == |Targets(published.value)|
    modifies table
    ensures !Config.ScriptCredentials(env) || published.None? ==> outcome == Exit(1) && table.rows == old(table.rows)
    ensures Config.ScriptCredentials(env) && published.Some? && Targets(published.value) == [] ==>
      outcome == NothingToDo && table.rows == old(table.rows)
    ensures Config.ScriptCredentials(env) && published.Some? && Targets(published.value) != [] ==>
      var p := Loop(Remaining, Pick(Remaining), old(table.rows), Targets(published.value), draws, |draws|);
      outcome == Ending(p) && table.rows == p.rows
  {
    if !Config.ScriptCredentials(env) || published.None? {
      return Exit(1);
    }
    var targets := Targets(published.value);
    if |targets| == 0 {
      return NothingToDo;
    }
    var success, fail, pauses, aborted := RegenerateEach(table, Remaining, targets, draws);
    outcome := if aborted then Exit(1) else Done(success, fail, pauses);
  }

  /** `regenerateAllWithUnsplash()`: every published article, seeded by its record id. */
  method RunAllUnsplash(table: Table, env: Config.Env, published: Option<seq<Record>>, draws: seq<Draw>) returns (outcome: Outcome)
    requires published.Some? ==> |draws| == |published.value|
    modifies table
    ensures !Config.ScriptCredentials(env) || published.None? ==> outcome == Exit(1) && table.rows == old(table.rows)
    ensures Config.ScriptCredentials(env) && published.Some? ==>
      var p := Loop(AllUnsplash, Pick(AllUnsplash), old(table.rows), published.value, draws, |draws|);
      outcome == Ending(p) && table.rows == p.rows
  {
    if !Config.ScriptCredentials(env) || published.None? {
      return Exit(1);
    }
    var success, fail, pauses, aborted := RegenerateEach(table, AllUnsplash, published.value, draws);
    outcome := if aborted then Exit(1) else Done(success, fail, pauses);
  }

  /**
   * `regenerateAllThumbnails()`: every published article, unseeded.  This
   * script reads `KEIBA_NYUMON_AIRTABLE_API_KEY` and
   * `KEIBA_NYUMON_AIRTABLE_BASE_ID` before the shared variables; `env`
   * carries those in its project-specific fields.
   */
  method RunAllThumbnails(table: Table, env: Config.Env, published: Option<seq<Record>>, draws: seq<Draw>) returns (outcome: Outcome)
    requires published.Some? ==> |draws| == |published.value|
    modifies table
    ensures !Config.ScriptCredentials(env) || published.None? ==> outcome == Exit(1) && table.rows == old(table.rows)
    ensures Config.ScriptCredentials(env) && published.Some? ==>
      var p := Loop(AllThumbnails, Pick(AllThumbnails), old(table.rows), published.value, draws, |draws|);
      outcome == Ending(p) && table.rows == p.rows
  {
    if !Config.ScriptCredentials(env) || published.None? {
      return Exit(1);
    }
    var success, fail, pauses, aborted := RegenerateEach(table, AllThumbnails, published.value, draws);
    outcome := if aborted then Exit(1) else Done(success, fail, pauses);
  }
}
