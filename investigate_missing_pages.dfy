/**
 * The investigation of pages the search console reports as missing: which
 * published slugs have the `<13-digit ms>-<word>` form, which of the
 * reported slugs are still in the table, the range of their timestamps,
 * and the conclusion drawn from the two counts.
 */
module InvestigateMissingPages {
  import opened Js
  import opened Store
  import Config
  import GenerateNewsArticles

  const DASH: Unit := 0x2D

  /** The digits of a timestamp slug: milliseconds since 2001-09-09 and before 2286. */
  const STAMP_DIGITS: nat := 13

  /** At most this many of the slugs still present are listed. */
  const LISTED: nat := 5

  const UNKNOWN_TITLE: JsString := Bmp("タイトル不明")

  /** `\w`: an ASCII letter, digit or underscore. */
  predicate IsWordUnit(u: Unit) {
    IsDigit(u) || 0x41 <= u <= 0x5A || 0x61 <= u <= 0x7A || u == 0x5F
  }

  /** The test `/^\d{13}-\w+$/`. */
  predicate IsTimestampSlug(s: JsString) {
    && |s| > STAMP_DIGITS + 1
    && (forall i | 0 <= i < STAMP_DIGITS :: IsDigit(s[i]))
    && s[STAMP_DIGITS] == DASH
    && (forall i | STAMP_DIGITS < i < |s| :: IsWordUnit(s[i]))
  }

  /** `10^k` */
  function Pow10(k: nat): (r: nat)
    ensures r >= 1
  {
    if k == 0 then 1 else 10 * Pow10(k - 1)
  }

  /** A number of `k` digits is printed with exactly `k` digits. */
  lemma {:induction false} PrintedWidth(n: nat, k: nat)
    requires k >= 1 && Pow10(k - 1) <= n < Pow10(k)
    ensures |NatToString(n)| == k
    decreases k
  {
    if k > 1 {
      PrintedWidth(n / 10, k - 1);
    } else {
      assert n < 10;
    }
  }

  /** `slug.match(/^(\d{13})-/)`, read with `parseInt`: `None` for `null`. */
  function TimestampOf(slug: JsString): (r: Option<int>)
    ensures r.Some? <==> |slug| > STAMP_DIGITS && (forall i | 0 <= i < STAMP_DIGITS :: IsDigit(slug[i])) && slug[STAMP_DIGITS] == DASH
    ensures r.Some? ==> 0 <= r.value < Pow10(STAMP_DIGITS)
  {
    if |slug| > STAMP_DIGITS && (forall i | 0 <= i < STAMP_DIGITS :: IsDigit(slug[i])) && slug[STAMP_DIGITS] == DASH then
      DigitsBound(slug[..STAMP_DIGITS]);
      Some(DigitsValue(slug[..STAMP_DIGITS]))
    else None
  }

  /** `k` digits make a value below `10^k`. */
  lemma {:induction false} DigitsBound(s: JsString)
    requires forall i | 0 <= i < |s| :: IsDigit(s[i])
    ensures 0 <= DigitsValue(s) < Pow10(|s|)
    decreases |s|
  {
    if s != [] {
      DigitsBound(s[..|s| - 1]);
    }
  }

  /** Every slug the test accepts has a timestamp. */
  lemma TimestampSlugHasTimestamp(s: JsString)
    requires IsTimestampSlug(s)
    ensures TimestampOf(s).Some?
  {
  }

  /** A 13-digit stamp, a dash and a word suffix pass the test, and the stamp is read back. */
  lemma StampedSlug(digits: JsString, suffix: JsString)
    requires |digits| == STAMP_DIGITS && forall i | 0 <= i < |digits| :: IsDigit(digits[i])
    requires suffix != [] && forall i | 0 <= i < |suffix| :: IsWordUnit(suffix[i])
    ensures IsTimestampSlug(digits + [DASH] + suffix)
    ensures TimestampOf(digits + [DASH] + suffix) == Some(DigitsValue(digits))
  {
    var s := digits + [DASH] + suffix;
    assert s[..STAMP_DIGITS] == digits;
    forall i | STAMP_DIGITS < i < |s| ensures IsWordUnit(s[i]) {
      assert s[i] == suffix[i - STAMP_DIGITS - 1];
    }
  }

  /**
   * The slugs the generator writes, the creation time in milliseconds and
   * a dash before a word suffix, pass the test while the time has 13
   * digits, and the timestamp read back is that time.
   */
  lemma GeneratedSlugRoundTrip(now: nat, suffix: JsString)
    requires Pow10(STAMP_DIGITS - 1) <= now < Pow10(STAMP_DIGITS)
    requires suffix != [] && forall i | 0 <= i < |suffix| :: IsWordUnit(suffix[i])
    ensures IsTimestampSlug(GenerateNewsArticles.SlugOf(now, suffix))
    ensures TimestampOf(GenerateNewsArticles.SlugOf(now, suffix)) == Some(now)
  {
    PrintedWidth(now, STAMP_DIGITS);
    StampedSlug(NatToString(now), suffix);
    DigitsRoundTrip(now);
  }

  /** `slugs.filter(s => /^\d{13}-\w+$/.test(s))`; a missing slug fails the test. */
  function TimestampSlugs(slugs: seq<Option<JsString>>): (r: seq<JsString>)
    ensures |r| <= |slugs|
    ensures forall s | s in r :: IsTimestampSlug(s) && Some(s) in slugs
    ensures forall s | Some(s) in slugs && IsTimestampSlug(s) :: s in r
  {
    if slugs == [] then []
    else
      (if slugs[0].Some? && IsTimestampSlug(slugs[0].value) then [slugs[0].value] else [])
      + TimestampSlugs(slugs[1..])
  }

  /** `missing.filter(slug => slugs.includes(slug))` when `present`, its negation otherwise. */
  function Partition(missing: seq<JsString>, slugs: seq<Option<JsString>>, present: bool): (r: seq<JsString>)
    ensures |r| <= |missing|
    ensures forall s | s in r :: s in missing && (Some(s) in slugs <==> present)
    ensures forall s | s in missing && (Some(s) in slugs <==> present) :: s in r
  {
    if missing == [] then []
    else
      (if (Some(missing[0]) in slugs) == present then [missing[0]] else [])
      + Partition(missing[1..], slugs, present)
  }

  /**
   * Every reported slug is on exactly one side: the two counts add up to
   * the number of reported slugs.
   */
  lemma {:induction false} PartitionSizes(missing: seq<JsString>, slugs: seq<Option<JsString>>)
    ensures |Partition(missing, slugs, true)| + |Partition(missing, slugs, false)| == |missing|
    ensures forall s | s in Partition(missing, slugs, true) :: s !in Partition(missing, slugs, false)
  {
    if missing != [] {
      PartitionSizes(missing[1..], slugs);
    }
  }

  /** `allRecords.find(r => r.fields.Slug === slug)?.fields.Title || 'タイトル不明'` */
  function TitleOf(records: seq<Record>, slug: JsString): (r: JsString)
    ensures (forall i | 0 <= i < |records| :: TextField(records[i].fields, Slug) != Some(slug)) ==> r == UNKNOWN_TITLE
    ensures records != [] && TextField(records[0].fields, Slug) == Some(slug) ==> r == TextOr(records[0].fields, Title, UNKNOWN_TITLE)
    ensures r != []
  {
    if records == [] then UNKNOWN_TITLE
    else if TextField(records[0].fields, Slug) == Some(slug) then TextOr(records[0].fields, Title, UNKNOWN_TITLE)
    else TitleOf(records[1..], slug)
  }

  /** The listing of the slugs still present: up to five with their titles, and how many more. */
  datatype Listing = Listing(shown: seq<(JsString, JsString)>, more: Option<nat>)

  function ListingOf(records: seq<Record>, present: seq<JsString>): (r: Listing)
    ensures |r.shown| == Min(LISTED, |present|)
    ensures forall i | 0 <= i < |r.shown| :: r.shown[i] == (present[i], TitleOf(records, present[i]))
    ensures r.more.Some? <==> |present| > LISTED
    ensures r.more.Some? ==> |r.shown| + r.more.value == |present|
  {
    var firsts := present[..Min(LISTED, |present|)];
    Listing(
      seq(|firsts|, i requires 0 <= i < |firsts| => (firsts[i], TitleOf(records, firsts[i]))),
      if |present| > LISTED then Some(|present| - LISTED) else None)
  }

  /** `missing.map(...).filter(t => t !== null)` */
  function Timestamps(missing: seq<JsString>): (r: seq<int>)
    ensures |r| <= |missing|
    ensures forall t | t in r :: exists s | s in missing :: TimestampOf(s) == Some(t)
    ensures forall s | s in missing && TimestampOf(s).Some? :: TimestampOf(s).value in r
  {
    if missing == [] then []
    else
      (if TimestampOf(missing[0]).Some? then [TimestampOf(missing[0]).value] else [])
      + Timestamps(missing[1..])
  }

  /** When every reported slug passes the test, every one yields a timestamp. */
  lemma {:induction false} AllTimestamps(missing: seq<JsString>)
    requires forall i | 0 <= i < |missing| :: IsTimestampSlug(missing[i])
    ensures |Timestamps(missing)| == |missing|
  {
    if missing != [] {
      AllTimestamps(missing[1..]);
    }
  }

  /** `Math.min(...xs)` of a non-empty list. */
  function Least(xs: seq<int>): (r: int)
    requires xs != []
    ensures r in xs && forall x | x in xs :: r <= x
  {
    if |xs| == 1 then xs[0]
    else
      assert forall x | x in xs :: x == xs[0] || x in xs[1..];
      Min(xs[0], Least(xs[1..]))
  }

  /** `Math.max(...xs)` of a non-empty list. */
  function Greatest(xs: seq<int>): (r: int)
    requires xs != []
    ensures r in xs && forall x | x in xs :: x <= r
  {
    if |xs| == 1 then xs[0]
    else
      assert forall x | x in xs :: x == xs[0] || x in xs[1..];
      Max(xs[0], Greatest(xs[1..]))
  }

  /**
   * The oldest and newest timestamps.  Without any, `Math.min()` is
   * `Infinity` and printing the date throws: `None`.
   */
  function DateRange(ts: seq<int>): (r: Option<(int, int)>)
    ensures r.None? <==> ts == []
    ensures r.Some? ==> r.value.0 <= r.value.1
  {
    if ts == [] then None else Some((Least(ts), Greatest(ts)))
  }

  datatype Conclusion = AllDeleted | Rebuild | NoConclusion

  /** The closing advice drawn from the two counts. */
  function ConclusionOf(missing: seq<JsString>, present: seq<JsString>, absent: seq<JsString>): Conclusion {
    if |absent| == |missing| then AllDeleted
    else if |present| > 0 then Rebuild
    else NoConclusion
  }

  /**
   * Because the two sides partition the reported slugs, everything was
   * deleted exactly when none is present, some advice is always given, and
   * a rebuild is advised exactly when some reported slug is still present.
   */
  lemma ConclusionShape(missing: seq<JsString>, slugs: seq<Option<JsString>>)
    ensures var present := Partition(missing, slugs, true);
      var c := ConclusionOf(missing, present, Partition(missing, slugs, false));
      && c != NoConclusion
      && (c == AllDeleted <==> forall s | s in missing :: Some(s) !in slugs)
      && (c == Rebuild <==> exists s | s in missing :: Some(s) in slugs)
  {
    PartitionSizes(missing, slugs);
    var present := Partition(missing, slugs, true);
    if present != [] {
      assert present[0] in present;
    }
  }

  datatype Report = Report(
    total: nat, timestampCount: nat, otherCount: nat,
    present: seq<JsString>, absent: seq<JsString>, listing: Option<Listing>,
    range: (int, int), conclusion: Conclusion)

  datatype Outcome = Exit(code: int) | Investigated(report: Report)

  /** `allRecords.map(r => r.fields.Slug)` */
  function SlugsOf(records: seq<Record>): (r: seq<Option<JsString>>)
    ensures |r| == |records|
    ensures forall i | 0 <= i < |records| :: r[i] == TextField(records[i].fields, Slug)
  {
    seq(|records|, i requires 0 <= i < |records| => TextField(records[i].fields, Slug))
  }

  /** What is printed once the timestamp range is known. */
  function ReportOf(records: seq<Record>, missing: seq<JsString>, range: (int, int)): (r: Report)
    ensures r.total == |records|
    ensures r.timestampCount + r.otherCount == |records|
    ensures |r.present| + |r.absent| == |missing|
    ensures r.listing.Some? <==> r.present != []
    ensures r.conclusion != NoConclusion
    ensures r.range == range
  {
    var slugs := SlugsOf(records);
    var stamped := TimestampSlugs(slugs);
    var present := Partition(missing, slugs, true);
    var absent := Partition(missing, slugs, false);
    PartitionSizes(missing, slugs);
    ConclusionShape(missing, slugs);
    Report(
      |records|, |stamped|, |records| - |stamped|, present, absent,
      if |present| > 0 then Some(ListingOf(records, present)) else None,
      range, ConclusionOf(missing, present, absent))
  }

  /**
   * `investigate()`.  `published` is the answer of the query for published
   * records, `None` when it fails; `missing` is the list of reported slugs.
   * Without any timestamp the date printing throws and the script exits.
   */
  function Investigate(env: Config.Env, published: Option<seq<Record>>, missing: seq<JsString>): (r: Outcome)
    ensures !Config.ScriptCredentials(env) || published.None? ==> r == Exit(1)
    ensures Config.ScriptCredentials(env) && published.Some? ==>
      (r.Exit? <==> Timestamps(missing) == [])
  {
    if !Config.ScriptCredentials(env) || published.None? then Exit(1)
    else
      var range := DateRange(Timestamps(missing));
      if range.None? then Exit(1)
      else Investigated(ReportOf(published.value, missing, range.value))
  }

  /**
   * With credentials and the table's answer, a list of reported slugs that
   * all pass the test is always investigated, and the timestamp range
   * bounds every reported slug's timestamp.
   */
  lemma InvestigationShape(env: Config.Env, records: seq<Record>, missing: seq<JsString>)
    requires Config.ScriptCredentials(env)
    requires missing != [] && forall i | 0 <= i < |missing| :: IsTimestampSlug(missing[i])
    ensures var r := Investigate(env, Some(records), missing);
      && r.Investigated?
      && forall i | 0 <= i < |missing| ::
           TimestampOf(missing[i]).Some? && r.report.range.0 <= TimestampOf(missing[i]).value <= r.report.range.1
  {
    TimestampSlugHasTimestamp(missing[0]);
    assert TimestampOf(missing[0]).value in Timestamps(missing);
    forall i | 0 <= i < |missing| ensures TimestampOf(missing[i]).Some? {
      TimestampSlugHasTimestamp(missing[i]);
    }
  }
}
