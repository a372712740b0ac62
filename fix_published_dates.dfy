/**
 * The publication-date repair script: the published articles, oldest
 * first, get new `PublishedAt` instants one hour apart, the newest one
 * hour before the run, and the dates are written back ten at a time.
 */
module FixPublishedDates {
  import opened Js
  import opened Store
  import Config
  import Batches

  /** `latestDate - (records.length - 1) hours`, with `latestDate` one hour before `now`. */
  function BaseTime(n: int, now: int): int {
    (now - HOUR_MS) - (n - 1) * HOUR_MS
  }

  /** The instant record `i` of `n` gets: `baseDate + i hours`. */
  function NewTime(i: int, n: int, now: int): int {
    BaseTime(n, now) + i * HOUR_MS
  }

  /**
   * The newest record gets one hour before the run, the oldest `n` hours
   * before it, and consecutive records are exactly one hour apart.
   */
  lemma TimesSpacing(n: nat, now: int)
    ensures n > 0 ==> NewTime(n - 1, n, now) == now - HOUR_MS
    ensures n > 0 ==> NewTime(0, n, now) == now - n * HOUR_MS
    ensures forall i | 0 <= i < n - 1 :: NewTime(i + 1, n, now) - NewTime(i, n, now) == HOUR_MS
  {
  }

  /** Later records get later instants, all of them before the run. */
  lemma TimesIncrease(n: nat, now: int, i: int, j: int)
    requires 0 <= i < j < n
    ensures NewTime(i, n, now) < NewTime(j, n, now) < now
    ensures NewTime(j, n, now) - NewTime(i, n, now) == (j - i) * HOUR_MS
  {
  }

  /** `{ id, fields: { PublishedAt: toISOString() } }` for record `i` of `n`. */
  function DateUpdate(id: JsString, i: int, n: int, now: int): (JsString, Fields) {
    (id, map[PublishedAt := Timestamp(NewTime(i, n, now))])
  }

  /** The updates the first loop builds, one per record, in order. */
  function DateUpdates(records: seq<Record>, now: int): seq<(JsString, Fields)> {
    seq(|records|, i requires 0 <= i < |records| => DateUpdate(records[i].id, i, |records|, now))
  }

  /** The query sorts the records by `PublishedAt`, oldest first. */
  predicate OldestFirst(records: seq<Record>, now: int) {
    forall i, j | 0 <= i < j < |records| :: PublishedMs(records[i].fields, now) <= PublishedMs(records[j].fields, now)
  }

  /**
   * Records in the query's order keep their relative order, and records
   * that shared an instant are now an hour or more apart.
   */
  lemma OrderKept(records: seq<Record>, now: int, i: int, j: int)
    requires OldestFirst(records, now)
    requires 0 <= i < |records| && 0 <= j < |records|
    ensures PublishedMs(records[i].fields, now) < PublishedMs(records[j].fields, now) ==>
      DateUpdates(records, now)[i].1[PublishedAt].ms < DateUpdates(records, now)[j].1[PublishedAt].ms
    ensures i != j ==> DateUpdates(records, now)[i].1[PublishedAt] != DateUpdates(records, now)[j].1[PublishedAt]
  {
    var n := |records|;
    if i < j {
      TimesIncrease(n, now, i, j);
    } else if j < i {
      TimesIncrease(n, now, j, i);
    }
  }

  /** The first loop: one new instant per record, counted from the number of records. */
  method CollectDates(records: seq<Record>, now: int) returns (updates: seq<(JsString, Fields)>)
    ensures updates == DateUpdates(records, now)
  {
    var n := |records|;
    var latestDate := now - HOUR_MS;
    var baseDate := latestDate - (n - 1) * HOUR_MS;
    updates := [];
    for i := 0 to n
      invariant |updates| == i
      invariant forall j | 0 <= j < i :: updates[j] == DateUpdate(records[j].id, j, n, now)
    {
      var newPublishedAt := baseDate + i * HOUR_MS;
      updates := updates + [(records[i].id, map[PublishedAt := Timestamp(newPublishedAt)])];
    }
  }

  datatype Outcome = Exit(code: int) | Fixed(calls: nat, marks: seq<nat>)

  /**
   * `fixPublishedDates()`.  `published` is the answer of the sorted query
   * for published records, `None` when it fails; `now` is the clock at the
   * start and `reach` says which batch requests reach the service.
   */
  method Run(table: Table, env: Config.Env, published: Option<seq<Record>>, now: int, reach: seq<bool>)
    returns (outcome: Outcome)
    requires published.Some? ==> |reach| >= Batches.NumBatches(|published.value|)
    modifies table
    ensures !Config.ScriptCredentials(env) || published.None? ==> outcome == Exit(1) && table.rows == old(table.rows)
    ensures Config.ScriptCredentials(env) && published.Some? ==>
      var updates := DateUpdates(published.value, now);
      var f := Batches.FirstFalse(Batches.UpdateOks(old(table.rows), updates, reach));
      && Batches.StoredUpTo(old(table.rows), updates, Batches.Covered(f, |updates|))
      && table.rows == Merged(old(table.rows), updates[..Batches.Covered(f, |updates|)])
      && outcome == (if f < Batches.NumBatches(|updates|) then Exit(1) else Fixed(f, Batches.Marks(|updates|, f)))
  {
    if !Config.ScriptCredentials(env) || published.None? {
      return Exit(1);
    }
    var updates := CollectDates(published.value, now);
    var calls, marks, failed := Batches.UpdateInBatches(table, updates, reach);
    outcome := if failed then Exit(1) else Fixed(calls, marks);
  }

  /** When every request is reached and every record is stored, every update is sent. */
  lemma DatesSucceed(rows: map<JsString, Fields>, records: seq<Record>, now: int, reach: seq<bool>)
    requires |reach| >= Batches.NumBatches(|records|)
    requires forall i | 0 <= i < |records| :: records[i].id in rows
    requires forall k | 0 <= k < |reach| :: reach[k]
    ensures Batches.FirstFalse(Batches.UpdateOks(rows, DateUpdates(records, now), reach)) == Batches.NumBatches(|records|)
    ensures Batches.Covered(Batches.NumBatches(|records|), |records|) == |records|
  {
    Batches.UpdatesAllSucceed(rows, DateUpdates(records, now), reach);
    Batches.AllCovered(|records|);
  }

  /**
   * Sending every update of distinct stored records rewrites only their
   * `PublishedAt`, record `i` getting `NewTime(i)`, and changes nothing
   * else in the table.
   */
  lemma DatedRows(rows: map<JsString, Fields>, records: seq<Record>, now: int)
    requires forall i | 0 <= i < |records| :: records[i].id in rows
    requires forall i, j | 0 <= i < j < |records| :: records[i].id != records[j].id
    ensures Batches.StoredUpTo(rows, DateUpdates(records, now), |records|)
    ensures var r := Merged(rows, DateUpdates(records, now));
      && r.Keys == rows.Keys
      && (forall i | 0 <= i < |records| ::
            r[records[i].id] == rows[records[i].id][PublishedAt := Timestamp(NewTime(i, |records|, now))])
      && (forall x | x in rows && x !in Ids(records) :: r[x] == rows[x])
  {
    var updates := DateUpdates(records, now);
    Batches.MergedDistinct(rows, updates);
    var r := Merged(rows, updates);
    forall i | 0 <= i < |records| ensures r[records[i].id] == rows[records[i].id][PublishedAt := Timestamp(NewTime(i, |records|, now))] {
      assert updates[i] == DateUpdate(records[i].id, i, |records|, now);
      MergeOne(rows[records[i].id], PublishedAt, Timestamp(NewTime(i, |records|, now)));
    }
    forall x | x in rows && x !in Ids(records) ensures r[x] == rows[x] {
      assert x !in Batches.UpdatedIds(updates) by {
        forall i | 0 <= i < |updates| ensures updates[i].0 != x {
          assert updates[i].0 == Ids(records)[i];
        }
      }
    }
  }
}
