/**
 * The `for (let i = 0; i < n; i += 10)` loops of the maintenance scripts:
 * a list is sent to Airtable ten entries at a time, each request is
 * reported with the bound `Math.min(i + 10, n)`, and the first request
 * that fails throws, which ends the run.
 */
module Batches {
  import opened Js
  import opened Store

  /** How many entries the first `k` requests cover: `Math.min(10 * k, n)`. */
  function Covered(k: nat, n: nat): nat {
    if k * BATCH_LIMIT <= n then k * BATCH_LIMIT else n
  }

  /** How many requests the loop makes for `n` entries. */
  function NumBatches(n: nat): nat {
    (n + BATCH_LIMIT - 1) / BATCH_LIMIT
  }

  /** `xs.slice(i, i + 10)` for `i = 10 * k`. */
  function Batch<T>(xs: seq<T>, k: nat): seq<T>
    requires k < NumBatches(|xs|)
  {
    xs[Covered(k, |xs|)..Covered(k + 1, |xs|)]
  }

  /** The number of requests is the ceiling of `n / 10`. */
  lemma NumBatchesIsCeiling(n: nat)
    ensures n == 0 <==> NumBatches(n) == 0
    ensures n > 0 ==> (NumBatches(n) - 1) * BATCH_LIMIT < n <= NumBatches(n) * BATCH_LIMIT
  {
  }

  /** Every request carries between one and ten entries. */
  lemma BatchSize<T>(xs: seq<T>, k: nat)
    requires k < NumBatches(|xs|)
    ensures 0 < |Batch(xs, k)| <= BATCH_LIMIT
  {
  }

  /** The requests together cover the whole list. */
  lemma AllCovered(n: nat)
    ensures Covered(NumBatches(n), n) == n
  {
  }

  /** Entry `j` is sent by request `j / 10` and by no other. */
  lemma EachEntryOnce(n: nat, j: nat, k: nat)
    requires j < n && k < NumBatches(n)
    ensures j / BATCH_LIMIT < NumBatches(n)
    ensures Covered(k, n) <= j < Covered(k + 1, n) <==> k == j / BATCH_LIMIT
  {
  }

  /** The bounds printed after the first `k` requests. */
  function Marks(n: nat, k: nat): seq<nat> {
    seq(k, j requires 0 <= j => Covered(j + 1, n))
  }

  /**
   * The printed bounds grow strictly, never pass the list's length and
   * end at it.
   */
  lemma MarksProgress(n: nat, k: nat)
    requires k <= NumBatches(n)
    ensures |Marks(n, k)| == k
    ensures forall i, j | 0 <= i < j < k :: Marks(n, k)[i] < Marks(n, k)[j]
    ensures forall j | 0 <= j < k :: Marks(n, k)[j] <= n
    ensures k == NumBatches(n) && k > 0 ==> Marks(n, k)[k - 1] == n
  {
    var m := Marks(n, k);
    forall i, j | 0 <= i < j < k ensures m[i] < m[j] {
      assert (j + 1) * BATCH_LIMIT - (i + 1) * BATCH_LIMIT >= BATCH_LIMIT;
      assert j * BATCH_LIMIT < n;
    }
  }

  /** The first request that fails is the one after a run of successes. */
  lemma FirstFalseAt(oks: seq<bool>, k: nat)
    requires k <= |oks|
    requires forall j | 0 <= j < k :: oks[j]
    requires k < |oks| ==> !oks[k]
    ensures FirstFalse(oks) == k
  {
  }

  /** One more request adds its bound to the printed ones. */
  lemma MarksStep(n: nat, k: nat)
    ensures Marks(n, k + 1) == Marks(n, k) + [Min(k * BATCH_LIMIT + BATCH_LIMIT, n)]
  {
  }

  /** The index of the first failing request, or `|oks|` when none fails. */
  function FirstFalse(oks: seq<bool>): (r: nat)
    ensures r <= |oks|
    ensures forall j | 0 <= j < r :: oks[j]
    ensures r < |oks| ==> !oks[r]
  {
    if oks == [] || !oks[0] then 0 else 1 + FirstFalse(oks[1..])
  }

  // ---------------------------------------------------------------------
  // Updates
  // ---------------------------------------------------------------------

  /** The first `m` updates all name stored records. */
  predicate StoredUpTo(rows: map<JsString, Fields>, updates: seq<(JsString, Fields)>, m: nat)
    requires m <= |updates|
  {
    forall i | 0 <= i < m :: updates[i].0 in rows
  }

  /**
   * Which update requests succeed, given that the earlier ones did:
   * request `k` is reached and names only stored records (so, with the
   * earlier requests, every entry up to the end of batch `k` is stored).
   */
  function UpdateOks(rows: map<JsString, Fields>, updates: seq<(JsString, Fields)>, reach: seq<bool>): (r: seq<bool>)
    requires |reach| >= NumBatches(|updates|)
    ensures |r| == NumBatches(|updates|)
  {
    seq(NumBatches(|updates|), k requires 0 <= k < NumBatches(|updates|) =>
      reach[k] && StoredUpTo(rows, updates, Covered(k + 1, |updates|)))
  }

  /** Every request of an update run succeeds when every one is reached and every id is stored. */
  lemma UpdatesAllSucceed(rows: map<JsString, Fields>, updates: seq<(JsString, Fields)>, reach: seq<bool>)
    requires |reach| >= NumBatches(|updates|)
    requires forall k | 0 <= k < |reach| :: reach[k]
    requires forall i | 0 <= i < |updates| :: updates[i].0 in rows
    ensures FirstFalse(UpdateOks(rows, updates, reach)) == NumBatches(|updates|)
  {
    var oks := UpdateOks(rows, updates, reach);
    forall k | 0 <= k < |oks| ensures oks[k] {
      assert StoredUpTo(rows, updates, Covered(k + 1, |updates|));
    }
    FirstFalseAt(oks, |oks|);
  }

  /**
   * `base('News').update(batch)` for each batch in turn.  The run stops
   * at the first request that fails; `calls` counts the requests made and
   * `marks` the progress lines printed.
   */
  method UpdateInBatches(table: Table, updates: seq<(JsString, Fields)>, reach: seq<bool>)
    returns (calls: nat, marks: seq<nat>, failed: bool)
    requires |reach| >= NumBatches(|updates|)
    modifies table
    ensures var f := FirstFalse(UpdateOks(old(table.rows), updates, reach));
      && failed == (f < NumBatches(|updates|))
      && calls == (if failed then f + 1 else f)
      && marks == Marks(|updates|, f)
      && StoredUpTo(old(table.rows), updates, Covered(f, |updates|))
      && table.rows == Merged(old(table.rows), updates[..Covered(f, |updates|)])
  {
    ghost var rows0 := table.rows;
    ghost var oks := UpdateOks(rows0, updates, reach);
    var n := |updates|;
    calls, marks, failed := 0, [], false;
    var i := 0;
    while i < n
      invariant i == calls * BATCH_LIMIT
      invariant calls <= NumBatches(n)
      invariant forall j | 0 <= j < calls :: oks[j]
      invariant marks == Marks(n, calls)
      invariant StoredUpTo(rows0, updates, Covered(calls, n))
      invariant table.rows == Merged(rows0, updates[..Covered(calls, n)])
    {
      MarksStep(n, calls);
      var ok := SendUpdateBatch(table, rows0, updates, reach, calls);
      if !ok {
        FirstFalseAt(oks, calls);
        calls := calls + 1;
        failed := true;
        return;
      }
      calls := calls + 1;
      marks := marks + [Min(i + BATCH_LIMIT, n)];
      i := i + BATCH_LIMIT;
    }
    AllCovered(n);
    FirstFalseAt(oks, calls);
  }

  /** The body of the update loop: request `k`, once the earlier ones have succeeded. */
  method SendUpdateBatch(table: Table, ghost rows0: map<JsString, Fields>, updates: seq<(JsString, Fields)>, reach: seq<bool>, k: nat)
    returns (ok: bool)
    requires |reach| >= NumBatches(|updates|) && k < NumBatches(|updates|)
    requires StoredUpTo(rows0, updates, Covered(k, |updates|))
    requires table.rows == Merged(rows0, updates[..Covered(k, |updates|)])
    modifies table
    ensures ok == UpdateOks(rows0, updates, reach)[k]
    ensures ok ==> StoredUpTo(rows0, updates, Covered(k + 1, |updates|))
    ensures ok ==> table.rows == Merged(rows0, updates[..Covered(k + 1, |updates|)])
    ensures !ok ==> table.rows == old(table.rows)
  {
    var n := |updates|;
    ghost var c, c1 := Covered(k, n), Covered(k + 1, n);
    var i := k * BATCH_LIMIT;
    var batch := updates[i..Min(i + BATCH_LIMIT, n)];
    assert batch == updates[c..c1];
    BatchStored(rows0, table.rows, updates, c, c1);
    ok := table.UpdateBatch(batch, reach[k]);
    if ok {
      MergedPrefix(rows0, updates, c, c1);
    }
  }

  /** The ids of the next batch are stored exactly when the longer prefix is. */
  lemma BatchStored(rows: map<JsString, Fields>, cur: map<JsString, Fields>, updates: seq<(JsString, Fields)>, c: nat, c1: nat)
    requires c <= c1 <= |updates|
    requires cur.Keys == rows.Keys
    requires StoredUpTo(rows, updates, c)
    ensures (forall i | 0 <= i < c1 - c :: updates[c..c1][i].0 in cur) <==> StoredUpTo(rows, updates, c1)
  {
    if forall i | 0 <= i < c1 - c :: updates[c..c1][i].0 in cur {
      forall i | c <= i < c1 ensures updates[i].0 in rows {
        assert updates[c..c1][i - c] == updates[i];
      }
    }
  }

  /** Merging a prefix and then the next batch is merging the longer prefix. */
  lemma MergedPrefix(rows: map<JsString, Fields>, updates: seq<(JsString, Fields)>, c: nat, c1: nat)
    requires c <= c1 <= |updates|
    requires StoredUpTo(rows, updates, c1)
    ensures forall i | 0 <= i < c :: updates[..c][i].0 in rows
    ensures forall i | 0 <= i < c1 - c :: updates[c..c1][i].0 in Merged(rows, updates[..c])
    ensures Merged(Merged(rows, updates[..c]), updates[c..c1]) == Merged(rows, updates[..c1])
  {
    assert updates[..c] + updates[c..c1] == updates[..c1];
    MergedConcat(rows, updates[..c], updates[c..c1]);
  }

  /** What the merge of two batches in turn does is the merge of both at once. */
  lemma {:induction false} MergedConcat(rows: map<JsString, Fields>, a: seq<(JsString, Fields)>, b: seq<(JsString, Fields)>)
    requires forall i | 0 <= i < |a| :: a[i].0 in rows
    requires forall i | 0 <= i < |b| :: b[i].0 in rows
    ensures forall i | 0 <= i < |a + b| :: (a + b)[i].0 in rows
    ensures Merged(rows, a + b) == Merged(Merged(rows, a), b)
    decreases |a|
  {
    forall i | 0 <= i < |a + b| ensures (a + b)[i].0 in rows {
      if i < |a| {
        assert (a + b)[i] == a[i];
      } else {
        assert (a + b)[i] == b[i - |a|];
      }
    }
    if a == [] {
      assert a + b == b;
    } else {
      var (id, patch) := a[0];
      var rows1 := rows[id := rows[id] + patch];
      assert (a + b)[0] == a[0];
      assert (a + b)[1..] == a[1..] + b;
      assert Merged(rows, a) == Merged(rows1, a[1..]);
      assert Merged(rows, a + b) == Merged(rows1, a[1..] + b);
      MergedConcat(rows1, a[1..], b);
    }
  }

  /** The ids a batch of updates names. */
  function UpdatedIds(batch: seq<(JsString, Fields)>): set<JsString> {
    set i | 0 <= i < |batch| :: batch[i].0
  }

  /**
   * With distinct ids, each named record gets exactly its own patch merged
   * in, and every other record is left as it was.
   */
  lemma {:induction false} MergedDistinct(rows: map<JsString, Fields>, batch: seq<(JsString, Fields)>)
    requires forall i | 0 <= i < |batch| :: batch[i].0 in rows
    requires forall i, j | 0 <= i < j < |batch| :: batch[i].0 != batch[j].0
    ensures forall i | 0 <= i < |batch| :: Merged(rows, batch)[batch[i].0] == rows[batch[i].0] + batch[i].1
    ensures forall x | x in rows && x !in UpdatedIds(batch) :: Merged(rows, batch)[x] == rows[x]
    decreases |batch|
  {
    if batch != [] {
      var (id, patch) := batch[0];
      var rest := batch[1..];
      var rows1 := rows[id := rows[id] + patch];
      MergedDistinct(rows1, rest);
      var r := Merged(rows, batch);
      assert r == Merged(rows1, rest);
      assert id !in UpdatedIds(rest) by {
        forall i | 0 <= i < |rest| ensures rest[i].0 != id {
          assert rest[i] == batch[i + 1];
        }
      }
      forall i | 0 <= i < |batch| ensures r[batch[i].0] == rows[batch[i].0] + batch[i].1 {
        if i > 0 {
          assert batch[i] == rest[i - 1];
        }
      }
      forall x | x in rows && x !in UpdatedIds(batch) ensures r[x] == rows[x] {
        assert x != id;
        assert x !in UpdatedIds(rest) by {
          forall i | 0 <= i < |rest| ensures rest[i].0 != x {
            assert rest[i] == batch[i + 1];
          }
        }
      }
    }
  }

  // ---------------------------------------------------------------------
  // Deletions
  // ---------------------------------------------------------------------

  /**
   * Which deletion requests succeed: reached, and naming only records the
   * earlier requests have not deleted.
   */
  function DestroyOks(rows: map<JsString, Fields>, ids: seq<JsString>, reach: seq<bool>): (r: seq<bool>)
    requires |reach| >= NumBatches(|ids|)
    ensures |r| == NumBatches(|ids|)
  {
    seq(NumBatches(|ids|), k requires 0 <= k < NumBatches(|ids|) =>
      var batch := Batch(ids, k);
      reach[k] && forall i | 0 <= i < |batch| :: batch[i] in rows - IdSet(ids[..Covered(k, |ids|)]))
  }

  /** Every deletion request succeeds when every one is reached and the ids are distinct and stored. */
  lemma DestroysAllSucceed(rows: map<JsString, Fields>, ids: seq<JsString>, reach: seq<bool>)
    requires |reach| >= NumBatches(|ids|)
    requires forall k | 0 <= k < |reach| :: reach[k]
    requires forall i | 0 <= i < |ids| :: ids[i] in rows
    requires forall i, j | 0 <= i < j < |ids| :: ids[i] != ids[j]
    ensures FirstFalse(DestroyOks(rows, ids, reach)) == NumBatches(|ids|)
  {
    var oks := DestroyOks(rows, ids, reach);
    forall k | 0 <= k < |oks| ensures oks[k] {
      var c := Covered(k, |ids|);
      var batch := Batch(ids, k);
      forall i | 0 <= i < |batch| ensures batch[i] in rows - IdSet(ids[..c]) {
        assert batch[i] == ids[c + i];
        forall j | 0 <= j < c ensures ids[..c][j] != ids[c + i] {
          assert ids[..c][j] == ids[j];
        }
      }
    }
  }

  /** Deleting two lists in turn deletes both. */
  lemma IdSetConcat(rows: map<JsString, Fields>, a: seq<JsString>, b: seq<JsString>)
    ensures IdSet(a + b) == IdSet(a) + IdSet(b)
    ensures rows - IdSet(a) - IdSet(b) == rows - IdSet(a + b)
  {
    var ab := a + b;
    forall x | x in IdSet(a) ensures x in IdSet(ab) {
      var i :| 0 <= i < |a| && a[i] == x;
      assert ab[i] == x;
    }
    forall x | x in IdSet(b) ensures x in IdSet(ab) {
      var i :| 0 <= i < |b| && b[i] == x;
      assert ab[|a| + i] == x;
    }
    forall x | x in IdSet(ab) ensures x in IdSet(a) + IdSet(b) {
      var i :| 0 <= i < |ab| && ab[i] == x;
      if i < |a| {
        assert a[i] == x;
      } else {
        assert b[i - |a|] == x;
      }
    }
  }

  /**
   * `base('News').destroy(ids)` for each batch in turn, stopping at the
   * first request that fails.
   */
  method DestroyInBatches(table: Table, ids: seq<JsString>, reach: seq<bool>)
    returns (calls: nat, marks: seq<nat>, failed: bool)
    requires |reach| >= NumBatches(|ids|)
    modifies table
    ensures var f := FirstFalse(DestroyOks(old(table.rows), ids, reach));
      && failed == (f < NumBatches(|ids|))
      && calls == (if failed then f + 1 else f)
      && marks == Marks(|ids|, f)
      && table.rows == old(table.rows) - IdSet(ids[..Covered(f, |ids|)])
  {
    ghost var rows0 := table.rows;
    ghost var oks := DestroyOks(rows0, ids, reach);
    var n := |ids|;
    calls, marks, failed := 0, [], false;
    var i := 0;
    while i < n
      invariant i == calls * BATCH_LIMIT
      invariant calls <= NumBatches(n)
      invariant forall j | 0 <= j < calls :: oks[j]
      invariant marks == Marks(n, calls)
      invariant table.rows == rows0 - IdSet(ids[..Covered(calls, n)])
    {
      var batch := ids[i..Min(i + BATCH_LIMIT, n)];
      assert batch == Batch(ids, calls);
      var ok := table.Destroy(batch, reach[calls]);
      if !ok {
        assert !oks[calls];
        calls := calls + 1;
        failed := true;
        return;
      }
      IdSetConcat(rows0, ids[..Covered(calls, n)], batch);
      assert ids[..Covered(calls, n)] + batch == ids[..Covered(calls + 1, n)];
      calls := calls + 1;
      marks := marks + [Min(i + BATCH_LIMIT, n)];
      i := i + BATCH_LIMIT;
    }
  }
}
