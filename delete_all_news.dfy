/**
 * The script that empties the News table: every record is deleted, ten
 * ids per request, and the progress line shows how many are gone.
 */
module DeleteAllNews {
  import opened Js
  import opened Store
  import Config
  import Batches

  datatype Outcome = Exit(code: int) | AlreadyEmpty | Deleted(count: nat, calls: nat, marks: seq<nat>)

  /**
   * `main()`.  Only the API key is checked: the base id falls back to the
   * built-in one, as the site's settings do.  `all` is the answer of the
   * unfiltered query, `None` when it fails.
   */
  method Run(table: Table, env: Config.Env, all: Option<seq<Record>>, reach: seq<bool>) returns (outcome: Outcome)
    requires all.Some? ==> |reach| >= Batches.NumBatches(|all.value|)
    modifies table
    ensures Config.CredentialsMissing(Config.Airtable(env)) || all.None? ==> outcome == Exit(1) && table.rows == old(table.rows)
    ensures !Config.CredentialsMissing(Config.Airtable(env)) && all.Some? && all.value == [] ==>
      outcome == AlreadyEmpty && table.rows == old(table.rows)
    ensures !Config.CredentialsMissing(Config.Airtable(env)) && all.Some? && all.value != [] ==>
      var ids := Ids(all.value);
      var f := Batches.FirstFalse(Batches.DestroyOks(old(table.rows), ids, reach));
      && table.rows == old(table.rows) - IdSet(ids[..Batches.Covered(f, |ids|)])
      && outcome == (if f < Batches.NumBatches(|ids|) then Exit(1) else Deleted(|ids|, f, Batches.Marks(|ids|, f)))
  {
    if Config.CredentialsMissing(Config.Airtable(env)) || all.None? {
      return Exit(1);
    }
    var records := all.value;
    if |records| == 0 {
      return AlreadyEmpty;
    }
    var ids := Ids(records);
    var calls, marks, failed := Batches.DestroyInBatches(table, ids, reach);
    outcome := if failed then Exit(1) else Deleted(|ids|, calls, marks);
  }

  /**
   * When the query returns the whole table (each stored record once) and
   * every request is reached, the run makes `⌈n/10⌉` requests, its last
   * progress line shows `n`, and the table ends empty.
   */
  lemma EmptiesTable(rows: map<JsString, Fields>, records: seq<Record>, reach: seq<bool>)
    requires records != []
    requires |reach| >= Batches.NumBatches(|records|)
    requires forall k | 0 <= k < |reach| :: reach[k]
    requires IdSet(Ids(records)) == rows.Keys
    requires forall i, j | 0 <= i < j < |records| :: records[i].id != records[j].id
    ensures var ids := Ids(records);
      var f := Batches.FirstFalse(Batches.DestroyOks(rows, ids, reach));
      && f == Batches.NumBatches(|records|)
      && (f - 1) * BATCH_LIMIT < |records| <= f * BATCH_LIMIT
      && Batches.Marks(|ids|, f)[f - 1] == |records|
      && rows - IdSet(ids[..Batches.Covered(f, |ids|)]) == map[]
  {
    var ids := Ids(records);
    forall i | 0 <= i < |ids| ensures ids[i] in rows {
      assert ids[i] in IdSet(ids);
    }
    Batches.DestroysAllSucceed(rows, ids, reach);
    Batches.AllCovered(|ids|);
    Batches.NumBatchesIsCeiling(|ids|);
    Batches.MarksProgress(|ids|, Batches.NumBatches(|ids|));
    assert ids[..|ids|] == ids;
  }
}
