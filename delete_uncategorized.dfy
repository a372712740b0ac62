/**
 * The clean-up script for articles outside the five site categories:
 * published records whose category is missing or unknown are deleted,
 * ten ids per request.
 */
module DeleteUncategorized {
  import opened Js
  import opened Store
  import Config
  import Batches

  const UNCATEGORIZED: JsString := Bmp("uncategorized")

  /** The categories the site knows. */
  const KNOWN: seq<JsString> := [Bmp("kiso"), Bmp("baken"), Bmp("yougo"), Bmp("nankan"), Bmp("data")]

  /** The filter: no category, `'uncategorized'`, or a category the site does not know. */
  predicate Selected(f: Fields) {
    var category := TextField(f, Category);
    !IsTruthy(category) || category.value == UNCATEGORIZED || category.value !in KNOWN
  }

  /**
   * A record is selected exactly when it does not carry one of the five
   * known categories; the `'uncategorized'` test adds nothing, since that
   * name is not one of them.
   */
  lemma SelectedIffUnknown(f: Fields)
    ensures Selected(f) <==> !(IsTruthy(TextField(f, Category)) && TextField(f, Category).value in KNOWN)
    ensures Category !in f ==> Selected(f)
    ensures Selected(f[Category := Text(UNCATEGORIZED)])
  {
    assert UNCATEGORIZED[0] == 'u' as int;
    assert forall k | k in KNOWN :: k[0] != 'u' as int;
  }

  /** `allRecords.filter(...)`: the selected records, in the query's order. */
  function Selection(records: seq<Record>): (r: seq<Record>)
    ensures |r| <= |records|
    ensures forall x | x in r :: x in records && Selected(x.fields)
    ensures forall x | x in records && Selected(x.fields) :: x in r
  {
    if records == [] then []
    else (if Selected(records[0].fields) then [records[0]] else []) + Selection(records[1..])
  }

  /** Distinct record ids stay distinct in the selection. */
  lemma {:induction false} SelectionDistinct(records: seq<Record>)
    requires forall i, j | 0 <= i < j < |records| :: records[i].id != records[j].id
    ensures forall i, j | 0 <= i < j < |Selection(records)| :: Selection(records)[i].id != Selection(records)[j].id
  {
    if records != [] {
      var rest := records[1..];
      SelectionDistinct(rest);
      var s := Selection(records);
      var t := Selection(rest);
      if Selected(records[0].fields) {
        assert s == [records[0]] + t;
        forall j | 0 < j < |s| ensures s[0].id != s[j].id {
          assert s[j] in t;
          var k :| 0 <= k < |rest| && rest[k] == s[j];
          assert rest[k] == records[k + 1];
        }
      } else {
        assert s == t;
      }
    }
  }

  datatype Outcome = Exit(code: int) | NothingToDo | Deleted(count: nat, calls: nat, marks: seq<nat>)

  /**
   * `deleteUncategorized()`.  `published` is the answer of the query for
   * published records, `None` when it fails; `reach` says which deletion
   * requests reach the service.
   */
  method Run(table: Table, env: Config.Env, published: Option<seq<Record>>, reach: seq<bool>) returns (outcome: Outcome)
    requires published.Some? ==> |reach| >= Batches.NumBatches(|published.value|)
    modifies table
    ensures !Config.ScriptCredentials(env) || published.None? ==> outcome == Exit(1) && table.rows == old(table.rows)
    ensures Config.ScriptCredentials(env) && published.Some? && Selection(published.value) == [] ==>
      outcome == NothingToDo && table.rows == old(table.rows)
    ensures Config.ScriptCredentials(env) && published.Some? && Selection(published.value) != [] ==>
      var ids := Ids(Selection(published.value));
      var f := Batches.FirstFalse(Batches.DestroyOks(old(table.rows), ids, reach));
      && table.rows == old(table.rows) - IdSet(ids[..Batches.Covered(f, |ids|)])
      && outcome == (if f < Batches.NumBatches(|ids|) then Exit(1) else Deleted(|ids|, f, Batches.Marks(|ids|, f)))
  {
    if !Config.ScriptCredentials(env) || published.None? {
      return Exit(1);
    }
    var uncategorizedRecords := Selection(published.value);
    if |uncategorizedRecords| == 0 {
      return NothingToDo;
    }
    var recordIds := Ids(uncategorizedRecords);
    var calls, marks, failed := Batches.DestroyInBatches(table, recordIds, reach);
    outcome := if failed then Exit(1) else Deleted(|recordIds|, calls, marks);
  }

  /**
   * When every request is reached and the records are distinct stored
   * ones, exactly the selected records are deleted: the batches cover
   * every id sent, and the ids sent are exactly the selected records' ids.
   */
  lemma DeleteResult(rows: map<JsString, Fields>, records: seq<Record>, reach: seq<bool>)
    requires |reach| >= Batches.NumBatches(|records|)
    requires forall k | 0 <= k < |reach| :: reach[k]
    requires forall i | 0 <= i < |records| :: records[i].id in rows
    requires forall i, j | 0 <= i < j < |records| :: records[i].id != records[j].id
    ensures var ids := Ids(Selection(records));
      && Batches.FirstFalse(Batches.DestroyOks(rows, ids, reach)) == Batches.NumBatches(|ids|)
      && rows - IdSet(ids[..Batches.Covered(Batches.NumBatches(|ids|), |ids|)]) == rows - IdSet(ids)
    ensures IdSet(Ids(Selection(records))) == set x | x in records && Selected(x.fields) :: x.id
  {
    var sel := Selection(records);
    var ids := Ids(sel);
    SelectionDistinct(records);
    forall i | 0 <= i < |ids| ensures ids[i] in rows {
      assert sel[i] in records;
    }
    Batches.DestroysAllSucceed(rows, ids, reach);
    Batches.AllCovered(|ids|);
    assert ids[..|ids|] == ids;
    forall x | x in records && Selected(x.fields) ensures x.id in IdSet(ids) {
      var i :| 0 <= i < |sel| && sel[i] == x;
      assert ids[i] == x.id;
    }
    forall id | id in IdSet(ids) ensures exists x | x in records && Selected(x.fields) :: x.id == id {
      var i :| 0 <= i < |ids| && ids[i] == id;
      assert sel[i] in sel;
    }
  }
}
