/**
 * The thumbnail repair script: every published article without a
 * `ThumbnailUrl` gets an image from the fixed Unsplash pools, chosen with
 * the record id as seed, and the URLs are written back ten at a time.
 */
module FixThumbnails {
  import opened Js
  import opened Store
  import Config
  import ImageGenerator
  import Batches

  const UNCATEGORIZED: JsString := Bmp("uncategorized")

  /** `fields.Category || 'uncategorized'` */
  function CategoryOrDefault(f: Fields): JsString {
    TextOr(f, Category, UNCATEGORIZED)
  }

  /** `title.substring(0, 50)` throws when the record has no title. */
  predicate Titled(rec: Record) {
    TextField(rec.fields, Title).Some?
  }

  /** The thumbnail obtained for a record, seeded with its id. */
  function ThumbnailFor(rec: Record, rnd: Random): Option<JsString> {
    ImageGenerator.Thumbnail(CategoryOrDefault(rec.fields), TextField(rec.fields, Title), Some(rec.id), rnd)
  }

  /** `{ id, fields: { ThumbnailUrl } }` */
  function UrlUpdate(id: JsString, url: JsString): (JsString, Fields) {
    (id, map[ThumbnailUrl := Text(url)])
  }

  /** The thumbnail obtained for each record, in order. */
  function Thumbnails(records: seq<Record>, rnds: seq<Random>): seq<Option<JsString>>
    requires |rnds| == |records|
  {
    seq(|records|, i requires 0 <= i < |records| => ThumbnailFor(records[i], rnds[i]))
  }

  /** The updates the first loop queues for the first `k` records: one per thumbnail obtained. */
  function Collected(records: seq<Record>, urls: seq<Option<JsString>>, k: nat): (r: seq<(JsString, Fields)>)
    requires k <= |records| == |urls|
    ensures |r| <= k
  {
    if k == 0 then []
    else
      Collected(records, urls, k - 1) + (if IsTruthy(urls[k - 1]) then [UrlUpdate(records[k - 1].id, urls[k - 1].value)] else [])
  }

  /** When every thumbnail was obtained, every record is queued, in order. */
  lemma {:induction false} CollectedAll(records: seq<Record>, urls: seq<Option<JsString>>, k: nat)
    requires k <= |records| == |urls|
    requires forall i | 0 <= i < k :: IsTruthy(urls[i])
    ensures |Collected(records, urls, k)| == k
    ensures forall i | 0 <= i < k :: urls[i].Some? && Collected(records, urls, k)[i] == UrlUpdate(records[i].id, urls[i].value)
  {
    if k > 0 {
      CollectedAll(records, urls, k - 1);
    }
  }

  /**
   * A titled record always gets a thumbnail: an image of the pool for its
   * keyword, which is a non-empty URL.
   */
  lemma ThumbnailsObtained(records: seq<Record>, rnds: seq<Random>)
    requires |rnds| == |records|
    requires forall i | 0 <= i < |records| :: Titled(records[i])
    ensures forall i | 0 <= i < |records| ::
      && IsTruthy(Thumbnails(records, rnds)[i])
      && Thumbnails(records, rnds)[i].value in
           ImageGenerator.Pool(ImageGenerator.UnsplashKeyword(CategoryOrDefault(records[i].fields), TextField(records[i].fields, Title).value))
  {
    forall i | 0 <= i < |records|
      ensures IsTruthy(Thumbnails(records, rnds)[i])
    {
      assert |ImageGenerator.PHOTO_PREFIX| > 0;
    }
  }

  /** With the record ids as seeds the thumbnails do not depend on the random draws. */
  lemma ThumbnailsAreSeeded(records: seq<Record>, r1: seq<Random>, r2: seq<Random>)
    requires |records| == |r1| == |r2|
    requires forall i | 0 <= i < |records| :: records[i].id != []
    ensures Thumbnails(records, r1) == Thumbnails(records, r2)
  {
    forall i | 0 <= i < |records| ensures Thumbnails(records, r1)[i] == Thumbnails(records, r2)[i] {
      var rec := records[i];
      var title := TextField(rec.fields, Title);
      if title.Some? {
        ImageGenerator.SeededPickIsDeterministic(
          ImageGenerator.UnsplashKeyword(CategoryOrDefault(rec.fields), title.value), rec.id, r1[i], r2[i]);
      }
    }
  }

  /**
   * The first loop: a thumbnail per record, queued when obtained.  It
   * throws at the first record without a title, before anything is sent.
   */
  method CollectUpdates(records: seq<Record>, rnds: seq<Random>) returns (updates: seq<(JsString, Fields)>, aborted: bool)
    requires |rnds| == |records|
    ensures aborted <==> exists i | 0 <= i < |records| :: !Titled(records[i])
    ensures !aborted ==> updates == Collected(records, Thumbnails(records, rnds), |records|)
  {
    ghost var urls := Thumbnails(records, rnds);
    updates, aborted := [], false;
    for i := 0 to |records|
      invariant forall j | 0 <= j < i :: Titled(records[j])
      invariant updates == Collected(records, urls, i)
    {
      if !Titled(records[i]) {
        aborted := true;
        return;
      }
      TitledStep(records, i);
      var queued := QueueThumbnail(records[i], rnds[i]);
      assert ThumbnailFor(records[i], rnds[i]) == urls[i];
      updates := updates + queued;
    }
  }

  /** One more titled record. */
  lemma TitledStep(records: seq<Record>, i: nat)
    requires i < |records|
    requires forall j | 0 <= j < i :: Titled(records[j])
    requires Titled(records[i])
    ensures forall j | 0 <= j < i + 1 :: Titled(records[j])
  {
  }

  /** The body of the first loop for a titled record: the update it queues, if any. */
  method QueueThumbnail(rec: Record, rnd: Random) returns (queued: seq<(JsString, Fields)>)
    requires Titled(rec)
    ensures var url := ThumbnailFor(rec, rnd);
      queued == if IsTruthy(url) then [UrlUpdate(rec.id, url.value)] else []
  {
    var fields := rec.fields;
    var category := CategoryOrDefault(fields);
    var title := TextField(fields, Title);
    var thumbnailUrl := ImageGenerator.GenerateAndUploadThumbnail(category, title, Some(rec.id), rnd);
    if IsTruthy(thumbnailUrl) {
      queued := [UrlUpdate(rec.id, thumbnailUrl.value)];
    } else {
      queued := [];
    }
  }

  datatype Outcome = Exit(code: int) | Fixed(total: nat, calls: nat, marks: seq<nat>)

  /**
   * `fixThumbnails()`.  `published` is the answer of the query for
   * published records with an empty `ThumbnailUrl`, `None` when it fails;
   * `rnds` are the random draws of the records and `reach` says which
   * batch requests reach the service.
   */
  method Run(table: Table, env: Config.Env, published: Option<seq<Record>>, rnds: seq<Random>, reach: seq<bool>)
    returns (outcome: Outcome)
    requires published.Some? ==> |rnds| == |published.value| && |reach| >= Batches.NumBatches(|published.value|)
    modifies table
    ensures !Config.ScriptCredentials(env) || published.None? ==> outcome == Exit(1) && table.rows == old(table.rows)
    ensures Config.ScriptCredentials(env) && published.Some? && (exists i | 0 <= i < |published.value| :: !Titled(published.value[i])) ==>
      outcome == Exit(1) && table.rows == old(table.rows)
    ensures Config.ScriptCredentials(env) && published.Some? && (forall i | 0 <= i < |published.value| :: Titled(published.value[i])) ==>
      var updates := Collected(published.value, Thumbnails(published.value, rnds), |rnds|);
      var f := Batches.FirstFalse(Batches.UpdateOks(old(table.rows), updates, reach));
      && |updates| == |published.value|
      && Batches.StoredUpTo(old(table.rows), updates, Batches.Covered(f, |updates|))
      && table.rows == Merged(old(table.rows), updates[..Batches.Covered(f, |updates|)])
      && outcome == (if f < Batches.NumBatches(|updates|) then Exit(1) else Fixed(|updates|, f, Batches.Marks(|updates|, f)))
  {
    if !Config.ScriptCredentials(env) || published.None? {
      return Exit(1);
    }
    var records := published.value;
    var updates, aborted := CollectUpdates(records, rnds);
    if aborted {
      return Exit(1);
    }
    ThumbnailsObtained(records, rnds);
    CollectedAll(records, Thumbnails(records, rnds), |records|);
    var calls, marks, failed := Batches.UpdateInBatches(table, updates, reach);
    outcome := if failed then Exit(1) else Fixed(|updates|, calls, marks);
  }

  /**
   * When every request is reached and every thumbnail was obtained for a
   * stored record, the batch loop sends every update and reports one per
   * record.
   */
  lemma FixSucceeds(rows: map<JsString, Fields>, records: seq<Record>, urls: seq<Option<JsString>>, reach: seq<bool>)
    requires |urls| == |records| && |reach| >= Batches.NumBatches(|records|)
    requires forall i | 0 <= i < |records| :: IsTruthy(urls[i]) && records[i].id in rows
    requires forall k | 0 <= k < |reach| :: reach[k]
    ensures var updates := Collected(records, urls, |records|);
      && |updates| == |records|
      && Batches.FirstFalse(Batches.UpdateOks(rows, updates, reach)) == Batches.NumBatches(|records|)
      && Batches.Covered(Batches.NumBatches(|records|), |records|) == |records|
  {
    var updates := Collected(records, urls, |records|);
    CollectedAll(records, urls, |records|);
    Batches.UpdatesAllSucceed(rows, updates, reach);
    Batches.AllCovered(|records|);
  }

  /**
   * Sending every update of distinct stored records sets each record's
   * `ThumbnailUrl` to its thumbnail and changes nothing else in the table.
   */
  lemma FixedRows(rows: map<JsString, Fields>, records: seq<Record>, urls: seq<Option<JsString>>)
    requires |urls| == |records|
    requires forall i | 0 <= i < |records| :: IsTruthy(urls[i]) && records[i].id in rows
    requires forall i, j | 0 <= i < j < |records| :: records[i].id != records[j].id
    ensures |Collected(records, urls, |records|)| == |records|
    ensures Batches.StoredUpTo(rows, Collected(records, urls, |records|), |records|)
    ensures var r := Merged(rows, Collected(records, urls, |records|));
      && r.Keys == rows.Keys
      && (forall i | 0 <= i < |records| :: urls[i].Some? && r[records[i].id] == rows[records[i].id][ThumbnailUrl := Text(urls[i].value)])
      && (forall x | x in rows && x !in Ids(records) :: r[x] == rows[x])
  {
    var updates := Collected(records, urls, |records|);
    CollectedAll(records, urls, |records|);
    Batches.MergedDistinct(rows, updates);
    var r := Merged(rows, updates);
    forall i | 0 <= i < |records| ensures r[records[i].id] == rows[records[i].id][ThumbnailUrl := Text(urls[i].value)] {
      assert updates[i] == UrlUpdate(records[i].id, urls[i].value);
      MergeOne(rows[records[i].id], ThumbnailUrl, Text(urls[i].value));
    }
    forall x | x in rows && x !in Ids(records) ensures r[x] == rows[x] {
      assert x !in Batches.UpdatedIds(updates) by {
        forall i | 0 <= i < |updates| ensures updates[i].0 != x {
          assert updates[i].0 == Ids(records)[i];
        }
      }
    }
  }
}
