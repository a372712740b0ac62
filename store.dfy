/**
 * Airtable records as the site and its scripts see them: a record id and a
 * map from field names to values.  An update sends a partial map that is
 * merged into the stored one.
 */
module Store {
  import opened Js

  /** The columns of the News table (and Name/URL of the Sites table). */
  datatype FieldName =
    | Title | Slug | Category | Excerpt | Content | PublishedAt | ViewCount
    | IsFeatured | Tags | Author | Thumbnail | ThumbnailUrl | Status
    | SourceUrl | SourceName | TweetID | TweetedAt | BlueskyPostUri
    | BlueskyPostedAt | RelatedSites | IsPublished | Name | URL

  /** One element of an attachment field (`{url, filename}`). */
  datatype Attachment = Attachment(url: Option<JsString>, filename: Option<JsString>)

  /**
   * A field value.  `Timestamp(ms)` is a date written as `toISOString()`;
   * `Day(d)` is the date-only text `toISOString().split('T')[0]` of day `d`
   * counted from the epoch in UTC.
   */
  datatype Value =
    | Text(text: JsString)
    | Num(num: int)
    | Flag(flag: bool)
    | Timestamp(ms: int)
    | Day(day: int)
    | Files(files: seq<Attachment>)
    | Texts(texts: seq<JsString>)

  type Fields = map<FieldName, Value>

  datatype Record = Record(id: JsString, fields: Fields)

  const DAY_MS: int := 86_400_000
  const HOUR_MS: int := 3_600_000
  const MINUTE_MS: int := 60_000

  /** The UTC day of an instant, as `toISOString().split('T')[0]` names it. */
  function DayOf(ms: int): int {
    ms / DAY_MS
  }

  /** JavaScript truthiness of a stored value. */
  predicate Truthy(v: Value) {
    match v
    case Text(t) => t != []
    case Num(n) => n != 0
    case Flag(b) => b
    case _ => true
  }

  /** A text field, or None when it is absent. */
  function TextField(f: Fields, n: FieldName): (r: Option<JsString>)
    ensures r.Some? <==> n in f && f[n].Text?
    ensures r.Some? ==> f[n] == Text(r.value)
  {
    if n in f && f[n].Text? then Some(f[n].text) else None
  }

  /** `fields.X || d` for a text field. */
  function TextOr(f: Fields, n: FieldName, d: JsString): (r: JsString)
    ensures r == d || (r != [] && n in f && f[n] == Text(r))
    ensures IsTruthy(TextField(f, n)) ==> r == TextField(f, n).value
  {
    OrElse(TextField(f, n), d)
  }

  /** `fields.Thumbnail?.[0]?.url` */
  function FirstFileUrl(f: Fields): Option<JsString> {
    if Thumbnail in f && f[Thumbnail].Files? && |f[Thumbnail].files| > 0 then f[Thumbnail].files[0].url
    else None
  }

  /** `[{ url }]`: an attachment list holding a single URL. */
  function SingleFile(url: JsString): Value {
    Files([Attachment(Some(url), None)])
  }

  /** The instant `new Date(fields.PublishedAt)` denotes, falling back to `now` when the field is absent. */
  function PublishedMs(f: Fields, now: int): int {
    if PublishedAt in f then
      match f[PublishedAt]
      case Timestamp(ms) => ms
      case Day(d) => d * DAY_MS
      case _ => now
    else now
  }

  // ---------------------------------------------------------------------
  // Tables
  // ---------------------------------------------------------------------

  /** `after` agrees with `before` on every field outside `names`. */
  predicate OnlyTouches(before: Fields, after: Fields, names: set<FieldName>) {
    forall n: FieldName | n !in names :: (n in before <==> n in after) && (n in before ==> before[n] == after[n])
  }

  /** Merging a patch changes only the fields it names, and sets each of them. */
  lemma MergeTouchesOnlyPatch(f: Fields, patch: Fields)
    ensures OnlyTouches(f, f + patch, patch.Keys)
    ensures forall n | n in patch :: (f + patch)[n] == patch[n]
  {
  }

  /** A one-field patch sets that field. */
  lemma MergeOne(f: Fields, n: FieldName, v: Value)
    ensures f + map[n := v] == f[n := v]
  {
  }

  /** The ids of a batch, as a set. */
  function IdSet(ids: seq<JsString>): (r: set<JsString>)
    ensures forall i | 0 <= i < |ids| :: ids[i] in r
    ensures forall x | x in r :: exists i | 0 <= i < |ids| :: ids[i] == x
  {
    set i | 0 <= i < |ids| :: ids[i]
  }

  /** `records.map(r => r.id)` */
  function Ids(records: seq<Record>): seq<JsString> {
    seq(|records|, i requires 0 <= i < |records| => records[i].id)
  }

  /** Airtable accepts at most ten records per batch request. */
  const BATCH_LIMIT: int := 10

  /**
   * One table of the base.  Each request may fail (`reachable` is false
   * when the request does not reach the service or is refused).
   */
  class Table {
    var rows: map<JsString, Fields>

    constructor(rows: map<JsString, Fields>)
      ensures this.rows == rows
    {
      this.rows := rows;
    }

    /** `update(id, patch)`: merges the patch into the record. */
    method Update(id: JsString, patch: Fields, reachable: bool) returns (ok: bool)
      modifies this
      ensures ok == (reachable && id in old(rows))
      ensures ok ==> rows == old(rows)[id := old(rows)[id] + patch]
      ensures !ok ==> rows == old(rows)
    {
      ok := reachable && id in rows;
      if ok {
        rows := rows[id := rows[id] + patch];
      }
    }

    /** `update([{id, fields}, ...])`: a batch of at most ten updates, all or nothing. */
    method UpdateBatch(batch: seq<(JsString, Fields)>, reachable: bool) returns (ok: bool)
      modifies this
      ensures ok == (reachable && |batch| <= BATCH_LIMIT && forall i | 0 <= i < |batch| :: batch[i].0 in old(rows))
      ensures ok ==> rows == Merged(old(rows), batch)
      ensures !ok ==> rows == old(rows)
    {
      ok := reachable && |batch| <= BATCH_LIMIT && forall i | 0 <= i < |batch| :: batch[i].0 in rows;
      if ok {
        rows := Merged(rows, batch);
      }
    }

    /** `create(fields)`: stores a new record under the id the service assigns. */
    method Create(id: JsString, fields: Fields, reachable: bool) returns (ok: bool)
      modifies this
      ensures ok == (reachable && id !in old(rows))
      ensures ok ==> rows == old(rows)[id := fields]
      ensures !ok ==> rows == old(rows)
    {
      ok := reachable && id !in rows;
      if ok {
        rows := rows[id := fields];
      }
    }

    /** `destroy(ids)`: a batch of at most ten deletions, all or nothing. */
    method Destroy(ids: seq<JsString>, reachable: bool) returns (ok: bool)
      modifies this
      ensures ok == (reachable && |ids| <= BATCH_LIMIT && forall i | 0 <= i < |ids| :: ids[i] in old(rows))
      ensures ok ==> rows == old(rows) - IdSet(ids)
      ensures !ok ==> rows == old(rows)
    {
      ok := reachable && |ids| <= BATCH_LIMIT && forall i | 0 <= i < |ids| :: ids[i] in rows;
      if ok {
        rows := rows - IdSet(ids);
      }
    }
  }

  /** The rows after merging each patch of a batch, in order. */
  function Merged(rows: map<JsString, Fields>, batch: seq<(JsString, Fields)>): (r: map<JsString, Fields>)
    requires forall i | 0 <= i < |batch| :: batch[i].0 in rows
    ensures r.Keys == rows.Keys
    decreases |batch|
  {
    if batch == [] then rows
    else
      var (id, patch) := batch[0];
      Merged(rows[id := rows[id] + patch], batch[1..])
  }
}
