/**
 * The persisted store as the query layer sees it: a response is either data or an
 * error with a code and a message. The store itself is modelled as the two tables'
 * rows, each table in `created_at` ascending order, plus an optional fault that makes
 * every request fail (network or server failure).
 */
module Store {
  import opened Wrappers
  import opened Entities

  /** The error object of a store response. */
  datatype StoreError = StoreError(code: string, message: string)

  /** `{ data, error }`: exactly one of the two is meaningful. */
  datatype Response<+T> = Ok(data: T) | Err(error: StoreError)

  /** The code the store reports when `.single()` finds no row (or more than one). */
  const NoRowsCode: string := "PGRST116"
  const NoRowsMessage: string := "JSON object requested, multiple (or no) rows returned"

  /** The code the store reports when an insert reuses an existing primary key. */
  const DuplicateKeyCode: string := "23505"
  const DuplicateKeyMessage: string := "duplicate key value violates unique constraint"

  /** Both tables, rows in creation order, and a fault that fails every request when present. */
  datatype Database = Database(
    collections: seq<CollectionRow>,
    galleryItems: seq<GalleryItemRow>,
    fault: Option<StoreError>)

  /** `.single()`: exactly one row, or the no-rows error. */
  function Single<T>(rows: seq<T>): (r: Response<T>)
    ensures r.Ok? <==> |rows| == 1
    ensures r.Ok? ==> r.data == rows[0]
    ensures r.Err? ==> r.error.code == NoRowsCode
  {
    if |rows| == 1 then Ok(rows[0]) else Err(StoreError(NoRowsCode, NoRowsMessage))
  }

  /** `.eq('collection_id', c)` on `gallery_items`: a null column never equals `c`. */
  function ItemRowsInCollection(rows: seq<GalleryItemRow>, c: string): (r: seq<GalleryItemRow>)
    ensures forall x :: x in r <==> x in rows && x.collectionId == NonNull(c)
  {
    if rows == [] then []
    else if rows[0].collectionId == NonNull(c) then [rows[0]] + ItemRowsInCollection(rows[1..], c)
    else ItemRowsInCollection(rows[1..], c)
  }

  /** The primary key of a `gallery_items` row. */
  function ItemRowId(row: GalleryItemRow): string {
    row.id
  }

  /** The primary key of a `collections` row. */
  function CollectionRowId(row: CollectionRow): string {
    row.id
  }

  /** `.eq('id', id)` on a table whose primary key is `idOf`: the matching rows, in order. */
  function RowsWithId<R(!new)>(rows: seq<R>, idOf: R -> string, id: string): (r: seq<R>)
    ensures |r| <= |rows|
    ensures forall x :: x in r <==> x in rows && idOf(x) == id
  {
    if rows == [] then []
    else if idOf(rows[0]) == id then [rows[0]] + RowsWithId(rows[1..], idOf, id)
    else RowsWithId(rows[1..], idOf, id)
  }

  /** No two rows share a primary key. */
  predicate UniqueIds<R>(rows: seq<R>, idOf: R -> string) {
    forall i, j :: 0 <= i < j < |rows| ==> idOf(rows[i]) != idOf(rows[j])
  }

  /** `.eq('id', id)` is empty exactly when no row has that id. */
  lemma NoRowsWithId<R(!new)>(rows: seq<R>, idOf: R -> string, id: string)
    ensures RowsWithId(rows, idOf, id) == [] <==> forall x :: x in rows ==> idOf(x) != id
  {
    var r := RowsWithId(rows, idOf, id);
    if r != [] {
      assert r[0] in r;
    }
  }

  /** With unique ids, filtering by the id of the row at `i` selects that row and no other. */
  lemma {:induction false} RowsWithUniqueId<R(!new)>(rows: seq<R>, idOf: R -> string, i: nat)
    requires i < |rows| && UniqueIds(rows, idOf)
    ensures RowsWithId(rows, idOf, idOf(rows[i])) == [rows[i]]
  {
    if i == 0 {
      assert forall x :: x in rows[1..] ==> idOf(x) != idOf(rows[0]) by {
        forall x | x in rows[1..] ensures idOf(x) != idOf(rows[0]) {
          var k :| 0 <= k < |rows[1..]| && rows[1..][k] == x;
          assert rows[k + 1] == x;
        }
      }
      NoRowsWithId(rows[1..], idOf, idOf(rows[0]));
    } else {
      assert UniqueIds(rows[1..], idOf) by {
        forall a, b | 0 <= a < b < |rows[1..]| ensures idOf(rows[1..][a]) != idOf(rows[1..][b]) {
          assert rows[1..][a] == rows[a + 1] && rows[1..][b] == rows[b + 1];
        }
      }
      RowsWithUniqueId(rows[1..], idOf, i - 1);
      assert rows[1..][i - 1] == rows[i];
    }
  }

  /** `from('collections').select('*').order('created_at')`: every row, in creation order. */
  function SelectCollections(db: Database): (r: Response<Option<seq<CollectionRow>>>)
    ensures r.Err? <==> db.fault.Some?
    ensures r.Err? ==> r.error == db.fault.value
    ensures r.Ok? ==> r.data == Some(db.collections)
  {
    if db.fault.Some? then Err(db.fault.value) else Ok(Some(db.collections))
  }

  /** `from('collections').select('*').eq('id', id).single()`. */
  function SelectCollectionById(db: Database, id: string): (r: Response<CollectionRow>)
    ensures db.fault.Some? ==> r == Err(db.fault.value)
    ensures r.Ok? ==> r.data in db.collections && r.data.id == id
    ensures db.fault.None? && r.Err? ==> r.error.code == NoRowsCode
    ensures db.fault.None? && (forall x :: x in db.collections ==> x.id != id) ==> r.Err?
  {
    if db.fault.Some? then Err(db.fault.value)
    else
      var rows := RowsWithId(db.collections, CollectionRowId, id);
      assert |rows| == 1 ==> rows[0] in rows;
      assert rows != [] ==> rows[0] in rows;
      Single(rows)
  }

  /** `from('gallery_items').select('*').order('created_at')`: every row, in creation order. */
  function SelectGalleryItems(db: Database): (r: Response<Option<seq<GalleryItemRow>>>)
    ensures r.Err? <==> db.fault.Some?
    ensures r.Err? ==> r.error == db.fault.value
    ensures r.Ok? ==> r.data == Some(db.galleryItems)
  {
    if db.fault.Some? then Err(db.fault.value) else Ok(Some(db.galleryItems))
  }

  /** `from('gallery_items').select('*').eq('collection_id', c).order('created_at')`. */
  function SelectGalleryItemsInCollection(db: Database, c: string): (r: Response<Option<seq<GalleryItemRow>>>)
    ensures r.Err? <==> db.fault.Some?
    ensures r.Err? ==> r.error == db.fault.value
    ensures r.Ok? ==>
      && r.data.Some?
      && forall x :: x in r.data.value <==> x in db.galleryItems && x.collectionId == NonNull(c)
  {
    if db.fault.Some? then Err(db.fault.value) else Ok(Some(ItemRowsInCollection(db.galleryItems, c)))
  }

  /** `from('gallery_items').select('*').eq('id', id).single()`. */
  function SelectGalleryItemById(db: Database, id: string): (r: Response<GalleryItemRow>)
    ensures db.fault.Some? ==> r == Err(db.fault.value)
    ensures r.Ok? ==> r.data in db.galleryItems && r.data.id == id
    ensures db.fault.None? && r.Err? ==> r.error.code == NoRowsCode
    ensures db.fault.None? && (forall x :: x in db.galleryItems ==> x.id != id) ==> r.Err?
  {
    if db.fault.Some? then Err(db.fault.value)
    else
      var rows := RowsWithId(db.galleryItems, ItemRowId, id);
      assert |rows| == 1 ==> rows[0] in rows;
      assert rows != [] ==> rows[0] in rows;
      Single(rows)
  }

  /**
   * The row the store writes for an insert: an absent column takes its default
   * (`newId` for `id`, `now` for the timestamps, null for the nullable columns).
   */
  function StoredRow(ins: GalleryItemInsert, newId: string, now: string): (row: GalleryItemRow)
    ensures row.kind == ins.kind && row.content == ins.content
    ensures row.id == if ins.id.Some? then ins.id.value else newId
    ensures row.createdAt == if ins.createdAt.Some? then ins.createdAt.value else now
    ensures row.updatedAt == if ins.updatedAt.Some? then ins.updatedAt.value else now
    ensures row.title == if ins.title.Some? then ins.title.value else Null
    ensures row.collectionId == if ins.collectionId.Some? then ins.collectionId.value else Null
    ensures row.metadata == if ins.metadata.Some? then ins.metadata.value else Null
  {
    GalleryItemRow(
      ins.id.GetOr(newId), ins.kind, ins.title.GetOr(Null), ins.content,
      ins.collectionId.GetOr(Null), ins.metadata.GetOr(Null),
      ins.createdAt.GetOr(now), ins.updatedAt.GetOr(now))
  }

  /**
   * `from('gallery_items').insert(ins).select().single()`: appends the stored row and
   * answers with it, unless the store is faulty or the id is taken.
   */
  function InsertGalleryItem(db: Database, ins: GalleryItemInsert, newId: string, now: string)
    : (res: (Database, Response<GalleryItemRow>))
    ensures res.1.Ok? ==> res.0.galleryItems == db.galleryItems + [res.1.data]
    ensures res.1.Ok? ==> res.1.data == StoredRow(ins, newId, now)
    ensures res.1.Err? ==> res.0 == db
    ensures res.1.Err? <==>
      db.fault.Some? || exists x :: x in db.galleryItems && x.id == StoredRow(ins, newId, now).id
    ensures db.fault.Some? ==> res.1 == Err(db.fault.value)
    ensures db.fault.None? && res.1.Err? ==> res.1.error == StoreError(DuplicateKeyCode, DuplicateKeyMessage)
    ensures res.0.collections == db.collections && res.0.fault == db.fault
  {
    var row := StoredRow(ins, newId, now);
    NoRowsWithId(db.galleryItems, ItemRowId, row.id);
    if db.fault.Some? then (db, Err(db.fault.value))
    else if RowsWithId(db.galleryItems, ItemRowId, row.id) != [] then
      (db, Err(StoreError(DuplicateKeyCode, DuplicateKeyMessage)))
    else (db.(galleryItems := db.galleryItems + [row]), Ok(row))
  }
}
