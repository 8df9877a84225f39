/**
 * Queries on `gallery_items`: the row mapper (null becomes absent on read), the insert
 * row (absent becomes an explicit null on write), and each fetch's translation of the
 * store's response into a result or a thrown failure.
 */
module GalleryItems {
  import opened Wrappers
  import opened Entities
  import opened Store
  import opened CollectionFilter

  /** `CreateGalleryItemInput`: what a caller asks to create. */
  datatype CreateGalleryItemInput = CreateGalleryItemInput(
    kind: Kind,
    title: Option<string>,
    content: string,
    collectionId: Option<string>,
    metadata: Option<Metadata>)

  const FetchItemsFailure: string := "Failed to fetch gallery items: "
  const FetchItemFailure: string := "Failed to fetch gallery item: "
  const CreateItemFailure: string := "Failed to create gallery item: "

  /** `toGalleryItem`: identity on `id`, `type`, `content`; a null column becomes an absent key. */
  function ToGalleryItem(row: GalleryItemRow): (item: GalleryItem)
    ensures item.id == row.id && item.kind == row.kind && item.content == row.content
    ensures (item.title.None? <==> row.title.Null?) && (row.title.NonNull? ==> item.title.value == row.title.value)
    ensures (item.collectionId.None? <==> row.collectionId.Null?)
      && (row.collectionId.NonNull? ==> item.collectionId.value == row.collectionId.value)
    ensures (item.metadata.None? <==> row.metadata.Null?)
      && (row.metadata.NonNull? ==> item.metadata.value == row.metadata.value)
  {
    GalleryItem(
      row.id, row.kind, NullToAbsent(row.title), row.content,
      NullToAbsent(row.collectionId), NullToAbsent(row.metadata))
  }

  /** `rows.map(toGalleryItem)`: same length, same order. */
  function ToGalleryItems(rows: seq<GalleryItemRow>): (items: seq<GalleryItem>)
    ensures |items| == |rows|
    ensures forall i :: 0 <= i < |rows| ==> items[i] == ToGalleryItem(rows[i])
  {
    if rows == [] then [] else [ToGalleryItem(rows[0])] + ToGalleryItems(rows[1..])
  }

  /** Mapping distributes over concatenation. */
  lemma ToGalleryItemsAppend(a: seq<GalleryItemRow>, b: seq<GalleryItemRow>)
    ensures ToGalleryItems(a + b) == ToGalleryItems(a) + ToGalleryItems(b)
  {
  }

  /** Mapping rows then filtering by collection is filtering rows in the store, then mapping. */
  lemma {:induction false} ToGalleryItemsInCollection(rows: seq<GalleryItemRow>, c: string)
    ensures ToGalleryItems(ItemRowsInCollection(rows, c)) == InCollection(ToGalleryItems(rows), c)
  {
    if rows != [] {
      ToGalleryItemsInCollection(rows[1..], c);
      assert ToGalleryItems(rows)[1..] == ToGalleryItems(rows[1..]);
    }
  }

  /**
   * The response handling shared by both list fetches: an error is thrown with the
   * fetch's prefix, `data ?? []` turns null data into the empty list, rows are mapped.
   */
  function ItemListResult(resp: Response<Option<seq<GalleryItemRow>>>): (r: Result<seq<GalleryItem>>)
    ensures r.Failure? <==> resp.Err?
    ensures resp.Err? ==> r.message == FetchItemsFailure + resp.error.message
    ensures resp == Ok(None) ==> r == Success([])
    ensures resp.Ok? && resp.data.Some? ==>
      && r.Success?
      && |r.value| == |resp.data.value|
      && forall i :: 0 <= i < |r.value| ==> r.value[i] == ToGalleryItem(resp.data.value[i])
  {
    match resp
    case Err(e) => Failure(FetchItemsFailure + e.message)
    case Ok(data) => Success(ToGalleryItems(data.GetOr([])))
  }

  /** `fetchGalleryItems`: every stored item, in creation order, or the store's failure. */
  function FetchGalleryItems(db: Database): (r: Result<seq<GalleryItem>>)
    ensures r.Failure? <==> db.fault.Some?
    ensures r.Failure? ==> r.message == FetchItemsFailure + db.fault.value.message
    ensures r.Success? ==>
      && |r.value| == |db.galleryItems|
      && forall i :: 0 <= i < |r.value| ==> r.value[i] == ToGalleryItem(db.galleryItems[i])
  {
    ItemListResult(SelectGalleryItems(db))
  }

  /**
   * `fetchGalleryItemsByCollection`: exactly the items of `fetchGalleryItems` whose
   * `collectionId` is `c`, in the same relative order.
   */
  function FetchGalleryItemsByCollection(db: Database, c: string): (r: Result<seq<GalleryItem>>)
    ensures r.Failure? <==> db.fault.Some?
    ensures r.Failure? ==> r.message == FetchItemsFailure + db.fault.value.message
    ensures r.Success? ==> r.value == InCollection(FetchGalleryItems(db).value, c)
  {
    ToGalleryItemsInCollection(db.galleryItems, c);
    ItemListResult(SelectGalleryItemsInCollection(db, c))
  }

  /** The response handling of `fetchGalleryItemById`: `PGRST116` is "not found", any other error is thrown. */
  function ItemByIdResult(resp: Response<GalleryItemRow>): (r: Result<Option<GalleryItem>>)
    ensures resp.Err? && resp.error.code == NoRowsCode ==> r == Success(None)
    ensures resp.Err? && resp.error.code != NoRowsCode ==>
      r == Failure(FetchItemFailure + resp.error.message)
    ensures resp.Ok? ==> r == Success(Some(ToGalleryItem(resp.data)))
  {
    match resp
    case Err(e) => if e.code == NoRowsCode then Success(None) else Failure(FetchItemFailure + e.message)
    case Ok(row) => Success(Some(ToGalleryItem(row)))
  }

  /** `fetchGalleryItemById` against the store: never a failure unless the store itself fails. */
  function FetchGalleryItemById(db: Database, id: string): (r: Result<Option<GalleryItem>>)
    ensures db.fault.None? ==> r.Success?
    ensures r.Success? && r.value.Some? ==>
      && r.value.value.id == id
      && exists row :: row in db.galleryItems && ToGalleryItem(row) == r.value.value
    ensures db.fault.Some? ==> r == ItemByIdResult(Err(db.fault.value))
  {
    ItemByIdResult(SelectGalleryItemById(db, id))
  }

  /** In a healthy store with unique ids, every stored row is found by its id. */
  lemma FetchByIdFindsStoredItem(db: Database, i: nat)
    requires db.fault.None? && i < |db.galleryItems| && UniqueIds(db.galleryItems, ItemRowId)
    ensures FetchGalleryItemById(db, db.galleryItems[i].id) == Success(Some(ToGalleryItem(db.galleryItems[i])))
  {
    RowsWithUniqueId(db.galleryItems, ItemRowId, i);
  }

  /** An id no row has is "not found", a normal result and not a failure. */
  lemma FetchByMissingIdIsNotFound(db: Database, id: string)
    requires db.fault.None? && forall row :: row in db.galleryItems ==> row.id != id
    ensures FetchGalleryItemById(db, id) == Success(None)
  {
    NoRowsWithId(db.galleryItems, ItemRowId, id);
  }

  /**
   * `insertData` in `createGalleryItem`: every nullable column is written explicitly,
   * an absent value as null; store-assigned columns are left to the store.
   */
  function ToInsertRow(input: CreateGalleryItemInput): (ins: GalleryItemInsert)
    ensures ins.id.None? && ins.createdAt.None? && ins.updatedAt.None?
    ensures ins.kind == input.kind && ins.content == input.content
    ensures ins.title.Some? && (ins.title.value.Null? <==> input.title.None?)
      && (input.title.Some? ==> ins.title.value.value == input.title.value)
    ensures ins.collectionId.Some? && (ins.collectionId.value.Null? <==> input.collectionId.None?)
      && (input.collectionId.Some? ==> ins.collectionId.value.value == input.collectionId.value)
    ensures ins.metadata.Some? && (ins.metadata.value.Null? <==> input.metadata.None?)
      && (input.metadata.Some? ==> ins.metadata.value.value == input.metadata.value)
  {
    GalleryItemInsert(
      None, input.kind, Some(AbsentToNull(input.title)), input.content,
      Some(AbsentToNull(input.collectionId)), Some(AbsentToNull(input.metadata)), None, None)
  }

  /**
   * `createGalleryItem`: one insert; on success the stored row, read back, carries the
   * input's fields and the store-assigned id; on failure the store is unchanged.
   */
  function CreateGalleryItem(db: Database, input: CreateGalleryItemInput, newId: string, now: string)
    : (res: (Database, Result<GalleryItem>))
    ensures res.1.Success? ==> res.1.value == GalleryItem(
      newId, input.kind, input.title, input.content, input.collectionId, input.metadata)
    ensures res.1.Success? ==>
      && |res.0.galleryItems| == |db.galleryItems| + 1
      && res.0.galleryItems[..|db.galleryItems|] == db.galleryItems
      && ToGalleryItem(res.0.galleryItems[|db.galleryItems|]) == res.1.value
    ensures res.1.Failure? <==> db.fault.Some? || exists row :: row in db.galleryItems && row.id == newId
    ensures res.1.Failure? ==> CreateItemFailure <= res.1.message
    ensures db.fault.Some? ==> res.1 == Failure(CreateItemFailure + db.fault.value.message)
    ensures db.fault.None? && res.1.Failure? ==> res.1 == Failure(CreateItemFailure + DuplicateKeyMessage)
    ensures res.1.Failure? ==> res.0 == db
    ensures res.0.collections == db.collections && res.0.fault == db.fault
  {
    var (db', resp) := InsertGalleryItem(db, ToInsertRow(input), newId, now);
    NoRowsWithId(db.galleryItems, ItemRowId, newId);
    match resp
    case Err(e) => (db', Failure(CreateItemFailure + e.message))
    case Ok(row) => (db', Success(ToGalleryItem(row)))
  }

  /** After a successful create, fetching all items gives the earlier items plus the new one at the end. */
  lemma CreateThenFetchAll(db: Database, input: CreateGalleryItemInput, newId: string, now: string)
    requires CreateGalleryItem(db, input, newId, now).1.Success?
    ensures var (db', r) := CreateGalleryItem(db, input, newId, now);
      FetchGalleryItems(db') == Success(FetchGalleryItems(db).value + [r.value])
  {
    var (db', r) := CreateGalleryItem(db, input, newId, now);
    var (db'', resp) := InsertGalleryItem(db, ToInsertRow(input), newId, now);
    assert db'' == db' && resp.Ok?;
    ToGalleryItemsAppend(db.galleryItems, [resp.data]);
    assert ToGalleryItems([resp.data]) == [ToGalleryItem(resp.data)];
  }

  /**
   * Round trip from the read side: an item read from a row, submitted again as a
   * creation input, is read back equal to itself except for the store-assigned id.
   */
  lemma ReadCreateRoundTrip(row: GalleryItemRow, newId: string, now: string)
    ensures var e := ToGalleryItem(row);
      var input := CreateGalleryItemInput(e.kind, e.title, e.content, e.collectionId, e.metadata);
      var stored := StoredRow(ToInsertRow(input), newId, now);
      ToGalleryItem(stored) == e.(id := newId)
      && stored.title == row.title && stored.collectionId == row.collectionId && stored.metadata == row.metadata
  {
  }

  /**
   * The duplicate-key refusal keeps the primary key unique: after a successful create
   * the ids are still unique, and the new item is found by its id.
   */
  lemma CreateKeepsIdsUnique(db: Database, input: CreateGalleryItemInput, newId: string, now: string)
    requires UniqueIds(db.galleryItems, ItemRowId)
    requires CreateGalleryItem(db, input, newId, now).1.Success?
    ensures var (db', r) := CreateGalleryItem(db, input, newId, now);
      && UniqueIds(db'.galleryItems, ItemRowId)
      && FetchGalleryItemById(db', newId) == Success(Some(r.value))
  {
    var (db', r) := CreateGalleryItem(db, input, newId, now);
    var n := |db.galleryItems|;
    assert db'.galleryItems[n].id == newId;
    assert UniqueIds(db'.galleryItems, ItemRowId) by {
      forall i, j | 0 <= i < j < |db'.galleryItems|
        ensures ItemRowId(db'.galleryItems[i]) != ItemRowId(db'.galleryItems[j])
      {
        assert db'.galleryItems[i] == db.galleryItems[i];
        if j < n {
          assert db'.galleryItems[j] == db.galleryItems[j];
        } else {
          assert db.galleryItems[i] in db.galleryItems;
        }
      }
    }
    FetchByIdFindsStoredItem(db', n);
  }
}
