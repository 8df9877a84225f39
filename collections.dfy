/** Queries on `collections`: the row mapper and each fetch's translation of the store's response. */
module Collections {
  import opened Wrappers
  import opened Entities
  import opened Store

  const FetchCollectionsFailure: string := "Failed to fetch collections: "
  const FetchCollectionFailure: string := "Failed to fetch collection: "

  /** `toCollection`: identity on `id` and `name`; a null `description` becomes an absent key. */
  function ToCollection(row: CollectionRow): (c: Collection)
    ensures c.id == row.id && c.name == row.name
    ensures (c.description.None? <==> row.description.Null?)
      && (row.description.NonNull? ==> c.description.value == row.description.value)
  {
    Collection(row.id, row.name, NullToAbsent(row.description))
  }

  /** `rows.map(toCollection)`: same length, same order. */
  function ToCollections(rows: seq<CollectionRow>): (cs: seq<Collection>)
    ensures |cs| == |rows|
    ensures forall i :: 0 <= i < |rows| ==> cs[i] == ToCollection(rows[i])
  {
    if rows == [] then [] else [ToCollection(rows[0])] + ToCollections(rows[1..])
  }

  /** The response handling of `fetchCollections`: throw on error, `data ?? []`, map the rows. */
  function CollectionListResult(resp: Response<Option<seq<CollectionRow>>>): (r: Result<seq<Collection>>)
    ensures r.Failure? <==> resp.Err?
    ensures resp.Err? ==> r.message == FetchCollectionsFailure + resp.error.message
    ensures resp == Ok(None) ==> r == Success([])
    ensures resp.Ok? && resp.data.Some? ==>
      && r.Success?
      && |r.value| == |resp.data.value|
      && forall i :: 0 <= i < |r.value| ==> r.value[i] == ToCollection(resp.data.value[i])
  {
    match resp
    case Err(e) => Failure(FetchCollectionsFailure + e.message)
    case Ok(data) => Success(ToCollections(data.GetOr([])))
  }

  /** `fetchCollections`: every stored collection, in creation order, or the store's failure. */
  function FetchCollections(db: Database): (r: Result<seq<Collection>>)
    ensures r.Failure? <==> db.fault.Some?
    ensures r.Failure? ==> r.message == FetchCollectionsFailure + db.fault.value.message
    ensures r.Success? ==>
      && |r.value| == |db.collections|
      && forall i :: 0 <= i < |r.value| ==> r.value[i] == ToCollection(db.collections[i])
  {
    CollectionListResult(SelectCollections(db))
  }

  /** The response handling of `fetchCollectionById`: `PGRST116` is "not found", any other error is thrown. */
  function CollectionByIdResult(resp: Response<CollectionRow>): (r: Result<Option<Collection>>)
    ensures resp.Err? && resp.error.code == NoRowsCode ==> r == Success(None)
    ensures resp.Err? && resp.error.code != NoRowsCode ==>
      r == Failure(FetchCollectionFailure + resp.error.message)
    ensures resp.Ok? ==> r == Success(Some(ToCollection(resp.data)))
  {
    match resp
    case Err(e) => if e.code == NoRowsCode then Success(None) else Failure(FetchCollectionFailure + e.message)
    case Ok(row) => Success(Some(ToCollection(row)))
  }

  /** `fetchCollectionById` against the store. */
  function FetchCollectionById(db: Database, id: string): (r: Result<Option<Collection>>)
    ensures db.fault.None? ==> r.Success?
    ensures r.Success? && r.value.Some? ==>
      && r.value.value.id == id
      && exists row :: row in db.collections && ToCollection(row) == r.value.value
    ensures db.fault.Some? ==> r == CollectionByIdResult(Err(db.fault.value))
  {
    CollectionByIdResult(SelectCollectionById(db, id))
  }

  /** In a healthy store with unique ids, a stored collection is found by its id. */
  lemma FetchCollectionByIdFindsStored(db: Database, i: nat)
    requires db.fault.None? && i < |db.collections| && UniqueIds(db.collections, CollectionRowId)
    ensures FetchCollectionById(db, db.collections[i].id) == Success(Some(ToCollection(db.collections[i])))
  {
    RowsWithUniqueId(db.collections, CollectionRowId, i);
  }

  /** An id no collection has is "not found", not a failure; so is any id in an empty store. */
  lemma FetchCollectionByMissingIdIsNotFound(db: Database, id: string)
    requires db.fault.None? && forall row :: row in db.collections ==> row.id != id
    ensures FetchCollectionById(db, id) == Success(None)
  {
    NoRowsWithId(db.collections, CollectionRowId, id);
  }
}
