/** The store handlers: create, list, detail, update and delete on the
    store table; deleting a store also deletes the rows that hang off it. */
module StoresApi {
  import opened Http
  import opened Models
  import opened Fields
  import opened Tables
  import opened Database

  const StoreNotFound := "store not found"
  /** The update handler reports a missing store with this detail instead. */
  const StoreUpdateNotFound := "Course not found"
  const StoreDeleted := "this store is deleted"

  /** `store_create`: one new row, under a fresh key, holding the payload. */
  method StoreCreate(db: Database, store: Store) returns (r: Entry<Store>)
    requires db.Valid()
    modifies db.stores
    ensures db.Valid()
    ensures r.id !in old(db.stores.rows) && r.fields == store
    ensures db.stores.rows == old(db.stores.rows)[r.id := store]
  {
    StoreItemsRebuild(StoreBlank, store);
    r := db.stores.Create(StoreItems(store));
  }

  /** `store_list`: every row. */
  method StoreList(db: Database) returns (all: map<int, Store>)
    ensures all == db.stores.rows
  {
    all := db.stores.List();
  }

  /** `store_detail`: the row, or 404. */
  method StoreDetail(db: Database, id: int) returns (r: Result<Entry<Store>>)
    ensures id in db.stores.rows ==> r == Ok(Entry(id, db.stores.rows[id]))
    ensures id !in db.stores.rows ==> r == Err(HttpError(NotFound, StoreNotFound))
  {
    r := db.stores.Find(id, StoreNotFound);
  }

  /** `store_update`: 404 with nothing changed, or every payload column
      assigned on that row, which then equals the payload. */
  method StoreUpdate(db: Database, id: int, store: Store) returns (r: Result<Entry<Store>>)
    requires db.Valid()
    modifies db.stores
    ensures db.Valid()
    ensures id !in old(db.stores.rows) ==>
      r == Err(HttpError(NotFound, StoreUpdateNotFound)) && db.stores.rows == old(db.stores.rows)
    ensures id in old(db.stores.rows) ==>
      r == Ok(Entry(id, store)) && db.stores.rows == old(db.stores.rows)[id := store]
  {
    if id in db.stores.rows {
      StoreItemsRebuild(db.stores.rows[id], store);
    }
    r := db.stores.Update(id, StoreItems(store), StoreUpdateNotFound);
  }

  /** `store_delete`: 404 with nothing changed, or the store removed
      together with everything that cascades from it. */
  method StoreDelete(db: Database, id: int) returns (r: Result<string>)
    requires db.Valid()
    modifies db, db.stores, db.products, db.combos, db.storeReviews
    ensures db.Valid()
    ensures id !in old(db.stores.rows) ==>
      r == Err(HttpError(NotFound, StoreNotFound)) && db.Snapshot() == old(db.Snapshot())
    ensures id in old(db.stores.rows) ==>
      r == Ok(StoreDeleted) && db.Snapshot() == DeleteStore(old(db.Snapshot()), id)
  {
    var found := db.stores.Find(id, StoreNotFound);
    if found.Err? {
      return Err(found.error);
    }
    db.PurgeStores({id});
    r := Ok(StoreDeleted);
  }
}
