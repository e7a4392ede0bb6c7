/** The courier handlers: create, list, detail, update and delete on the
    couriers table. */
module CouriersApi {
  import opened Http
  import opened Models
  import opened Fields
  import opened Tables
  import opened Database

  const CourierNotFound := "courier not found"
  const CourierDeleted := "this courier is deleted"

  /** `courier_create`: one new row, under a fresh key, holding the payload. */
  method CourierCreate(db: Database, courier: Courier) returns (r: Entry<Courier>)
    requires db.Valid()
    modifies db.couriers
    ensures db.Valid()
    ensures r.id !in old(db.couriers.rows) && r.fields == courier
    ensures db.couriers.rows == old(db.couriers.rows)[r.id := courier]
  {
    CourierItemsRebuild(CourierBlank, courier);
    r := db.couriers.Create(CourierItems(courier));
  }

  /** `courier_list`: every row. */
  method CourierList(db: Database) returns (all: map<int, Courier>)
    ensures all == db.couriers.rows
  {
    all := db.couriers.List();
  }

  /** `courier_detail`: the row, or 404. */
  method CourierDetail(db: Database, id: int) returns (r: Result<Entry<Courier>>)
    ensures id in db.couriers.rows ==> r == Ok(Entry(id, db.couriers.rows[id]))
    ensures id !in db.couriers.rows ==> r == Err(HttpError(NotFound, CourierNotFound))
  {
    r := db.couriers.Find(id, CourierNotFound);
  }

  /** `courier_update`: 404 with nothing changed, or every payload column
      assigned on that row, which then equals the payload. */
  method CourierUpdate(db: Database, id: int, courier: Courier) returns (r: Result<Entry<Courier>>)
    requires db.Valid()
    modifies db.couriers
    ensures db.Valid()
    ensures id !in old(db.couriers.rows) ==>
      r == Err(HttpError(NotFound, CourierNotFound)) && db.couriers.rows == old(db.couriers.rows)
    ensures id in old(db.couriers.rows) ==>
      r == Ok(Entry(id, courier)) && db.couriers.rows == old(db.couriers.rows)[id := courier]
  {
    if id in db.couriers.rows {
      CourierItemsRebuild(db.couriers.rows[id], courier);
    }
    r := db.couriers.Update(id, CourierItems(courier), CourierNotFound);
  }

  /** `courier_delete`: 404 with nothing changed, or exactly that row removed. */
  method CourierDelete(db: Database, id: int) returns (r: Result<string>)
    requires db.Valid()
    modifies db.couriers
    ensures db.Valid()
    ensures id !in old(db.couriers.rows) ==>
      r == Err(HttpError(NotFound, CourierNotFound)) && db.couriers.rows == old(db.couriers.rows)
    ensures id in old(db.couriers.rows) ==>
      r == Ok(CourierDeleted) && db.couriers.rows == old(db.couriers.rows) - {id}
  {
    var deleted := db.couriers.Delete(id, CourierNotFound);
    if deleted.Err? {
      return Err(deleted.error);
    }
    r := Ok(CourierDeleted);
  }
}
