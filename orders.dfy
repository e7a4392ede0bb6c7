/** The order handlers: create, list, detail, update and delete on the
    orders table. */
module OrdersApi {
  import opened Http
  import opened Models
  import opened Fields
  import opened Tables
  import opened Database

  const OrderNotFound := "order not found"
  const OrderDeleted := "this order is deleted"

  /** `order_create`: one new row, under a fresh key, holding the payload. */
  method OrderCreate(db: Database, order: Order) returns (r: Entry<Order>)
    requires db.Valid()
    modifies db.orders
    ensures db.Valid()
    ensures r.id !in old(db.orders.rows) && r.fields == order
    ensures db.orders.rows == old(db.orders.rows)[r.id := order]
  {
    OrderItemsRebuild(OrderBlank, order);
    r := db.orders.Create(OrderItems(order));
  }

  /** `order_list`: every row. */
  method OrderList(db: Database) returns (all: map<int, Order>)
    ensures all == db.orders.rows
  {
    all := db.orders.List();
  }

  /** `order_detail`: the row, or 404. */
  method OrderDetail(db: Database, id: int) returns (r: Result<Entry<Order>>)
    ensures id in db.orders.rows ==> r == Ok(Entry(id, db.orders.rows[id]))
    ensures id !in db.orders.rows ==> r == Err(HttpError(NotFound, OrderNotFound))
  {
    r := db.orders.Find(id, OrderNotFound);
  }

  /** `order_update`: 404 with nothing changed, or every payload column
      assigned on that row, which then equals the payload. */
  method OrderUpdate(db: Database, id: int, order: Order) returns (r: Result<Entry<Order>>)
    requires db.Valid()
    modifies db.orders
    ensures db.Valid()
    ensures id !in old(db.orders.rows) ==>
      r == Err(HttpError(NotFound, OrderNotFound)) && db.orders.rows == old(db.orders.rows)
    ensures id in old(db.orders.rows) ==>
      r == Ok(Entry(id, order)) && db.orders.rows == old(db.orders.rows)[id := order]
  {
    if id in db.orders.rows {
      OrderItemsRebuild(db.orders.rows[id], order);
    }
    r := db.orders.Update(id, OrderItems(order), OrderNotFound);
  }

  /** `order_delete`: 404 with nothing changed, or exactly that row removed. */
  method OrderDelete(db: Database, id: int) returns (r: Result<string>)
    requires db.Valid()
    modifies db.orders
    ensures db.Valid()
    ensures id !in old(db.orders.rows) ==>
      r == Err(HttpError(NotFound, OrderNotFound)) && db.orders.rows == old(db.orders.rows)
    ensures id in old(db.orders.rows) ==>
      r == Ok(OrderDeleted) && db.orders.rows == old(db.orders.rows) - {id}
  {
    var deleted := db.orders.Delete(id, OrderNotFound);
    if deleted.Err? {
      return Err(deleted.error);
    }
    r := Ok(OrderDeleted);
  }
}
