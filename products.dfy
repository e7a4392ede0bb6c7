/** The product handlers: create, list, detail, update and delete on the
    products table. */
module ProductsApi {
  import opened Http
  import opened Models
  import opened Fields
  import opened Tables
  import opened Database

  const ProductNotFound := "product not found"
  const ProductDeleted := "this product is deleted"

  /** `product_create`: one new row, under a fresh key, holding the payload. */
  method ProductCreate(db: Database, product: Product) returns (r: Entry<Product>)
    requires db.Valid()
    modifies db.products
    ensures db.Valid()
    ensures r.id !in old(db.products.rows) && r.fields == product
    ensures db.products.rows == old(db.products.rows)[r.id := product]
  {
    ProductItemsRebuild(ProductBlank, product);
    r := db.products.Create(ProductItems(product));
  }

  /** `product_list`: every row. */
  method ProductList(db: Database) returns (all: map<int, Product>)
    ensures all == db.products.rows
  {
    all := db.products.List();
  }

  /** `product_detail`: the row, or 404. */
  method ProductDetail(db: Database, id: int) returns (r: Result<Entry<Product>>)
    ensures id in db.products.rows ==> r == Ok(Entry(id, db.products.rows[id]))
    ensures id !in db.products.rows ==> r == Err(HttpError(NotFound, ProductNotFound))
  {
    r := db.products.Find(id, ProductNotFound);
  }

  /** `product_update`: 404 with nothing changed, or every payload column
      assigned on that row, which then equals the payload. */
  method ProductUpdate(db: Database, id: int, product: Product) returns (r: Result<Entry<Product>>)
    requires db.Valid()
    modifies db.products
    ensures db.Valid()
    ensures id !in old(db.products.rows) ==>
      r == Err(HttpError(NotFound, ProductNotFound)) && db.products.rows == old(db.products.rows)
    ensures id in old(db.products.rows) ==>
      r == Ok(Entry(id, product)) && db.products.rows == old(db.products.rows)[id := product]
  {
    if id in db.products.rows {
      ProductItemsRebuild(db.products.rows[id], product);
    }
    r := db.products.Update(id, ProductItems(product), ProductNotFound);
  }

  /** `product_delete`: 404 with nothing changed, or exactly that row removed. */
  method ProductDelete(db: Database, id: int) returns (r: Result<string>)
    requires db.Valid()
    modifies db.products
    ensures db.Valid()
    ensures id !in old(db.products.rows) ==>
      r == Err(HttpError(NotFound, ProductNotFound)) && db.products.rows == old(db.products.rows)
    ensures id in old(db.products.rows) ==>
      r == Ok(ProductDeleted) && db.products.rows == old(db.products.rows) - {id}
  {
    var deleted := db.products.Delete(id, ProductNotFound);
    if deleted.Err? {
      return Err(deleted.error);
    }
    r := Ok(ProductDeleted);
  }
}
