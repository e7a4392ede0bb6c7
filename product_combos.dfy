/** The product combo handlers: create, list, detail, update and delete on the
    product_combo table. */
module ProductCombosApi {
  import opened Http
  import opened Models
  import opened Fields
  import opened Tables
  import opened Database

  const ProductComboNotFound := "product_combo not found"
  const ProductComboDeleted := "this product_combo is deleted"

  /** `product_combo_create`: one new row, under a fresh key, holding the payload. */
  method ProductComboCreate(db: Database, combo: ProductCombo) returns (r: Entry<ProductCombo>)
    requires db.Valid()
    modifies db.combos
    ensures db.Valid()
    ensures r.id !in old(db.combos.rows) && r.fields == combo
    ensures db.combos.rows == old(db.combos.rows)[r.id := combo]
  {
    ComboItemsRebuild(ComboBlank, combo);
    r := db.combos.Create(ComboItems(combo));
  }

  /** `product_combo_list`: every row. */
  method ProductComboList(db: Database) returns (all: map<int, ProductCombo>)
    ensures all == db.combos.rows
  {
    all := db.combos.List();
  }

  /** `product_combo_detail`: the row, or 404. */
  method ProductComboDetail(db: Database, id: int) returns (r: Result<Entry<ProductCombo>>)
    ensures id in db.combos.rows ==> r == Ok(Entry(id, db.combos.rows[id]))
    ensures id !in db.combos.rows ==> r == Err(HttpError(NotFound, ProductComboNotFound))
  {
    r := db.combos.Find(id, ProductComboNotFound);
  }

  /** `product_combo_update`: 404 with nothing changed, or every payload column
      assigned on that row, which then equals the payload. */
  method ProductComboUpdate(db: Database, id: int, combo: ProductCombo) returns (r: Result<Entry<ProductCombo>>)
    requires db.Valid()
    modifies db.combos
    ensures db.Valid()
    ensures id !in old(db.combos.rows) ==>
      r == Err(HttpError(NotFound, ProductComboNotFound)) && db.combos.rows == old(db.combos.rows)
    ensures id in old(db.combos.rows) ==>
      r == Ok(Entry(id, combo)) && db.combos.rows == old(db.combos.rows)[id := combo]
  {
    if id in db.combos.rows {
      ComboItemsRebuild(db.combos.rows[id], combo);
    }
    r := db.combos.Update(id, ComboItems(combo), ProductComboNotFound);
  }

  /** `product_combo_delete`: 404 with nothing changed, or exactly that row removed. */
  method ProductComboDelete(db: Database, id: int) returns (r: Result<string>)
    requires db.Valid()
    modifies db.combos
    ensures db.Valid()
    ensures id !in old(db.combos.rows) ==>
      r == Err(HttpError(NotFound, ProductComboNotFound)) && db.combos.rows == old(db.combos.rows)
    ensures id in old(db.combos.rows) ==>
      r == Ok(ProductComboDeleted) && db.combos.rows == old(db.combos.rows) - {id}
  {
    var deleted := db.combos.Delete(id, ProductComboNotFound);
    if deleted.Err? {
      return Err(deleted.error);
    }
    r := Ok(ProductComboDeleted);
  }
}
