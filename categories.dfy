/** The category handlers: create, list, update and delete on the category
    table. Only the name is copied from a payload, there is no detail
    handler, and deleting a category deletes its stores. */
module CategoriesApi {
  import opened Http
  import opened Models
  import opened Fields
  import opened Tables
  import opened Database

  const CategoryNotFound := "Category not found"

  /** `create_category`: one new row, under a fresh key, named by the
      payload; names are not checked for duplicates. */
  method CreateCategory(db: Database, categoryName: string) returns (r: Entry<Category>)
    requires db.Valid()
    modifies db.categories
    ensures db.Valid()
    ensures r.id !in old(db.categories.rows) && r.fields == Category(categoryName)
    ensures db.categories.rows == old(db.categories.rows)[r.id := Category(categoryName)]
  {
    CategoryItemsRebuild(CategoryBlank, Category(categoryName));
    r := db.categories.Create(CategoryItems(Category(categoryName)));
  }

  /** `list_category`: every row. */
  method ListCategory(db: Database) returns (all: map<int, Category>)
    ensures all == db.categories.rows
  {
    all := db.categories.List();
  }

  /** The first `update_category`: 404 with nothing changed, or that row's
      name replaced and the row returned. */
  method UpdateCategory(db: Database, id: int, categoryName: string) returns (r: Result<Entry<Category>>)
    requires db.Valid()
    modifies db.categories
    ensures db.Valid()
    ensures id !in old(db.categories.rows) ==>
      r == Err(HttpError(NotFound, CategoryNotFound)) && db.categories.rows == old(db.categories.rows)
    ensures id in old(db.categories.rows) ==>
      && r == Ok(Entry(id, old(db.categories.rows)[id].(categoryName := categoryName)))
      && db.categories.rows == old(db.categories.rows)[id := Category(categoryName)]
  {
    if id in db.categories.rows {
      CategoryItemsRebuild(db.categories.rows[id], Category(categoryName));
    }
    r := db.categories.Update(id, CategoryItems(Category(categoryName)), CategoryNotFound);
  }

  /** The second `update_category`, the delete handler: 404 with nothing
      changed, or the category removed with its stores and everything that
      cascades from them; the deleted row is returned. */
  method DeleteCategory(db: Database, id: int) returns (r: Result<Entry<Category>>)
    requires db.Valid()
    modifies db, db.categories, db.stores, db.products, db.combos, db.storeReviews
    ensures db.Valid()
    ensures id !in old(db.categories.rows) ==>
      r == Err(HttpError(NotFound, CategoryNotFound)) && db.Snapshot() == old(db.Snapshot())
    ensures id in old(db.categories.rows) ==>
      && r == Ok(Entry(id, old(db.categories.rows)[id]))
      && db.Snapshot() == Models.DeleteCategory(old(db.Snapshot()), id)
  {
    var doomed := Referencing(db.stores.rows, StoreCategory, {id});
    r := db.categories.Delete(id, CategoryNotFound);
    if r.Err? {
      return;
    }
    db.PurgeStores(doomed);
  }
}
