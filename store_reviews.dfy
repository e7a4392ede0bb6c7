/** The store review handlers: create, list, detail, update and delete on the
    store_review table. */
module StoreReviewsApi {
  import opened Http
  import opened Models
  import opened Fields
  import opened Tables
  import opened Database

  const StoreReviewNotFound := "store_review not found"
  const StoreReviewDeleted := "this store_review is deleted"

  /** `store_review_create`: one new row, under a fresh key, holding the payload. */
  method StoreReviewCreate(db: Database, review: StoreReview) returns (r: Entry<StoreReview>)
    requires db.Valid()
    modifies db.storeReviews
    ensures db.Valid()
    ensures r.id !in old(db.storeReviews.rows) && r.fields == review
    ensures db.storeReviews.rows == old(db.storeReviews.rows)[r.id := review]
  {
    StoreReviewItemsRebuild(StoreReviewBlank, review);
    r := db.storeReviews.Create(StoreReviewItems(review));
  }

  /** `store_review_list`: every row. */
  method StoreReviewList(db: Database) returns (all: map<int, StoreReview>)
    ensures all == db.storeReviews.rows
  {
    all := db.storeReviews.List();
  }

  /** `store_review_detail`: the row, or 404. */
  method StoreReviewDetail(db: Database, id: int) returns (r: Result<Entry<StoreReview>>)
    ensures id in db.storeReviews.rows ==> r == Ok(Entry(id, db.storeReviews.rows[id]))
    ensures id !in db.storeReviews.rows ==> r == Err(HttpError(NotFound, StoreReviewNotFound))
  {
    r := db.storeReviews.Find(id, StoreReviewNotFound);
  }

  /** `store_review_update`: 404 with nothing changed, or every payload column
      assigned on that row, which then equals the payload. */
  method StoreReviewUpdate(db: Database, id: int, review: StoreReview) returns (r: Result<Entry<StoreReview>>)
    requires db.Valid()
    modifies db.storeReviews
    ensures db.Valid()
    ensures id !in old(db.storeReviews.rows) ==>
      r == Err(HttpError(NotFound, StoreReviewNotFound)) && db.storeReviews.rows == old(db.storeReviews.rows)
    ensures id in old(db.storeReviews.rows) ==>
      r == Ok(Entry(id, review)) && db.storeReviews.rows == old(db.storeReviews.rows)[id := review]
  {
    if id in db.storeReviews.rows {
      StoreReviewItemsRebuild(db.storeReviews.rows[id], review);
    }
    r := db.storeReviews.Update(id, StoreReviewItems(review), StoreReviewNotFound);
  }

  /** `store_review_delete`: 404 with nothing changed, or exactly that row removed. */
  method StoreReviewDelete(db: Database, id: int) returns (r: Result<string>)
    requires db.Valid()
    modifies db.storeReviews
    ensures db.Valid()
    ensures id !in old(db.storeReviews.rows) ==>
      r == Err(HttpError(NotFound, StoreReviewNotFound)) && db.storeReviews.rows == old(db.storeReviews.rows)
    ensures id in old(db.storeReviews.rows) ==>
      r == Ok(StoreReviewDeleted) && db.storeReviews.rows == old(db.storeReviews.rows) - {id}
  {
    var deleted := db.storeReviews.Delete(id, StoreReviewNotFound);
    if deleted.Err? {
      return Err(deleted.error);
    }
    r := Ok(StoreReviewDeleted);
  }
}
