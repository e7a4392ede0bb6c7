/** The courier review handlers: create, list, detail, update and delete on the
    courier_review table. */
module CourierReviewsApi {
  import opened Http
  import opened Models
  import opened Fields
  import opened Tables
  import opened Database

  const CourierReviewNotFound := "courier_review not found"
  const CourierReviewDeleted := "this courier_review is deleted"

  /** `courier_review_create`: one new row, under a fresh key, holding the payload. */
  method CourierReviewCreate(db: Database, review: CourierReview) returns (r: Entry<CourierReview>)
    requires db.Valid()
    modifies db.courierReviews
    ensures db.Valid()
    ensures r.id !in old(db.courierReviews.rows) && r.fields == review
    ensures db.courierReviews.rows == old(db.courierReviews.rows)[r.id := review]
  {
    CourierReviewItemsRebuild(CourierReviewBlank, review);
    r := db.courierReviews.Create(CourierReviewItems(review));
  }

  /** `courier_review_list`: every row. */
  method CourierReviewList(db: Database) returns (all: map<int, CourierReview>)
    ensures all == db.courierReviews.rows
  {
    all := db.courierReviews.List();
  }

  /** `courier_review_detail`: the row, or 404. */
  method CourierReviewDetail(db: Database, id: int) returns (r: Result<Entry<CourierReview>>)
    ensures id in db.courierReviews.rows ==> r == Ok(Entry(id, db.courierReviews.rows[id]))
    ensures id !in db.courierReviews.rows ==> r == Err(HttpError(NotFound, CourierReviewNotFound))
  {
    r := db.courierReviews.Find(id, CourierReviewNotFound);
  }

  /** `courier_review_update`: 404 with nothing changed, or every payload column
      assigned on that row, which then equals the payload. */
  method CourierReviewUpdate(db: Database, id: int, review: CourierReview) returns (r: Result<Entry<CourierReview>>)
    requires db.Valid()
    modifies db.courierReviews
    ensures db.Valid()
    ensures id !in old(db.courierReviews.rows) ==>
      r == Err(HttpError(NotFound, CourierReviewNotFound)) && db.courierReviews.rows == old(db.courierReviews.rows)
    ensures id in old(db.courierReviews.rows) ==>
      r == Ok(Entry(id, review)) && db.courierReviews.rows == old(db.courierReviews.rows)[id := review]
  {
    if id in db.courierReviews.rows {
      CourierReviewItemsRebuild(db.courierReviews.rows[id], review);
    }
    r := db.courierReviews.Update(id, CourierReviewItems(review), CourierReviewNotFound);
  }

  /** `courier_review_delete`: 404 with nothing changed, or exactly that row removed. */
  method CourierReviewDelete(db: Database, id: int) returns (r: Result<string>)
    requires db.Valid()
    modifies db.courierReviews
    ensures db.Valid()
    ensures id !in old(db.courierReviews.rows) ==>
      r == Err(HttpError(NotFound, CourierReviewNotFound)) && db.courierReviews.rows == old(db.courierReviews.rows)
    ensures id in old(db.courierReviews.rows) ==>
      r == Ok(CourierReviewDeleted) && db.courierReviews.rows == old(db.courierReviews.rows) - {id}
  {
    var deleted := db.courierReviews.Delete(id, CourierReviewNotFound);
    if deleted.Err? {
      return Err(deleted.error);
    }
    r := Ok(CourierReviewDeleted);
  }

  /** A detail request after a delete of the same key is a 404. */
  method DeleteThenDetail(db: Database, id: int)
    returns (deleted: Result<string>, detail: Result<Entry<CourierReview>>)
    requires db.Valid()
    modifies db.courierReviews
    ensures db.Valid()
    ensures deleted.Ok? <==> id in old(db.courierReviews.rows)
    ensures detail == Err(HttpError(NotFound, CourierReviewNotFound))
  {
    deleted := CourierReviewDelete(db, id);
    detail := CourierReviewDetail(db, id);
  }
}
