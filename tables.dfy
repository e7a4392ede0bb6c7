/** One relational table as the CRUD handlers use it through a database
    session: rows keyed by an autoincrement primary key, a constructor that
    assigns a payload's items onto a fresh row, and the five operations every
    resource handler performs. Each operation is one atomic step: query,
    change, commit. */
module Tables {
  import opened Http
  import opened Attributes

  /** A stored row together with its primary key, as handlers return it. */
  datatype Entry<R> = Entry(id: int, fields: R)

  class Table<R, F> {
    var rows: map<int, R>
    /** The next value of the primary-key sequence; keys are never reused. */
    var nextId: int
    /** The row a constructor call starts from: the column defaults. */
    const blank: R
    /** `setattr` of one payload item onto a row. */
    const assign: (R, F) -> R

    ghost predicate Valid()
      reads this
    {
      1 <= nextId && forall id :: id in rows ==> 1 <= id < nextId
    }

    constructor (blank: R, assign: (R, F) -> R)
      ensures Valid() && rows == map[]
      ensures this.blank == blank && this.assign == assign
    {
      rows := map[];
      nextId := 1;
      this.blank := blank;
      this.assign := assign;
    }

    /** `Model(**payload.dict())` then add and commit: inserts exactly one
        row, under a key not in use, built from the items, and returns it. */
    method Create(items: seq<F>) returns (e: Entry<R>)
      requires Valid()
      modifies this
      ensures Valid()
      ensures e.id !in old(rows)
      ensures e.fields == SetAttrs(assign, blank, items, |items|)
      ensures rows == old(rows)[e.id := e.fields]
    {
      var row := SetAttrs(assign, blank, items, |items|);
      e := Entry(nextId, row);
      rows := rows[nextId := row];
      nextId := nextId + 1;
    }

    /** `query(Model).all()`: every row, with its key. */
    method List() returns (all: map<int, R>)
      ensures all == rows
    {
      all := rows;
    }

    /** `query(Model).filter(Model.id == id).first()`, raising 404 with
        `missing` when there is no such row. */
    method Find(id: int, missing: string) returns (r: Result<Entry<R>>)
      ensures id in rows ==> r == Ok(Entry(id, rows[id]))
      ensures id !in rows ==> r == Err(HttpError(NotFound, missing))
    {
      if id in rows {
        r := Ok(Entry(id, rows[id]));
      } else {
        r := Err(HttpError(NotFound, missing));
      }
    }

    /** The update handler: 404 on a missing key, leaving the table as it
        was; otherwise `setattr` of every item, in order, on that row only,
        and the updated row is returned. */
    method Update(id: int, items: seq<F>, missing: string) returns (r: Result<Entry<R>>)
      requires Valid()
      modifies this
      ensures Valid() && nextId == old(nextId)
      ensures id !in old(rows) ==> r == Err(HttpError(NotFound, missing)) && rows == old(rows)
      ensures id in old(rows) ==>
        && rows == old(rows)[id := SetAttrs(assign, old(rows)[id], items, |items|)]
        && r == Ok(Entry(id, rows[id]))
    {
      if id !in rows {
        return Err(HttpError(NotFound, missing));
      }
      for i := 0 to |items|
        invariant Valid() && nextId == old(nextId)
        invariant rows == old(rows)[id := SetAttrs(assign, old(rows)[id], items, i)]
      {
        rows := rows[id := assign(rows[id], items[i])];
      }
      r := Ok(Entry(id, rows[id]));
    }

    /** The delete handler: 404 on a missing key, leaving the table as it
        was; otherwise exactly that row is removed and returned. */
    method Delete(id: int, missing: string) returns (r: Result<Entry<R>>)
      requires Valid()
      modifies this
      ensures Valid() && nextId == old(nextId)
      ensures id !in old(rows) ==> r == Err(HttpError(NotFound, missing)) && rows == old(rows)
      ensures id in old(rows) ==> r == Ok(Entry(id, old(rows)[id])) && rows == old(rows) - {id}
    {
      if id !in rows {
        return Err(HttpError(NotFound, missing));
      }
      r := Ok(Entry(id, rows[id]));
      rows := rows - {id};
    }

    /** Removal of the rows `ids`, as a cascading delete does it. */
    method Purge(ids: set<int>)
      requires Valid()
      modifies this
      ensures Valid() && nextId == old(nextId)
      ensures rows == old(rows) - ids
    {
      rows := rows - ids;
    }
  }
}
