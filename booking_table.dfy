/**
 * The `booking` table: rows in insertion order and the auto-increment
 * counter. The counter is not rolled back with a failed transaction.
 */
module BookingStore {

  import opened Wrappers
  import opened Auth
  import opened Bookings

  /** Ids strictly increase along the rows: later rows are newer. */
  predicate IncreasingIds(rows: seq<Booking>)
  {
    forall i, j :: 0 <= i < j < |rows| ==> rows[i].id < rows[j].id
  }

  /** Ids increase and stay below the next auto-increment value. */
  ghost predicate OrderedIds(rows: seq<Booking>, nextId: int)
  {
    && IncreasingIds(rows)
    && (forall i :: 0 <= i < |rows| ==> rows[i].id < nextId)
  }

  /** The row with the given id, if any. */
  function Find(rows: seq<Booking>, id: int): (r: Option<Booking>)
    ensures r.Some? ==> r.value in rows && r.value.id == id
    ensures r.None? ==> forall b :: b in rows ==> b.id != id
  {
    if rows == [] then None
    else if rows[0].id == id then Some(rows[0])
    else Find(rows[1..], id)
  }

  /** The rows with the one whose id is `b.id` overwritten by `b`. */
  function Replace(rows: seq<Booking>, b: Booking): seq<Booking>
  {
    seq(|rows|, i requires 0 <= i < |rows| => if rows[i].id == b.id then b else rows[i])
  }

  class BookingTable {
    var rows: seq<Booking>
    var nextId: Id

    ghost predicate Valid()
      reads this
    {
      OrderedIds(rows, nextId)
    }

    constructor ()
      ensures Valid() && rows == [] && nextId == 1
    {
      rows := [];
      nextId := 1;
    }

    /** `Booking::create`: the row takes the next auto-increment id. */
    method Insert(a: NewBooking) returns (b: Booking)
      requires Valid()
      modifies this
      ensures Valid()
      ensures b == Create(old(nextId), a)
      ensures rows == old(rows) + [b] && nextId == old(nextId) + 1
    {
      b := Create(nextId, a);
      rows := rows + [b];
      nextId := nextId + 1;
    }

    /** `save()` of a loaded booking that keeps its id. */
    method Save(b: Booking)
      requires Valid()
      modifies this
      ensures Valid()
      ensures rows == Replace(old(rows), b) && nextId == old(nextId)
    {
      rows := Replace(rows, b);
    }

    /** A transaction's rollback: the rows go back to what they were when it began. */
    method Rollback(saved: seq<Booking>)
      requires Valid() && saved <= rows
      modifies this
      ensures Valid()
      ensures rows == saved && nextId == old(nextId)
    {
      rows := saved;
    }
  }
}
