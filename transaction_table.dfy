/**
 * The `payment_transactions` table: its enum columns, rows in insertion
 * order and the auto-increment counter.
 */
module TransactionStore {

  import opened Wrappers
  import opened Auth

  /** `transaction_type`, after the migration that added `commission_payment`. */
  datatype TxType = CashSubmission | OnlinePayment | CommissionPayment

  /** `status`; the column defaults to pending. */
  datatype TxStatus = Pending | Approved | Rejected | Completed

  /** A stored transaction row. `processedAt` is the timestamp the acting admin's request ran at. */
  datatype Transaction = Transaction(
    id: Id,
    bookingId: Id,
    workerId: Id,
    txType: TxType,
    amount: real,
    status: TxStatus,
    notes: Option<string>,
    processedBy: Option<Id>,
    processedAt: Option<int>)

  /** Ids strictly increase along the rows. */
  predicate IncreasingTxIds(rows: seq<Transaction>)
  {
    forall i, j :: 0 <= i < j < |rows| ==> rows[i].id < rows[j].id
  }

  ghost predicate OrderedTxIds(rows: seq<Transaction>, nextId: int)
  {
    && IncreasingTxIds(rows)
    && (forall i :: 0 <= i < |rows| ==> rows[i].id < nextId)
  }

  /** The row with the given id, if any. */
  function FindTx(rows: seq<Transaction>, id: int): (r: Option<Transaction>)
    ensures r.Some? ==> r.value in rows && r.value.id == id
    ensures r.None? ==> forall t :: t in rows ==> t.id != id
  {
    if rows == [] then None
    else if rows[0].id == id then Some(rows[0])
    else FindTx(rows[1..], id)
  }

  /** The rows with the one whose id is `t.id` overwritten by `t`. */
  function ReplaceTx(rows: seq<Transaction>, t: Transaction): seq<Transaction>
  {
    seq(|rows|, i requires 0 <= i < |rows| => if rows[i].id == t.id then t else rows[i])
  }

  /** The rows without the one whose id is `id`. */
  function WithoutTx(rows: seq<Transaction>, id: int): (r: seq<Transaction>)
    ensures forall t :: t in r <==> t in rows && t.id != id
  {
    if rows == [] then []
    else if rows[0].id == id then WithoutTx(rows[1..], id)
    else [rows[0]] + WithoutTx(rows[1..], id)
  }

  /** Deleting the row just inserted gives back the rows from before the insert. */
  lemma {:induction false} WithoutLastInserted(rows: seq<Transaction>, t: Transaction)
    requires forall u :: u in rows ==> u.id < t.id
    ensures WithoutTx(rows + [t], t.id) == rows
  {
    if rows == [] {
      assert WithoutTx([t], t.id) == WithoutTx([], t.id);
    } else {
      assert (rows + [t])[1..] == rows[1..] + [t];
      WithoutLastInserted(rows[1..], t);
    }
  }

  class TransactionTable {
    var rows: seq<Transaction>
    var nextId: Id

    ghost predicate Valid()
      reads this
    {
      OrderedTxIds(rows, nextId)
    }

    constructor ()
      ensures Valid() && rows == [] && nextId == 1
    {
      rows := [];
      nextId := 1;
    }

    /** `PaymentTransaction::create`: the row takes the next auto-increment id. */
    method Insert(bookingId: Id, workerId: Id, txType: TxType, amount: real, status: TxStatus,
                  notes: Option<string>, processedBy: Option<Id>, processedAt: Option<int>)
      returns (t: Transaction)
      requires Valid()
      modifies this
      ensures Valid()
      ensures t == Transaction(old(nextId), bookingId, workerId, txType, amount, status, notes, processedBy, processedAt)
      ensures rows == old(rows) + [t] && nextId == old(nextId) + 1
    {
      t := Transaction(nextId, bookingId, workerId, txType, amount, status, notes, processedBy, processedAt);
      rows := rows + [t];
      nextId := nextId + 1;
    }

    /** `save()`/`update()` of a loaded transaction that keeps its id. */
    method Save(t: Transaction)
      requires Valid()
      modifies this
      ensures Valid()
      ensures rows == ReplaceTx(old(rows), t) && nextId == old(nextId)
    {
      rows := ReplaceTx(rows, t);
    }

    /** `delete()`: the row goes, the counter stays. */
    method Delete(id: Id)
      requires Valid()
      modifies this
      ensures Valid()
      ensures rows == WithoutTx(old(rows), id) && nextId == old(nextId)
    {
      WithoutKeepsOrder(rows, id, nextId);
      rows := WithoutTx(rows, id);
    }
  }

  /** A row whose id is below every id of increasing rows can go in front of them. */
  lemma ConsIncreasing(x: Transaction, rest: seq<Transaction>)
    requires IncreasingTxIds(rest)
    requires forall u :: u in rest ==> x.id < u.id
    ensures IncreasingTxIds([x] + rest)
  {
    var r := [x] + rest;
    forall i, j | 0 <= i < j < |r|
      ensures r[i].id < r[j].id
    {
      assert r[j] == rest[j - 1];
      if i > 0 {
        assert r[i] == rest[i - 1];
      } else {
        assert rest[j - 1] in rest;
      }
    }
  }

  /** Deleting a row keeps the ids increasing and below the counter. */
  lemma {:induction false} WithoutKeepsOrder(rows: seq<Transaction>, id: int, nextId: int)
    requires OrderedTxIds(rows, nextId)
    ensures OrderedTxIds(WithoutTx(rows, id), nextId)
  {
    if rows != [] {
      assert OrderedTxIds(rows[1..], nextId);
      WithoutKeepsOrder(rows[1..], id, nextId);
      var rest := WithoutTx(rows[1..], id);
      if rows[0].id != id {
        forall u | u in rest
          ensures rows[0].id < u.id
        {
          assert u in rows[1..];
        }
        ConsIncreasing(rows[0], rest);
      }
    }
  }
}
