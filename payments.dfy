/**
 * The payment ledger: worker commission submissions, gateway initiations for
 * commissions and customer payments, the gateway callbacks, the admin's
 * approve/reject decision and the admin payout of online payments. Gateway
 * calls are their outcomes, given as booleans.
 */
module Payments {

  import opened Wrappers
  import opened Auth
  import B = Bookings
  import opened BookingStore
  import opened TransactionStore

  // ---------------------------------------------------------------- amounts and notes

  /** The commission on a booking: 30 % of its total, computed exactly. */
  function CommissionAmount(total: real): (c: real)
    ensures 0.0 <= total ==> 0.0 <= c <= total
    ensures total > 0.0 ==> c < total
  {
    total * 3.0 / 10.0
  }

  /** `sub` occurs somewhere in `s`. */
  predicate IsSubstring(sub: string, s: string)
  {
    sub <= s || (s != [] && IsSubstring(sub, s[1..]))
  }

  /** `s` ends with `suffix`. */
  predicate EndsWith(s: string, suffix: string)
  {
    |suffix| <= |s| && s[|s| - |suffix|..] == suffix
  }

  /**
   * The notes of a submitted commission. With notes, they come first and the
   * transaction id and the proof follow on lines of their own; without notes,
   * only the transaction id is kept, or else the proof, or else nothing.
   * Emptiness is PHP truthiness.
   */
  function ComposeNotes(notes: Option<string>, transactionId: Option<string>, proof: Option<string>): (r: Option<string>)
    ensures r.None? <==> !Truthy(notes) && !Truthy(transactionId) && !Truthy(proof)
    ensures Truthy(notes) ==> notes.value <= r.value
    ensures Truthy(notes) && Truthy(proof) ==> EndsWith(r.value, "\nPayment Proof: " + proof.value)
    ensures !Truthy(notes) && Truthy(transactionId) ==> r == Some("Transaction ID: " + transactionId.value)
    ensures !Truthy(notes) && !Truthy(transactionId) && Truthy(proof) ==> r == Some("Payment Proof: " + proof.value)
  {
    if Truthy(notes) then
      var withId := notes.value + (if Truthy(transactionId) then "\nTransaction ID: " + transactionId.value else "");
      Some(withId + (if Truthy(proof) then "\nPayment Proof: " + proof.value else ""))
    else if Truthy(transactionId) then Some("Transaction ID: " + transactionId.value)
    else if Truthy(proof) then Some("Payment Proof: " + proof.value)
    else None
  }

  /** With notes, the transaction id line sits right after them. */
  lemma ComposeNotesIdAfterNotes(notes: Option<string>, transactionId: Option<string>, proof: Option<string>)
    requires Truthy(notes) && Truthy(transactionId)
    ensures notes.value + "\nTransaction ID: " + transactionId.value <= ComposeNotes(notes, transactionId, proof).value
  {
  }

  /**
   * An admin's notes, appended as "Admin: ..." on a line of their own when
   * there are notes already; nothing changes when the admin gave none.
   */
  function AppendAdminNotes(existing: Option<string>, adminNotes: Option<string>): (r: Option<string>)
    ensures !Truthy(adminNotes) ==> r == existing
    ensures Truthy(adminNotes) ==> r.Some? && EndsWith(r.value, "Admin: " + adminNotes.value)
    ensures Truthy(adminNotes) && Truthy(existing) ==> existing.value + "\n" <= r.value
    ensures Truthy(adminNotes) && !Truthy(existing) ==> r == Some("Admin: " + adminNotes.value)
  {
    if Truthy(adminNotes) then
      Some((if Truthy(existing) then existing.value + "\n" else "") + "Admin: " + adminNotes.value)
    else existing
  }

  /** PHP's `$notes . $line`: a null note reads as the empty string. */
  function AppendNote(notes: Option<string>, line: string): (r: string)
    ensures EndsWith(r, line)
    ensures notes.Some? ==> notes.value <= r
  {
    notes.GetOr("") + line
  }

  // ---------------------------------------------------------------- ledger queries

  /** Some transaction of the kind, for the booking, has one of the statuses. */
  predicate HasTx(rows: seq<Transaction>, bookingId: Id, kind: TxType, statuses: set<TxStatus>)
  {
    exists t :: t in rows && t.bookingId == bookingId && t.txType == kind && t.status in statuses
  }

  /** The statuses of a commission that block a new one. */
  const LiveCommission: set<TxStatus> := {Pending, Approved, Completed}

  /** The statuses of an online payment that block a new initiation. */
  const LiveOnline: set<TxStatus> := {Pending, Completed}

  predicate LiveCommissionTx(t: Transaction)
  {
    t.txType == CommissionPayment && t.status in LiveCommission
  }

  /** The ledger invariant the commission guards keep: at most one live commission per booking. */
  ghost predicate OneLiveCommission(rows: seq<Transaction>)
  {
    forall i, j :: 0 <= i < j < |rows| && LiveCommissionTx(rows[i]) && LiveCommissionTx(rows[j]) ==>
      rows[i].bookingId != rows[j].bookingId
  }

  /** Appending a row keeps the invariant unless it is a second live commission for its booking. */
  lemma AppendKeepsOneLive(rows: seq<Transaction>, t: Transaction)
    requires LiveCommissionTx(t) ==> !HasTx(rows, t.bookingId, CommissionPayment, LiveCommission)
    ensures OneLiveCommission(rows) ==> OneLiveCommission(rows + [t])
  {
    if !OneLiveCommission(rows) {
      return;
    }
    var r := rows + [t];
    forall i, j | 0 <= i < j < |r| && LiveCommissionTx(r[i]) && LiveCommissionTx(r[j])
      ensures r[i].bookingId != r[j].bookingId
    {
      if j == |rows| {
        assert r[i] in rows;
      }
    }
  }

  /** Two rows of increasing rows with the same id are the same row. */
  lemma UniqueTxIds(rows: seq<Transaction>, u: Transaction, v: Transaction)
    requires IncreasingTxIds(rows) && u in rows && v in rows && u.id == v.id
    ensures u == v
  {
    var i :| 0 <= i < |rows| && rows[i] == u;
    var j :| 0 <= j < |rows| && rows[j] == v;
    assert i == j;
  }

  /** Settling a row keeps the invariant when it keeps the booking and type and does not revive a dead commission. */
  lemma ReplaceKeepsOneLive(rows: seq<Transaction>, before: Transaction, t: Transaction)
    requires OneLiveCommission(rows) && IncreasingTxIds(rows)
    requires before in rows && before.id == t.id && before.bookingId == t.bookingId
    requires LiveCommissionTx(t) ==> LiveCommissionTx(before)
    ensures OneLiveCommission(ReplaceTx(rows, t))
  {
    var r := ReplaceTx(rows, t);
    forall k | 0 <= k < |rows| && rows[k].id == t.id
      ensures rows[k] == before
    {
      UniqueTxIds(rows, rows[k], before);
    }
    forall i, j | 0 <= i < j < |r| && LiveCommissionTx(r[i]) && LiveCommissionTx(r[j])
      ensures r[i].bookingId != r[j].bookingId
    {
      assert LiveCommissionTx(rows[i]) && LiveCommissionTx(rows[j]);
      assert r[i].bookingId == rows[i].bookingId && r[j].bookingId == rows[j].bookingId;
    }
  }

  // ---------------------------------------------------------------- guards before an insert

  /** A `booking_id` that passes `required|exists:booking,id`. */
  predicate ExistingBooking(bookings: seq<B.Booking>, bookingId: Option<int>)
  {
    bookingId.Some? && Find(bookings, bookingId.value).Some?
  }

  /** `nullable|string|max:n` on an optional string. */
  predicate AtMost(s: Option<string>, n: nat)
  {
    s.None? || |s.value| <= n
  }

  datatype Guard = Refuse(code: int) | Proceed(booking: B.Booking)

  /**
   * The checks `submitCommissionPayment` and `initiateSslCommerzPayment` run
   * before inserting a commission, in source order: a user (401), valid
   * fields (422), a worker profile (404), the booking assigned to that worker
   * (404), the booking paid (400), no live commission for it (400).
   */
  function CommissionGuard(user: Option<User>, fieldsValid: bool, bookingId: Option<int>, worker: Option<WorkerProfile>,
                           bookings: seq<B.Booking>, txs: seq<Transaction>): (g: Guard)
    ensures g.Proceed? ==>
      && worker.Some? && g.booking in bookings && Some(g.booking.id) == bookingId
      && g.booking.workerId == Some(worker.value.id) && g.booking.status == B.Paid
      && !HasTx(txs, g.booking.id, CommissionPayment, LiveCommission)
  {
    if user.None? then Refuse(401)
    else if !fieldsValid || !ExistingBooking(bookings, bookingId) then Refuse(422)
    else if worker.None? then Refuse(404)
    else
      var b := Find(bookings, bookingId.value).value;
      if b.workerId != Some(worker.value.id) then Refuse(404)
      else if b.status != B.Paid then Refuse(400)
      else if HasTx(txs, b.id, CommissionPayment, LiveCommission) then Refuse(400)
      else Proceed(b)
  }

  /** A commission goes ahead exactly when every check passes. */
  lemma CommissionGuardIff(user: Option<User>, fieldsValid: bool, bookingId: Option<int>, worker: Option<WorkerProfile>,
                           bookings: seq<B.Booking>, txs: seq<Transaction>)
    ensures CommissionGuard(user, fieldsValid, bookingId, worker, bookings, txs).Proceed?
        <==> && user.Some? && fieldsValid && ExistingBooking(bookings, bookingId) && worker.Some?
             && Find(bookings, bookingId.value).value.workerId == Some(worker.value.id)
             && Find(bookings, bookingId.value).value.status == B.Paid
             && !HasTx(txs, bookingId.value, CommissionPayment, LiveCommission)
  {
  }

  /** A rejected commission does not stand in the way of a new one. */
  lemma RejectedCommissionAllowsResubmission(user: Option<User>, bookingId: Id, worker: WorkerProfile,
                                             bookings: seq<B.Booking>, txs: seq<Transaction>)
    requires user.Some? && Find(bookings, bookingId).Some?
    requires Find(bookings, bookingId).value.workerId == Some(worker.id)
    requires Find(bookings, bookingId).value.status == B.Paid
    requires forall t :: t in txs && t.bookingId == bookingId && t.txType == CommissionPayment ==> t.status == Rejected
    ensures CommissionGuard(user, true, Some(bookingId), Some(worker), bookings, txs).Proceed?
  {
  }

  /** The fields `submitCommissionPayment` validates besides `booking_id`. */
  datatype CommissionRequest = CommissionRequest(
    bookingId: Option<int>, paymentProof: Option<string>, transactionId: Option<string>, notes: Option<string>)

  predicate CommissionFieldsValid(req: CommissionRequest)
  {
    AtMost(req.paymentProof, 1000) && AtMost(req.transactionId, 255) && AtMost(req.notes, 500)
  }

  /** `submitCommissionPayment`: a pending commission of 30 % with the composed notes. */
  method SubmitCommissionPayment(bookings: BookingTable, txs: TransactionTable, user: Option<User>,
                                 worker: Option<WorkerProfile>, req: CommissionRequest)
    returns (code: int, created: Option<Transaction>)
    requires txs.Valid()
    modifies txs
    ensures txs.Valid()
    ensures OneLiveCommission(old(txs.rows)) ==> OneLiveCommission(txs.rows)
    ensures match CommissionGuard(user, CommissionFieldsValid(req), req.bookingId, worker, bookings.rows, old(txs.rows))
      case Refuse(c) => code == c && created.None? && txs.rows == old(txs.rows) && txs.nextId == old(txs.nextId)
      case Proceed(b) =>
        && code == 201
        && created == Some(Transaction(old(txs.nextId), b.id, worker.value.id, CommissionPayment,
                                       CommissionAmount(b.totalAmount), Pending,
                                       ComposeNotes(req.notes, req.transactionId, req.paymentProof), None, None))
        && txs.rows == old(txs.rows) + [created.value] && txs.nextId == old(txs.nextId) + 1
  {
    var g := CommissionGuard(user, CommissionFieldsValid(req), req.bookingId, worker, bookings.rows, txs.rows);
    if g.Refuse? {
      return g.code, None;
    }
    var b := g.booking;
    ghost var before := txs.rows;
    var t := txs.Insert(b.id, worker.value.id, CommissionPayment, CommissionAmount(b.totalAmount), Pending,
                        ComposeNotes(req.notes, req.transactionId, req.paymentProof), None, None);
    AppendKeepsOneLive(before, t);
    code, created := 201, Some(t);
  }

  /** The notes a gateway-initiated commission starts with. */
  function CommissionSessionNotes(tranId: string): string
  {
    "SSL Commerz Payment - Transaction ID: " + tranId
  }

  /**
   * `initiateSslCommerzPayment`: the commission checks, a pending commission
   * inserted before the gateway is asked, kept when the gateway configuration
   * is missing (500) or the session opens (200), deleted when the gateway
   * refuses (400). The auto-increment value is spent in all three cases.
   */
  method InitiateSslCommerzPayment(bookings: BookingTable, txs: TransactionTable, user: Option<User>,
                                   worker: Option<WorkerProfile>, bookingId: Option<int>, tranId: string,
                                   configured: bool, gatewayAccepted: bool)
    returns (code: int)
    requires txs.Valid()
    modifies txs
    ensures txs.Valid()
    ensures OneLiveCommission(old(txs.rows)) ==> OneLiveCommission(txs.rows)
    ensures match CommissionGuard(user, true, bookingId, worker, bookings.rows, old(txs.rows))
      case Refuse(c) => code == c && txs.rows == old(txs.rows) && txs.nextId == old(txs.nextId)
      case Proceed(b) =>
        var t := Transaction(old(txs.nextId), b.id, worker.value.id, CommissionPayment, CommissionAmount(b.totalAmount),
                             Pending, Some(CommissionSessionNotes(tranId)), None, None);
        && txs.nextId == old(txs.nextId) + 1
        && (!configured ==> code == 500 && txs.rows == old(txs.rows) + [t])
        && (configured && gatewayAccepted ==> code == 200 && txs.rows == old(txs.rows) + [t])
        && (configured && !gatewayAccepted ==> code == 400 && txs.rows == old(txs.rows))
  {
    var g := CommissionGuard(user, true, bookingId, worker, bookings.rows, txs.rows);
    if g.Refuse? {
      return g.code;
    }
    var b := g.booking;
    ghost var before := txs.rows;
    var t := txs.Insert(b.id, worker.value.id, CommissionPayment, CommissionAmount(b.totalAmount), Pending,
                        Some(CommissionSessionNotes(tranId)), None, None);
    AppendKeepsOneLive(before, t);
    if !configured {
      return 500;
    }
    if gatewayAccepted {
      // The session update rewrites the same notes.
      txs.Save(t);
      assert txs.rows == before + [t];
      return 200;
    }
    txs.Delete(t.id);
    WithoutLastInserted(before, t);
    code := 400;
  }

  /**
   * The checks `initiateCustomerSslCommerzPayment` runs before its insert: a
   * user (401), an existing booking (422), no pending or completed online
   * payment for it (400). The insert itself fails for a booking without a
   * worker, because the ledger's `worker_id` is required (500).
   */
  function CustomerPaymentGuard(user: Option<User>, bookingId: Option<int>, bookings: seq<B.Booking>,
                                txs: seq<Transaction>): (g: Guard)
    ensures g.Proceed? ==>
      && g.booking in bookings && Some(g.booking.id) == bookingId && g.booking.workerId.Some?
      && !HasTx(txs, g.booking.id, OnlinePayment, LiveOnline)
  {
    if user.None? then Refuse(401)
    else if !ExistingBooking(bookings, bookingId) then Refuse(422)
    else
      var b := Find(bookings, bookingId.value).value;
      if HasTx(txs, b.id, OnlinePayment, LiveOnline) then Refuse(400)
      else if b.workerId.None? then Refuse(500)
      else Proceed(b)
  }

  /**
   * A customer payment goes ahead exactly when every check passes, and the
   * insert fails with 500 exactly when only the worker is missing.
   */
  lemma CustomerPaymentGuardIff(user: Option<User>, bookingId: Option<int>, bookings: seq<B.Booking>, txs: seq<Transaction>)
    ensures CustomerPaymentGuard(user, bookingId, bookings, txs).Proceed?
        <==> && user.Some? && ExistingBooking(bookings, bookingId)
             && !HasTx(txs, bookingId.value, OnlinePayment, LiveOnline)
             && Find(bookings, bookingId.value).value.workerId.Some?
    ensures CustomerPaymentGuard(user, bookingId, bookings, txs) == Refuse(500)
        <==> && user.Some? && ExistingBooking(bookings, bookingId)
             && !HasTx(txs, bookingId.value, OnlinePayment, LiveOnline)
             && Find(bookings, bookingId.value).value.workerId.None?
  {
  }

  function CustomerSessionNotes(tranId: string): string
  {
    "SSL Commerz Payment - Customer Booking - Transaction ID: " + tranId
  }

  /**
   * `initiateCustomerSslCommerzPayment`: a pending online payment of the
   * booking's total, kept when the configuration is missing (500) or the
   * session opens (200), deleted when the gateway refuses (400).
   */
  method InitiateCustomerSslCommerzPayment(bookings: BookingTable, txs: TransactionTable, user: Option<User>,
                                           bookingId: Option<int>, tranId: string, configured: bool, gatewayAccepted: bool)
    returns (code: int)
    requires txs.Valid()
    modifies txs
    ensures txs.Valid()
    ensures OneLiveCommission(old(txs.rows)) ==> OneLiveCommission(txs.rows)
    ensures match CustomerPaymentGuard(user, bookingId, bookings.rows, old(txs.rows))
      case Refuse(c) => code == c && txs.rows == old(txs.rows) && txs.nextId == old(txs.nextId)
      case Proceed(b) =>
        var t := Transaction(old(txs.nextId), b.id, b.workerId.value, OnlinePayment, b.totalAmount,
                             Pending, Some(CustomerSessionNotes(tranId)), None, None);
        && txs.nextId == old(txs.nextId) + 1
        && (!configured ==> code == 500 && txs.rows == old(txs.rows) + [t])
        && (configured && gatewayAccepted ==> code == 200 && txs.rows == old(txs.rows) + [t])
        && (configured && !gatewayAccepted ==> code == 400 && txs.rows == old(txs.rows))
  {
    var g := CustomerPaymentGuard(user, bookingId, bookings.rows, txs.rows);
    if g.Refuse? {
      return g.code;
    }
    var b := g.booking;
    ghost var before := txs.rows;
    var t := txs.Insert(b.id, b.workerId.value, OnlinePayment, b.totalAmount, Pending,
                        Some(CustomerSessionNotes(tranId)), None, None);
    AppendKeepsOneLive(before, t);
    if !configured {
      return 500;
    }
    if gatewayAccepted {
      return 200;
    }
    txs.Delete(t.id);
    WithoutLastInserted(before, t);
    code := 400;
  }

  /** A pending online payment left behind by a missing configuration blocks every later initiation for the booking. */
  lemma StalePendingBlocksInitiation(user: Option<User>, bookings: seq<B.Booking>, txs: seq<Transaction>, t: Transaction)
    requires t in txs && t.txType == OnlinePayment && t.status == Pending
    requires user.Some? && Find(bookings, t.bookingId).Some?
    ensures CustomerPaymentGuard(user, Some(t.bookingId as int), bookings, txs) == Refuse(400)
  {
  }

  // ---------------------------------------------------------------- gateway callbacks

  /** `notes LIKE '%<tran_id>%'`: a null tran_id leaves the pattern `%%`; null notes never match. */
  predicate MatchesTranId(t: Transaction, tranId: Option<string>)
  {
    t.notes.Some? && IsSubstring(tranId.GetOr(""), t.notes.value)
  }

  /** The first pending transaction whose notes match the tran_id. */
  function FindPending(rows: seq<Transaction>, tranId: Option<string>): (r: Option<Transaction>)
    ensures r.Some? ==> r.value in rows && r.value.status == Pending && MatchesTranId(r.value, tranId)
    ensures r.None? ==> forall t :: t in rows && t.status == Pending ==> !MatchesTranId(t, tranId)
  {
    if rows == [] then None
    else if rows[0].status == Pending && MatchesTranId(rows[0], tranId) then Some(rows[0])
    else FindPending(rows[1..], tranId)
  }

  /** Without a tran_id any pending transaction with notes matches. */
  lemma NullTranIdMatchesAnyNoted(rows: seq<Transaction>)
    ensures FindPending(rows, None).None? <==> forall t :: t in rows && t.status == Pending ==> t.notes.None?
  {
    forall t | t in rows && t.notes.Some?
      ensures MatchesTranId(t, None)
    {
      assert "" <= t.notes.value;
    }
  }

  /** A payment, as the callbacks judge it, is the customer's when the gateway says so or when it is an online payment. */
  predicate IsCustomerPayment(valueD: Option<string>, t: Transaction)
  {
    valueD == Some("customer_payment") || t.txType == OnlinePayment
  }

  /** The bulk update `status != 'paid'` → paid by online payment, on the booking with the given id. */
  function MarkPaidOnline(rows: seq<B.Booking>, id: Id): (r: seq<B.Booking>)
    ensures |r| == |rows|
    ensures forall i :: 0 <= i < |r| && rows[i].id != id ==> r[i] == rows[i]
  {
    match Find(rows, id)
    case None => rows
    case Some(b) =>
      if b.status != B.Paid then Replace(rows, b.(status := B.Paid, paymentMethod := Some("online")))
      else rows
  }

  /**
   * The booking with the id ends up paid from whatever status it had: a booking
   * not yet paid changes its status and payment method and nothing else, one
   * already paid is left as it was.
   */
  lemma MarkPaidOnlineEffect(rows: seq<B.Booking>, id: Id, i: nat)
    requires IncreasingIds(rows) && i < |rows| && rows[i].id == id
    ensures MarkPaidOnline(rows, id)[i].status == B.Paid
    ensures rows[i].status != B.Paid ==> MarkPaidOnline(rows, id)[i] == rows[i].(status := B.Paid, paymentMethod := Some("online"))
    ensures rows[i].status == B.Paid ==> MarkPaidOnline(rows, id)[i] == rows[i]
  {
    var b := Find(rows, id).value;
    var k :| 0 <= k < |rows| && rows[k] == b;
    assert k == i;
  }

  function SuccessLine(valId: Option<string>, now: string): string
  {
    "\nSSL Commerz Val ID: " + valId.GetOr("N/A") + "\nVerified: " + now
  }

  /** A transaction settled with a status and a line appended to its notes. */
  function Settle(t: Transaction, status: TxStatus, line: string): (s: Transaction)
    ensures s.id == t.id && s.bookingId == t.bookingId && s.txType == t.txType && s.amount == t.amount
    ensures s.status == status && s.notes.Some? && EndsWith(s.notes.value, line)
  {
    t.(status := status, notes := Some(AppendNote(t.notes, line)))
  }

  /** Settling a pending transaction keeps the ledger invariant. */
  lemma SettleKeepsOneLive(rows: seq<Transaction>, t: Transaction, status: TxStatus, line: string)
    requires OneLiveCommission(rows) && IncreasingTxIds(rows) && t in rows && t.status == Pending
    ensures OneLiveCommission(ReplaceTx(rows, Settle(t, status, line)))
  {
    ReplaceKeepsOneLive(rows, t, Settle(t, status, line));
  }

  /**
   * `sslCommerzSuccess`: the matched pending transaction becomes completed
   * when the gateway validates it, and for a customer payment the booking
   * becomes paid online; it becomes rejected when validation fails. Nothing
   * changes when no pending transaction matches.
   */
  method SslCommerzSuccess(bookings: BookingTable, txs: TransactionTable, tranId: Option<string>, valueD: Option<string>,
                           valId: Option<string>, validated: bool, now: string)
    returns (settled: Option<Transaction>)
    requires bookings.Valid() && txs.Valid()
    modifies bookings, txs
    ensures bookings.Valid() && txs.Valid()
    ensures bookings.nextId == old(bookings.nextId) && txs.nextId == old(txs.nextId)
    ensures OneLiveCommission(old(txs.rows)) ==> OneLiveCommission(txs.rows)
    ensures match FindPending(old(txs.rows), tranId)
      case None => settled.None? && txs.rows == old(txs.rows) && bookings.rows == old(bookings.rows)
      case Some(t) =>
        if validated then
          && settled == Some(Settle(t, Completed, SuccessLine(valId, now)))
          && txs.rows == ReplaceTx(old(txs.rows), settled.value)
          && bookings.rows == if IsCustomerPayment(valueD, t) then MarkPaidOnline(old(bookings.rows), t.bookingId)
                              else old(bookings.rows)
        else
          && settled == Some(Settle(t, Rejected, "\nValidation Failed at: " + now))
          && txs.rows == ReplaceTx(old(txs.rows), settled.value)
          && bookings.rows == old(bookings.rows)
  {
    var found := FindPending(txs.rows, tranId);
    if found.None? {
      return None;
    }
    var t := found.value;
    if validated {
      var isCustomer := valueD == Some("customer_payment") || t.txType == OnlinePayment;
      var s := Settle(t, Completed, SuccessLine(valId, now));
      if OneLiveCommission(txs.rows) {
        SettleKeepsOneLive(txs.rows, t, Completed, SuccessLine(valId, now));
      }
      txs.Save(s);
      if isCustomer {
        var b := Find(bookings.rows, t.bookingId);
        if b.Some? && b.value.status != B.Paid {
          bookings.Save(b.value.(status := B.Paid, paymentMethod := Some("online")));
        }
      }
      settled := Some(s);
    } else {
      var s := Settle(t, Rejected, "\nValidation Failed at: " + now);
      if OneLiveCommission(txs.rows) {
        SettleKeepsOneLive(txs.rows, t, Rejected, "\nValidation Failed at: " + now);
      }
      txs.Save(s);
      settled := Some(s);
    }
  }

  function FailLine(error: Option<string>, now: string): string
  {
    "\nPayment Failed: " + error.GetOr("Unknown error") + "\nFailed at: " + now
  }

  function CancelLine(now: string): string
  {
    "\nPayment Cancelled by user\nCancelled at: " + now
  }

  /**
   * `sslCommerzFail` and `sslCommerzCancel`: the matched pending transaction
   * becomes rejected with the callback's line appended; bookings are never
   * touched.
   */
  method RejectPending(txs: TransactionTable, tranId: Option<string>, line: string)
    returns (settled: Option<Transaction>)
    requires txs.Valid()
    modifies txs
    ensures txs.Valid() && txs.nextId == old(txs.nextId)
    ensures OneLiveCommission(old(txs.rows)) ==> OneLiveCommission(txs.rows)
    ensures match FindPending(old(txs.rows), tranId)
      case None => settled.None? && txs.rows == old(txs.rows)
      case Some(t) => settled == Some(Settle(t, Rejected, line)) && txs.rows == ReplaceTx(old(txs.rows), settled.value)
  {
    var found := FindPending(txs.rows, tranId);
    if found.None? {
      return None;
    }
    var s := Settle(found.value, Rejected, line);
    if OneLiveCommission(txs.rows) {
      SettleKeepsOneLive(txs.rows, found.value, Rejected, line);
    }
    txs.Save(s);
    settled := Some(s);
  }

  method SslCommerzFail(txs: TransactionTable, tranId: Option<string>, error: Option<string>, now: string)
    returns (settled: Option<Transaction>)
    requires txs.Valid()
    modifies txs
    ensures txs.Valid() && txs.nextId == old(txs.nextId)
    ensures OneLiveCommission(old(txs.rows)) ==> OneLiveCommission(txs.rows)
    ensures match FindPending(old(txs.rows), tranId)
      case None => settled.None? && txs.rows == old(txs.rows)
      case Some(t) => settled == Some(Settle(t, Rejected, FailLine(error, now))) && txs.rows == ReplaceTx(old(txs.rows), settled.value)
  {
    settled := RejectPending(txs, tranId, FailLine(error, now));
  }

  method SslCommerzCancel(txs: TransactionTable, tranId: Option<string>, now: string)
    returns (settled: Option<Transaction>)
    requires txs.Valid()
    modifies txs
    ensures txs.Valid() && txs.nextId == old(txs.nextId)
    ensures OneLiveCommission(old(txs.rows)) ==> OneLiveCommission(txs.rows)
    ensures match FindPending(old(txs.rows), tranId)
      case None => settled.None? && txs.rows == old(txs.rows)
      case Some(t) => settled == Some(Settle(t, Rejected, CancelLine(now))) && txs.rows == ReplaceTx(old(txs.rows), settled.value)
  {
    settled := RejectPending(txs, tranId, CancelLine(now));
  }

  function IpnLine(valId: Option<string>, now: string): string
  {
    "\nIPN Verified - Val ID: " + valId.GetOr("N/A") + "\nVerified at: " + now
  }

  /**
   * `sslCommerzIpn`: a falsy tran_id is refused (400), an unmatched one is
   * not found (404); a validated one completes the transaction (200) and an
   * unvalidated one changes nothing (400). Bookings are never touched.
   */
  method SslCommerzIpn(txs: TransactionTable, tranId: Option<string>, valId: Option<string>, validated: bool, now: string)
    returns (code: int)
    requires txs.Valid()
    modifies txs
    ensures txs.Valid() && txs.nextId == old(txs.nextId)
    ensures OneLiveCommission(old(txs.rows)) ==> OneLiveCommission(txs.rows)
    ensures !Truthy(tranId) ==> code == 400 && txs.rows == old(txs.rows)
    ensures Truthy(tranId) ==>
      match FindPending(old(txs.rows), tranId)
      case None => code == 404 && txs.rows == old(txs.rows)
      case Some(t) =>
        if validated then code == 200 && txs.rows == ReplaceTx(old(txs.rows), Settle(t, Completed, IpnLine(valId, now)))
        else code == 400 && txs.rows == old(txs.rows)
  {
    if !Truthy(tranId) {
      return 400;
    }
    var found := FindPending(txs.rows, tranId);
    if found.None? {
      return 404;
    }
    if !validated {
      return 400;
    }
    var s := Settle(found.value, Completed, IpnLine(valId, now));
    if OneLiveCommission(txs.rows) {
      SettleKeepsOneLive(txs.rows, found.value, Completed, IpnLine(valId, now));
    }
    txs.Save(s);
    code := 200;
  }

  /** A settled transaction is no longer pending, so no later callback can match it again. */
  lemma SettledNeverMatchedAgain(t: Transaction, status: TxStatus, line: string, rows: seq<Transaction>, tranId: Option<string>)
    requires status != Pending
    ensures FindPending(rows, tranId) != Some(Settle(t, status, line))
  {
  }

  // ---------------------------------------------------------------- admin decisions

  predicate IsAdmin(user: Option<User>)
  {
    user.Some? && user.value.role == Admin
  }

  datatype ProcessRequest = ProcessRequest(action: Option<string>, notes: Option<string>)

  datatype TxOutcome = TxRefused(code: int) | TxUpdated(tx: Transaction)

  /**
   * `processCommissionPayment` on a transaction that exists: Admin only (403),
   * `action` approve or reject (422), a commission (400) that is pending
   * (400); approval completes it, rejection rejects it, and either records
   * the admin, the time and the admin's notes.
   */
  function ProcessCommissionOutcome(t: Transaction, user: Option<User>, req: ProcessRequest, now: int): TxOutcome
  {
    if !IsAdmin(user) then TxRefused(403)
    else if !(req.action == Some("approve") || req.action == Some("reject")) || !AtMost(req.notes, 500) then TxRefused(422)
    else if t.txType != CommissionPayment then TxRefused(400)
    else if t.status != Pending then TxRefused(400)
    else
      var status := if req.action == Some("approve") then Completed else Rejected;
      TxUpdated(t.(status := status, processedBy := Some(user.value.id), processedAt := Some(now),
                   notes := AppendAdminNotes(t.notes, req.notes)))
  }

  /**
   * A processed commission was a pending commission handled by an admin; it
   * is completed exactly when approved, records the admin and the time, and
   * keeps booking, worker, type and amount.
   */
  lemma ProcessCommissionEffect(t: Transaction, user: Option<User>, req: ProcessRequest, now: int)
    ensures ProcessCommissionOutcome(t, user, req, now).TxUpdated? <==>
      IsAdmin(user) && req.action in {Some("approve"), Some("reject")} && AtMost(req.notes, 500)
      && t.txType == CommissionPayment && t.status == Pending
    ensures match ProcessCommissionOutcome(t, user, req, now)
      case TxRefused(c) => c in {403, 422, 400}
      case TxUpdated(after) =>
        && after == t.(status := after.status, processedBy := after.processedBy, processedAt := after.processedAt, notes := after.notes)
        && (after.status == Completed <==> req.action == Some("approve"))
        && (after.status == Rejected <==> req.action == Some("reject"))
        && after.processedBy == Some(user.value.id) && after.processedAt == Some(now)
        && after.notes == AppendAdminNotes(t.notes, req.notes)
  {
  }

  /** A commission is processed at most once: the processed row is refused as already processed. */
  lemma ProcessCommissionOnce(t: Transaction, user: Option<User>, req: ProcessRequest, now: int, req2: ProcessRequest, now2: int)
    requires ProcessCommissionOutcome(t, user, req, now).TxUpdated?
    requires req2.action in {Some("approve"), Some("reject")} && AtMost(req2.notes, 500)
    ensures ProcessCommissionOutcome(ProcessCommissionOutcome(t, user, req, now).tx, user, req2, now2) == TxRefused(400)
  {
  }

  /** The route-bound transaction (404 when missing), then the decision, then `save()`. */
  method ProcessCommissionPayment(txs: TransactionTable, txId: int, user: Option<User>, req: ProcessRequest, now: int)
    returns (code: int)
    requires txs.Valid()
    modifies txs
    ensures txs.Valid() && txs.nextId == old(txs.nextId)
    ensures OneLiveCommission(old(txs.rows)) ==> OneLiveCommission(txs.rows)
    ensures FindTx(old(txs.rows), txId).None? ==> code == 404 && txs.rows == old(txs.rows)
    ensures FindTx(old(txs.rows), txId).Some? ==>
      match ProcessCommissionOutcome(FindTx(old(txs.rows), txId).value, user, req, now)
      case TxRefused(c) => code == c && txs.rows == old(txs.rows)
      case TxUpdated(after) => code == 200 && txs.rows == ReplaceTx(old(txs.rows), after)
  {
    var found := FindTx(txs.rows, txId);
    if found.None? {
      return 404;
    }
    var outcome := ProcessCommissionOutcome(found.value, user, req, now);
    if outcome.TxRefused? {
      return outcome.code;
    }
    if OneLiveCommission(txs.rows) {
      ReplaceKeepsOneLive(txs.rows, found.value, outcome.tx);
    }
    txs.Save(outcome.tx);
    code := 200;
  }

  /**
   * The checks of `sendOnlinePayment`: Admin only (403), valid fields (422),
   * a booking paid online (400) with no completed online payment yet (400);
   * the insert fails for a booking without a worker (500).
   */
  function SendOnlinePaymentGuard(user: Option<User>, notes: Option<string>, bookingId: Option<int>,
                                  bookings: seq<B.Booking>, txs: seq<Transaction>): (g: Guard)
    ensures g.Proceed? ==>
      && IsAdmin(user) && g.booking in bookings && Some(g.booking.id) == bookingId
      && g.booking.status == B.Paid && g.booking.paymentMethod == Some("online") && g.booking.workerId.Some?
      && !HasTx(txs, g.booking.id, OnlinePayment, {Completed})
  {
    if !IsAdmin(user) then Refuse(403)
    else if !AtMost(notes, 500) || !ExistingBooking(bookings, bookingId) then Refuse(422)
    else
      var b := Find(bookings, bookingId.value).value;
      if b.status != B.Paid || b.paymentMethod != Some("online") then Refuse(400)
      else if HasTx(txs, b.id, OnlinePayment, {Completed}) then Refuse(400)
      else if b.workerId.None? then Refuse(500)
      else Proceed(b)
  }

  /**
   * A payout goes ahead exactly when every check passes, and the insert fails
   * with 500 exactly when only the worker is missing.
   */
  lemma SendOnlinePaymentGuardIff(user: Option<User>, notes: Option<string>, bookingId: Option<int>,
                                  bookings: seq<B.Booking>, txs: seq<Transaction>)
    ensures SendOnlinePaymentGuard(user, notes, bookingId, bookings, txs).Proceed?
        <==> && IsAdmin(user) && AtMost(notes, 500) && ExistingBooking(bookings, bookingId)
             && Find(bookings, bookingId.value).value.status == B.Paid
             && Find(bookings, bookingId.value).value.paymentMethod == Some("online")
             && !HasTx(txs, bookingId.value, OnlinePayment, {Completed})
             && Find(bookings, bookingId.value).value.workerId.Some?
    ensures SendOnlinePaymentGuard(user, notes, bookingId, bookings, txs) == Refuse(500)
        <==> && IsAdmin(user) && AtMost(notes, 500) && ExistingBooking(bookings, bookingId)
             && Find(bookings, bookingId.value).value.status == B.Paid
             && Find(bookings, bookingId.value).value.paymentMethod == Some("online")
             && !HasTx(txs, bookingId.value, OnlinePayment, {Completed})
             && Find(bookings, bookingId.value).value.workerId.None?
  {
  }

  /** `sendOnlinePayment`: a completed online payment of the booking's total, processed by the admin. */
  method SendOnlinePayment(bookings: BookingTable, txs: TransactionTable, user: Option<User>, bookingId: Option<int>,
                           notes: Option<string>, now: int)
    returns (code: int)
    requires txs.Valid()
    modifies txs
    ensures txs.Valid()
    ensures OneLiveCommission(old(txs.rows)) ==> OneLiveCommission(txs.rows)
    ensures match SendOnlinePaymentGuard(user, notes, bookingId, bookings.rows, old(txs.rows))
      case Refuse(c) => code == c && txs.rows == old(txs.rows) && txs.nextId == old(txs.nextId)
      case Proceed(b) =>
        && code == 201 && txs.nextId == old(txs.nextId) + 1
        && txs.rows == old(txs.rows) + [Transaction(old(txs.nextId), b.id, b.workerId.value, OnlinePayment, b.totalAmount,
                                                    Completed, notes, Some(user.value.id), Some(now))]
  {
    var g := SendOnlinePaymentGuard(user, notes, bookingId, bookings.rows, txs.rows);
    if g.Refuse? {
      return g.code;
    }
    var b := g.booking;
    ghost var before := txs.rows;
    var t := txs.Insert(b.id, b.workerId.value, OnlinePayment, b.totalAmount, Completed, notes, Some(user.value.id), Some(now));
    AppendKeepsOneLive(before, t);
    code := 201;
  }

  /**
   * A customer's gateway payment is itself a completed online payment, so
   * once it is recorded the admin payout for that booking is refused as
   * already sent.
   */
  lemma CustomerPaymentBlocksPayout(user: Option<User>, notes: Option<string>, bookings: seq<B.Booking>,
                                    txs: seq<Transaction>, t: Transaction)
    requires t in txs && t.txType == OnlinePayment && t.status == Completed
    requires IsAdmin(user) && AtMost(notes, 500) && Find(bookings, t.bookingId).Some?
    ensures SendOnlinePaymentGuard(user, notes, Some(t.bookingId as int), bookings, txs) == Refuse(400)
  {
  }
}
