/**
 * The booking record: its enum columns, the defaults the model fills in at
 * creation and the status predicates.
 */
module Bookings {

  import opened Wrappers
  import opened Auth

  /** The `status` column's enum. */
  datatype Status = Pending | Paid | Confirmed | Cancelled

  /** The `shift_type` column's enum, after the migration that added `flexible`. */
  datatype Shift = Day | Night | Flexible

  /** The literal stored for a status. */
  function StatusName(s: Status): string
  {
    match s
    case Pending => "pending"
    case Paid => "paid"
    case Confirmed => "confirmed"
    case Cancelled => "cancelled"
  }

  /** The status a stored literal stands for, if it is one of the four. */
  function ParseStatus(t: string): (r: Option<Status>)
    ensures r.Some? <==> t in {"pending", "paid", "confirmed", "cancelled"}
    ensures r.Some? ==> StatusName(r.value) == t
  {
    if t == "pending" then Some(Pending)
    else if t == "paid" then Some(Paid)
    else if t == "confirmed" then Some(Confirmed)
    else if t == "cancelled" then Some(Cancelled)
    else None
  }

  lemma StatusNameRoundTrip(s: Status)
    ensures ParseStatus(StatusName(s)) == Some(s)
  {
  }

  /**
   * A stored booking row. Amounts are exact rationals (the decimal(10,2)
   * rounding of the columns is not modelled). `scheduledAt` is the request's
   * string, stored as given.
   */
  datatype Booking = Booking(
    id: Id,
    customerId: Id,
    workerId: Option<Id>,
    customerName: Option<string>,
    customerEmail: Option<string>,
    customerPhone: Option<string>,
    serviceAddress: Option<string>,
    specialInstructions: Option<string>,
    serviceId: Id,
    serviceSubcategoryId: Id,
    quantity: int,
    unitPrice: real,
    subtotalAmount: real,
    shiftType: Shift,
    shiftChargePercent: real,
    totalAmount: real,
    status: Status,
    paymentMethod: Option<string>,
    scheduledAt: string)

  /**
   * The attributes `Booking::create` accepts: exactly the fillable ones.
   * `payment_method` is not fillable, so it has no place here. `None` leaves
   * the attribute to the model's default.
   */
  datatype NewBooking = NewBooking(
    customerId: Id,
    workerId: Option<Id>,
    customerName: Option<string>,
    customerEmail: Option<string>,
    customerPhone: Option<string>,
    serviceAddress: Option<string>,
    specialInstructions: Option<string>,
    serviceId: Id,
    serviceSubcategoryId: Id,
    quantity: Option<int>,
    unitPrice: real,
    subtotalAmount: real,
    shiftType: Option<Shift>,
    shiftChargePercent: Option<real>,
    totalAmount: real,
    status: Option<Status>,
    scheduledAt: string)

  /** The model's attribute defaults. */
  const DefaultStatus := Pending
  const DefaultQuantity := 1
  const DefaultShift := Day
  const DefaultShiftChargePercent := 0.0

  /** The row `Booking::create` stores under the given id. */
  function Create(id: Id, a: NewBooking): Booking
  {
    Booking(id, a.customerId, a.workerId, a.customerName, a.customerEmail, a.customerPhone,
            a.serviceAddress, a.specialInstructions, a.serviceId, a.serviceSubcategoryId,
            a.quantity.GetOr(DefaultQuantity), a.unitPrice, a.subtotalAmount,
            a.shiftType.GetOr(DefaultShift), a.shiftChargePercent.GetOr(DefaultShiftChargePercent),
            a.totalAmount, a.status.GetOr(DefaultStatus), None, a.scheduledAt)
  }

  /** A booking created without status, quantity, shift or percent takes the defaults, and never has a payment method. */
  lemma CreateDefaults(id: Id, a: NewBooking)
    requires a.status.None? && a.quantity.None? && a.shiftType.None? && a.shiftChargePercent.None?
    ensures Create(id, a).status == Pending && Create(id, a).quantity == 1
    ensures Create(id, a).shiftType == Day && Create(id, a).shiftChargePercent == 0.0
    ensures Create(id, a).paymentMethod.None?
  {
  }

  predicate IsPending(b: Booking) { StatusName(b.status) == "pending" }
  predicate IsPaid(b: Booking) { StatusName(b.status) == "paid" }
  predicate IsConfirmed(b: Booking) { StatusName(b.status) == "confirmed" }
  predicate IsCancelled(b: Booking) { StatusName(b.status) == "cancelled" }

  /** Each predicate holds exactly for its own status, so exactly one of them holds. */
  lemma {:induction false} StatusPredicates(b: Booking)
    ensures IsPending(b) <==> b.status == Pending
    ensures IsPaid(b) <==> b.status == Paid
    ensures IsConfirmed(b) <==> b.status == Confirmed
    ensures IsCancelled(b) <==> b.status == Cancelled
    ensures (if IsPending(b) then 1 else 0) + (if IsPaid(b) then 1 else 0)
          + (if IsConfirmed(b) then 1 else 0) + (if IsCancelled(b) then 1 else 0) == 1
  {
    match b.status
    case Pending =>
    case Paid =>
    case Confirmed =>
    case Cancelled =>
  }
}
