/**
 * Booking creation: pricing of each service line, one booking row per line
 * inside one all-or-nothing transaction, batches of payloads, and the batch
 * summary.
 */
module BookingService {

  import opened Wrappers
  import opened Auth
  import opened Bookings
  import opened BookingStore

  /**
   * `config('services.booking_night_shift_percent', 20)`: config/services.php
   * has no such key, so the default applies. Operations take the percent as a
   * parameter.
   */
  const DefaultNightShiftPercent: real := 20.0

  /** The part of a service subcategory that pricing reads. */
  datatype Subcategory = Subcategory(id: Id, basePrice: real)

  /** One entry of `services`. */
  datatype ServiceLine = ServiceLine(serviceId: Id, subcategoryId: Id)

  /** A validated booking payload, after `user_id` has become `customer_id`. */
  datatype Payload = Payload(
    customerId: Id,
    customerName: Option<string>,
    customerEmail: Option<string>,
    customerPhone: Option<string>,
    serviceAddress: Option<string>,
    specialInstructions: Option<string>,
    shiftType: string,
    scheduledAt: string,
    quantity: Option<int>,
    services: seq<ServiceLine>)

  /** The two exceptions that abort the transaction. */
  datatype ServiceError = InvalidShiftType | SubcategoryNotFound(subcategoryId: Id)

  datatype Result<+T> = Ok(value: T) | Err(error: ServiceError)

  /** `flexible` becomes `day`; anything but `day` or `night` is refused. */
  function NormalizeShift(s: string): (r: Option<Shift>)
    ensures r.Some? <==> s in {"day", "night", "flexible"}
    ensures r != Some(Flexible)
    ensures r == Some(Night) <==> s == "night"
  {
    var t := if s == "flexible" then "day" else s;
    if t == "day" then Some(Day)
    else if t == "night" then Some(Night)
    else None
  }

  /** The quantity of every line of a payload: the top-level one, 1 when absent. */
  function Quantity(p: Payload): int
  {
    p.quantity.GetOr(1)
  }

  datatype Terms = Terms(unitPrice: real, subtotal: real, shiftChargePercent: real, total: real)

  /** The pricing arithmetic of `createSingleBooking`. */
  function Price(basePrice: real, quantity: int, shift: Shift, nightPercent: real): Terms
  {
    var unit := basePrice;
    var subtotal := unit * quantity as real;
    var pct := if shift == Night then nightPercent else 0.0;
    var shiftCharge := subtotal * (pct / 100.0);
    Terms(unit, subtotal, pct, subtotal + shiftCharge)
  }

  /** The unit price is the base price and the subtotal is unit price times quantity. */
  lemma PriceSubtotal(basePrice: real, quantity: int, shift: Shift, nightPercent: real)
    ensures Price(basePrice, quantity, shift, nightPercent).unitPrice == basePrice
    ensures Price(basePrice, quantity, shift, nightPercent).subtotal == basePrice * quantity as real
  {
  }

  /** Off the night shift there is no surcharge: the total is the subtotal. */
  lemma PriceDay(basePrice: real, quantity: int, shift: Shift, nightPercent: real)
    requires shift != Night
    ensures Price(basePrice, quantity, shift, nightPercent).shiftChargePercent == 0.0
    ensures Price(basePrice, quantity, shift, nightPercent).total == basePrice * quantity as real
  {
  }

  /** On the night shift the percent is the configured one and the total grows by that share of the subtotal. */
  lemma PriceNight(basePrice: real, quantity: int, nightPercent: real)
    ensures Price(basePrice, quantity, Night, nightPercent).shiftChargePercent == nightPercent
    ensures Price(basePrice, quantity, Night, nightPercent).total
         == basePrice * quantity as real * (100.0 + nightPercent) / 100.0
  {
  }

  /** With the default 20 percent a night total is 1.2 times the subtotal (500 x 2 gives 1200). */
  lemma PriceNightDefault(basePrice: real, quantity: int)
    ensures Price(basePrice, quantity, Night, DefaultNightShiftPercent).total
         == basePrice * quantity as real * 6.0 / 5.0
    ensures Price(500.0, 2, Night, DefaultNightShiftPercent).total == 1200.0
  {
  }

  /** A non-negative price, a positive quantity and a non-negative percent give 0 <= subtotal <= total. */
  lemma PriceBounds(basePrice: real, quantity: int, shift: Shift, nightPercent: real)
    requires basePrice >= 0.0 && quantity >= 1 && nightPercent >= 0.0
    ensures 0.0 <= Price(basePrice, quantity, shift, nightPercent).subtotal
                <= Price(basePrice, quantity, shift, nightPercent).total
  {
    var subtotal := basePrice * quantity as real;
    assert subtotal >= 0.0;
    var pct := if shift == Night then nightPercent else 0.0;
    assert subtotal * (pct / 100.0) >= 0.0;
  }

  /** The attributes `createSingleBooking` hands to `Booking::create`: no status, no worker. */
  function LineAttributes(p: Payload, shift: Shift, line: ServiceLine, sub: Subcategory, nightPercent: real): NewBooking
  {
    var t := Price(sub.basePrice, Quantity(p), shift, nightPercent);
    NewBooking(p.customerId, None, p.customerName, p.customerEmail, p.customerPhone,
               p.serviceAddress, p.specialInstructions, line.serviceId, line.subcategoryId,
               Some(Quantity(p)), t.unitPrice, t.subtotal, Some(shift), Some(t.shiftChargePercent),
               t.total, None, p.scheduledAt)
  }

  /** Every line names a subcategory of the catalog. */
  predicate AllResolvable(lines: seq<ServiceLine>, catalog: map<Id, Subcategory>)
  {
    forall k :: 0 <= k < |lines| ==> lines[k].subcategoryId in catalog
  }

  /** The index of the first line whose subcategory is missing. */
  function FirstUnresolvable(lines: seq<ServiceLine>, catalog: map<Id, Subcategory>): (k: nat)
    requires !AllResolvable(lines, catalog)
    ensures k < |lines| && lines[k].subcategoryId !in catalog
    ensures forall j :: 0 <= j < k ==> lines[j].subcategoryId in catalog
  {
    if lines[0].subcategoryId !in catalog then 0
    else 1 + FirstUnresolvable(lines[1..], catalog)
  }

  /** The booking created for line `k` of a payload whose lines all resolve. */
  function LineBooking(p: Payload, shift: Shift, catalog: map<Id, Subcategory>, nightPercent: real, firstId: Id, k: nat): Booking
    requires AllResolvable(p.services, catalog) && k < |p.services|
  {
    var line := p.services[k];
    Create(firstId + k, LineAttributes(p, shift, line, catalog[line.subcategoryId], nightPercent))
  }

  /**
   * What `createBooking` produces, its rows numbered from `firstId`: an
   * invalid shift first, else the first missing subcategory, else one booking
   * per line, in order.
   */
  function PlannedBookings(p: Payload, catalog: map<Id, Subcategory>, nightPercent: real, firstId: Id): Result<seq<Booking>>
  {
    match NormalizeShift(p.shiftType)
    case None => Err(InvalidShiftType)
    case Some(shift) =>
      if !AllResolvable(p.services, catalog) then
        Err(SubcategoryNotFound(p.services[FirstUnresolvable(p.services, catalog)].subcategoryId))
      else
        Ok(seq(|p.services|, k requires 0 <= k < |p.services| => LineBooking(p, shift, catalog, nightPercent, firstId, k)))
  }

  /**
   * The bookings of a successful payload: one per line, in order, each with
   * that line's service and subcategory, the shared customer snapshot, shift
   * (never `flexible`), schedule string and quantity, the line's price terms,
   * status pending and neither worker nor payment method.
   */
  lemma PlannedBookingsShape(p: Payload, catalog: map<Id, Subcategory>, nightPercent: real, firstId: Id, k: nat)
    requires PlannedBookings(p, catalog, nightPercent, firstId).Ok?
    requires k < |p.services|
    ensures var bs := PlannedBookings(p, catalog, nightPercent, firstId).value;
      && |bs| == |p.services|
      && p.services[k].subcategoryId in catalog
      && var b := bs[k];
      && var t := Price(catalog[p.services[k].subcategoryId].basePrice, Quantity(p), b.shiftType, nightPercent);
      && b.id == firstId + k
      && b.serviceId == p.services[k].serviceId
      && b.serviceSubcategoryId == p.services[k].subcategoryId
      && b.customerId == p.customerId && b.customerName == p.customerName
      && b.customerEmail == p.customerEmail && b.customerPhone == p.customerPhone
      && b.serviceAddress == p.serviceAddress && b.specialInstructions == p.specialInstructions
      && Some(b.shiftType) == NormalizeShift(p.shiftType) && b.shiftType != Flexible
      && b.scheduledAt == p.scheduledAt
      && b.quantity == Quantity(p)
      && b.unitPrice == t.unitPrice && b.subtotalAmount == t.subtotal
      && b.shiftChargePercent == t.shiftChargePercent && b.totalAmount == t.total
      && b.status == Pending && b.workerId.None? && b.paymentMethod.None?
  {
  }

  lemma PlannedBookingsLength(p: Payload, catalog: map<Id, Subcategory>, nightPercent: real, firstId: Id)
    requires PlannedBookings(p, catalog, nightPercent, firstId).Ok?
    ensures |PlannedBookings(p, catalog, nightPercent, firstId).value| == |p.services|
  {
  }

  /** A payload fails exactly when its shift is invalid or one of its lines names a missing subcategory. */
  lemma PlannedBookingsFails(p: Payload, catalog: map<Id, Subcategory>, nightPercent: real, firstId: Id)
    ensures PlannedBookings(p, catalog, nightPercent, firstId).Err?
        <==> NormalizeShift(p.shiftType).None? || exists k :: 0 <= k < |p.services| && p.services[k].subcategoryId !in catalog
    ensures NormalizeShift(p.shiftType).None? ==> PlannedBookings(p, catalog, nightPercent, firstId) == Err(InvalidShiftType)
  {
  }

  /**
   * `createBooking`: inside one transaction, normalise the shift, then create
   * one row per line; a missing subcategory rolls back every row this call
   * inserted.
   */
  method CreateBooking(db: BookingTable, catalog: map<Id, Subcategory>, nightPercent: real, data: Payload)
    returns (r: Result<seq<Booking>>)
    requires db.Valid()
    modifies db
    ensures db.Valid()
    ensures r == PlannedBookings(data, catalog, nightPercent, old(db.nextId))
    ensures r.Ok? ==> db.rows == old(db.rows) + r.value && db.nextId == old(db.nextId) + |r.value|
    ensures r.Err? ==> db.rows == old(db.rows) && db.nextId >= old(db.nextId)
  {
    var saved := db.rows;
    var firstId := db.nextId;
    var shiftName := data.shiftType;
    if shiftName == "flexible" {
      shiftName := "day";
    }
    if shiftName != "day" && shiftName != "night" {
      return Err(InvalidShiftType);
    }
    var shift := if shiftName == "night" then Night else Day;
    assert NormalizeShift(data.shiftType) == Some(shift);
    var created: seq<Booking> := [];
    var i := 0;
    while i < |data.services|
      invariant 0 <= i <= |data.services|
      invariant db.Valid()
      invariant forall k :: 0 <= k < i ==> data.services[k].subcategoryId in catalog
      invariant |created| == i
      invariant forall k :: 0 <= k < i ==> created[k] == Create(firstId + k, LineAttributes(data, shift, data.services[k], catalog[data.services[k].subcategoryId], nightPercent))
      invariant db.rows == saved + created && db.nextId == firstId + i
    {
      var line := data.services[i];
      if line.subcategoryId !in catalog {
        db.Rollback(saved);
        assert FirstUnresolvable(data.services, catalog) == i;
        return Err(SubcategoryNotFound(line.subcategoryId));
      }
      var b := db.Insert(LineAttributes(data, shift, line, catalog[line.subcategoryId], nightPercent));
      created := created + [b];
      i := i + 1;
    }
    assert AllResolvable(data.services, catalog);
    assert created == seq(|data.services|, k requires 0 <= k < |data.services| => LineBooking(data, shift, catalog, nightPercent, firstId, k));
    r := Ok(created);
  }

  /**
   * What `createBatchBooking` produces: the payloads' bookings concatenated in
   * order, numbered on from `firstId`, or the first payload's error.
   */
  function PlannedBatch(batch: seq<Payload>, catalog: map<Id, Subcategory>, nightPercent: real, firstId: Id): Result<seq<Booking>>
    decreases |batch|
  {
    if batch == [] then Ok([])
    else
      match PlannedBatch(batch[..|batch| - 1], catalog, nightPercent, firstId)
      case Err(e) => Err(e)
      case Ok(before) =>
        match PlannedBookings(batch[|batch| - 1], catalog, nightPercent, firstId + |before|)
        case Err(e) => Err(e)
        case Ok(last) => Ok(before + last)
  }

  /**
   * Extending a successful prefix by one payload appends that payload's
   * bookings; a failing payload fails the whole batch with its error.
   */
  lemma PlannedBatchStep(batch: seq<Payload>, i: nat, catalog: map<Id, Subcategory>, nightPercent: real, firstId: Id,
                         before: seq<Booking>, next: Result<seq<Booking>>)
    requires i < |batch|
    requires PlannedBatch(batch[..i], catalog, nightPercent, firstId) == Ok(before)
    requires next == PlannedBookings(batch[i], catalog, nightPercent, firstId + |before|)
    ensures next.Ok? ==> PlannedBatch(batch[..i + 1], catalog, nightPercent, firstId) == Ok(before + next.value)
    ensures next.Err? ==> PlannedBatch(batch, catalog, nightPercent, firstId) == Err(next.error)
  {
    assert batch[..i + 1][..i] == batch[..i];
    if next.Err? {
      PlannedBatchFailedPrefix(batch, i + 1, catalog, nightPercent, firstId);
    }
  }

  /** Once a prefix of the batch fails, the whole batch fails with the same error. */
  lemma {:induction false} PlannedBatchFailedPrefix(batch: seq<Payload>, n: nat, catalog: map<Id, Subcategory>, nightPercent: real, firstId: Id)
    requires n <= |batch|
    requires PlannedBatch(batch[..n], catalog, nightPercent, firstId).Err?
    ensures PlannedBatch(batch, catalog, nightPercent, firstId) == PlannedBatch(batch[..n], catalog, nightPercent, firstId)
    decreases |batch|
  {
    if n < |batch| {
      var shorter := batch[..|batch| - 1];
      assert shorter[..n] == batch[..n];
      PlannedBatchFailedPrefix(shorter, n, catalog, nightPercent, firstId);
    } else {
      assert batch[..n] == batch;
    }
  }

  /** The number of service lines over all payloads. */
  function TotalLines(batch: seq<Payload>): nat
  {
    if batch == [] then 0 else TotalLines(batch[..|batch| - 1]) + |batch[|batch| - 1].services|
  }

  /** A successful batch holds one booking per service line of all its payloads. */
  lemma {:induction false} PlannedBatchLength(batch: seq<Payload>, catalog: map<Id, Subcategory>, nightPercent: real, firstId: Id)
    requires PlannedBatch(batch, catalog, nightPercent, firstId).Ok?
    ensures |PlannedBatch(batch, catalog, nightPercent, firstId).value| == TotalLines(batch)
    decreases |batch|
  {
    if batch != [] {
      var before := batch[..|batch| - 1];
      PlannedBatchLength(before, catalog, nightPercent, firstId);
      var n := |PlannedBatch(before, catalog, nightPercent, firstId).value|;
      PlannedBookingsLength(batch[|batch| - 1], catalog, nightPercent, firstId + n);
    }
  }

  /**
   * `createBatchBooking`: one outer transaction around `createBooking` for
   * each payload; any failure rolls back every row of the batch.
   */
  method CreateBatchBooking(db: BookingTable, catalog: map<Id, Subcategory>, nightPercent: real, batch: seq<Payload>)
    returns (r: Result<seq<Booking>>)
    requires db.Valid()
    modifies db
    ensures db.Valid()
    ensures r == PlannedBatch(batch, catalog, nightPercent, old(db.nextId))
    ensures r.Ok? ==> db.rows == old(db.rows) + r.value
    ensures r.Err? ==> db.rows == old(db.rows)
  {
    var saved := db.rows;
    var firstId := db.nextId;
    var all: seq<Booking> := [];
    var i := 0;
    while i < |batch|
      invariant 0 <= i <= |batch|
      invariant db.Valid()
      invariant PlannedBatch(batch[..i], catalog, nightPercent, firstId) == Ok(all)
      invariant db.rows == saved + all && db.nextId == firstId + |all|
    {
      var created := CreateNextPayload(db, catalog, nightPercent, batch, i, firstId, saved, all);
      if created.Err? {
        return Err(created.error);
      }
      all := all + created.value;
      i := i + 1;
    }
    assert batch[..i] == batch;
    r := Ok(all);
  }

  /** One step of the batch: the next payload's bookings, or the batch's error with every row of the batch rolled back. */
  method CreateNextPayload(db: BookingTable, catalog: map<Id, Subcategory>, nightPercent: real, batch: seq<Payload>,
                           i: nat, firstId: Id, saved: seq<Booking>, all: seq<Booking>)
    returns (created: Result<seq<Booking>>)
    requires i < |batch| && db.Valid()
    requires PlannedBatch(batch[..i], catalog, nightPercent, firstId) == Ok(all)
    requires db.rows == saved + all && db.nextId == firstId + |all|
    modifies db
    ensures db.Valid()
    ensures created.Ok? ==>
      && PlannedBatch(batch[..i + 1], catalog, nightPercent, firstId) == Ok(all + created.value)
      && db.rows == saved + (all + created.value) && db.nextId == firstId + |all + created.value|
    ensures created.Err? ==> PlannedBatch(batch, catalog, nightPercent, firstId) == Err(created.error) && db.rows == saved
  {
    created := CreateBooking(db, catalog, nightPercent, batch[i]);
    PlannedBatchStep(batch, i, catalog, nightPercent, firstId, all, created);
    if created.Err? {
      assert saved <= db.rows;
      db.Rollback(saved);
    } else {
      assert saved + (all + created.value) == db.rows;
    }
  }

  /** `calculateBatchSummary`'s three figures. */
  datatype BatchSummary = BatchSummary(totalBookings: nat, totalQuantity: int, totalAmount: real)

  function SumQuantity(bs: seq<Booking>): int
  {
    if bs == [] then 0 else bs[0].quantity + SumQuantity(bs[1..])
  }

  function SumTotal(bs: seq<Booking>): real
  {
    if bs == [] then 0.0 else bs[0].totalAmount + SumTotal(bs[1..])
  }

  /** The count, the summed quantity and the summed total amount of a collection of bookings. */
  function Summary(bs: seq<Booking>): (s: BatchSummary)
    ensures s.totalBookings == |bs|
    ensures bs == [] ==> s.totalQuantity == 0 && s.totalAmount == 0.0
  {
    BatchSummary(|bs|, SumQuantity(bs), SumTotal(bs))
  }

  /** The summary of two collections side by side is the sum of their summaries. */
  lemma {:induction false} SummaryAppend(a: seq<Booking>, b: seq<Booking>)
    ensures Summary(a + b).totalBookings == Summary(a).totalBookings + Summary(b).totalBookings
    ensures Summary(a + b).totalQuantity == Summary(a).totalQuantity + Summary(b).totalQuantity
    ensures Summary(a + b).totalAmount == Summary(a).totalAmount + Summary(b).totalAmount
    decreases |a|
  {
    if a == [] {
      assert a + b == b;
    } else {
      assert (a + b)[1..] == a[1..] + b;
      SummaryAppend(a[1..], b);
    }
  }

  /** The total quantity of one payload's bookings is its quantity times its number of lines. */
  lemma {:induction false} SumQuantityOfPayload(p: Payload, catalog: map<Id, Subcategory>, nightPercent: real, firstId: Id)
    requires PlannedBookings(p, catalog, nightPercent, firstId).Ok?
    ensures SumQuantity(PlannedBookings(p, catalog, nightPercent, firstId).value) == Quantity(p) * |p.services|
  {
    var bs := PlannedBookings(p, catalog, nightPercent, firstId).value;
    forall k | 0 <= k < |bs| ensures bs[k].quantity == Quantity(p) {
      PlannedBookingsShape(p, catalog, nightPercent, firstId, k);
    }
    SumQuantityConstant(bs, Quantity(p));
  }

  lemma {:induction false} SumQuantityConstant(bs: seq<Booking>, q: int)
    requires forall k :: 0 <= k < |bs| ==> bs[k].quantity == q
    ensures SumQuantity(bs) == q * |bs|
    decreases |bs|
  {
    if bs != [] {
      SumQuantityConstant(bs[1..], q);
    }
  }
}
