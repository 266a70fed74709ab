/**
 * The booking endpoints: the totals of the create responses, the status
 * state machine with its role and ownership checks and worker claim, and the
 * worker's job list.
 */
module BookingController {

  import opened Wrappers
  import opened Auth
  import opened Bookings
  import opened BookingStore
  import opened BookingService

  /** The part of a create response this model keeps: code, bookings and totals. */
  datatype CreatedResponse = CreatedResponse(code: int, bookings: seq<Booking>, totalBookings: nat, totalAmount: real)

  /** `createBooking`: 201 with the count and summed total, 500 for any exception. */
  method CreateBookingEndpoint(db: BookingTable, catalog: map<Id, Subcategory>, nightPercent: real, data: Payload)
    returns (resp: CreatedResponse)
    requires db.Valid()
    modifies db
    ensures db.Valid()
    ensures var planned := PlannedBookings(data, catalog, nightPercent, old(db.nextId));
      && (planned.Ok? ==> resp == CreatedResponse(201, planned.value, |planned.value|, SumTotal(planned.value)))
      && (planned.Err? ==> resp.code == 500 && resp.bookings == [] && db.rows == old(db.rows))
  {
    var r := CreateBooking(db, catalog, nightPercent, data);
    if r.Err? {
      return CreatedResponse(500, [], 0, 0.0);
    }
    resp := CreatedResponse(201, r.value, |r.value|, SumTotal(r.value));
  }

  /** `batchStore`: 201 with the count, the summed total and the summary, 500 for any exception. */
  method BatchStoreEndpoint(db: BookingTable, catalog: map<Id, Subcategory>, nightPercent: real, batch: seq<Payload>)
    returns (resp: CreatedResponse, summary: Option<BatchSummary>)
    requires db.Valid()
    modifies db
    ensures db.Valid()
    ensures var planned := PlannedBatch(batch, catalog, nightPercent, old(db.nextId));
      && (planned.Ok? ==> resp == CreatedResponse(201, planned.value, |planned.value|, SumTotal(planned.value))
                          && summary == Some(Summary(planned.value)))
      && (planned.Err? ==> resp.code == 500 && summary.None? && db.rows == old(db.rows))
  {
    var r := CreateBatchBooking(db, catalog, nightPercent, batch);
    if r.Err? {
      return CreatedResponse(500, [], 0, 0.0), None;
    }
    resp := CreatedResponse(201, r.value, |r.value|, SumTotal(r.value));
    summary := Some(Summary(r.value));
  }

  /** The batch response's total amount and count agree with its summary. */
  lemma BatchTotalsMatchSummary(bs: seq<Booking>)
    ensures Summary(bs).totalAmount == SumTotal(bs) && Summary(bs).totalBookings == |bs|
  {
  }

  /** The body of a status request. */
  datatype StatusRequest = StatusRequest(status: Option<string>, workerId: Option<Id>)

  /** `status` must be present and one of paid, confirmed, cancelled. */
  function RequestedStatus(s: Option<string>): (r: Option<Status>)
    ensures r.Some? <==> s.Some? && s.value in {"paid", "confirmed", "cancelled"}
    ensures r.Some? ==> StatusName(r.value) == s.value && r.value != Pending
  {
    if s == Some("paid") then Some(Paid)
    else if s == Some("confirmed") then Some(Confirmed)
    else if s == Some("cancelled") then Some(Cancelled)
    else None
  }

  /** The three checks on the current status, in source order. */
  predicate TransitionAllowed(from: Status, to: Status)
  {
    && !(to == Cancelled && from != Pending)
    && !(to == Confirmed && from != Pending)
    && !(to == Paid && from != Pending && from != Confirmed)
  }

  /** The transition table: everything leaves pending, and confirmed can still become paid. */
  lemma TransitionTable(from: Status, to: Status)
    requires to != Pending
    ensures TransitionAllowed(from, to) <==> from == Pending || (from == Confirmed && to == Paid)
  {
  }

  predicate IsStaff(u: User)
  {
    u.role == Moderator || u.role == Admin
  }

  /**
   * Who may change a booking: staff always; anyone else through a worker
   * profile that either holds the booking or, for an unassigned booking,
   * offers its service.
   */
  predicate MayAct(b: Booking, u: User, worker: Option<WorkerProfile>)
  {
    || IsStaff(u)
    || (worker.Some? && (b.workerId == Some(worker.value.id)
                         || (b.workerId.None? && b.serviceId in worker.value.services)))
  }

  datatype StatusOutcome = Updated(booking: Booking) | Refused(code: int)

  /** The decision `updateBookingStatus` takes for a booking that exists. */
  function DecideStatusUpdate(b: Booking, user: Option<User>, req: StatusRequest, worker: Option<WorkerProfile>): StatusOutcome
  {
    if user.None? then Refused(401)
    else
      match RequestedStatus(req.status)
      case None => Refused(422)
      case Some(to) =>
        if !TransitionAllowed(b.status, to) then Refused(400)
        else if IsStaff(user.value) then
          var w := if to == Confirmed && b.workerId.None? && req.workerId.Some? then req.workerId else b.workerId;
          Updated(b.(workerId := w, status := to))
        else if worker.None? then Refused(404)
        else if b.workerId.Some? && b.workerId.value != worker.value.id then Refused(403)
        else if b.workerId.None? && b.serviceId !in worker.value.services then Refused(403)
        else
          var w := if to == Confirmed && b.workerId.None? then Some(worker.value.id) else b.workerId;
          Updated(b.(workerId := w, status := to))
  }

  /**
   * A request is accepted exactly when there is a user, the status is one of
   * the three, the transition is in the table and the user may act on the
   * booking.
   */
  lemma StatusUpdateAcceptedIff(b: Booking, user: Option<User>, req: StatusRequest, worker: Option<WorkerProfile>)
    ensures DecideStatusUpdate(b, user, req, worker).Updated?
        <==> && user.Some?
             && RequestedStatus(req.status).Some?
             && TransitionAllowed(b.status, RequestedStatus(req.status).value)
             && MayAct(b, user.value, worker)
  {
  }

  /** No user gives 401; a status outside the three gives 422. */
  lemma StatusUpdateRequestErrors(b: Booking, user: Option<User>, req: StatusRequest, worker: Option<WorkerProfile>)
    ensures user.None? ==> DecideStatusUpdate(b, user, req, worker) == Refused(401)
    ensures user.Some? && RequestedStatus(req.status).None? ==> DecideStatusUpdate(b, user, req, worker) == Refused(422)
  {
  }

  /** An invalid transition gives 400 whoever the actor is: it is checked before any role or ownership. */
  lemma InvalidTransitionIs400(b: Booking, user: Option<User>, req: StatusRequest, worker: Option<WorkerProfile>)
    requires user.Some? && RequestedStatus(req.status).Some?
    requires !TransitionAllowed(b.status, RequestedStatus(req.status).value)
    ensures DecideStatusUpdate(b, user, req, worker) == Refused(400)
  {
  }

  /** Paid and cancelled bookings accept no change at all. */
  lemma FinalStatuses(b: Booking, user: Option<User>, req: StatusRequest, worker: Option<WorkerProfile>)
    requires b.status == Paid || b.status == Cancelled
    ensures !DecideStatusUpdate(b, user, req, worker).Updated?
  {
  }

  /** For a non-staff actor with a valid transition: no profile gives 404, a profile without access gives 403. */
  lemma WorkerRefusals(b: Booking, user: Option<User>, req: StatusRequest, worker: Option<WorkerProfile>)
    requires user.Some? && !IsStaff(user.value)
    requires RequestedStatus(req.status).Some? && TransitionAllowed(b.status, RequestedStatus(req.status).value)
    ensures worker.None? ==> DecideStatusUpdate(b, user, req, worker) == Refused(404)
    ensures worker.Some? && !MayAct(b, user.value, worker) ==> DecideStatusUpdate(b, user, req, worker) == Refused(403)
  {
  }

  /**
   * A successful update changes the status to the requested one and at most
   * sets a missing worker, and only when confirming; an assigned worker and
   * every other field (pricing included) stay as they were.
   */
  lemma UpdateChangesOnlyStatusAndWorker(b: Booking, user: Option<User>, req: StatusRequest, worker: Option<WorkerProfile>)
    requires DecideStatusUpdate(b, user, req, worker).Updated?
    ensures var after := DecideStatusUpdate(b, user, req, worker).booking;
      && after == b.(status := after.status, workerId := after.workerId)
      && Some(after.status) == RequestedStatus(req.status)
      && after.status != Pending
      && (b.workerId.Some? ==> after.workerId == b.workerId)
      && (after.workerId != b.workerId ==> b.workerId.None? && after.status == Confirmed)
  {
  }

  /** A worker who offers the service and confirms an unassigned pending booking claims it. */
  lemma WorkerClaimsOnConfirm(b: Booking, user: Option<User>, req: StatusRequest, worker: Option<WorkerProfile>)
    requires user.Some? && !IsStaff(user.value) && worker.Some?
    requires req.status == Some("confirmed") && b.status == Pending
    requires b.workerId.None? && b.serviceId in worker.value.services
    ensures DecideStatusUpdate(b, user, req, worker) == Updated(b.(status := Confirmed, workerId := Some(worker.value.id)))
  {
  }

  /** Staff confirming an unassigned booking apply the request's worker; any other staff update keeps the worker. */
  lemma StaffWorkerAssignment(b: Booking, user: Option<User>, req: StatusRequest, worker: Option<WorkerProfile>)
    requires user.Some? && IsStaff(user.value)
    requires RequestedStatus(req.status).Some? && TransitionAllowed(b.status, RequestedStatus(req.status).value)
    ensures DecideStatusUpdate(b, user, req, worker).Updated?
    ensures var after := DecideStatusUpdate(b, user, req, worker).booking;
      after.workerId == if req.status == Some("confirmed") && b.workerId.None? && req.workerId.Some?
                        then req.workerId else b.workerId
  {
  }

  /**
   * `updateBookingStatus` on the booking the route names (404 when there is
   * none): the checks in source order, then the changed fields, then `save()`.
   */
  method UpdateBookingStatus(db: BookingTable, bookingId: int, user: Option<User>, req: StatusRequest, worker: Option<WorkerProfile>)
    returns (code: int)
    requires db.Valid()
    modifies db
    ensures db.Valid() && db.nextId == old(db.nextId)
    ensures Find(old(db.rows), bookingId).None? ==> code == 404 && db.rows == old(db.rows)
    ensures Find(old(db.rows), bookingId).Some? ==>
      match DecideStatusUpdate(Find(old(db.rows), bookingId).value, user, req, worker)
      case Refused(c) => code == c && db.rows == old(db.rows)
      case Updated(after) => code == 200 && db.rows == Replace(old(db.rows), after)
  {
    var found := Find(db.rows, bookingId);
    if found.None? {
      return 404;
    }
    var booking := found.value;
    if user.None? {
      return 401;
    }
    var requested := RequestedStatus(req.status);
    if requested.None? {
      return 422;
    }
    var newStatus := requested.value;
    var currentStatus := booking.status;
    if newStatus == Cancelled && currentStatus != Pending {
      return 400;
    }
    if newStatus == Confirmed && currentStatus != Pending {
      return 400;
    }
    if newStatus == Paid && currentStatus != Pending && currentStatus != Confirmed {
      return 400;
    }
    if user.value.role == Moderator || user.value.role == Admin {
      if newStatus == Confirmed && booking.workerId.None? && req.workerId.Some? {
        booking := booking.(workerId := req.workerId);
      }
    } else {
      if worker.None? {
        return 404;
      }
      var w := worker.value;
      if booking.workerId.Some? && booking.workerId.value != w.id {
        return 403;
      }
      if booking.workerId.None? && booking.serviceId !in w.services {
        return 403;
      }
      if newStatus == Confirmed && booking.workerId.None? {
        booking := booking.(workerId := Some(w.id));
      }
    }
    booking := booking.(status := newStatus);
    db.Save(booking);
    code := 200;
  }

  /** A booking is one of the worker's jobs: it is assigned to the worker and its service is one the worker offers. */
  predicate IsJobOf(b: Booking, w: WorkerProfile)
  {
    b.serviceId in w.services && b.workerId == Some(w.id)
  }

  /** The worker's jobs among `rows`, newest (highest id) first. */
  function MatchingJobs(rows: seq<Booking>, w: WorkerProfile): (r: seq<Booking>)
    ensures forall b :: b in r <==> b in rows && IsJobOf(b, w)
    ensures IncreasingIds(rows) ==> forall i, j :: 0 <= i < j < |r| ==> r[i].id > r[j].id
  {
    if rows == [] then []
    else
      var rest := MatchingJobs(rows[1..], w);
      assert IncreasingIds(rows) ==> IncreasingIds(rows[1..]) && forall b :: b in rest ==> b.id > rows[0].id;
      rest + (if IsJobOf(rows[0], w) then [rows[0]] else [])
  }

  datatype JobsResponse = JobsResponse(code: int, bookings: seq<Booking>)

  /**
   * `getBookingsByWorker`: 401 without a user; an empty list without a worker
   * profile or without services; otherwise the worker's jobs, newest first.
   */
  function GetBookingsByWorker(user: Option<User>, rows: seq<Booking>, worker: Option<WorkerProfile>): (r: JobsResponse)
    ensures user.None? ==> r == JobsResponse(401, [])
    ensures user.Some? ==> r.code == 200
    ensures worker.None? || worker.value.services == {} ==> r.bookings == []
    ensures user.Some? && worker.Some? ==>
      forall b :: b in r.bookings <==> b in rows && b.serviceId in worker.value.services && b.workerId == Some(worker.value.id)
    ensures IncreasingIds(rows) ==> forall i, j :: 0 <= i < j < |r.bookings| ==> r.bookings[i].id > r.bookings[j].id
  {
    if user.None? then JobsResponse(401, [])
    else if worker.None? then JobsResponse(200, [])
    else if worker.value.services == {} then JobsResponse(200, [])
    else JobsResponse(200, MatchingJobs(rows, worker.value))
  }
}
