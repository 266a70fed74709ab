/**
 * Reviews: the guard chain before a customer's review of a booking, the
 * `reviews` table with at most one review per booking, and a worker's review
 * listing with count and average.
 */
module Reviews {

  import opened Wrappers
  import opened Auth
  import B = Bookings
  import opened BookingStore
  import BR = BookingRequests
  import opened Digits

  datatype Review = Review(id: Id, bookingId: Id, customerId: Id, workerId: Id, rating: int, text: Option<string>)

  /** At most one review per booking: the unique index on `booking_id`. */
  predicate OneReviewPerBooking(rows: seq<Review>)
  {
    forall i, j :: 0 <= i < j < |rows| ==> rows[i].bookingId != rows[j].bookingId
  }

  /** Some review of the booking exists. */
  predicate Reviewed(rows: seq<Review>, bookingId: Id)
  {
    exists r :: r in rows && r.bookingId == bookingId
  }

  predicate RatingInRange(rating: int)
  {
    1 <= rating <= 5
  }

  class ReviewTable {
    var rows: seq<Review>
    var nextId: Id

    /** Ids increase and stay below the counter, one review per booking, ratings in 1..5. */
    ghost predicate Valid()
      reads this
    {
      && (forall i, j :: 0 <= i < j < |rows| ==> rows[i].id < rows[j].id)
      && (forall i :: 0 <= i < |rows| ==> rows[i].id < nextId && RatingInRange(rows[i].rating))
      && OneReviewPerBooking(rows)
    }

    constructor ()
      ensures Valid() && rows == [] && nextId == 1
    {
      rows := [];
      nextId := 1;
    }

    /** `Review::create` for a booking not reviewed yet, with a rating in range. */
    method Insert(bookingId: Id, customerId: Id, workerId: Id, rating: int, text: Option<string>) returns (r: Review)
      requires Valid() && !Reviewed(rows, bookingId) && RatingInRange(rating)
      modifies this
      ensures Valid()
      ensures r == Review(old(nextId), bookingId, customerId, workerId, rating, text)
      ensures rows == old(rows) + [r] && nextId == old(nextId) + 1
    {
      r := Review(nextId, bookingId, customerId, workerId, rating, text);
      forall i | 0 <= i < |rows|
        ensures rows[i].bookingId != bookingId
      {
        assert rows[i] in rows;
      }
      rows := rows + [r];
      nextId := nextId + 1;
    }
  }

  /** The body of a review request; the rating is the request value as sent (a number, text, ...). */
  datatype ReviewRequest = ReviewRequest(bookingId: Option<int>, rating: Option<BR.Value>, text: Option<string>)

  /**
   * The rating as the `required|integer` rules read it: a value that is
   * present and passes the integer filter, else none. `min:1|max:5` then
   * compare this number.
   */
  function Rating(req: ReviewRequest): Option<int>
  {
    if req.rating.Some? then BR.IntegerValue(req.rating.value) else None
  }

  datatype Guard = Refuse(code: int) | Proceed(booking: B.Booking)

  /**
   * The checks of `createReview`, in source order: a user (401) who is a
   * customer (403), valid fields (422), the booking the customer's (403),
   * paid (400), not reviewed yet (400), with a worker (400).
   */
  function ReviewGuard(user: Option<User>, req: ReviewRequest, bookings: seq<B.Booking>, reviews: seq<Review>): (g: Guard)
    ensures g.Proceed? ==>
      && user.Some? && user.value.role == Customer
      && g.booking in bookings && Some(g.booking.id as int) == req.bookingId
      && g.booking.customerId == user.value.id && g.booking.status == B.Paid
      && !Reviewed(reviews, g.booking.id) && g.booking.workerId.Some?
      && Rating(req).Some? && RatingInRange(Rating(req).value)
  {
    if user.None? then Refuse(401)
    else if user.value.role != Customer then Refuse(403)
    else if !(req.bookingId.Some? && Find(bookings, req.bookingId.value).Some?)
         || !(Rating(req).Some? && RatingInRange(Rating(req).value))
         || !(req.text.None? || |req.text.value| <= 1000) then Refuse(422)
    else
      var b := Find(bookings, req.bookingId.value).value;
      if b.customerId != user.value.id then Refuse(403)
      else if b.status != B.Paid then Refuse(400)
      else if Reviewed(reviews, b.id) then Refuse(400)
      else if b.workerId.None? then Refuse(400)
      else Proceed(b)
  }

  /** Any role other than customer is refused before the request is even validated. */
  lemma OnlyCustomersReview(user: User, req: ReviewRequest, bookings: seq<B.Booking>, reviews: seq<Review>)
    requires user.role != Customer
    ensures ReviewGuard(Some(user), req, bookings, reviews) == Refuse(403)
  {
  }

  /** Ownership is checked before payment, payment before duplicates, duplicates before the worker. */
  lemma ReviewGuardOrder(user: User, req: ReviewRequest, bookings: seq<B.Booking>, reviews: seq<Review>, b: B.Booking)
    requires user.role == Customer && Rating(req).Some? && RatingInRange(Rating(req).value)
    requires req.text.None? || |req.text.value| <= 1000
    requires req.bookingId == Some(b.id as int) && Find(bookings, b.id) == Some(b)
    ensures b.customerId != user.id ==> ReviewGuard(Some(user), req, bookings, reviews) == Refuse(403)
    ensures b.customerId == user.id && b.status != B.Paid ==> ReviewGuard(Some(user), req, bookings, reviews) == Refuse(400)
    ensures b.customerId == user.id && b.status == B.Paid && Reviewed(reviews, b.id) ==>
      ReviewGuard(Some(user), req, bookings, reviews) == Refuse(400)
    ensures b.customerId == user.id && b.status == B.Paid && !Reviewed(reviews, b.id) ==>
      ReviewGuard(Some(user), req, bookings, reviews) == if b.workerId.None? then Refuse(400) else Proceed(b)
  {
  }

  /** A customer's request whose rating is missing, or is not an integer, is refused with 422. */
  lemma UnreadableRatingRefused(user: User, req: ReviewRequest, bookings: seq<B.Booking>, reviews: seq<Review>)
    requires user.role == Customer && Rating(req).None?
    ensures ReviewGuard(Some(user), req, bookings, reviews) == Refuse(422)
  {
  }

  /** The text "4" is the rating 4. */
  lemma RatingTextFour(four: string)
    requires four == "4"
    ensures Rating(ReviewRequest(None, Some(BR.Str(four)), None)) == Some(4)
  {
    assert four[..0] == [] && DigitsValue([]) == 0;
    IntegerTextDigits(four);
  }

  /** The texts "4.5" and "abc" are not integers, so they are no rating. */
  lemma RatingTextNotInteger(half: string, word: string)
    requires half == "4.5" && word == "abc"
    ensures Rating(ReviewRequest(None, Some(BR.Str(half)), None)).None?
    ensures Rating(ReviewRequest(None, Some(BR.Str(word)), None)).None?
  {
    NotIntegerText(half, 1);
    NotIntegerText(word, 0);
  }

  /** A booking that has a review can never be reviewed again. */
  lemma ReviewedBookingRefused(user: Option<User>, req: ReviewRequest, bookings: seq<B.Booking>, reviews: seq<Review>)
    requires req.bookingId.Some? && Find(bookings, req.bookingId.value).Some?
    requires Reviewed(reviews, Find(bookings, req.bookingId.value).value.id)
    ensures !ReviewGuard(user, req, bookings, reviews).Proceed?
  {
  }

  /**
   * `createReview`: the guard, then a review whose customer is the user and
   * whose worker and booking are the booking's. The table keeps one review
   * per booking.
   */
  method CreateReview(bookings: BookingTable, reviews: ReviewTable, user: Option<User>, req: ReviewRequest)
    returns (code: int, created: Option<Review>)
    requires reviews.Valid()
    modifies reviews
    ensures reviews.Valid()
    ensures match ReviewGuard(user, req, bookings.rows, old(reviews.rows))
      case Refuse(c) => code == c && created.None? && reviews.rows == old(reviews.rows) && reviews.nextId == old(reviews.nextId)
      case Proceed(b) =>
        && code == 201
        && created == Some(Review(old(reviews.nextId), b.id, user.value.id, b.workerId.value, Rating(req).value, req.text))
        && reviews.rows == old(reviews.rows) + [created.value] && reviews.nextId == old(reviews.nextId) + 1
  {
    var g := ReviewGuard(user, req, bookings.rows, reviews.rows);
    if g.Refuse? {
      return g.code, None;
    }
    var b := g.booking;
    var r := reviews.Insert(b.id, user.value.id, b.workerId.value, Rating(req).value, req.text);
    code, created := 201, Some(r);
  }

  /** The worker's reviews among `rows`, newest (highest id) first. */
  function WorkerReviewList(rows: seq<Review>, workerId: int): (r: seq<Review>)
    ensures forall x :: x in r <==> x in rows && x.workerId == workerId
    ensures (forall i, j :: 0 <= i < j < |rows| ==> rows[i].id < rows[j].id) ==>
      forall i, j :: 0 <= i < j < |r| ==> r[i].id > r[j].id
  {
    if rows == [] then []
    else
      var rest := WorkerReviewList(rows[1..], workerId);
      assert forall x :: x in rest ==> x in rows[1..];
      rest + (if rows[0].workerId == workerId then [rows[0]] else [])
  }

  function SumRatings(rs: seq<Review>): int
  {
    if rs == [] then 0 else SumRatings(rs[..|rs| - 1]) + rs[|rs| - 1].rating
  }

  /** Ratings in 1..5 sum to between one and five times their number. */
  lemma {:induction false} SumRatingsBounds(rs: seq<Review>)
    requires forall r :: r in rs ==> RatingInRange(r.rating)
    ensures |rs| <= SumRatings(rs) <= 5 * |rs|
  {
    if rs != [] {
      assert forall r :: r in rs[..|rs| - 1] ==> r in rs;
      SumRatingsBounds(rs[..|rs| - 1]);
      assert rs[|rs| - 1] in rs;
    }
  }

  /** The mean rating, 0 when there are no reviews. */
  function AverageRating(rs: seq<Review>): real
  {
    if |rs| == 0 then 0.0 else SumRatings(rs) as real / |rs| as real
  }

  /** With reviews whose ratings are in range, the average is in 1..5; without reviews it is 0. */
  lemma AverageRatingBounds(rs: seq<Review>)
    requires forall r :: r in rs ==> RatingInRange(r.rating)
    ensures rs == [] ==> AverageRating(rs) == 0.0
    ensures rs != [] ==> 1.0 <= AverageRating(rs) <= 5.0
  {
    SumRatingsBounds(rs);
    if rs != [] {
      QuotientBounds(SumRatings(rs) as real, |rs| as real);
    }
  }

  /** A sum between n and 5n, divided by n > 0, lies in 1..5. */
  lemma QuotientBounds(s: real, n: real)
    requires 0.0 < n && n <= s <= 5.0 * n
    ensures 1.0 <= s / n <= 5.0
  {
    DivideMonotone(n, s, n);
    DivideMonotone(s, 5.0 * n, n);
    assert n / n == 1.0;
    assert (5.0 * n) / n == 5.0;
  }

  /** Dividing by a positive number keeps order. */
  lemma DivideMonotone(a: real, b: real, n: real)
    requires 0.0 < n && a <= b
    ensures a / n <= b / n
  {
    assert b / n - a / n == (b - a) / n;
  }

  datatype WorkerReviewsResponse = WorkerReviewsResponse(code: int, reviews: seq<Review>, averageRating: real, totalReviews: nat)

  /**
   * `getWorkerReviews`: a missing worker makes `findOrFail` throw inside the
   * handler's catch, which answers 500; otherwise the worker's reviews newest
   * first, their number and their average (0 for none).
   */
  function GetWorkerReviews(rows: seq<Review>, workerId: int, workerExists: bool): (r: WorkerReviewsResponse)
    ensures !workerExists ==> r.code == 500 && r.reviews == []
    ensures workerExists ==>
      && r.code == 200 && r.totalReviews == |r.reviews|
      && r.averageRating == AverageRating(r.reviews)
      && (forall x :: x in r.reviews <==> x in rows && x.workerId == workerId)
  {
    if !workerExists then WorkerReviewsResponse(500, [], 0.0, 0)
    else
      var list := WorkerReviewList(rows, workerId);
      WorkerReviewsResponse(200, list, AverageRating(list), |list|)
  }

  /** Over a valid table the listing is newest first and its average lies in 1..5 unless it is empty. */
  lemma WorkerReviewsOfValidTable(t: ReviewTable, workerId: int)
    requires t.Valid()
    ensures var r := GetWorkerReviews(t.rows, workerId, true);
      && (forall i, j :: 0 <= i < j < |r.reviews| ==> r.reviews[i].id > r.reviews[j].id)
      && (r.totalReviews == 0 ==> r.averageRating == 0.0)
      && (r.totalReviews > 0 ==> 1.0 <= r.averageRating <= 5.0)
  {
    var list := WorkerReviewList(t.rows, workerId);
    forall x | x in list
      ensures RatingInRange(x.rating)
    {
      var i :| 0 <= i < |t.rows| && t.rows[i] == x;
    }
    AverageRatingBounds(list);
  }
}
