/** Reviews a host writes about the guest of an ended booking, with four scores
    that are stored as given. At most one per booking and reviewer. The
    `renter_reviews` table is a map keyed by id. */
module RenterReviews {
  import opened Wrappers
  import Bookings

  const NotEnded: string := "Reviews can only be made for ended bookings"
  const InvalidParties: string := "Invalid reviewer or reviewed user"
  const AlreadyExists: string := "Review already exists for this booking"
  const ReviewNotFound: string := "Review not found"
  const ReviewDeleted: string := "Review deleted successfully"

  /** A `renter_reviews` row; a score or comment the request left out is null. */
  datatype RenterReview = RenterReview(
    id: string,
    bookingId: string,
    reviewerId: string,
    reviewedId: string,
    punctuality: Option<int>,
    communication: Option<int>,
    propertyCare: Option<int>,
    compliance: Option<int>,
    comment: Option<string>,
    createdAt: int,
    updatedAt: Option<int>)

  type Table = map<string, RenterReview>

  /** The scores and comment of a `POST /` or `PUT /:id` body. */
  datatype Content = Content(
    punctuality: Field<int>, communication: Field<int>, propertyCare: Field<int>,
    compliance: Field<int>, comment: Field<string>)

  datatype PostRequest = PostRequest(
    bookingId: Field<string>, reviewerId: Field<string>, reviewedId: Field<string>, content: Content)

  /** Whether a stored review already belongs to this booking and reviewer. */
  predicate HasReview(t: Table, bookingId: string, reviewerId: string) {
    exists k :: k in t && t[k].bookingId == bookingId && t[k].reviewerId == reviewerId
  }

  /** `review` with the scores and comment of `c`, each missing one stored as null. */
  function WithContent(review: RenterReview, c: Content): (v: RenterReview)
    ensures v.punctuality == c.punctuality.ToOption() && v.communication == c.communication.ToOption()
    ensures v.propertyCare == c.propertyCare.ToOption() && v.compliance == c.compliance.ToOption()
    ensures v.comment == c.comment.ToOption()
    ensures v.id == review.id && v.bookingId == review.bookingId && v.reviewerId == review.reviewerId
    ensures v.reviewedId == review.reviewedId && v.createdAt == review.createdAt && v.updatedAt == review.updatedAt
  {
    review.(punctuality := c.punctuality.ToOption(), communication := c.communication.ToOption(),
            propertyCare := c.propertyCare.ToOption(), compliance := c.compliance.ToOption(),
            comment := c.comment.ToOption())
  }

  /** Every check `POST /` makes, as one condition. */
  predicate Admissible(bookings: Bookings.Table, t: Table, req: PostRequest) {
    req.bookingId.Given? && req.bookingId.value in bookings &&
    var b := bookings[req.bookingId.value];
    b.status == Bookings.Ended &&
    req.reviewerId == Given(b.hostId) && req.reviewedId == Given(b.guestId) &&
    !HasReview(t, req.bookingId.value, b.hostId)
  }

  /** `POST /`: the booking must exist and have ended, the reviewer must be its
      host and the reviewed user its guest, and the host must not have reviewed
      this booking already. */
  function Post(bookings: Bookings.Table, t: Table, req: PostRequest, newId: string, now: int): (r: Response<RenterReview>)
    ensures !req.bookingId.Given? || req.bookingId.value !in bookings ==> r == Failure(404, Bookings.BookingNotFound)
  {
    if !req.bookingId.Given? || req.bookingId.value !in bookings then Failure(404, Bookings.BookingNotFound)
    else
      var b := bookings[req.bookingId.value];
      if b.status != Bookings.Ended then Failure(400, NotEnded)
      else if req.reviewerId != Given(b.hostId) || req.reviewedId != Given(b.guestId) then Failure(400, InvalidParties)
      else if HasReview(t, req.bookingId.value, b.hostId) then Failure(400, AlreadyExists)
      else
        Success(200, WithContent(RenterReview(newId, req.bookingId.value, b.hostId, b.guestId, None, None, None, None, None, now, None),
                                 req.content))
  }

  /** A review is stored exactly when every check passes, and then its author is
      the booking's host and its subject the booking's guest. */
  lemma PostAdmitsExactly(bookings: Bookings.Table, t: Table, req: PostRequest, newId: string, now: int)
    ensures Post(bookings, t, req, newId, now).Success? <==> Admissible(bookings, t, req)
    ensures Post(bookings, t, req, newId, now).Success? ==>
      var v := Post(bookings, t, req, newId, now).value;
      v.id == newId && v.bookingId in bookings &&
      bookings[v.bookingId].status == Bookings.Ended &&
      v.reviewerId == bookings[v.bookingId].hostId && v.reviewedId == bookings[v.bookingId].guestId &&
      v.punctuality == req.content.punctuality.ToOption() && v.communication == req.content.communication.ToOption() &&
      v.propertyCare == req.content.propertyCare.ToOption() && v.compliance == req.content.compliance.ToOption() &&
      v.comment == req.content.comment.ToOption() && v.createdAt == now && v.updatedAt.None?
  {
  }

  /** The stored reviews are unique per (booking, reviewer). */
  predicate UniquePairs(t: Table) {
    forall j, k :: j in t && k in t && j != k ==> (t[j].bookingId, t[j].reviewerId) != (t[k].bookingId, t[k].reviewerId)
  }

  /** Storing an admitted review under a fresh id keeps the pairs unique. */
  lemma PostKeepsPairsUnique(bookings: Bookings.Table, t: Table, req: PostRequest, newId: string, now: int)
    requires UniquePairs(t) && newId !in t
    requires Post(bookings, t, req, newId, now).Success?
    ensures UniquePairs(t[newId := Post(bookings, t, req, newId, now).value])
  {
    var v := Post(bookings, t, req, newId, now).value;
    var t' := t[newId := v];
    assert !HasReview(t, v.bookingId, v.reviewerId);
    forall j, k | j in t' && k in t' && j != k
      ensures (t'[j].bookingId, t'[j].reviewerId) != (t'[k].bookingId, t'[k].reviewerId)
    {
      if j == newId {
        assert t'[k] == t[k];
      } else if k == newId {
        assert t'[j] == t[j];
      }
    }
  }

  /** Once a host's review of a booking is stored, a second one is refused. */
  lemma SecondPostRefused(bookings: Bookings.Table, t: Table, req: PostRequest, again: PostRequest,
                          newId: string, otherId: string, now: int, later: int)
    requires Post(bookings, t, req, newId, now).Success?
    requires again.bookingId == req.bookingId && again.reviewerId == req.reviewerId && again.reviewedId == req.reviewedId
    ensures Post(bookings, t[newId := Post(bookings, t, req, newId, now).value], again, otherId, later) == Failure(400, AlreadyExists)
  {
    var v := Post(bookings, t, req, newId, now).value;
    assert HasReview(t[newId := v], v.bookingId, v.reviewerId) by { assert newId in t[newId := v]; }
  }

  /** `PUT /:id`: every score and the comment are overwritten, missing ones with
      null; an unknown id is 404. */
  function Put(t: Table, id: string, c: Content, now: int): (r: Response<RenterReview>)
    ensures r.Failure? <==> id !in t
    ensures r.Failure? ==> r == Failure(404, ReviewNotFound)
    ensures r.Success? ==> r.value == WithContent(t[id], c).(updatedAt := Some(now))
  {
    if id !in t then Failure(404, ReviewNotFound) else Success(200, WithContent(t[id], c).(updatedAt := Some(now)))
  }

  /** Unlike the host reviews' update, an update that leaves a score out erases it. */
  lemma PutErasesOmittedScores(t: Table, id: string, c: Content, now: int)
    requires id in t && c.punctuality.Undefined?
    ensures Put(t, id, c, now).Success? && Put(t, id, c, now).value.punctuality.None?
  {
  }

  /** `DELETE /:id ... RETURNING *`: 404 when no row was removed. */
  function Delete(t: Table, id: string): (r: Response<string>)
    ensures r.Failure? <==> id !in t
    ensures r.Failure? ==> r == Failure(404, ReviewNotFound)
    ensures r.Success? ==> r == Success(200, ReviewDeleted)
  {
    if id !in t then Failure(404, ReviewNotFound) else Success(200, ReviewDeleted)
  }

  class RenterReviewRoutes {
    var reviews: Table
    const bookings: Bookings.Table

    constructor (reviews: Table, bookings: Bookings.Table)
      ensures this.reviews == reviews && this.bookings == bookings
    {
      this.reviews := reviews;
      this.bookings := bookings;
    }

    /** `POST /`; the fresh id stands for the database's generated key. */
    method CreateReview(req: PostRequest, newId: string, now: int) returns (r: Response<RenterReview>)
      requires newId !in reviews
      modifies this
      ensures r == Post(bookings, old(reviews), req, newId, now)
      ensures reviews == if r.Success? then old(reviews)[newId := r.value] else old(reviews)
    {
      r := Post(bookings, reviews, req, newId, now);
      if r.Success? {
        reviews := reviews[newId := r.value];
      }
    }

    /** `PUT /:id`. */
    method UpdateReview(id: string, c: Content, now: int) returns (r: Response<RenterReview>)
      modifies this
      ensures r == Put(old(reviews), id, c, now)
      ensures reviews == if r.Success? then old(reviews)[id := r.value] else old(reviews)
    {
      r := Put(reviews, id, c, now);
      if r.Success? {
        reviews := reviews[id := r.value];
      }
    }

    /** `DELETE /:id`. */
    method DeleteReview(id: string) returns (r: Response<string>)
      modifies this
      ensures r == Delete(old(reviews), id)
      ensures reviews == old(reviews) - {id}
    {
      r := Delete(reviews, id);
      reviews := reviews - {id};
    }
  }
}
