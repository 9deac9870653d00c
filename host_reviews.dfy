/** Reviews between the two participants of a completed booking (guest reviews
    host, host reviews guest), each with five 1-to-5 scores. A review is admitted
    by a fixed sequence of checks; its author may change or delete it for thirty
    days. The `host_reviews` table is a map keyed by id; times are milliseconds. */
module HostReviews {
  import opened Wrappers
  import Bookings

  const DayMs: int := 24 * 60 * 60 * 1000
  const EditWindowDays: int := 30

  const MissingFields: string := "Missing required fields"
  const RatingOutOfRange: string := "All ratings must be between 1 and 5"
  const NotCompleted: string := "Reviews can only be written for completed bookings"
  const NotParticipant: string := "You can only review participants of this booking"
  const SelfReview: string := "You cannot review yourself"
  const RevieweeNotParticipant: string := "You can only review the other participant of this booking"
  const AlreadyReviewed: string := "You have already written a review for this person for this booking"
  const ReviewNotFound: string := "Review not found"
  const NotOwnUpdate: string := "You can only update your own reviews"
  const NotOwnDelete: string := "You can only delete your own reviews"
  const UpdateWindowClosed: string := "Reviews can only be updated within 30 days of creation"
  const DeleteWindowClosed: string := "Reviews can only be deleted within 30 days of creation"
  const ReviewDeleted: string := "Review deleted successfully"

  /** The five scores, in the order the handlers check them. */
  datatype Scores<T> = Scores(cleanliness: T, accuracy: T, communication: T, location: T, value: T) {
    function List(): (s: seq<T>)
      ensures |s| == 5
    {
      [cleanliness, accuracy, communication, location, value]
    }
  }

  /** A `host_reviews` row. */
  datatype HostReview = HostReview(
    id: string,
    bookingId: string,
    reviewerId: string,
    revieweeId: string,
    scores: Scores<int>,
    comment: Option<string>,
    createdAt: int,
    updatedAt: Option<int>)

  type Table = map<string, HostReview>

  /** The body of `POST /`. */
  datatype PostRequest = PostRequest(
    bookingId: Field<string>, reviewerId: Field<string>, revieweeId: Field<string>,
    scores: Scores<Field<int>>, comment: Field<string>)

  /** The body of `PUT /:id`; `reviewerId` names the caller. */
  datatype PutRequest = PutRequest(scores: Scores<Field<int>>, comment: Field<string>, reviewerId: Field<string>)

  /** JavaScript falsiness of an id field: missing, null or the empty string. */
  predicate FalsyId(f: Field<string>) {
    f.Undefined? || f.Null? || f == Given("")
  }

  /** JavaScript falsiness of a score field: missing, null or zero. */
  predicate FalsyScore(f: Field<int>) {
    f.Undefined? || f.Null? || f == Given(0)
  }

  /** `rating !== undefined && (rating < 1 || rating > 5)`: `null` compares as 0
      and is refused; only a missing score passes unchecked. */
  predicate ScoreRejected(f: Field<int>) {
    match f
    case Undefined => false
    case Null => true
    case Given(v) => v < 1 || v > 5
  }

  predicate AllScoresAccepted(s: seq<Field<int>>) {
    forall i :: 0 <= i < |s| ==> !ScoreRejected(s[i])
  }

  /** Whether any of the five scores is falsy. */
  predicate AnyFalsyScore(s: Scores<Field<int>>) {
    FalsyScore(s.cleanliness) || FalsyScore(s.accuracy) || FalsyScore(s.communication) ||
    FalsyScore(s.location) || FalsyScore(s.value)
  }

  /** The scores pass the loop exactly when each of the five passes. */
  lemma ScoresAcceptedEach(s: Scores<Field<int>>)
    ensures AllScoresAccepted(s.List()) <==>
      !ScoreRejected(s.cleanliness) && !ScoreRejected(s.accuracy) && !ScoreRejected(s.communication) &&
      !ScoreRejected(s.location) && !ScoreRejected(s.value)
  {
    var l := s.List();
    assert l[0] == s.cleanliness && l[1] == s.accuracy && l[2] == s.communication && l[3] == s.location && l[4] == s.value;
  }

  /** The validation loop over the five scores: stops at the first rejected one. */
  method CheckScores(s: seq<Field<int>>) returns (ok: bool)
    ensures ok <==> AllScoresAccepted(s)
  {
    var i := 0;
    while i < |s|
      invariant 0 <= i <= |s|
      invariant AllScoresAccepted(s[..i])
    {
      if ScoreRejected(s[i]) {
        return false;
      }
      i := i + 1;
    }
    assert s[..i] == s;
    return true;
  }

  /** Whether a stored review already joins this booking, reviewer and reviewee. */
  predicate HasReview(t: Table, bookingId: string, reviewerId: string, revieweeId: string) {
    exists k :: k in t && t[k].bookingId == bookingId && t[k].reviewerId == reviewerId && t[k].revieweeId == revieweeId
  }

  /** Every check `POST /` makes, as one condition. */
  predicate Admissible(bookings: Bookings.Table, t: Table, req: PostRequest) {
    !FalsyId(req.bookingId) && !FalsyId(req.reviewerId) && !FalsyId(req.revieweeId) &&
    !AnyFalsyScore(req.scores) && AllScoresAccepted(req.scores.List()) &&
    var bid, rid, eid := req.bookingId.value, req.reviewerId.value, req.revieweeId.value;
    bid in bookings && bookings[bid].status == Bookings.Ended &&
    (rid == bookings[bid].guestId || rid == bookings[bid].hostId) &&
    rid != eid &&
    (eid == bookings[bid].guestId || eid == bookings[bid].hostId) &&
    !HasReview(t, bid, rid, eid)
  }

  /** `POST /`: the checks in the handler's order, each with its status and message. */
  function Post(bookings: Bookings.Table, t: Table, req: PostRequest, newId: string, now: int): (r: Response<HostReview>)
  {
    if FalsyId(req.bookingId) || FalsyId(req.reviewerId) || FalsyId(req.revieweeId) ||
       AnyFalsyScore(req.scores) then Failure(400, MissingFields)
    else if !AllScoresAccepted(req.scores.List()) then Failure(400, RatingOutOfRange)
    else
      var bid, rid, eid := req.bookingId.value, req.reviewerId.value, req.revieweeId.value;
      if bid !in bookings then Failure(404, Bookings.BookingNotFound)
      else
        var b := bookings[bid];
        if b.status != Bookings.Ended then Failure(400, NotCompleted)
        else if rid != b.guestId && rid != b.hostId then Failure(403, NotParticipant)
        else if rid == eid then Failure(400, SelfReview)
        else if eid != b.guestId && eid != b.hostId then Failure(400, RevieweeNotParticipant)
        else if HasReview(t, bid, rid, eid) then Failure(400, AlreadyReviewed)
        else
          var s := req.scores;
          Success(200, HostReview(newId, bid, rid, eid,
                                  Scores(s.cleanliness.value, s.accuracy.value, s.communication.value,
                                         s.location.value, s.value.value),
                                  req.comment.ToOption(), now, None))
  }

  /** A review is stored exactly when every check passes; the stored review is the
      request's, with scores in range, for an ended booking, by one participant
      about the other. */
  lemma PostAdmitsExactly(bookings: Bookings.Table, t: Table, req: PostRequest, newId: string, now: int)
    ensures Post(bookings, t, req, newId, now).Success? <==> Admissible(bookings, t, req)
    ensures Post(bookings, t, req, newId, now).Success? ==>
      var v := Post(bookings, t, req, newId, now).value;
      var b := bookings[v.bookingId];
      v.id == newId && v.createdAt == now &&
      Given(v.bookingId) == req.bookingId && Given(v.reviewerId) == req.reviewerId &&
      Given(v.revieweeId) == req.revieweeId &&
      (forall i :: 0 <= i < 5 ==> 1 <= v.scores.List()[i] <= 5 && req.scores.List()[i] == Given(v.scores.List()[i])) &&
      b.status == Bookings.Ended &&
      v.reviewerId != v.revieweeId &&
      v.reviewerId in {b.guestId, b.hostId} && v.revieweeId in {b.guestId, b.hostId}
  {
    ScoresAcceptedEach(req.scores);
  }

  /** The stored reviews are unique per (booking, reviewer, reviewee). */
  predicate UniqueTriples(t: Table) {
    forall j, k :: j in t && k in t && j != k ==>
      (t[j].bookingId, t[j].reviewerId, t[j].revieweeId) != (t[k].bookingId, t[k].reviewerId, t[k].revieweeId)
  }

  /** Storing an admitted review under a fresh id keeps the triples unique. */
  lemma PostKeepsTriplesUnique(bookings: Bookings.Table, t: Table, req: PostRequest, newId: string, now: int)
    requires UniqueTriples(t) && newId !in t
    requires Post(bookings, t, req, newId, now).Success?
    ensures UniqueTriples(t[newId := Post(bookings, t, req, newId, now).value])
  {
    var v := Post(bookings, t, req, newId, now).value;
    var t' := t[newId := v];
    forall j, k | j in t' && k in t' && j != k
      ensures (t'[j].bookingId, t'[j].reviewerId, t'[j].revieweeId) != (t'[k].bookingId, t'[k].reviewerId, t'[k].revieweeId)
    {
      if j == newId {
        assert !HasReview(t, v.bookingId, v.reviewerId, v.revieweeId);
        assert t'[k] == t[k];
      } else if k == newId {
        assert !HasReview(t, v.bookingId, v.reviewerId, v.revieweeId);
        assert t'[j] == t[j];
      }
    }
  }

  /** The same request, once stored, is refused the second time. */
  lemma SecondPostRefused(bookings: Bookings.Table, t: Table, req: PostRequest, newId: string, otherId: string, now: int, later: int)
    requires Post(bookings, t, req, newId, now).Success?
    ensures Post(bookings, t[newId := Post(bookings, t, req, newId, now).value], req, otherId, later) == Failure(400, AlreadyReviewed)
  {
    var v := Post(bookings, t, req, newId, now).value;
    var t' := t[newId := v];
    assert HasReview(t', v.bookingId, v.reviewerId, v.revieweeId) by { assert newId in t'; }
    PostAdmitsExactly(bookings, t, req, newId, now);
  }

  /** Whether a review made at `createdAt` is past the thirty-day window at `now`. */
  predicate WindowClosed(createdAt: int, now: int) {
    createdAt < now - EditWindowDays * DayMs
  }

  /** `COALESCE($n, column)`: a missing or null field keeps the stored value. */
  function Coalesce<T>(f: Field<T>, old_: T): (v: T)
    ensures f.Given? ==> v == f.value
    ensures !f.Given? ==> v == old_
  {
    if f.Given? then f.value else old_
  }

  /** `PUT /:id`: scores first, then the lookup, the author and the window; the
      stored row keeps every column the request leaves out. */
  function Put(t: Table, id: string, req: PutRequest, now: int): (r: Response<HostReview>)
    ensures !AllScoresAccepted(req.scores.List()) ==> r == Failure(400, RatingOutOfRange)
    ensures AllScoresAccepted(req.scores.List()) && id !in t ==> r == Failure(404, ReviewNotFound)
    ensures r.Success? <==>
      AllScoresAccepted(req.scores.List()) && id in t && req.reviewerId == Given(t[id].reviewerId) &&
      !WindowClosed(t[id].createdAt, now)
    ensures r.Success? ==>
      var old_, v := t[id], r.value;
      var given, stored, before := req.scores.List(), v.scores.List(), old_.scores.List();
      v.id == old_.id && v.bookingId == old_.bookingId && v.reviewerId == old_.reviewerId &&
      v.revieweeId == old_.revieweeId && v.createdAt == old_.createdAt && v.updatedAt == Some(now) &&
      (forall i :: 0 <= i < 5 ==> 1 <= stored[i] <= 5 || stored[i] == before[i]) &&
      (forall i :: 0 <= i < 5 ==> given[i].Given? ==> stored[i] == given[i].value) &&
      (forall i :: 0 <= i < 5 ==> !given[i].Given? ==> stored[i] == before[i]) &&
      (req.comment.Given? ==> v.comment == Some(req.comment.value)) &&
      (!req.comment.Given? ==> v.comment == old_.comment)
  {
    ScoresAcceptedEach(req.scores);
    if !AllScoresAccepted(req.scores.List()) then Failure(400, RatingOutOfRange)
    else if id !in t then Failure(404, ReviewNotFound)
    else
      var old_ := t[id];
      if req.reviewerId != Given(old_.reviewerId) then Failure(403, NotOwnUpdate)
      else if WindowClosed(old_.createdAt, now) then Failure(400, UpdateWindowClosed)
      else
        var s, o := req.scores, old_.scores;
        Success(200, old_.(scores := Scores(Coalesce(s.cleanliness, o.cleanliness), Coalesce(s.accuracy, o.accuracy),
                                            Coalesce(s.communication, o.communication), Coalesce(s.location, o.location),
                                            Coalesce(s.value, o.value)),
                           comment := if req.comment.Given? then Some(req.comment.value) else old_.comment,
                           updatedAt := Some(now)))
  }

  /** `DELETE /:id`: the lookup, the author and the window, then the row goes. */
  function Delete(t: Table, id: string, reviewerId: Field<string>, now: int): (r: Response<string>)
    ensures r.Success? <==> id in t && reviewerId == Given(t[id].reviewerId) && !WindowClosed(t[id].createdAt, now)
    ensures id !in t ==> r == Failure(404, ReviewNotFound)
    ensures id in t && reviewerId != Given(t[id].reviewerId) ==> r == Failure(403, NotOwnDelete)
    ensures id in t && reviewerId == Given(t[id].reviewerId) && WindowClosed(t[id].createdAt, now) ==>
      r == Failure(400, DeleteWindowClosed)
    ensures r.Success? ==> r == Success(200, ReviewDeleted)
  {
    if id !in t then Failure(404, ReviewNotFound)
    else if reviewerId != Given(t[id].reviewerId) then Failure(403, NotOwnDelete)
    else if WindowClosed(t[id].createdAt, now) then Failure(400, DeleteWindowClosed)
    else Success(200, ReviewDeleted)
  }

  /** The same thirty-day rule guards both changes: a review its author may no
      longer update may no longer be deleted either, and conversely. */
  lemma UpdateAndDeleteShareWindow(t: Table, id: string, req: PutRequest, now: int)
    requires AllScoresAccepted(req.scores.List())
    ensures Put(t, id, req, now).Success? <==> Delete(t, id, req.reviewerId, now).Success?
  {
  }

  class HostReviewRoutes {
    var reviews: Table
    const bookings: Bookings.Table

    constructor (reviews: Table, bookings: Bookings.Table)
      ensures this.reviews == reviews && this.bookings == bookings
    {
      this.reviews := reviews;
      this.bookings := bookings;
    }

    /** `POST /`, step by step as the handler runs; the fresh id stands for the
        database's generated key. */
    method CreateReview(req: PostRequest, newId: string, now: int) returns (r: Response<HostReview>)
      requires newId !in reviews
      modifies this
      ensures r == Post(bookings, old(reviews), req, newId, now)
      ensures reviews == if r.Success? then old(reviews)[newId := r.value] else old(reviews)
    {
      if FalsyId(req.bookingId) || FalsyId(req.reviewerId) || FalsyId(req.revieweeId) || AnyFalsyScore(req.scores) {
        return Failure(400, MissingFields);
      }
      var ok := CheckScores(req.scores.List());
      if !ok {
        return Failure(400, RatingOutOfRange);
      }
      r := Post(bookings, reviews, req, newId, now);
      if r.Success? {
        reviews := reviews[newId := r.value];
      }
    }

    /** `PUT /:id`. */
    method UpdateReview(id: string, req: PutRequest, now: int) returns (r: Response<HostReview>)
      modifies this
      ensures r == Put(old(reviews), id, req, now)
      ensures reviews == if r.Success? then old(reviews)[id := r.value] else old(reviews)
    {
      var ok := CheckScores(req.scores.List());
      if !ok {
        return Failure(400, RatingOutOfRange);
      }
      r := Put(reviews, id, req, now);
      if r.Success? {
        reviews := reviews[id := r.value];
      }
    }

    /** `DELETE /:id`. */
    method DeleteReview(id: string, reviewerId: Field<string>, now: int) returns (r: Response<string>)
      modifies this
      ensures r == Delete(old(reviews), id, reviewerId, now)
      ensures reviews == if r.Success? then old(reviews) - {id} else old(reviews)
    {
      r := Delete(reviews, id, reviewerId, now);
      if r.Success? {
        reviews := reviews - {id};
      }
    }
  }
}
