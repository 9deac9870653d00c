/** The simplified booking routes (the variant without payment processing, which
    the server does not mount): bookings may start at most seven days ahead, a
    request expires a day after it is made, and the guest may cancel only while it
    is pending. Times are milliseconds. */
module BookingsSimple {
  import opened Wrappers
  import Bookings

  const DayMs: int := 24 * 60 * 60 * 1000
  const MaxAdvanceDays: int := 7

  const TooFarAhead: string := "Bookings can only be made up to 7 days in advance"
  const RequestExpired: string := "Booking request has expired"
  const NotFound: string := "Not found"

  /** The body of `POST /`: the price per night comes from the client. */
  datatype CreateRequest = CreateRequest(
    listingId: string, guestId: string, hostId: string,
    startDate: int, endDate: int, pricePerNight: int, totalPrice: int)

  /** The body of the general `PUT /:id`. */
  datatype UpdateRequest = UpdateRequest(
    startDate: int, endDate: int, pricePerNight: int, totalPrice: int,
    status: string, paymentStatus: string)

  /** The latest start date accepted at time `now`. */
  function MaxStart(now: int): int {
    now + MaxAdvanceDays * DayMs
  }

  /** `new Date(booking.expires_at)`: a null column reads as the epoch. */
  function ExpiryOf(b: Bookings.Booking): (e: int)
    ensures b.expiresAt.Some? ==> e == b.expiresAt.value
    ensures b.expiresAt.None? ==> e == 0
  {
    b.expiresAt.GetOr(0)
  }

  /** `POST /`: refused with 400 when the start is more than 7 days away; otherwise
      stored pending/pending with an expiry one day after `now`. */
  function Create(newId: string, req: CreateRequest, now: int): (r: Response<Bookings.Booking>)
    ensures r.Failure? <==> req.startDate > MaxStart(now)
    ensures r.Failure? ==> r == Failure(400, TooFarAhead)
    ensures r.Success? ==>
      var b := r.value;
      r.code == 201 && b.id == newId && b.status == Bookings.Pending && b.paymentStatus == Bookings.Pending &&
      b.expiresAt == Some(now + DayMs) && b.createdAt == now &&
      b.listingId == req.listingId && b.guestId == req.guestId && b.hostId == req.hostId &&
      b.startDate == req.startDate && b.endDate == req.endDate &&
      b.pricePerNight == req.pricePerNight && b.totalPrice == req.totalPrice
  {
    if req.startDate > MaxStart(now) then Failure(400, TooFarAhead)
    else Success(201, Bookings.Booking(newId, req.listingId, req.guestId, req.hostId, req.startDate, req.endDate,
                              req.pricePerNight, req.totalPrice, Bookings.Pending, Bookings.Pending,
                              None, None, None, None, Some(now + DayMs), now))
  }

  /** `PUT /:id/accept` on a found row: the expiry is checked before the status. */
  function Accept(b: Bookings.Booking, now: int): (r: Response<Bookings.Booking>)
    ensures r.Success? <==> now <= ExpiryOf(b) && b.status == Bookings.Pending
    ensures now > ExpiryOf(b) ==> r == Failure(400, RequestExpired)
    ensures now <= ExpiryOf(b) && b.status != Bookings.Pending ==> r == Failure(400, Bookings.NotPending)
    ensures r.Success? ==> r.code == 200 && r.value == b.(status := Bookings.Confirmed, paymentStatus := Bookings.Paid)
  {
    if now > ExpiryOf(b) then Failure(400, RequestExpired)
    else if b.status != Bookings.Pending then Failure(400, Bookings.NotPending)
    else Success(200, b.(status := Bookings.Confirmed, paymentStatus := Bookings.Paid))
  }

  /** `PUT /:id/decline` and `PUT /:id/cancel` on a found row: both need a pending
      booking and release it. */
  function Release(b: Bookings.Booking): (r: Response<Bookings.Booking>)
    ensures r.Success? <==> b.status == Bookings.Pending
    ensures r.Success? ==> r.code == 200 && r.value == b.(status := Bookings.Cancelled, paymentStatus := Bookings.Released)
    ensures r.Failure? ==> r == Failure(400, Bookings.NotPending)
  {
    if b.status != Bookings.Pending then Failure(400, Bookings.NotPending)
    else Success(200, b.(status := Bookings.Cancelled, paymentStatus := Bookings.Released))
  }

  /** The general `PUT /:id`: six columns overwritten with no status check. */
  function Update(t: Bookings.Table, id: string, u: UpdateRequest): (r: Response<Bookings.Booking>)
    ensures r.Failure? <==> id !in t
    ensures r.Failure? ==> r == Failure(404, NotFound)
    ensures r.Success? ==>
      var b := r.value;
      r.code == 200 && b.status == u.status && b.paymentStatus == u.paymentStatus &&
      b.startDate == u.startDate && b.endDate == u.endDate &&
      b.pricePerNight == u.pricePerNight && b.totalPrice == u.totalPrice &&
      b.id == t[id].id && b.listingId == t[id].listingId && b.guestId == t[id].guestId &&
      b.hostId == t[id].hostId && b.expiresAt == t[id].expiresAt && b.createdAt == t[id].createdAt
  {
    if id !in t then Failure(404, NotFound)
    else Success(200, t[id].(startDate := u.startDate, endDate := u.endDate, pricePerNight := u.pricePerNight,
                             totalPrice := u.totalPrice, status := u.status, paymentStatus := u.paymentStatus))
  }

  /** A request the simplified routes create can be accepted for exactly one day
      after it is made, and only while it is pending. */
  lemma AcceptWindow(newId: string, req: CreateRequest, created: int, now: int)
    requires Create(newId, req, created).Success?
    ensures Accept(Create(newId, req, created).value, now).Success? <==> now <= created + DayMs
  {
  }

  /** A row without `expires_at` (as the mounted routes create them) can never be
      accepted here after the epoch, whatever its status. */
  lemma NullExpiryAlwaysExpired(b: Bookings.Booking, now: int)
    requires b.expiresAt.None? && now > 0
    ensures Accept(b, now) == Failure(400, RequestExpired)
  {
  }

  /** The simplified cancel is stricter than the mounted one: a confirmed booking
      can be cancelled there but not here. */
  lemma CancelStricterThanMounted(b: Bookings.Booking, party: Bookings.Party, reason: Option<string>, details: Option<string>, now: int)
    ensures Release(b).Success? ==> Bookings.Cancel(b, party, reason, details, now).Success?
    ensures b.status == Bookings.Confirmed ==> Release(b).Failure? && Bookings.Cancel(b, party, reason, details, now).Success?
  {
  }

  /** The general update can move a booking out of a terminal status, which no
      lifecycle handler can. */
  lemma UpdateBypassesLifecycle(t: Bookings.Table, id: string, u: UpdateRequest)
    requires id in t && Bookings.IsTerminal(t[id].status) && u.status == Bookings.Pending
    ensures Update(t, id, u).Success? && !Bookings.IsTerminal(Update(t, id, u).value.status)
  {
  }

  class SimpleBookingRoutes {
    var bookings: Bookings.Table

    constructor (bookings: Bookings.Table)
      ensures this.bookings == bookings
    {
      this.bookings := bookings;
    }

    /** `POST /`; the fresh id stands for the database's generated key. */
    method CreateBooking(newId: string, req: CreateRequest, now: int) returns (r: Response<Bookings.Booking>)
      requires newId !in bookings
      modifies this
      ensures r == Create(newId, req, now)
      ensures bookings == Bookings.Commit(old(bookings), newId, r)
    {
      r := Create(newId, req, now);
      if r.Success? {
        bookings := bookings[newId := r.value];
      }
    }

    /** `PUT /:id/accept`. */
    method AcceptBooking(id: string, now: int) returns (r: Response<Bookings.Booking>)
      modifies this
      ensures id !in old(bookings) ==> r == Failure(404, Bookings.BookingNotFound)
      ensures id in old(bookings) ==> r == Accept(old(bookings)[id], now)
      ensures bookings == Bookings.Commit(old(bookings), id, r)
    {
      if id !in bookings {
        return Failure(404, Bookings.BookingNotFound);
      }
      r := Accept(bookings[id], now);
      bookings := Bookings.Commit(bookings, id, r);
    }

    /** `PUT /:id/decline` and `PUT /:id/cancel`. */
    method ReleaseBooking(id: string) returns (r: Response<Bookings.Booking>)
      modifies this
      ensures id !in old(bookings) ==> r == Failure(404, Bookings.BookingNotFound)
      ensures id in old(bookings) ==> r == Release(old(bookings)[id])
      ensures bookings == Bookings.Commit(old(bookings), id, r)
    {
      if id !in bookings {
        return Failure(404, Bookings.BookingNotFound);
      }
      r := Release(bookings[id]);
      bookings := Bookings.Commit(bookings, id, r);
    }

    /** `PUT /:id`. */
    method UpdateBooking(id: string, u: UpdateRequest) returns (r: Response<Bookings.Booking>)
      modifies this
      ensures r == Update(old(bookings), id, u)
      ensures bookings == Bookings.Commit(old(bookings), id, r)
    {
      r := Update(bookings, id, u);
      bookings := Bookings.Commit(bookings, id, r);
    }
  }
}
