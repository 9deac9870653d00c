/** The booking lifecycle of the mounted booking routes. The `bookings` table is a
    map keyed by id and the `listings` table is seen only through each listing's
    nightly price. A booking is created `pending`; the host accepts or declines it;
    guest or host may cancel it while it is pending or confirmed; the host ends a
    confirmed one. `cancelled` and `ended` are terminal. */
module Bookings {
  import opened Wrappers
  import Strings

  const Pending: string := "pending"
  const Confirmed: string := "confirmed"
  const Cancelled: string := "cancelled"
  const Ended: string := "ended"
  const Paid: string := "paid"
  const Released: string := "released"

  const BookingNotFound: string := "Booking not found"
  const ListingNotFound: string := "Listing not found"
  const NotPending: string := "Booking is not in pending status"
  const NotCancellable: string := "Booking cannot be cancelled in current status"
  const NotEndable: string := "Only confirmed bookings can be ended"
  /** The body of Express's answer to a request no route matches. */
  const NoRoute: string := "Cannot PUT"

  /** A `bookings` row. Dates and timestamps are integers; `expiresAt` is set only
      by the simplified routes. */
  datatype Booking = Booking(
    id: string,
    listingId: string,
    guestId: string,
    hostId: string,
    startDate: int,
    endDate: int,
    pricePerNight: int,
    totalPrice: int,
    status: string,
    paymentStatus: string,
    cancellationReason: Option<string>,
    cancellationDetails: Option<string>,
    cancelledBy: Option<string>,
    cancelledAt: Option<int>,
    expiresAt: Option<int>,
    createdAt: int)

  type Table = map<string, Booking>

  /** The body of `POST /`. */
  datatype CreateRequest = CreateRequest(
    listingId: string, guestId: string, hostId: string,
    checkIn: int, checkOut: int, totalPrice: int)

  /** Who cancels, as recorded in `cancelled_by`. */
  datatype Party = Guest | Host

  function PartyName(p: Party): (s: string)
    ensures s == "guest" || s == "host"
    ensures s == "guest" <==> p == Guest
  {
    match p
    case Guest => "guest"
    case Host => "host"
  }

  /** The four status-changing requests a stored booking can receive. */
  datatype Action =
    | AcceptAction
    | DeclineAction
    | CancelAction(party: Party, reason: Option<string>, details: Option<string>)
    | EndAction

  /** The lifecycle the handlers are meant to follow, as a set of edges. */
  predicate LifecycleEdge(from: string, to: string) {
    (from == Pending && to == Confirmed) ||
    (from == Pending && to == Cancelled) ||
    (from == Confirmed && to == Cancelled) ||
    (from == Confirmed && to == Ended)
  }

  predicate IsTerminal(status: string) {
    status == Cancelled || status == Ended
  }

  /** Whether two rows agree on everything but the lifecycle columns. */
  predicate SameReservation(a: Booking, b: Booking) {
    a.id == b.id && a.listingId == b.listingId && a.guestId == b.guestId && a.hostId == b.hostId &&
    a.startDate == b.startDate && a.endDate == b.endDate &&
    a.pricePerNight == b.pricePerNight && a.totalPrice == b.totalPrice &&
    a.expiresAt == b.expiresAt && a.createdAt == b.createdAt
  }

  /** The row lookup every `/:id` handler starts with. */
  function Find(t: Table, id: string): (r: Response<Booking>)
    ensures r.Success? <==> id in t
    ensures r.Success? ==> r.code == 200 && r.value == t[id]
    ensures r.Failure? ==> r == Failure(404, BookingNotFound)
  {
    if id in t then Success(200, t[id]) else Failure(404, BookingNotFound)
  }

  /** `GET /user/:userId`: the rows where the user is the guest or the host. The
      `ORDER BY created_at DESC` is not modelled: the table has no order. */
  function UserBookings(t: Table, userId: string): set<Booking> {
    set id | id in t && (t[id].guestId == userId || t[id].hostId == userId) :: t[id]
  }

  /** A user sees exactly the bookings they are a party to: every stored row with
      the user as guest or host is listed, and every listed row is such a row. */
  lemma UserBookingsExact(t: Table, userId: string)
    ensures forall id :: id in t && (t[id].guestId == userId || t[id].hostId == userId) ==>
      t[id] in UserBookings(t, userId)
    ensures forall b :: b in UserBookings(t, userId) ==>
      (b.guestId == userId || b.hostId == userId) && exists id :: id in t && t[id] == b
  {
  }

  /** `POST /`: the nightly price is copied from the listing, both statuses start
      `pending`; an unknown listing is refused before anything is inserted. */
  function Create(prices: map<string, int>, newId: string, req: CreateRequest, now: int): (r: Response<Booking>)
    ensures r.Failure? <==> req.listingId !in prices
    ensures r.Failure? ==> r == Failure(404, ListingNotFound)
    ensures r.Success? ==>
      var b := r.value;
      r.code == 200 && b.id == newId && b.status == Pending && b.paymentStatus == Pending &&
      b.pricePerNight == prices[req.listingId] && b.totalPrice == req.totalPrice &&
      b.listingId == req.listingId && b.guestId == req.guestId && b.hostId == req.hostId &&
      b.startDate == req.checkIn && b.endDate == req.checkOut && b.createdAt == now &&
      b.cancelledBy.None? && b.expiresAt.None?
  {
    if req.listingId !in prices then Failure(404, ListingNotFound)
    else Success(200, Booking(newId, req.listingId, req.guestId, req.hostId, req.checkIn, req.checkOut,
                              prices[req.listingId], req.totalPrice, Pending, Pending,
                              None, None, None, None, None, now))
  }

  /** `PUT /:id/accept` on a found row. */
  function Accept(b: Booking): (r: Response<Booking>)
    ensures r.Success? <==> b.status == Pending
    ensures r.Success? ==> r.code == 200 && r.value == b.(status := Confirmed, paymentStatus := Paid)
    ensures r.Failure? ==> r == Failure(400, NotPending)
  {
    if b.status != Pending then Failure(400, NotPending)
    else Success(200, b.(status := Confirmed, paymentStatus := Paid))
  }

  /** `PUT /:id/decline` on a found row. */
  function Decline(b: Booking): (r: Response<Booking>)
    ensures r.Success? <==> b.status == Pending
    ensures r.Success? ==> r.code == 200 && r.value == b.(status := Cancelled, paymentStatus := Released)
    ensures r.Failure? ==> r == Failure(400, NotPending)
  {
    if b.status != Pending then Failure(400, NotPending)
    else Success(200, b.(status := Cancelled, paymentStatus := Released))
  }

  /** `PUT /:id/cancel` (guest) and `PUT /:id/cancel-host` (host) on a found row:
      allowed from pending or confirmed; records the reason, the party and the time. */
  function Cancel(b: Booking, party: Party, reason: Option<string>, details: Option<string>, now: int): (r: Response<Booking>)
    ensures r.Success? <==> b.status == Pending || b.status == Confirmed
    ensures r.Success? ==> r.code == 200 && r.value == b.(status := Cancelled, paymentStatus := Released,
      cancellationReason := reason, cancellationDetails := details,
      cancelledBy := Some(PartyName(party)), cancelledAt := Some(now))
    ensures r.Failure? ==> r == Failure(400, NotCancellable)
  {
    if b.status != Pending && b.status != Confirmed then Failure(400, NotCancellable)
    else Success(200, b.(status := Cancelled, paymentStatus := Released,
                         cancellationReason := reason, cancellationDetails := details,
                         cancelledBy := Some(PartyName(party)), cancelledAt := Some(now)))
  }

  /** `PUT /:id/end` on a found row: only the status changes. */
  function End(b: Booking): (r: Response<Booking>)
    ensures r.Success? <==> b.status == Confirmed
    ensures r.Success? ==> r.code == 200 && r.value == b.(status := Ended)
    ensures r.Failure? ==> r == Failure(400, NotEndable)
  {
    if b.status != Confirmed then Failure(400, NotEndable) else Success(200, b.(status := Ended))
  }

  function Transition(b: Booking, a: Action, now: int): Response<Booking> {
    match a
    case AcceptAction => Accept(b)
    case DeclineAction => Decline(b)
    case CancelAction(party, reason, details) => Cancel(b, party, reason, details, now)
    case EndAction => End(b)
  }

  /** A `/:id/...` handler: look the row up, then apply the transition. */
  function Handle(t: Table, id: string, a: Action, now: int): (r: Response<Booking>)
    ensures id !in t ==> r == Failure(404, BookingNotFound)
    ensures id in t ==> r == Transition(t[id], a, now)
  {
    match Find(t, id)
    case Failure(code, message) => Failure(code, message)
    case Success(_, b) => Transition(b, a, now)
  }

  /** The action of a `PUT /:id/<name>` route, for a request body without
      cancellation fields. */
  function PutAction(name: string): (a: Option<Action>)
    ensures a.Some? <==> name in {"accept", "decline", "cancel", "cancel-host", "end"}
  {
    if name == "accept" then Some(AcceptAction)
    else if name == "decline" then Some(DeclineAction)
    else if name == "cancel" then Some(CancelAction(Guest, None, None))
    else if name == "cancel-host" then Some(CancelAction(Host, None, None))
    else if name == "end" then Some(EndAction)
    else None
  }

  /** Express's match of a PUT path below the mount point against the router's
      `/:id/<name>` patterns: a leading '/', one non-empty id segment, a route name
      in any letter case, and an optional trailing '/'. */
  function RoutePut(path: string): (r: Option<(string, Action)>)
    ensures r.Some? ==> r.value.0 != "" && '/' !in r.value.0
  {
    var parts := Strings.SplitOn(path, "/");
    Strings.SplitCharPiecesFree(path, '/');
    if (|parts| == 3 || (|parts| == 4 && parts[3] == "")) && parts[0] == "" && parts[1] != "" &&
       PutAction(Strings.Lower(parts[2])).Some?
    then Some((parts[1], PutAction(Strings.Lower(parts[2])).value))
    else None
  }

  /** The mounted router's answer to a PUT on `path`: the matched route's handler,
      or Express's 404 when no route matches. */
  function PutAnswer(t: Table, path: string, now: int): (r: Response<Booking>)
    ensures RoutePut(path).None? ==> r == Failure(404, NoRoute)
    ensures RoutePut(path).Some? ==> r == Handle(t, RoutePut(path).value.0, RoutePut(path).value.1, now)
  {
    match RoutePut(path)
    case None => Failure(404, NoRoute)
    case Some((id, a)) => Handle(t, id, a, now)
  }

  /** A PUT on `/<id>/<name>` reaches the route `name`, in whatever letter case,
      with that id. */
  lemma {:induction false} RoutePutAction(id: string, name: string)
    requires id != "" && '/' !in id && '/' !in name && PutAction(Strings.Lower(name)).Some?
    ensures RoutePut("/" + id + "/" + name) == Some((id, PutAction(Strings.Lower(name)).value))
  {
    var path := "/" + id + "/" + name;
    var tail := id + ['/'] + name;
    assert path == [] + ['/'] + tail;
    Strings.SplitCharHead([], '/', tail);
    Strings.SplitCharHead(id, '/', name);
    Strings.SplitCharAbsent(name, '/');
    assert Strings.SplitOn(tail, "/") == [id, name];
    assert Strings.SplitOn(path, "/") == ["", id, name];
  }

  /** A PUT on `/<id>` alone, with no route name, matches no route of the router
      and is answered 404. */
  lemma {:induction false} PutOnIdAloneNotFound(t: Table, id: string, now: int)
    requires '/' !in id
    ensures PutAnswer(t, "/" + id, now) == Failure(404, NoRoute)
  {
    assert "/" + id == [] + ['/'] + id;
    Strings.SplitCharHead([], '/', id);
    Strings.SplitCharAbsent(id, '/');
    assert Strings.SplitOn("/" + id, "/") == ["", id];
  }

  /** The table after a handler on row `id`: a successful `UPDATE ... RETURNING *`
      (or `INSERT`) leaves the returned row under that id; a refused request
      changes nothing. */
  function Commit(t: Table, id: string, r: Response<Booking>): (t': Table)
    ensures r.Failure? ==> t' == t
    ensures r.Success? ==> t'.Keys == t.Keys + {id} && t'[id] == r.value
    ensures forall k :: k in t && (r.Failure? || k != id) ==> k in t' && t'[k] == t[k]
  {
    if r.Success? then t[id := r.value] else t
  }

  /** Every successful transition follows an edge of the lifecycle, and leaves the
      reservation itself (parties, dates, prices) as it was. */
  lemma TransitionFollowsLifecycle(b: Booking, a: Action, now: int)
    ensures Transition(b, a, now).Success? ==>
      LifecycleEdge(b.status, Transition(b, a, now).value.status) &&
      SameReservation(b, Transition(b, a, now).value)
  {
  }

  /** The converse: every lifecycle edge is taken by some request. */
  lemma LifecycleEdgeIsTaken(b: Booking, to: string, now: int)
    requires LifecycleEdge(b.status, to)
    ensures exists a :: Transition(b, a, now).Success? && Transition(b, a, now).value.status == to
  {
    if b.status == Pending && to == Confirmed {
      assert Transition(b, AcceptAction, now).value.status == to;
    } else if b.status == Pending {
      assert Transition(b, DeclineAction, now).value.status == to;
    } else if to == Cancelled {
      assert Transition(b, CancelAction(Guest, None, None), now).value.status == to;
    } else {
      assert Transition(b, EndAction, now).value.status == to;
    }
  }

  /** `cancelled` and `ended` are terminal: every request on such a row is refused
      with 400. */
  lemma TerminalStatesAreFinal(b: Booking, a: Action, now: int)
    requires IsTerminal(b.status)
    ensures Transition(b, a, now).Failure? && Transition(b, a, now).code == 400
  {
  }

  /** The status after a sequence of requests, refused ones leaving it as it was. */
  function Run(b: Booking, actions: seq<Action>, now: int): (b': Booking)
    decreases |actions|
  {
    if actions == [] then b
    else
      var r := Transition(b, actions[0], now);
      Run(if r.Success? then r.value else b, actions[1..], now)
  }

  /** Whatever requests arrive, a booking that starts pending only ever holds one
      of the four lifecycle statuses, keeps its reservation, and once it reaches a
      terminal status it stays there. */
  lemma {:induction false} RunStaysInLifecycle(b: Booking, actions: seq<Action>, now: int)
    requires b.status in {Pending, Confirmed, Cancelled, Ended}
    ensures Run(b, actions, now).status in {Pending, Confirmed, Cancelled, Ended}
    ensures SameReservation(b, Run(b, actions, now))
    ensures IsTerminal(b.status) ==> Run(b, actions, now).status == b.status
    decreases |actions|
  {
    if actions != [] {
      var r := Transition(b, actions[0], now);
      TransitionFollowsLifecycle(b, actions[0], now);
      if IsTerminal(b.status) {
        TerminalStatesAreFinal(b, actions[0], now);
      }
      var next := if r.Success? then r.value else b;
      RunStaysInLifecycle(next, actions[1..], now);
    }
  }

  class BookingRoutes {
    var bookings: Table
    const prices: map<string, int>

    constructor (bookings: Table, prices: map<string, int>)
      ensures this.bookings == bookings && this.prices == prices
    {
      this.bookings := bookings;
      this.prices := prices;
    }

    /** `POST /`; the fresh id stands for the database's generated key. */
    method CreateBooking(newId: string, req: CreateRequest, now: int) returns (r: Response<Booking>)
      requires newId !in bookings
      modifies this
      ensures r == Create(prices, newId, req, now)
      ensures bookings == Commit(old(bookings), newId, r)
    {
      r := Create(prices, newId, req, now);
      if r.Success? {
        bookings := bookings[newId := r.value];
      }
    }

    /** `GET /:id`. */
    method GetBooking(id: string) returns (r: Response<Booking>)
      ensures r == Find(bookings, id)
    {
      r := Find(bookings, id);
    }

    /** `PUT /:id/accept`, `/decline`, `/cancel`, `/cancel-host` and `/end`. */
    method Put(id: string, a: Action, now: int) returns (r: Response<Booking>)
      modifies this
      ensures r == Handle(old(bookings), id, a, now)
      ensures bookings == Commit(old(bookings), id, r)
      ensures r.Success? ==> old(bookings)[id].status != bookings[id].status
    {
      r := Handle(bookings, id, a, now);
      if r.Success? {
        bookings := bookings[id := r.value];
      }
    }
  }
}
