/** The host's "my listings" page: the host's bookings and their status updates,
    the Listings / Pending / Approved tabs, the image list of a listing's details
    and the Approve button of a pending booking. Fetching is modelled by its
    result; the approve request is the body of the general booking update. */
module MyListings {
  import opened Wrappers
  import Seqs
  import Strings
  import Api
  import Bookings
  import BookingsSimple

  const Approved: string := "approved"
  const UnsplashOrigin: string := "https://images.unsplash.com"
  const PlaceholderUrl: string := UnsplashOrigin + "/photo-1464983953574-0892a716854b?auto=format&fit=crop&w=800&q=80"
  const ApprovedAlert: string := "Booking approved!"
  const ApproveFailedAlert: string := "Failed to approve booking."

  /** `data.filter(b => b.host_id === userId)`, or nothing when the answer is not an
      array (`None`). */
  function HostBookings(data: Option<seq<Bookings.Booking>>, userId: string): (r: seq<Bookings.Booking>) {
    if data.None? then [] else Seqs.Filter(data.value, (b: Bookings.Booking) => b.hostId == userId)
  }

  /** The page keeps exactly the fetched bookings of listings the user hosts, in
      their order. */
  lemma HostBookingsSpec(data: Option<seq<Bookings.Booking>>, userId: string)
    ensures forall b :: b in HostBookings(data, userId) <==> data.Some? && b in data.value && b.hostId == userId
    ensures data.Some? ==> Seqs.Subsequence(HostBookings(data, userId), data.value)
  {
    if data.Some? {
      Seqs.FilterIsSubsequence(data.value, (b: Bookings.Booking) => b.hostId == userId);
    }
  }

  /** `handleStatusChange`: `prev.map(b => b.id === id ? { ...b, status } : b)`. */
  function StatusChanged(bs: seq<Bookings.Booking>, id: string, status: string): (r: seq<Bookings.Booking>)
    ensures |r| == |bs|
  {
    seq(|bs|, k requires 0 <= k < |bs| => if bs[k].id == id then bs[k].(status := status) else bs[k])
  }

  /** A status event changes only the bookings with its id, and in them only the
      status; a second identical event changes nothing more. */
  lemma StatusChangeTouchesOnlyMatching(bs: seq<Bookings.Booking>, id: string, status: string)
    ensures forall k :: 0 <= k < |bs| && bs[k].id != id ==> StatusChanged(bs, id, status)[k] == bs[k]
    ensures forall k :: 0 <= k < |bs| && bs[k].id == id ==>
      StatusChanged(bs, id, status)[k].status == status &&
      StatusChanged(bs, id, status)[k].(status := bs[k].status) == bs[k]
    ensures StatusChanged(StatusChanged(bs, id, status), id, status) == StatusChanged(bs, id, status)
  {
  }

  /** The three tabs of the sidebar. */
  datatype Tab = AllTab | PendingTab | ApprovedTab

  function WithStatus(bs: seq<Bookings.Booking>, status: string): (r: seq<Bookings.Booking>) {
    Seqs.Filter(bs, (b: Bookings.Booking) => b.status == status)
  }

  /** `pendingBookings`. */
  function PendingBookings(bs: seq<Bookings.Booking>): seq<Bookings.Booking> {
    WithStatus(bs, Bookings.Pending)
  }

  /** `approvedBookings`. */
  function ApprovedBookings(bs: seq<Bookings.Booking>): seq<Bookings.Booking> {
    WithStatus(bs, Approved)
  }

  /** The Pending and Approved tabs show exactly the bookings with that status,
      in order; no booking is on both. */
  lemma TabsSpec(bs: seq<Bookings.Booking>)
    ensures forall b :: b in PendingBookings(bs) <==> b in bs && b.status == Bookings.Pending
    ensures forall b :: b in ApprovedBookings(bs) <==> b in bs && b.status == Approved
    ensures forall b :: !(b in PendingBookings(bs) && b in ApprovedBookings(bs))
    ensures Seqs.Subsequence(PendingBookings(bs), bs) && Seqs.Subsequence(ApprovedBookings(bs), bs)
  {
    Seqs.FilterIsSubsequence(bs, (b: Bookings.Booking) => b.status == Bookings.Pending);
    Seqs.FilterIsSubsequence(bs, (b: Bookings.Booking) => b.status == Approved);
  }

  /** The booking routes never set 'approved' (the host's accept sets
      'confirmed'), so for bookings in the lifecycle's statuses the Approved tab is
      empty. */
  lemma ApprovedTabEmptyForLifecycleBookings(bs: seq<Bookings.Booking>)
    requires forall k :: 0 <= k < |bs| ==>
      bs[k].status in {Bookings.Pending, Bookings.Confirmed, Bookings.Cancelled, Bookings.Ended}
    ensures ApprovedBookings(bs) == []
  {
    Seqs.FilterKeepsNone(bs, (b: Bookings.Booking) => b.status == Approved);
  }

  /** An image of a listing; `order_index` may be missing. */
  datatype ListingImage = ListingImage(url: string, orderIndex: Option<int>)

  /** The image list of the details view: a placeholder for a listing without
      images. */
  function WithPlaceholder(images: seq<ListingImage>): (r: seq<ListingImage>) {
    if |images| > 0 then images else [ListingImage(PlaceholderUrl, None)]
  }

  function OrderKey(img: ListingImage): int {
    img.orderIndex.GetOr(0)
  }

  predicate AllIndexed(images: seq<ListingImage>) {
    forall k :: 0 <= k < |images| ==> images[k].orderIndex.Some?
  }

  /** The sort by `order_index`. With every index present the comparator is
      consistent and the stable sort orders by index. With some missing it answers
      0 for any pair involving them, which makes it inconsistent (a missing index
      ties with both of two indexed images it lies between), so the engine's order
      is not determined; the model takes the given order, one order the engine may
      produce. */
  function Ordered(images: seq<ListingImage>): (r: seq<ListingImage>) {
    if AllIndexed(images) then Seqs.SortByKey(images, OrderKey) else images
  }

  /** Upload paths get the backend's origin; storage URLs stay. */
  function Prefixed(images: seq<ListingImage>): (r: seq<ListingImage>)
    ensures |r| == |images|
  {
    seq(|images|, k requires 0 <= k < |images| => images[k].(url := Api.BuildImageUrl(Api.DefaultBase, images[k].url)))
  }

  /** The images the details view shows. */
  function DisplayImages(images: seq<ListingImage>): (r: seq<ListingImage>) {
    Prefixed(Ordered(WithPlaceholder(images)))
  }

  /** A listing without images shows the placeholder alone; otherwise the shown
      images are the listing's own, by ascending `order_index` when each has one,
      with `/uploads/` paths made absolute and other URLs unchanged. */
  lemma DisplayImagesSpec(images: seq<ListingImage>)
    ensures images == [] ==> DisplayImages(images) == [ListingImage(PlaceholderUrl, None)]
    ensures |DisplayImages(images)| == if images == [] then 1 else |images|
    ensures images != [] ==> multiset(Ordered(images)) == multiset(images)
    ensures images != [] && AllIndexed(images) ==> Seqs.SortedBy(DisplayImages(images), OrderKey)
    ensures forall k :: 0 <= k < |DisplayImages(images)| ==>
      DisplayImages(images)[k] == Ordered(WithPlaceholder(images))[k].(url := Api.BuildImageUrl(Api.DefaultBase, Ordered(WithPlaceholder(images))[k].url))
  {
    if images == [] {
      assert PlaceholderUrl[0] == UnsplashOrigin[0];
      Api.AbsoluteUrlUnchanged(Api.DefaultBase, PlaceholderUrl);
    } else if AllIndexed(images) {
      Seqs.SortByKeyCorrect(images, OrderKey);
      var o := Ordered(images);
      assert forall k :: 0 <= k < |o| ==> OrderKey(Prefixed(o)[k]) == OrderKey(o[k]);
    }
  }

  /** Images whose indices are already ascending keep their order. */
  lemma OrderedImagesStay(images: seq<ListingImage>)
    requires AllIndexed(images) && Seqs.SortedBy(images, OrderKey)
    ensures Ordered(images) == images
  {
    Seqs.SortByKeyKeepsSorted(images, OrderKey);
  }

  /** The Approve button shows only on the pending tab and while the shown status
      is 'pending'. */
  predicate ApproveShown(tab: Tab, status: string) {
    tab == PendingTab && status == Bookings.Pending
  }

  /** The body of the approve request: the booking's own columns with status
      'approved'. */
  function ApproveRequest(b: Bookings.Booking): (u: BookingsSimple.UpdateRequest)
    ensures u.status == Approved && u.paymentStatus == b.paymentStatus
  {
    BookingsSimple.UpdateRequest(b.startDate, b.endDate, b.pricePerNight, b.totalPrice, Approved, b.paymentStatus)
  }

  /** The path of the approve request below `/api/bookings`. */
  function ApprovePath(b: Bookings.Booking): string {
    "/" + b.id
  }

  /** The router mounted at `/api/bookings` has no route for the approve request:
      for a booking id without '/' (the table's ids are UUIDs) it answers 404. */
  lemma ApproveNotRouted(t: Bookings.Table, b: Bookings.Booking, now: int)
    requires '/' !in b.id
    ensures Bookings.PutAnswer(t, ApprovePath(b), now) == Failure(404, Bookings.NoRoute)
  {
    Bookings.PutOnIdAloneNotFound(t, b.id, now);
  }

  /** Had the request reached the general booking update of the simplified routes,
      which the server does not mount, it would change the stored row's status
      only. */
  lemma ApproveOnUnmountedUpdate(t: Bookings.Table, b: Bookings.Booking)
    requires b.id in t && t[b.id] == b
    ensures BookingsSimple.Update(t, b.id, ApproveRequest(b)) == Success(200, b.(status := Approved))
  {
  }

  /** The details view of a booking with its own copy of the status. */
  class BookingDetails {
    const booking: Bookings.Booking
    var status: string

    constructor (booking: Bookings.Booking)
      ensures this.booking == booking && status == booking.status
    {
      this.booking := booking;
      status := booking.status;
    }

    /** `handleApprove`, given whether the server answered OK: on success the
        status becomes 'approved' and a status event for the booking goes out. */
    method Approve(ok: bool) returns (request: BookingsSimple.UpdateRequest, event: Option<(string, string)>, alert: string)
      modifies this
      ensures request == ApproveRequest(booking)
      ensures ok ==> status == Approved && event == Some((booking.id, Approved)) && alert == ApprovedAlert
      ensures !ok ==> status == old(status) && event.None? && alert == ApproveFailedAlert
    {
      request := ApproveRequest(booking);
      if ok {
        status := Approved;
        event := Some((booking.id, Approved));
        alert := ApprovedAlert;
      } else {
        event := None;
        alert := ApproveFailedAlert;
      }
    }

    /** `handleApprove` against the server as mounted, on the bookings table `t`:
        the request matches no route, so the view keeps its status, no status
        event goes out and the failure alert shows. */
    method ApproveOnServer(t: Bookings.Table, now: int)
      returns (request: BookingsSimple.UpdateRequest, event: Option<(string, string)>, alert: string)
      modifies this
      ensures request == ApproveRequest(booking)
      ensures '/' !in booking.id ==> status == old(status) && event.None? && alert == ApproveFailedAlert
    {
      var answer := Bookings.PutAnswer(t, ApprovePath(booking), now);
      if '/' !in booking.id {
        ApproveNotRouted(t, booking, now);
      }
      request, event, alert := Approve(answer.Success?);
    }
  }

  /** The page's bookings and the selected tab. */
  class HostPage {
    var bookings: seq<Bookings.Booking>
    var activeTab: Tab

    constructor ()
      ensures bookings == [] && activeTab == AllTab
    {
      bookings := [];
      activeTab := AllTab;
    }

    /** The bookings fetch: only the user's bookings as host are kept. */
    method LoadBookings(data: Option<seq<Bookings.Booking>>, userId: string)
      modifies this
      ensures bookings == HostBookings(data, userId) && activeTab == old(activeTab)
    {
      bookings := HostBookings(data, userId);
    }

    /** The `bookingStatusChanged` listener. */
    method HandleStatusChange(id: string, status: string)
      modifies this
      ensures bookings == StatusChanged(old(bookings), id, status) && activeTab == old(activeTab)
    {
      bookings := StatusChanged(bookings, id, status);
    }

    method SelectTab(tab: Tab)
      modifies this
      ensures activeTab == tab && bookings == old(bookings)
    {
      activeTab := tab;
    }

    /** The bookings listed in a booking tab. */
    function VisibleBookings(): seq<Bookings.Booking>
      reads this
    {
      if activeTab == PendingTab then PendingBookings(bookings)
      else if activeTab == ApprovedTab then ApprovedBookings(bookings)
      else []
    }
  }

  /** Approving a pending booking moves it, through the status event, from the
      Pending tab to the Approved tab. */
  lemma ApproveMovesBooking(bs: seq<Bookings.Booking>, k: int)
    requires 0 <= k < |bs| && bs[k].status == Bookings.Pending
    ensures bs[k].(status := Approved) in ApprovedBookings(StatusChanged(bs, bs[k].id, Approved))
    ensures forall b :: b in PendingBookings(StatusChanged(bs, bs[k].id, Approved)) ==> b.id != bs[k].id
  {
    var r := StatusChanged(bs, bs[k].id, Approved);
    assert r[k] == bs[k].(status := Approved);
    TabsSpec(r);
    forall b | b in PendingBookings(r) ensures b.id != bs[k].id {
      var j :| 0 <= j < |r| && r[j] == b;
    }
  }
}
