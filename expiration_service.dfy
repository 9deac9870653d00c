/** The hourly listing-expiry job: one bulk status update on the `listings` table,
    then one expiry e-mail per expiring listing whose owner exists. The cron
    schedule is not modelled; "now" is a parameter, and the e-mail client call is
    the `notify` function, `false` standing for a call that threw. */
module Expiration {
  import opened Wrappers

  const Inactive: string := "inactive"

  datatype Listing = Listing(id: string, userId: string, title: string, status: Option<string>, endDate: int)

  datatype Owner = Owner(id: string, name: string, email: string)

  /** A row of the SELECT: the listing joined with its owner's name and e-mail. */
  datatype ExpiringRow = ExpiringRow(listing: Listing, name: string, email: string)

  /** The WHERE clause both queries share: status null, 'active' or 'approved', and
      an end date already past. */
  predicate IsExpiring(l: Listing, now: int) {
    (l.status.None? || l.status.value == "active" || l.status.value == "approved") && l.endDate < now
  }

  /** The UPDATE on one row. */
  function Expire(l: Listing, now: int): (r: Listing)
    ensures IsExpiring(l, now) ==> r == l.(status := Some(Inactive))
    ensures !IsExpiring(l, now) ==> r == l
    ensures !IsExpiring(r, now)
  {
    if IsExpiring(l, now) then l.(status := Some(Inactive)) else l
  }

  /** The UPDATE on the table. */
  function ExpireAll(ls: seq<Listing>, now: int): (r: seq<Listing>)
    ensures |r| == |ls|
    ensures forall i :: 0 <= i < |ls| ==> r[i] == Expire(ls[i], now)
  {
    if ls == [] then [] else [Expire(ls[0], now)] + ExpireAll(ls[1..], now)
  }

  /** `result.rowCount`: how many rows the UPDATE touches. */
  function CountExpiring(ls: seq<Listing>, now: int): (n: nat)
    ensures n <= |ls|
    ensures n == 0 <==> forall i :: 0 <= i < |ls| ==> !IsExpiring(ls[i], now)
  {
    if ls == [] then 0 else (if IsExpiring(ls[0], now) then 1 else 0) + CountExpiring(ls[1..], now)
  }

  /** The first owner with this id. */
  function OwnerOf(owners: seq<Owner>, userId: string): (o: Option<Owner>)
    ensures o.Some? ==> o.value in owners && o.value.id == userId
    ensures o.None? ==> forall j :: 0 <= j < |owners| ==> owners[j].id != userId
  {
    if owners == [] then None
    else if owners[0].id == userId then Some(owners[0])
    else OwnerOf(owners[1..], userId)
  }

  /** The SELECT: expiring listings joined with their owners; a listing without an
      owner row drops out of the inner join. Owner ids are assumed unique, so the
      join yields at most one row per listing. */
  function ExpiringRows(ls: seq<Listing>, owners: seq<Owner>, now: int): (rows: seq<ExpiringRow>)
    ensures |rows| <= CountExpiring(ls, now)
    ensures forall r :: r in rows ==> r.listing in ls && IsExpiring(r.listing, now)
    ensures forall r :: r in rows ==>
      var o := OwnerOf(owners, r.listing.userId); o.Some? && r.name == o.value.name && r.email == o.value.email
    ensures forall l :: l in ls && IsExpiring(l, now) && OwnerOf(owners, l.userId).Some? ==>
      ExpiringRow(l, OwnerOf(owners, l.userId).value.name, OwnerOf(owners, l.userId).value.email) in rows
  {
    if ls == [] then []
    else
      var rest := ExpiringRows(ls[1..], owners, now);
      var own := OwnerOf(owners, ls[0].userId);
      if IsExpiring(ls[0], now) && own.Some? then [ExpiringRow(ls[0], own.value.name, own.value.email)] + rest
      else rest
  }

  /** Expiry is idempotent: a second run in a row changes nothing and touches no row. */
  lemma {:induction false} ExpireAllIdempotent(ls: seq<Listing>, now: int)
    ensures ExpireAll(ExpireAll(ls, now), now) == ExpireAll(ls, now)
    ensures CountExpiring(ExpireAll(ls, now), now) == 0
  {
    var once := ExpireAll(ls, now);
    assert forall i :: 0 <= i < |once| ==> !IsExpiring(once[i], now);
    assert forall i :: 0 <= i < |once| ==> ExpireAll(once, now)[i] == once[i];
  }

  /** The notification loop: one call per row, in order, each failure caught. */
  method NotifyAll(rows: seq<ExpiringRow>, notify: ExpiringRow -> bool) returns (attempts: seq<(string, bool)>)
    ensures |attempts| == |rows|
    ensures forall i :: 0 <= i < |rows| ==> attempts[i] == (rows[i].listing.id, notify(rows[i]))
  {
    attempts := [];
    var i := 0;
    while i < |rows|
      invariant 0 <= i <= |rows|
      invariant |attempts| == i
      invariant forall k :: 0 <= k < i ==> attempts[k] == (rows[k].listing.id, notify(rows[k]))
    {
      var ok := notify(rows[i]);
      attempts := attempts + [(rows[i].listing.id, ok)];
      i := i + 1;
    }
  }

  class ExpirationService {
    var listings: seq<Listing>
    const owners: seq<Owner>

    constructor (listings: seq<Listing>, owners: seq<Owner>)
      ensures this.listings == listings && this.owners == owners
    {
      this.listings := listings;
      this.owners := owners;
    }

    /** `expireListings`: select the expiring rows, update the table, and, only when
        the update touched a row, call the e-mail client once per selected row; a
        call that throws is caught and the loop goes on. Returns each attempted
        listing id with whether its call returned normally. */
    method ExpireListings(now: int, notify: ExpiringRow -> bool) returns (attempts: seq<(string, bool)>)
      modifies this
      ensures listings == ExpireAll(old(listings), now)
      ensures var rows := ExpiringRows(old(listings), owners, now);
              if CountExpiring(old(listings), now) > 0 then
                |attempts| == |rows| &&
                forall i :: 0 <= i < |rows| ==> attempts[i] == (rows[i].listing.id, notify(rows[i]))
              else attempts == []
    {
      var rows := ExpiringRows(listings, owners, now);
      var rowCount := CountExpiring(listings, now);
      listings := ExpireAll(listings, now);
      attempts := [];
      if rowCount > 0 {
        attempts := NotifyAll(rows, notify);
      }
    }
  }
}
