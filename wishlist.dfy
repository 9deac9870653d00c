/** The saved-listings table: (user, listing) pairs added, removed and checked by
    the wishlist routes. The table is kept in insertion order; the listing table is
    seen only through each listing's status. */
module Wishlist {
  import opened Wrappers
  import Seqs

  const AlreadySaved: string := "Listing already in wishlist"
  const ItemNotFound: string := "Wishlist item not found"
  const Removed: string := "Removed from wishlist"
  const Active: string := "active"

  /** A `wishlist` row. */
  datatype Item = Item(id: string, userId: string, listingId: string, createdAt: int)

  predicate Matches(i: Item, userId: string, listingId: string) {
    i.userId == userId && i.listingId == listingId
  }

  /** `SELECT id FROM wishlist WHERE user_id = $1 AND listing_id = $2` found a row. */
  predicate Contains(items: seq<Item>, userId: string, listingId: string) {
    exists k :: 0 <= k < |items| && Matches(items[k], userId, listingId)
  }

  /** No pair is saved twice. */
  predicate NoDuplicatePairs(items: seq<Item>) {
    forall j, k :: 0 <= j < k < |items| ==>
      items[j].userId != items[k].userId || items[j].listingId != items[k].listingId
  }

  /** `POST /`: a saved pair is refused with 400; otherwise one row is appended. */
  function Add(items: seq<Item>, userId: string, listingId: string, newId: string, now: int): (res: (Response<Item>, seq<Item>))
    ensures Contains(items, userId, listingId) ==> res == (Failure(400, AlreadySaved), items)
    ensures !Contains(items, userId, listingId) ==>
      res.0 == Success(201, Item(newId, userId, listingId, now)) && res.1 == items + [res.0.value]
  {
    if Contains(items, userId, listingId) then (Failure(400, AlreadySaved), items)
    else
      var item := Item(newId, userId, listingId, now);
      (Success(201, item), items + [item])
  }

  /** The rows a delete of the pair leaves. */
  function Without(userId: string, listingId: string): Item -> bool {
    i => !Matches(i, userId, listingId)
  }

  /** `DELETE /:userId/:listingId ... RETURNING *`: every matching row goes, and the
      answer is 404 when there was none. */
  function Remove(items: seq<Item>, userId: string, listingId: string): (res: (Response<string>, seq<Item>))
    ensures res.0.Success? <==> Contains(items, userId, listingId)
    ensures res.0.Failure? ==> res.0 == Failure(404, ItemNotFound) && res.1 == items
    ensures res.0.Success? ==> res.0 == Success(200, Removed)
    ensures !Contains(res.1, userId, listingId)
    ensures forall i :: i in res.1 <==> i in items && !Matches(i, userId, listingId)
  {
    if !Contains(items, userId, listingId) then
      Seqs.FilterKeepsAll(items, Without(userId, listingId));
      (Failure(404, ItemNotFound), items)
    else (Success(200, Removed), Seqs.Filter(items, Without(userId, listingId)))
  }

  /** `GET /check/:userId/:listingId`. */
  function Check(items: seq<Item>, userId: string, listingId: string): (inWishlist: bool)
    ensures inWishlist <==> exists i :: i in items && Matches(i, userId, listingId)
  {
    Contains(items, userId, listingId)
  }

  /** Adding a pair that was not saved, then removing it, restores the table. */
  lemma AddThenRemove(items: seq<Item>, userId: string, listingId: string, newId: string, now: int)
    requires !Contains(items, userId, listingId)
    ensures Add(items, userId, listingId, newId, now).0.Success?
    ensures Remove(Add(items, userId, listingId, newId, now).1, userId, listingId) == (Success(200, Removed), items)
  {
    var keep := Without(userId, listingId);
    var item := Item(newId, userId, listingId, now);
    Seqs.FilterConcat(items, [item], keep);
    assert forall k :: 0 <= k < |items| ==> keep(items[k]);
    Seqs.FilterKeepsAll(items, keep);
    assert !keep([item][0]);
    Seqs.FilterKeepsNone([item], keep);
    assert Seqs.Filter(items + [item], keep) == items;
    assert Contains(items + [item], userId, listingId) by { assert (items + [item])[|items|] == item; }
  }

  /** After an add the pair is saved, after a remove it is not. */
  lemma CheckAfterChanges(items: seq<Item>, userId: string, listingId: string, newId: string, now: int)
    ensures Check(Add(items, userId, listingId, newId, now).1, userId, listingId)
    ensures !Check(Remove(items, userId, listingId).1, userId, listingId)
  {
    var added := Add(items, userId, listingId, newId, now).1;
    if !Contains(items, userId, listingId) {
      assert added[|items|] == Item(newId, userId, listingId, now);
    }
  }

  /** Adding keeps every pair unique. */
  lemma AddKeepsPairsUnique(items: seq<Item>, userId: string, listingId: string, newId: string, now: int)
    requires NoDuplicatePairs(items)
    ensures NoDuplicatePairs(Add(items, userId, listingId, newId, now).1)
  {
    if !Contains(items, userId, listingId) {
      var added := items + [Item(newId, userId, listingId, now)];
      forall j, k | 0 <= j < k < |added|
        ensures added[j].userId != added[k].userId || added[j].listingId != added[k].listingId
      {
        if k == |items| {
          assert added[j] == items[j];
        }
      }
    }
  }

  /** Whether the user's view shows `i`: the user's row for an `active` listing. */
  predicate Shown(i: Item, statuses: map<string, string>, userId: string) {
    i.userId == userId && i.listingId in statuses && statuses[i.listingId] == Active
  }

  /** The sort key of `ORDER BY created_at DESC`. */
  function NewestFirst(i: Item): int {
    -i.createdAt
  }

  /** `GET /user/:userId`: the user's rows for listings that are `active`, newest
      first. */
  function UserWishlist(items: seq<Item>, statuses: map<string, string>, userId: string): (r: seq<Item>)
  {
    Seqs.SortByKey(Seqs.Filter(items, i => Shown(i, statuses, userId)), NewestFirst)
  }

  /** The view holds exactly the user's saved active listings, newest first. */
  lemma UserWishlistCorrect(items: seq<Item>, statuses: map<string, string>, userId: string)
    ensures forall i :: i in UserWishlist(items, statuses, userId) <==> i in items && Shown(i, statuses, userId)
    ensures forall j, k :: 0 <= j < k < |UserWishlist(items, statuses, userId)| ==>
      UserWishlist(items, statuses, userId)[j].createdAt >= UserWishlist(items, statuses, userId)[k].createdAt
  {
    var f := Seqs.Filter(items, i => Shown(i, statuses, userId));
    Seqs.SortByKeyCorrect(f, NewestFirst);
    var v := Seqs.SortByKey(f, NewestFirst);
    forall i ensures i in v <==> i in f {
      assert i in v <==> i in multiset(v);
      assert i in f <==> i in multiset(f);
    }
  }

  class WishlistRoutes {
    var items: seq<Item>

    constructor (items: seq<Item>)
      ensures this.items == items
    {
      this.items := items;
    }

    method AddItem(userId: string, listingId: string, newId: string, now: int) returns (r: Response<Item>)
      modifies this
      ensures (r, items) == Add(old(items), userId, listingId, newId, now)
    {
      var res := Add(items, userId, listingId, newId, now);
      r, items := res.0, res.1;
    }

    method RemoveItem(userId: string, listingId: string) returns (r: Response<string>)
      modifies this
      ensures (r, items) == Remove(old(items), userId, listingId)
    {
      var res := Remove(items, userId, listingId);
      r, items := res.0, res.1;
    }

    method CheckItem(userId: string, listingId: string) returns (inWishlist: bool)
      ensures inWishlist == Check(items, userId, listingId)
    {
      inWishlist := Check(items, userId, listingId);
    }
  }
}
