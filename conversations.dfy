/** The conversation routes: one conversation per (listing, guest, host), found or
    created on demand. The table is kept in insertion order. */
module Conversations {
  import opened Wrappers
  import Seqs

  const Required: string := "listing_id, guest_id, and host_id are required"
  const NotFound: string := "Not found"

  /** A `conversations` row. */
  datatype Conversation = Conversation(id: string, listingId: string, guestId: string, hostId: string, createdAt: int)

  /** The body of `POST /find-or-create`. */
  datatype Request = Request(listingId: Field<string>, guestId: Field<string>, hostId: Field<string>)

  predicate Falsy(f: Field<string>) {
    f.Undefined? || f.Null? || f == Given("")
  }

  predicate IsFor(c: Conversation, listingId: string, guestId: string, hostId: string) {
    c.listingId == listingId && c.guestId == guestId && c.hostId == hostId
  }

  /** The position of the first conversation for the triple, as `rows[0]` picks it. */
  function FirstFor(cs: seq<Conversation>, listingId: string, guestId: string, hostId: string): (k: Option<nat>)
    ensures k.Some? ==> k.value < |cs| && IsFor(cs[k.value], listingId, guestId, hostId)
    ensures k.None? <==> forall j :: 0 <= j < |cs| ==> !IsFor(cs[j], listingId, guestId, hostId)
  {
    if cs == [] then None
    else if IsFor(cs[0], listingId, guestId, hostId) then Some(0)
    else match FirstFor(cs[1..], listingId, guestId, hostId)
      case None => None
      case Some(k) => Some(k + 1)
  }

  /** `POST /find-or-create`: a missing id is 400 with no insert; an existing
      conversation for the triple is returned (200); otherwise one is created (201). */
  function FindOrCreate(cs: seq<Conversation>, req: Request, newId: string, now: int): (res: (Response<Conversation>, seq<Conversation>))
    ensures Falsy(req.listingId) || Falsy(req.guestId) || Falsy(req.hostId) ==> res == (Failure(400, Required), cs)
    ensures res.0.Success? ==> IsFor(res.0.value, req.listingId.value, req.guestId.value, req.hostId.value)
    ensures res.0.Success? && res.0.code == 200 ==> res.1 == cs && res.0.value in cs
    ensures res.0.Success? && res.0.code == 201 ==>
      res.1 == cs + [res.0.value] && res.0.value == Conversation(newId, req.listingId.value, req.guestId.value, req.hostId.value, now) &&
      forall j :: 0 <= j < |cs| ==> !IsFor(cs[j], req.listingId.value, req.guestId.value, req.hostId.value)
    ensures res.0.Success? || res.1 == cs
    ensures res.0.Success? ==> res.0.code == 200 || res.0.code == 201
    ensures !(Falsy(req.listingId) || Falsy(req.guestId) || Falsy(req.hostId)) ==>
      var k := FirstFor(cs, req.listingId.value, req.guestId.value, req.hostId.value);
      res.0.Success? &&
      (k.Some? ==> res == (Success(200, cs[k.value]), cs)) &&
      (k.None? ==> res.0.code == 201)
  {
    if Falsy(req.listingId) || Falsy(req.guestId) || Falsy(req.hostId) then (Failure(400, Required), cs)
    else
      var l, g, h := req.listingId.value, req.guestId.value, req.hostId.value;
      match FirstFor(cs, l, g, h)
      case Some(k) => (Success(200, cs[k]), cs)
      case None =>
        var c := Conversation(newId, l, g, h, now);
        (Success(201, c), cs + [c])
  }

  /** Calling find-or-create twice with the same triple creates at most one
      conversation: the second call returns the first call's conversation and
      changes nothing. */
  lemma FindOrCreateIdempotent(cs: seq<Conversation>, req: Request, newId: string, otherId: string, now: int, later: int)
    requires FindOrCreate(cs, req, newId, now).0.Success?
    ensures var first := FindOrCreate(cs, req, newId, now);
            var second := FindOrCreate(first.1, req, otherId, later);
            second == (Success(200, first.0.value), first.1)
  {
    var first := FindOrCreate(cs, req, newId, now);
    var l, g, h := req.listingId.value, req.guestId.value, req.hostId.value;
    if first.0.code == 201 {
      FirstForAfterAppend(cs, first.0.value, l, g, h);
    }
  }

  /** When no row matches, the appended row is the first match. */
  lemma FirstForAfterAppend(cs: seq<Conversation>, c: Conversation, listingId: string, guestId: string, hostId: string)
    requires FirstFor(cs, listingId, guestId, hostId).None? && IsFor(c, listingId, guestId, hostId)
    ensures FirstFor(cs + [c], listingId, guestId, hostId) == Some(|cs|)
  {
    assert (cs + [c])[|cs|] == c;
    assert forall j :: 0 <= j < |cs| ==> (cs + [c])[j] == cs[j];
  }

  /** At most one conversation per (listing, guest, host). */
  predicate UniqueTriples(cs: seq<Conversation>) {
    forall j, k :: 0 <= j < k < |cs| ==> !IsFor(cs[k], cs[j].listingId, cs[j].guestId, cs[j].hostId)
  }

  /** Find-or-create keeps the triples unique. */
  lemma FindOrCreateKeepsTriplesUnique(cs: seq<Conversation>, req: Request, newId: string, now: int)
    requires UniqueTriples(cs)
    ensures UniqueTriples(FindOrCreate(cs, req, newId, now).1)
  {
    var res := FindOrCreate(cs, req, newId, now);
    if res.0.Success? && res.0.code == 201 {
      var cs' := res.1;
      forall j, k | 0 <= j < k < |cs'| ensures !IsFor(cs'[k], cs'[j].listingId, cs'[j].guestId, cs'[j].hostId) {
        if k == |cs| {
          assert cs'[j] == cs[j];
        }
      }
    }
  }

  /** The sort key of `ORDER BY created_at DESC`. */
  function NewestFirst(c: Conversation): int {
    -c.createdAt
  }

  predicate Involves(c: Conversation, userId: string) {
    c.guestId == userId || c.hostId == userId
  }

  /** `GET /user/:user_id`: the conversations the user is guest or host of, newest
      first. */
  function UserConversations(cs: seq<Conversation>, userId: string): seq<Conversation> {
    Seqs.SortByKey(Seqs.Filter(cs, c => Involves(c, userId)), NewestFirst)
  }

  /** The list holds exactly the user's conversations, newest first. */
  lemma UserConversationsCorrect(cs: seq<Conversation>, userId: string)
    ensures forall c :: c in UserConversations(cs, userId) <==> c in cs && (c.guestId == userId || c.hostId == userId)
    ensures forall j, k :: 0 <= j < k < |UserConversations(cs, userId)| ==>
      UserConversations(cs, userId)[j].createdAt >= UserConversations(cs, userId)[k].createdAt
  {
    var f := Seqs.Filter(cs, c => Involves(c, userId));
    Seqs.SortByKeyCorrect(f, NewestFirst);
    var v := Seqs.SortByKey(f, NewestFirst);
    forall c ensures c in v <==> c in f {
      assert c in v <==> c in multiset(v);
      assert c in f <==> c in multiset(f);
    }
  }

  /** `GET /:id`. */
  function GetById(cs: seq<Conversation>, id: string): (r: Response<Conversation>)
    ensures r.Success? <==> exists j :: 0 <= j < |cs| && cs[j].id == id
    ensures r.Success? ==> r.code == 200 && r.value in cs && r.value.id == id
    ensures r.Failure? ==> r == Failure(404, NotFound)
  {
    if cs == [] then Failure(404, NotFound)
    else if cs[0].id == id then Success(200, cs[0])
    else GetById(cs[1..], id)
  }

  class ConversationRoutes {
    var conversations: seq<Conversation>

    constructor (conversations: seq<Conversation>)
      ensures this.conversations == conversations
    {
      this.conversations := conversations;
    }

    method FindOrCreateConversation(req: Request, newId: string, now: int) returns (r: Response<Conversation>)
      modifies this
      ensures (r, conversations) == FindOrCreate(old(conversations), req, newId, now)
    {
      var res := FindOrCreate(conversations, req, newId, now);
      r, conversations := res.0, res.1;
    }
  }
}
