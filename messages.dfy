/** The chat message routes: posting a message into a conversation and listing a
    conversation's messages oldest first. Rows are the `messages` rows the
    notification worker reads. */
module Messages {
  import opened Wrappers
  import Seqs
  import NotificationStore

  const Required: string := "conversation_id, sender_id, and body are required"

  type Message = NotificationStore.Message

  /** The body of `POST /`. */
  datatype PostRequest = PostRequest(conversationId: Field<string>, senderId: Field<string>, body: Field<string>)

  predicate Falsy(f: Field<string>) {
    f.Undefined? || f.Null? || f == Given("")
  }

  /** `POST /`: any missing field is 400 and nothing is stored; otherwise exactly
      one message is appended, sent now and not yet e-mailed. */
  function Post(ms: seq<Message>, req: PostRequest, newId: string, now: int): (res: (Response<Message>, seq<Message>))
    ensures Falsy(req.conversationId) || Falsy(req.senderId) || Falsy(req.body) ==> res == (Failure(400, Required), ms)
    ensures !(Falsy(req.conversationId) || Falsy(req.senderId) || Falsy(req.body)) ==>
      res.0.Success? && res.0.code == 201 && res.1 == ms + [res.0.value] &&
      res.0.value == NotificationStore.Message(newId, req.conversationId.value, req.senderId.value, req.body.value, now, None)
  {
    if Falsy(req.conversationId) || Falsy(req.senderId) || Falsy(req.body) then (Failure(400, Required), ms)
    else
      var m := NotificationStore.Message(newId, req.conversationId.value, req.senderId.value, req.body.value, now, None);
      (Success(201, m), ms + [m])
  }

  /** The sort key of `ORDER BY sent_at ASC`. */
  function SentAt(m: Message): int {
    m.sentAt
  }

  /** The `WHERE conversation_id = $1` condition. */
  function InConversation(conversationId: string): Message -> bool {
    (m: Message) => m.conversationId == conversationId
  }

  /** `GET /conversation/:conversation_id`. */
  function ForConversation(ms: seq<Message>, conversationId: string): seq<Message> {
    Seqs.SortByKey(Seqs.Filter(ms, InConversation(conversationId)), SentAt)
  }

  /** The listing holds exactly the conversation's messages, each as often as it is
      stored, in ascending `sent_at` order. */
  lemma ForConversationCorrect(ms: seq<Message>, conversationId: string)
    ensures multiset(ForConversation(ms, conversationId)) == multiset(Seqs.Filter(ms, InConversation(conversationId)))
    ensures forall m :: m in ForConversation(ms, conversationId) <==> m in ms && m.conversationId == conversationId
    ensures forall j, k :: 0 <= j < k < |ForConversation(ms, conversationId)| ==>
      ForConversation(ms, conversationId)[j].sentAt <= ForConversation(ms, conversationId)[k].sentAt
  {
    var f := Seqs.Filter(ms, InConversation(conversationId));
    Seqs.SortByKeyCorrect(f, SentAt);
    var v := Seqs.SortByKey(f, SentAt);
    forall m ensures m in v <==> m in f {
      assert m in v <==> m in multiset(v);
      assert m in f <==> m in multiset(f);
    }
  }

  /** A posted message is one the notification worker's primary query selects on
      any cycle whose watermark is not later than the posting time. */
  lemma PostedMessageIsPending(ms: seq<Message>, req: PostRequest, newId: string, now: int, since: int)
    requires Post(ms, req, newId, now).0.Success?
    requires since <= now
    ensures NotificationStore.IsUnsent(Post(ms, req, newId, now).0.value, since)
  {
  }

  /** Posting into one conversation leaves every other conversation's listing as it was. */
  lemma PostLeavesOtherConversations(ms: seq<Message>, req: PostRequest, newId: string, now: int, other: string)
    requires Post(ms, req, newId, now).0.Success? && Given(other) != req.conversationId
    ensures ForConversation(Post(ms, req, newId, now).1, other) == ForConversation(ms, other)
  {
    var m := Post(ms, req, newId, now).0.value;
    var keep := InConversation(other);
    Seqs.FilterConcat(ms, [m], keep);
    assert !keep([m][0]);
    Seqs.FilterKeepsNone([m], keep);
    assert Seqs.Filter(ms + [m], keep) == Seqs.Filter(ms, keep);
  }

  class MessageRoutes {
    var messages: seq<Message>

    constructor (messages: seq<Message>)
      ensures this.messages == messages
    {
      this.messages := messages;
    }

    method PostMessage(req: PostRequest, newId: string, now: int) returns (r: Response<Message>)
      modifies this
      ensures (r, messages) == Post(old(messages), req, newId, now)
    {
      var res := Post(messages, req, newId, now);
      r, messages := res.0, res.1;
    }

    method ListMessages(conversationId: string) returns (r: seq<Message>)
      ensures r == ForConversation(messages, conversationId)
    {
      r := ForConversation(messages, conversationId);
    }
  }
}
