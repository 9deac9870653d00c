/** The store the notification worker reads: the `users`, `conversations` and
    `messages` tables behind four call-and-return wrappers that turn every
    exception into a default. `reachable` stands for whether the Supabase client
    answers at all; `hasEmailSentColumn` for whether the `messages` table has the
    optional `email_sent` column. */
module NotificationStore {
  import opened Wrappers
  import Seqs

  /** A `users` row. `name` and `firstName` are `Undefined` when the row has no
      such key and `Null` when the column is NULL; `fullName` and `email` are `None`
      in both cases, which the worker treats alike. */
  datatype User = User(
    id: string,
    name: Field<string>,
    firstName: Field<string>,
    fullName: Option<string>,
    email: Option<string>)

  /** A `conversations` row; a guest or host id is `None` when it is null. */
  datatype Conversation = Conversation(id: string, listingId: string, guestId: Option<string>, hostId: Option<string>)

  /** A `messages` row. `sentAt` is a timestamp; `emailSent` is `None` while the
      column is null. */
  datatype Message = Message(
    id: string,
    conversationId: string,
    senderId: string,
    body: string,
    sentAt: int,
    emailSent: Option<bool>)

  /** The position of the first user with this id, if any. */
  function FirstUserIndex(users: seq<User>, id: string): (k: Option<nat>)
    ensures k.Some? ==> k.value < |users| && users[k.value].id == id
    ensures k.Some? ==> forall j :: 0 <= j < k.value ==> users[j].id != id
    ensures k.None? ==> forall j :: 0 <= j < |users| ==> users[j].id != id
  {
    if users == [] then None
    else if users[0].id == id then Some(0)
    else match FirstUserIndex(users[1..], id)
      case None => None
      case Some(k) => Some(k + 1)
  }

  /** The position of the first conversation with this id, if any. */
  function FirstConversationIndex(cs: seq<Conversation>, id: string): (k: Option<nat>)
    ensures k.Some? ==> k.value < |cs| && cs[k.value].id == id
    ensures k.Some? ==> forall j :: 0 <= j < k.value ==> cs[j].id != id
    ensures k.None? ==> forall j :: 0 <= j < |cs| ==> cs[j].id != id
  {
    if cs == [] then None
    else if cs[0].id == id then Some(0)
    else match FirstConversationIndex(cs[1..], id)
      case None => None
      case Some(k) => Some(k + 1)
  }

  /** `messages` with `email_sent` set to true on every row whose id is in `ids`. */
  function MarkSent(messages: seq<Message>, ids: set<string>): (r: seq<Message>)
    ensures |r| == |messages|
    ensures forall i :: 0 <= i < |r| ==>
      r[i] == if messages[i].id in ids then messages[i].(emailSent := Some(true)) else messages[i]
  {
    if messages == [] then []
    else [if messages[0].id in ids then messages[0].(emailSent := Some(true)) else messages[0]]
         + MarkSent(messages[1..], ids)
  }

  /** Marking in two steps is marking the union once. */
  lemma MarkSentTwice(messages: seq<Message>, a: set<string>, b: set<string>)
    ensures MarkSent(MarkSent(messages, a), b) == MarkSent(messages, a + b)
  {
    var lhs, rhs := MarkSent(MarkSent(messages, a), b), MarkSent(messages, a + b);
    assert |lhs| == |rhs|;
    forall i | 0 <= i < |lhs| ensures lhs[i] == rhs[i] { }
  }

  /** Whether the query `sent_at >= since AND email_sent IS NULL` selects `m`. */
  predicate IsUnsent(m: Message, since: int) {
    m.sentAt >= since && m.emailSent.None?
  }

  /** Whether the fallback query `sent_at >= since` selects `m`. */
  predicate IsRecent(m: Message, since: int) {
    m.sentAt >= since
  }

  class Database {
    const users: seq<User>
    const conversations: seq<Conversation>
    const reachable: bool
    const hasEmailSentColumn: bool
    var messages: seq<Message>

    constructor (users: seq<User>, conversations: seq<Conversation>, messages: seq<Message>,
                 reachable: bool, hasEmailSentColumn: bool)
      ensures this.users == users && this.conversations == conversations && this.messages == messages
      ensures this.reachable == reachable && this.hasEmailSentColumn == hasEmailSentColumn
    {
      this.users := users;
      this.conversations := conversations;
      this.messages := messages;
      this.reachable := reachable;
      this.hasEmailSentColumn := hasEmailSentColumn;
    }

    /** `get_user_by_id`: the first row with the id, or `None` when there is none
        or the store fails. */
    function GetUserById(userId: string): (r: Option<User>)
      ensures r.Some? ==> reachable && r.value.id == userId
      ensures r.Some? ==> exists k :: 0 <= k < |users| && users[k] == r.value &&
                                       forall j :: 0 <= j < k ==> users[j].id != userId
      ensures r.None? <==> !reachable || forall j :: 0 <= j < |users| ==> users[j].id != userId
    {
      if !reachable then None
      else match FirstUserIndex(users, userId)
        case None => None
        case Some(k) => Some(users[k])
    }

    /** `get_new_messages`: the rows sent at or after the watermark and not yet
        e-mailed; without the `email_sent` column the inner query raises and the
        fallback returns every recent row; an unreachable store gives `[]`. */
    function GetNewMessages(since: int): (r: seq<Message>)
      reads this
      ensures !reachable ==> r == []
      ensures forall m :: m in r <==>
        reachable && m in messages && (if hasEmailSentColumn then IsUnsent(m, since) else IsRecent(m, since))
    {
      if !reachable then []
      else if hasEmailSentColumn then Seqs.Filter(messages, m => IsUnsent(m, since))
      else Seqs.Filter(messages, m => IsRecent(m, since))
    }

    /** The participants of a conversation: the guest, then the host, each only if
        its id is set and the user lookup finds it. */
    function Participants(conversationId: string): (r: seq<User>)
      ensures |r| <= 2
      ensures forall i :: 0 <= i < |r| ==> GetUserById(r[i].id) == Some(r[i])
      ensures (!reachable || FirstConversationIndex(conversations, conversationId).None?) ==> r == []
      ensures reachable && FirstConversationIndex(conversations, conversationId).Some? ==>
        var c := conversations[FirstConversationIndex(conversations, conversationId).value];
        r == LookUp(c.guestId) + LookUp(c.hostId)
    {
      if !reachable then []
      else match FirstConversationIndex(conversations, conversationId)
        case None => []
        case Some(k) =>
          var c := conversations[k];
          LookUp(c.guestId) + LookUp(c.hostId)
    }

    /** The user an optional id names, as a zero- or one-element list. */
    function LookUp(id: Option<string>): (r: seq<User>)
      ensures |r| <= 1
      ensures forall i :: 0 <= i < |r| ==> id.Some? && r[i].id == id.value && GetUserById(id.value) == Some(r[i])
      ensures id.Some? && id.value != "" && GetUserById(id.value).Some? ==> r == [GetUserById(id.value).value]
    {
      if id.Some? && id.value != "" then OptionToSeq(GetUserById(id.value)) else []
    }

    /** `get_conversation_participants`, building the list by appends. */
    method GetConversationParticipants(conversationId: string) returns (participants: seq<User>)
      ensures participants == Participants(conversationId)
    {
      if !reachable {
        return [];
      }
      var k := FirstConversationIndex(conversations, conversationId);
      if k.None? {
        return [];
      }
      var conversation := conversations[k.value];
      participants := [];
      if conversation.guestId.Some? && conversation.guestId.value != "" {
        var guest := GetUserById(conversation.guestId.value);
        if guest.Some? {
          participants := participants + [guest.value];
        }
      }
      if conversation.hostId.Some? && conversation.hostId.value != "" {
        var host := GetUserById(conversation.hostId.value);
        if host.Some? {
          participants := participants + [host.value];
        }
      }
    }

    /** `mark_message_notified`: sets `email_sent` on the row; when the store or
        the column is missing the update fails and is only logged. */
    method MarkMessageNotified(messageId: string)
      modifies this
      ensures messages == if reachable && hasEmailSentColumn then MarkSent(old(messages), {messageId}) else old(messages)
    {
      if reachable && hasEmailSentColumn {
        messages := MarkSent(messages, {messageId});
      }
    }
  }

  /** Once a message is marked, the primary query never returns it again. */
  lemma MarkedNotRefetched(db: Database, ids: set<string>, since: int, m: Message)
    requires db.reachable && db.hasEmailSentColumn
    requires m in MarkSent(db.messages, ids) && m.id in ids
    ensures m.emailSent == Some(true)
    ensures !IsUnsent(m, since)
  {
    var ms := MarkSent(db.messages, ids);
    var i :| 0 <= i < |ms| && ms[i] == m;
  }
}
