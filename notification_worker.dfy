/** The message-notification worker: one polling cycle over new messages, with a
    watermark and an in-memory set of processed message ids carried between
    cycles. Scheduling is not modelled; a cycle is one call of `CheckNewMessages`. */
module NotificationDispatch {
  import opened Wrappers
  import Strings
  import opened NotificationStore
  import opened Mail

  /** Above this many entries the processed-set is emptied at the start of a cycle. */
  const CacheLimit: nat := 1000

  /** The number of body characters a preview keeps. */
  const PreviewLength: nat := 100

  /** Why `process_message` returned early without recording the message. */
  datatype SkipReason = AlreadyProcessed | SenderMissing | NoParticipants | NoRecipient

  /** What `send_notification` did: returned early for a recipient without
      e-mail, lost its work to an exception it caught, or called the mailer. */
  datatype SendResult = NoRecipientEmail | Raised | Delivered(delivery: Delivery)

  /** The outcome of `process_message` for one message. */
  datatype ProcessResult =
    | Skipped(id: string, reason: SkipReason)
    | Handled(id: string, sender: User, recipient: User, send: SendResult)

  /** The preview: the body when it has at most 100 characters, otherwise its first
      100 characters and an ellipsis. */
  function Preview(body: string): (p: string)
    ensures |body| <= PreviewLength ==> p == body
    ensures |body| > PreviewLength ==>
      |p| == PreviewLength + 3 && p[..PreviewLength] == body[..PreviewLength] && p[PreviewLength..] == "..."
    ensures |p| <= PreviewLength + 3
  {
    if |body| > PreviewLength then body[..PreviewLength] + "..." else body
  }

  /** `sender.get('name', sender.get('first_name', 'Someone'))`. A key the row
      lacks falls back; a key whose column is NULL yields Python's `None`, which
      the subject's f-string and the template both write as `None`. */
  function SenderName(sender: User): string {
    match sender.name
    case Given(n) => n
    case Null => PythonNone
    case Undefined =>
      match sender.firstName
      case Given(n) => n
      case Null => PythonNone
      case Undefined => "Someone"
  }

  /** How Python formats `None` into a string. */
  const PythonNone: string := "None"

  /** A sender whose `name` column is NULL is announced as "None": the row comes
      from `select('*')`, so the key is present and the fallback never applies. */
  lemma NullNameAnnouncedAsNone(sender: User)
    requires sender.name.Null?
    ensures MessageSubject(SenderName(sender)) == "New message from None on Subly"
  {
  }

  /** `full_name.split()[0] if full_name else ''`; `None` when the name is non-empty
      but only white space, where indexing the empty split raises. */
  function RecipientFirstName(fullName: Option<string>): (r: Option<string>)
    ensures r.None? <==> fullName.Some? && fullName.value != "" && Strings.IsPythonBlank(fullName.value)
    ensures r.Some? ==> forall i :: 0 <= i < |r.value| ==> !Strings.IsPythonSpace(r.value[i])
    ensures r.Some? && fullName.Some? && fullName.value != "" ==> r.value != ""
  {
    match fullName
    case None => Some("")
    case Some(f) =>
      if f == "" then Some("")
      else
        if Strings.IsPythonBlank(f) then None else Some(Strings.FirstWord(f))
  }

  /** The link the e-mail points to. */
  function ConversationUrl(frontendUrl: string, conversationId: string): (u: string)
    ensures Strings.StartsWith(u, frontendUrl + "/messages?conversation=")
    ensures Strings.EndsWith(u, conversationId)
  {
    frontendUrl + "/messages?conversation=" + conversationId
  }

  /** The first participant whose id differs from the sender's. */
  function FirstOther(participants: seq<User>, senderId: string): (r: Option<User>)
    ensures r.Some? ==> r.value.id != senderId && r.value in participants
    ensures r.Some? ==> exists k :: 0 <= k < |participants| && participants[k] == r.value &&
                                    forall j :: 0 <= j < k ==> participants[j].id == senderId
    ensures r.None? <==> forall j :: 0 <= j < |participants| ==> participants[j].id == senderId
  {
    if participants == [] then None
    else if participants[0].id != senderId then Some(participants[0])
    else
      var r := FirstOther(participants[1..], senderId);
      assert forall k :: 0 <= k < |participants| - 1 ==> participants[1..][k] == participants[k + 1];
      r
  }

  /** The recipient loop of `process_message`. */
  method FindRecipient(participants: seq<User>, senderId: string) returns (recipient: Option<User>)
    ensures recipient == FirstOther(participants, senderId)
  {
    recipient := None;
    var i := 0;
    while i < |participants|
      invariant 0 <= i <= |participants|
      invariant FirstOther(participants, senderId) == FirstOther(participants[i..], senderId)
    {
      if participants[i].id != senderId {
        recipient := Some(participants[i]);
        return;
      }
      assert participants[i..][1..] == participants[i + 1..];
      i := i + 1;
    }
  }

  /** Python binds a keyword call only when the keywords are exactly the callee's
      parameters (none of these has a default): an unexpected or a missing keyword
      raises `TypeError`. */
  predicate CallBinds(keywords: set<string>, parameters: set<string>) {
    keywords == parameters
  }

  /** The keywords `send_notification` passes to `send_message_notification`. */
  const AsWrittenKeywords: set<string> :=
    {"recipient_email", "recipient_first_name", "sender_name", "message_preview", "conversation_url"}

  /** The keywords the callee accepts. */
  const CorrectedKeywords: set<string> :=
    {"recipient_email", "sender_name", "message_preview", "conversation_url"}

  /** The mailer parameters the corrected call matches. */
  lemma CorrectedKeywordsBind()
    ensures CallBinds(CorrectedKeywords, MessageNotificationParameters)
    ensures !CallBinds(AsWrittenKeywords, MessageNotificationParameters)
  {
    assert "recipient_first_name" in AsWrittenKeywords;
    assert "recipient_first_name" !in MessageNotificationParameters;
  }

  class NotificationWorker {
    /** The watermark: messages sent at or after it are fetched. */
    var lastCheckTime: int
    /** Ids handled in this process's lifetime (until the next clear). */
    var processedMessages: set<string>
    const db: Database
    const mailer: EmailService
    /** The configured frontend origin. */
    const frontendUrl: string
    /** The keywords `send_notification` passes to the mailer (lines 141-147):
        `AsWrittenKeywords` for the program as it stands. Every property of a
        cycle below holds for any keyword set. */
    const sendKeywords: set<string>

    /** A new worker starts with an empty processed-set and the watermark at the
        construction time. */
    constructor (now: int, db: Database, mailer: EmailService, frontendUrl: string, sendKeywords: set<string>)
      ensures lastCheckTime == now && processedMessages == {}
      ensures this.db == db && this.mailer == mailer && this.frontendUrl == frontendUrl
      ensures this.sendKeywords == sendKeywords
    {
      lastCheckTime := now;
      processedMessages := {};
      this.db := db;
      this.mailer := mailer;
      this.frontendUrl := frontendUrl;
      this.sendKeywords := sendKeywords;
    }

    /** `send_notification` for a call passing `keywords`: returns early without
        a recipient e-mail, raises (and catches) on an unsplittable full name or
        an unbound call, and otherwise reports what the mailer did. */
    function SendNotificationWith(keywords: set<string>, message: Message, sender: User, recipient: User,
                                  conversationId: string, net: Network): (r: SendResult)
      ensures (recipient.email.None? || recipient.email.value == "") <==> r == NoRecipientEmail
      ensures !CallBinds(keywords, MessageNotificationParameters) ==> !r.Delivered?
      ensures r.Delivered? ==>
        r.delivery == mailer.SendMessageNotification(recipient.email.value, SenderName(sender), Preview(message.body),
                                                     ConversationUrl(frontendUrl, conversationId), net)
      ensures (CallBinds(keywords, MessageNotificationParameters) && recipient.email.Some? && recipient.email.value != ""
               && RecipientFirstName(recipient.fullName).Some?) ==> r.Delivered?
    {
      if recipient.email.None? || recipient.email.value == "" then NoRecipientEmail
      else if RecipientFirstName(recipient.fullName).None? then Raised
      else if !CallBinds(keywords, MessageNotificationParameters) then Raised
      else Delivered(mailer.SendMessageNotification(recipient.email.value, SenderName(sender), Preview(message.body),
                                                    ConversationUrl(frontendUrl, conversationId), net))
    }

    /** `send_notification` as written: the call also passes `recipient_first_name`. */
    function SendNotificationAsWritten(message: Message, sender: User, recipient: User,
                                       conversationId: string, net: Network): (r: SendResult)
      ensures !r.Delivered?
    {
      CorrectedKeywordsBind();
      SendNotificationWith(AsWrittenKeywords, message, sender, recipient, conversationId, net)
    }

    /** `send_notification` with the call the mailer accepts. */
    function SendNotification(message: Message, sender: User, recipient: User,
                              conversationId: string, net: Network): (r: SendResult)
      ensures recipient.email.Some? && recipient.email.value != "" && RecipientFirstName(recipient.fullName).Some?
              ==> r.Delivered? && r.delivery ==
                  mailer.SendMessageNotification(recipient.email.value, SenderName(sender), Preview(message.body),
                                                 ConversationUrl(frontendUrl, conversationId), net)
      ensures (recipient.email.None? || recipient.email.value == "") ==> r == NoRecipientEmail
    {
      CorrectedKeywordsBind();
      SendNotificationWith(CorrectedKeywords, message, sender, recipient, conversationId, net)
    }

    /** `process_message` on the processed-set `processed`: the outcome and the new set. */
    function Process(processed: set<string>, m: Message, net: Network): (r: (ProcessResult, set<string>))
      ensures r.0.id == m.id
      ensures m.id in processed <==> r.0 == Skipped(m.id, AlreadyProcessed)
      ensures r.0.Skipped? ==> r.1 == processed
      ensures r.0.Handled? ==> m.id !in processed && r.1 == processed + {m.id}
      ensures r.0.Handled? ==> r.0.sender.id == m.senderId && r.0.recipient.id != m.senderId
      ensures r.0.Handled? ==> FirstOther(db.Participants(m.conversationId), m.senderId) == Some(r.0.recipient)
      ensures r.0 == Skipped(m.id, SenderMissing) <==> m.id !in processed && db.GetUserById(m.senderId).None?
    {
      if m.id in processed then (Skipped(m.id, AlreadyProcessed), processed)
      else match db.GetUserById(m.senderId)
        case None => (Skipped(m.id, SenderMissing), processed)
        case Some(sender) =>
          var participants := db.Participants(m.conversationId);
          if participants == [] then (Skipped(m.id, NoParticipants), processed)
          else match FirstOther(participants, m.senderId)
            case None => (Skipped(m.id, NoRecipient), processed)
            case Some(recipient) =>
              (Handled(m.id, sender, recipient,
                       SendNotificationWith(sendKeywords, m, sender, recipient, m.conversationId, net)),
               processed + {m.id})
    }

    /** When `process_message` hands a message to `send_notification`: exactly when
        it is new, its sender is found and its conversation has another participant,
        and then with the sender found, that participant and the worker's mailer call.
        The two remaining skip reasons: a known sender in a conversation with no
        participants, and one whose participants are all the sender. */
    lemma ProcessOutcome(processed: set<string>, m: Message, net: Network)
      ensures var r := Process(processed, m, net).0;
              r.Handled? <==> m.id !in processed && db.GetUserById(m.senderId).Some? &&
                              FirstOther(db.Participants(m.conversationId), m.senderId).Some?
      ensures var r := Process(processed, m, net).0;
              r.Handled? ==> db.GetUserById(m.senderId) == Some(r.sender) &&
                             r.send == SendNotificationWith(sendKeywords, m, r.sender, r.recipient, m.conversationId, net)
      ensures Process(processed, m, net).0 == Skipped(m.id, NoParticipants) <==>
        m.id !in processed && db.GetUserById(m.senderId).Some? && db.Participants(m.conversationId) == []
      ensures Process(processed, m, net).0 == Skipped(m.id, NoRecipient) <==>
        m.id !in processed && db.GetUserById(m.senderId).Some? && db.Participants(m.conversationId) != [] &&
        FirstOther(db.Participants(m.conversationId), m.senderId).None?
    {
    }

    /** `process_message` over `ms` in order, threading the processed-set. */
    function RunAll(processed: set<string>, ms: seq<Message>, net: Network): (r: (seq<ProcessResult>, set<string>))
      ensures |r.0| == |ms|
      ensures forall i :: 0 <= i < |ms| ==> r.0[i].id == ms[i].id
      ensures processed <= r.1
      decreases |ms|
    {
      if ms == [] then ([], processed)
      else
        var before := RunAll(processed, ms[..|ms| - 1], net);
        var last := Process(before.1, ms[|ms| - 1], net);
        (before.0 + [last.0], last.1)
    }

    /** One more message: if the first `i` messages gave `(rs, p)` and
        `process_message` of the next one gives `(r, p')`, then the first `i + 1`
        give `(rs + [r], p')`. */
    lemma RunAllStep(processed: set<string>, ms: seq<Message>, i: nat, rs: seq<ProcessResult>, p: set<string>,
                     r: ProcessResult, p': set<string>, net: Network)
      requires i < |ms|
      requires (rs, p) == RunAll(processed, ms[..i], net) && (r, p') == Process(p, ms[i], net)
      ensures (rs + [r], p') == RunAll(processed, ms[..i + 1], net)
    {
      assert ms[..i + 1][..i] == ms[..i];
    }

    /** `process_message` for one message, on the worker's own state. */
    method ProcessMessage(m: Message, net: Network) returns (r: ProcessResult)
      modifies this`processedMessages, db
      ensures (r, processedMessages) == Process(old(processedMessages), m, net)
      ensures db.messages == if r.Handled? && db.reachable && db.hasEmailSentColumn
                             then MarkSent(old(db.messages), {m.id}) else old(db.messages)
    {
      if m.id in processedMessages {
        return Skipped(m.id, AlreadyProcessed);
      }
      var sender := db.GetUserById(m.senderId);
      if sender.None? {
        return Skipped(m.id, SenderMissing);
      }
      var participants := db.GetConversationParticipants(m.conversationId);
      if participants == [] {
        return Skipped(m.id, NoParticipants);
      }
      var recipient := FindRecipient(participants, m.senderId);
      if recipient.None? {
        return Skipped(m.id, NoRecipient);
      }
      var send := SendNotificationWith(sendKeywords, m, sender.value, recipient.value, m.conversationId, net);
      processedMessages := processedMessages + {m.id};
      db.MarkMessageNotified(m.id);
      r := Handled(m.id, sender.value, recipient.value, send);
    }

    /** The loop of `check_new_messages` over the unprocessed messages. */
    method ProcessAll(unprocessed: seq<Message>, net: Network) returns (results: seq<ProcessResult>)
      modifies this`processedMessages, db
      ensures (results, processedMessages) == RunAll(old(processedMessages), unprocessed, net)
      ensures db.messages == if db.reachable && db.hasEmailSentColumn
                             then MarkSent(old(db.messages), HandledIds(results)) else old(db.messages)
    {
      ghost var start := processedMessages;
      ghost var messages0 := db.messages;
      results := [];
      var i := 0;
      while i < |unprocessed|
        invariant 0 <= i <= |unprocessed|
        invariant (results, processedMessages) == RunAll(start, unprocessed[..i], net)
        invariant db.messages == if db.reachable && db.hasEmailSentColumn
                                 then MarkSent(messages0, HandledIds(results)) else messages0
      {
        ghost var processedBefore := processedMessages;
        var r := ProcessMessage(unprocessed[i], net);
        RunAllStep(start, unprocessed, i, results, processedBefore, r, processedMessages, net);
        MarkAfterStep(messages0, results, r);
        results := results + [r];
        i := i + 1;
      }
      assert unprocessed[..i] == unprocessed;
    }

    /** One cycle of `check_new_messages`. The processed-set is emptied first when
        it holds more than 1000 ids; an empty fetch returns at once and keeps the
        watermark; otherwise the unprocessed messages are handled in fetch order,
        the handled ones are marked in the store, and the watermark becomes `now`. */
    method CheckNewMessages(now: int, net: Network) returns (results: seq<ProcessResult>)
      modifies this, db
      ensures var start := if |old(processedMessages)| > CacheLimit then {} else old(processedMessages);
              var fetched := old(db.GetNewMessages(lastCheckTime));
              if fetched == [] then
                results == [] && processedMessages == start &&
                lastCheckTime == old(lastCheckTime) && db.messages == old(db.messages)
              else
                (results, processedMessages) == RunAll(start, Unprocessed(fetched, start), net) &&
                lastCheckTime == now &&
                db.messages == if db.reachable && db.hasEmailSentColumn
                               then MarkSent(old(db.messages), HandledIds(results)) else old(db.messages)
    {
      if |processedMessages| > CacheLimit {
        processedMessages := {};
      }
      var newMessages := db.GetNewMessages(lastCheckTime);
      if newMessages == [] {
        return [];
      }
      var unprocessed := Unprocessed(newMessages, processedMessages);
      results := ProcessAll(unprocessed, net);
      lastCheckTime := now;
    }
  }

  /** The ids of the handled outcomes. */
  function HandledIds(rs: seq<ProcessResult>): set<string> {
    set i | 0 <= i < |rs| && rs[i].Handled? :: rs[i].id
  }

  /** Marking the handled ids of `rs + [r]` is marking those of `rs`, then `r`'s id
      when `r` was handled. */
  lemma MarkAfterStep(messages: seq<Message>, rs: seq<ProcessResult>, r: ProcessResult)
    ensures MarkSent(messages, HandledIds(rs + [r])) ==
      if r.Handled? then MarkSent(MarkSent(messages, HandledIds(rs)), {r.id}) else MarkSent(messages, HandledIds(rs))
  {
    HandledIdsAppend(rs, r);
    if r.Handled? {
      MarkSentTwice(messages, HandledIds(rs), {r.id});
    } else {
      assert HandledIds(rs + [r]) == HandledIds(rs);
    }
  }

  lemma HandledIdsAppend(rs: seq<ProcessResult>, r: ProcessResult)
    ensures HandledIds(rs + [r]) == HandledIds(rs) + if r.Handled? then {r.id} else {}
  {
    var all := rs + [r];
    forall x | x in HandledIds(all) ensures x in HandledIds(rs) + if r.Handled? then {r.id} else {} {
      var i :| 0 <= i < |all| && all[i].Handled? && all[i].id == x;
      if i < |rs| { assert rs[i] == all[i]; }
    }
    forall x | x in HandledIds(rs) ensures x in HandledIds(all) {
      var i :| 0 <= i < |rs| && rs[i].Handled? && rs[i].id == x;
      assert all[i] == rs[i];
    }
    if r.Handled? {
      assert all[|rs|] == r;
    }
  }

  /** The messages whose id is not yet processed, in fetch order. */
  function Unprocessed(fetched: seq<Message>, processed: set<string>): (r: seq<Message>)
    ensures |r| <= |fetched|
    ensures forall m :: m in r <==> m in fetched && m.id !in processed
  {
    if fetched == [] then []
    else (if fetched[0].id in processed then [] else [fetched[0]]) + Unprocessed(fetched[1..], processed)
  }
}

/** Properties of the worker across whole cycles. */
module NotificationDispatchProperties {
  import opened Wrappers
  import opened NotificationStore
  import opened Mail
  import opened NotificationDispatch

  /** After a cycle the processed-set is the starting set plus exactly the handled
      ids, whatever the send outcome of each. */
  lemma {:induction false} RunAllProcessedSet(w: NotificationWorker, processed: set<string>, ms: seq<Message>, net: Network)
    ensures w.RunAll(processed, ms, net).1 == processed + HandledIds(w.RunAll(processed, ms, net).0)
    decreases |ms|
  {
    if ms != [] {
      var prefix := ms[..|ms| - 1];
      RunAllProcessedSet(w, processed, prefix, net);
      var before := w.RunAll(processed, prefix, net);
      var last := w.Process(before.1, ms[|ms| - 1], net);
      HandledIdsAppend(before.0, last.0);
    }
  }

  /** The `i`-th result of a cycle is `process_message` of the `i`-th message with
      the processed-set the earlier messages left. */
  lemma RunAllAt(w: NotificationWorker, processed: set<string>, ms: seq<Message>, net: Network, i: int)
    requires 0 <= i < |ms|
    ensures w.RunAll(processed, ms, net).0[i] == w.Process(w.RunAll(processed, ms[..i], net).1, ms[i], net).0
  {
    var upTo := ms[..i + 1];
    RunAllPrefix(w, processed, ms, net, i + 1);
    RunAllLast(w, processed, upTo, net);
    assert upTo[..i] == ms[..i] && upTo[i] == ms[i];
  }

  /** A cycle over a prefix of `ms` gives the prefix of the cycle's outcomes. */
  lemma {:induction false} RunAllPrefix(w: NotificationWorker, processed: set<string>, ms: seq<Message>, net: Network, k: int)
    requires 0 <= k <= |ms|
    ensures w.RunAll(processed, ms[..k], net).0 == w.RunAll(processed, ms, net).0[..k]
    decreases |ms|
  {
    if k < |ms| {
      var prefix := ms[..|ms| - 1];
      RunAllLast(w, processed, ms, net);
      RunAllPrefix(w, processed, prefix, net, k);
      assert prefix[..k] == ms[..k];
    } else {
      assert ms[..k] == ms;
    }
  }

  /** A cycle over `ms` is the cycle over all but the last message followed by
      `process_message` of the last one. */
  lemma RunAllLast(w: NotificationWorker, processed: set<string>, ms: seq<Message>, net: Network)
    requires ms != []
    ensures var before := w.RunAll(processed, ms[..|ms| - 1], net);
            w.RunAll(processed, ms, net).0 == before.0 + [w.Process(before.1, ms[|ms| - 1], net).0]
  {
  }

  /** No handled id was already in the starting processed-set, and no handled
      message goes to its own sender. */
  lemma RunAllHandlesFresh(w: NotificationWorker, processed: set<string>, ms: seq<Message>, net: Network)
    ensures forall i :: 0 <= i < |ms| && w.RunAll(processed, ms, net).0[i].Handled? ==>
                          w.RunAll(processed, ms, net).0[i].id !in processed &&
                          w.RunAll(processed, ms, net).0[i].recipient.id != ms[i].senderId
  {
    forall i | 0 <= i < |ms| && w.RunAll(processed, ms, net).0[i].Handled?
      ensures w.RunAll(processed, ms, net).0[i].id !in processed &&
              w.RunAll(processed, ms, net).0[i].recipient.id != ms[i].senderId
    {
      RunAllAt(w, processed, ms, net, i);
    }
  }

  /** Within one cycle no id is handled twice. */
  lemma {:induction false} RunAllHandlesOnce(w: NotificationWorker, processed: set<string>, ms: seq<Message>, net: Network)
    ensures forall i, j :: 0 <= i < j < |ms| && w.RunAll(processed, ms, net).0[i].Handled? &&
                             w.RunAll(processed, ms, net).0[j].Handled? ==>
                             w.RunAll(processed, ms, net).0[i].id != w.RunAll(processed, ms, net).0[j].id
    decreases |ms|
  {
    if ms != [] {
      var prefix := ms[..|ms| - 1];
      RunAllHandlesOnce(w, processed, prefix, net);
      RunAllProcessedSet(w, processed, prefix, net);
      var before := w.RunAll(processed, prefix, net);
      var last := w.Process(before.1, ms[|ms| - 1], net);
      var rs := w.RunAll(processed, ms, net).0;
      assert rs == before.0 + [last.0];
      forall i, j | 0 <= i < j < |rs| && rs[i].Handled? && rs[j].Handled?
        ensures rs[i].id != rs[j].id
      {
        assert rs[i] == before.0[i];
        if j == |prefix| {
          assert rs[j] == last.0;
          assert before.0[i].Handled? && before.0[i].id == rs[i].id;
          assert rs[i].id in HandledIds(before.0);
          assert rs[i].id in before.1;
        } else {
          assert rs[j] == before.0[j];
        }
      }
    }
  }

  /** Whether `process_message` returns early for `m` depends on the processed-set
      only through the membership of `m`'s id. */
  lemma ProcessIgnoresOtherIds(w: NotificationWorker, p1: set<string>, p2: set<string>, m: Message, net: Network)
    requires m.id !in p1 && m.id !in p2
    ensures w.Process(p1, m, net).0 == w.Process(p2, m, net).0
  {
  }

  /** Running the same messages again from any processed-set that contains the
      first run's handles nothing and leaves the set unchanged: a message is
      notified at most once per process lifetime, until the set is cleared. */
  lemma {:induction false} SecondPassHandlesNothing(w: NotificationWorker, processed: set<string>, ms: seq<Message>,
                                                    q: set<string>, net: Network)
    requires w.RunAll(processed, ms, net).1 <= q
    ensures w.RunAll(q, ms, net).1 == q
    ensures forall i :: 0 <= i < |ms| ==> w.RunAll(q, ms, net).0[i].Skipped?
    decreases |ms|
  {
    if ms != [] {
      var prefix, m := ms[..|ms| - 1], ms[|ms| - 1];
      var before := w.RunAll(processed, prefix, net);
      var first := w.Process(before.1, m, net);
      assert before.1 <= first.1 == w.RunAll(processed, ms, net).1;
      SecondPassHandlesNothing(w, processed, prefix, q, net);
      var again := w.RunAll(q, prefix, net);
      if m.id !in q {
        ProcessIgnoresOtherIds(w, before.1, q, m, net);
        assert !first.0.Handled?;
      }
      var second := w.Process(q, m, net);
      assert w.RunAll(q, ms, net).0 == again.0 + [second.0];
    }
  }

  /** A cycle run twice over the same fetch handles nothing the second time. */
  lemma RepeatedRunHandlesNothing(w: NotificationWorker, processed: set<string>, ms: seq<Message>, net: Network)
    ensures forall i :: 0 <= i < |ms| ==> !w.RunAll(w.RunAll(processed, ms, net).1, ms, net).0[i].Handled?
  {
    SecondPassHandlesNothing(w, processed, ms, w.RunAll(processed, ms, net).1, net);
  }

  /** A fetch of a new message `e1` and a message `e2` already processed hands
      only `e1` to `process_message`; `e1` is the one outcome, and the set grows by
      `e1` when it is handled. */
  lemma NewAndSeenMessage(w: NotificationWorker, processed: set<string>, e1: Message, e2: Message, net: Network)
    requires e1.id !in processed && e2.id in processed
    ensures Unprocessed([e1, e2], processed) == [e1]
    ensures var r := w.RunAll(processed, Unprocessed([e1, e2], processed), net);
            |r.0| == 1 && r.0[0] == w.Process(processed, e1, net).0 &&
            r.1 == if r.0[0].Handled? then processed + {e1.id} else processed
  {
    assert [e1, e2][1..] == [e2];
    assert [e2][1..] == [];
    var r := w.RunAll(processed, [e1], net);
    assert [e1][..0] == [];
  }

  /** The finding about `send_notification`: where the mailer would deliver, the
      call as written raises instead, so no message notification is ever sent. */
  lemma AsWrittenRaisesWhereCorrectedDelivers(w: NotificationWorker, m: Message, sender: User, recipient: User,
                                              conversationId: string, net: Network)
    requires recipient.email.Some? && recipient.email.value != ""
    requires RecipientFirstName(recipient.fullName).Some?
    ensures w.SendNotificationAsWritten(m, sender, recipient, conversationId, net) == Raised
    ensures w.SendNotification(m, sender, recipient, conversationId, net).Delivered?
  {
    CorrectedKeywordsBind();
  }

  /** With the call as written, a cycle delivers no message notification: every
      handled outcome's send raised or found no recipient e-mail. */
  lemma AsWrittenCycleDeliversNothing(w: NotificationWorker, processed: set<string>, ms: seq<Message>, net: Network)
    requires w.sendKeywords == AsWrittenKeywords
    ensures forall i :: 0 <= i < |ms| && w.RunAll(processed, ms, net).0[i].Handled? ==>
                          !w.RunAll(processed, ms, net).0[i].send.Delivered?
  {
    CorrectedKeywordsBind();
    forall i | 0 <= i < |ms| && w.RunAll(processed, ms, net).0[i].Handled?
      ensures !w.RunAll(processed, ms, net).0[i].send.Delivered?
    {
      RunAllAt(w, processed, ms, net, i);
      w.ProcessOutcome(w.RunAll(processed, ms[..i], net).1, ms[i], net);
    }
  }

  /** Two outcome lists that agree on each message's id and on whether it was handled. */
  predicate SameBookkeeping(rs1: seq<ProcessResult>, rs2: seq<ProcessResult>) {
    |rs1| == |rs2| && forall i :: 0 <= i < |rs1| ==> rs1[i].id == rs2[i].id && (rs1[i].Handled? <==> rs2[i].Handled?)
  }

  /** The keywords of the mailer call change only the send outcomes: two workers
      on the same store handle the same messages, end with the same processed-set
      and so mark the same messages. With `w1` running the call as written and `w2`
      the corrected call, every message the corrected worker mails is also marked
      and never retried by the program, which mails nothing. */
  lemma {:induction false} KeywordsKeepBookkeeping(w1: NotificationWorker, w2: NotificationWorker,
                                                   processed: set<string>, ms: seq<Message>, net: Network)
    requires w1.db == w2.db
    ensures w1.RunAll(processed, ms, net).1 == w2.RunAll(processed, ms, net).1
    ensures SameBookkeeping(w1.RunAll(processed, ms, net).0, w2.RunAll(processed, ms, net).0)
    ensures HandledIds(w1.RunAll(processed, ms, net).0) == HandledIds(w2.RunAll(processed, ms, net).0)
    decreases |ms|
  {
    if ms != [] {
      var prefix, m := ms[..|ms| - 1], ms[|ms| - 1];
      KeywordsKeepBookkeeping(w1, w2, processed, prefix, net);
      var b1, b2 := w1.RunAll(processed, prefix, net), w2.RunAll(processed, prefix, net);
      var l1, l2 := w1.Process(b1.1, m, net), w2.Process(b2.1, m, net);
      assert l1.0.Handled? <==> l2.0.Handled?;
      HandledIdsAppend(b1.0, l1.0);
      HandledIdsAppend(b2.0, l2.0);
      var r1, r2 := w1.RunAll(processed, ms, net).0, w2.RunAll(processed, ms, net).0;
      assert r1 == b1.0 + [l1.0] && r2 == b2.0 + [l2.0];
      forall i | 0 <= i < |r1| ensures r1[i].id == r2[i].id && (r1[i].Handled? <==> r2[i].Handled?) {
        if i < |prefix| {
          assert r1[i] == b1.0[i] && r2[i] == b2.0[i];
        }
      }
    }
  }
}
