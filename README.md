# Subly notification worker and marketplace rules, modelled in Dafny

Subly is a student sublet marketplace. Its Python e-mail service runs a
**message-notification worker**. On a fixed interval the worker does five things:

- it fetches the chat messages sent since a watermark;
- it drops the ones it has already handled;
- for each new message, it looks up the sender and the other participant of the conversation;
- it mails that participant a preview of the message;
- it records the message as handled.

Two pieces of state carry over from cycle to cycle:

- the watermark, `last_check_time`;
- an in-memory set of processed message ids, which is emptied once it grows past 1000 entries.

The rest of the repository holds Express routes where several small rule systems live:

- the booking lifecycle (pending, confirmed, cancelled, ended);
- admission checks for host and renter reviews;
- the wishlist, conversation, message, university and listing tables;
- the listing-expiry job;
- a mock mailer.

The Next.js front end adds more: wizard step validators, photo-list operations, a
date-range calendar, the booking price form, location search filters and a few
URL and file-name helpers.

The model has one Dafny module per source file:

- `NotificationDispatch` is the worker: a class with the watermark and the processed set as fields;
- `NotificationStore` and `Mail` are the store and the mailer it calls;
- the one-module-per-file rule covers every route, service, page and component above.

Some things outside the program become parameters:

- the database, the clock, the network, the template renderer, JSON encoding and the browser's alerts;
- a database table is a `map` or a `seq`;
- a time is an integer count of milliseconds, or of days;
- React state is the fields of a class whose methods are the event handlers.

Three helper modules are shared by all the others:

- `Wrappers` holds `Option` and the HTTP response;
- `Seqs` holds filtering and a stable sort by key;
- `Strings` holds trimming, ASCII lower-casing, splitting and substring search.

Each operation is proved against a specification. One of three things states its
effect:

- the operation's own `ensures`;
- a separate specification function;
- lemmas that relate several operations: idempotence, round trips, invariants kept, "nothing else changes".

## Model

| member | source | states |
|---|---|---|
| NotificationStore.FirstUserIndex | backend/python-email-service/database.py:15-18 | the first position whose user has the id, or none when no user has it |
| NotificationStore.FirstConversationIndex | backend/python-email-service/database.py:45-47 | the first position whose conversation has the id, or none when no conversation has it |
| NotificationStore.MarkSent | backend/python-email-service/database.py:68 | same length; exactly the rows whose id is marked get `email_sent = true`, all other rows are unchanged |
| NotificationStore.MarkSentTwice | backend/python-email-service/database.py:64-69 | marking one id set and then another equals marking their union once |
| NotificationStore.Database.constructor | backend/python-email-service/database.py:9-10 | the store holds the given tables and the given reachability and column flags |
| NotificationStore.Database.GetUserById | backend/python-email-service/database.py:12-21 | a result is the first row with the id; none exactly when the store is unreachable or no row has the id |
| NotificationStore.Database.GetNewMessages | backend/python-email-service/database.py:23-40 | an unreachable store gives `[]`; a message is returned iff it is stored and sent at or after the watermark and, when the `email_sent` column exists, not yet e-mailed |
| NotificationStore.Database.Participants | backend/python-email-service/database.py:42-62 | at most two users, each found by the user lookup; `[]` when the store fails or the conversation is missing; otherwise the guest then the host, each when set and found |
| NotificationStore.Database.LookUp | backend/python-email-service/database.py:50-57 | zero or one user; a found user has the id asked for; a set, non-empty id that the lookup finds yields exactly that user |
| NotificationStore.Database.GetConversationParticipants | backend/python-email-service/database.py:42-62 | the appending loop returns exactly `Participants` |
| NotificationStore.Database.MarkMessageNotified | backend/python-email-service/database.py:64-73 | with the store and column present, the message's row is marked; otherwise the failure is only logged and nothing changes |
| NotificationStore.MarkedNotRefetched | backend/python-email-service/database.py:29 | a marked message has `email_sent = true`, so the primary query never selects it again |
| NotificationDispatch.NullNameAnnouncedAsNone | backend/python-email-service/notification_worker.py:130 | a sender row whose `name` column is NULL keeps the key, so the fallback does not apply and the subject reads "New message from None on Subly" |
| NotificationDispatch.Preview | backend/python-email-service/notification_worker.py:131 | a body of at most 100 characters is kept whole; a longer body gives its first 100 characters followed by `...`; never longer than 103 |
| NotificationDispatch.RecipientFirstName | backend/python-email-service/notification_worker.py:137-138 | fails (the split is empty) exactly when the full name is non-empty and only Python white space (`str.split()`'s set, including the separators 0x1C-0x1F); otherwise the result holds no such white space, and it is non-empty for a non-empty name |
| NotificationDispatch.ConversationUrl | backend/python-email-service/notification_worker.py:134 | the link starts with the frontend origin and `/messages?conversation=`, and ends with the conversation id |
| NotificationDispatch.FirstOther | backend/python-email-service/notification_worker.py:102-106 | the earliest participant whose id differs from the sender's; none exactly when every participant is the sender |
| NotificationDispatch.FindRecipient | backend/python-email-service/notification_worker.py:102-106 | the loop with `break` returns exactly `FirstOther` |
| NotificationDispatch.CorrectedKeywordsBind | backend/python-email-service/notification_worker.py:141-147 | the corrected keywords bind to the mailer's parameters; the keywords as written do not |
| NotificationDispatch.NotificationWorker.constructor | backend/python-email-service/notification_worker.py:23-25 | a new worker has an empty processed-set and the construction time as its watermark; it keeps the store, mailer, frontend URL and mailer-call keywords it is given |
| NotificationDispatch.NotificationWorker.SendNotificationWith | backend/python-email-service/notification_worker.py:122-155 | an early return exactly when the recipient has no e-mail; a call that does not bind never delivers; a binding call with an e-mail and a splittable name hands exactly the sender name, preview and link to the mailer |
| NotificationDispatch.NotificationWorker.SendNotificationAsWritten | backend/python-email-service/notification_worker.py:141-147 | with the keywords as written, nothing is ever delivered |
| NotificationDispatch.NotificationWorker.SendNotification | backend/python-email-service/notification_worker.py:122-155 | `send_notification` with the call the mailer accepts: a recipient with an e-mail and a splittable name gets exactly the mailer's delivery; no e-mail means an early return |
| NotificationDispatch.NotificationWorker.Process | backend/python-email-service/notification_worker.py:76-120 | already-processed messages are skipped and only they; a missing sender is skipped, and only then; a handled message comes from its sender, goes to the first other participant and joins the processed-set whatever the send outcome; a skipped one leaves the set unchanged |
| NotificationDispatch.NotificationWorker.ProcessOutcome | backend/python-email-service/notification_worker.py:85-117 | a message is handled exactly when it is new, its sender is found and its conversation has another participant, and then it is sent with the worker's mailer call to that participant; "no participants" and "no recipient" skips happen exactly in their cases |
| NotificationDispatch.NotificationWorker.RunAll | backend/python-email-service/notification_worker.py:63-65 | one outcome per message, in order and with the message's id; the processed-set only grows |
| NotificationDispatch.NotificationWorker.ProcessMessage | backend/python-email-service/notification_worker.py:76-120 | the outcome and new processed-set are `Process`'s, so `ProcessOutcome` classifies them, and only a handled message is marked in the store |
| NotificationDispatch.NotificationWorker.ProcessAll | backend/python-email-service/notification_worker.py:63-65 | the loop's outcomes and processed-set are `RunAll`'s; the store marks exactly the handled ids |
| NotificationDispatch.NotificationWorker.CheckNewMessages | backend/python-email-service/notification_worker.py:40-74 | the set is cleared first when it holds over 1000 ids; an empty fetch returns at once with the watermark kept; otherwise the unprocessed messages run in fetch order through `process_message` with the worker's mailer call, the handled ones are marked, and the watermark becomes now |
| NotificationDispatch.HandledIdsAppend | backend/python-email-service/notification_worker.py:116 | the handled ids of a longer run are those of the shorter one plus the new outcome's id when it was handled |
| NotificationDispatch.Unprocessed | backend/python-email-service/notification_worker.py:60 | a message is kept iff it was fetched and its id is not processed |
| NotificationDispatchProperties.RunAllProcessedSet | backend/python-email-service/notification_worker.py:85-117 | after a cycle the processed-set is the starting set plus exactly the handled ids |
| NotificationDispatchProperties.RunAllAt | backend/python-email-service/notification_worker.py:63-65 | the i-th outcome is `process_message` of the i-th message, with the set that the earlier messages left |
| NotificationDispatchProperties.RunAllPrefix | backend/python-email-service/notification_worker.py:63-65 | a cycle over the first k messages gives the first k outcomes of the cycle over all of them |
| NotificationDispatchProperties.RunAllLast | backend/python-email-service/notification_worker.py:63-65 | a cycle over a list is the cycle over all but its last message followed by `process_message` of the last one |
| NotificationDispatchProperties.RunAllHandlesFresh | backend/python-email-service/notification_worker.py:85-110 | no handled id was already processed, and no handled message goes back to its sender |
| NotificationDispatchProperties.RunAllHandlesOnce | backend/python-email-service/notification_worker.py:85-117 | within one cycle no id is handled twice |
| NotificationDispatchProperties.ProcessIgnoresOtherIds | backend/python-email-service/notification_worker.py:85 | the outcome for a new message does not depend on which other ids are processed |
| NotificationDispatchProperties.SecondPassHandlesNothing | backend/python-email-service/notification_worker.py:85-87 | from any set containing a first run's result, a rerun of the same messages skips all of them and leaves the set as it was |
| NotificationDispatchProperties.RepeatedRunHandlesNothing | backend/python-email-service/notification_worker.py:85-87 | a cycle repeated over the same fetch handles nothing the second time |
| NotificationDispatchProperties.NewAndSeenMessage | backend/python-email-service/notification_worker.py:60-65 | of a new message and an already-processed one, only the new one is processed; the set grows by its id when it is handled |
| NotificationDispatchProperties.AsWrittenRaisesWhereCorrectedDelivers | backend/python-email-service/notification_worker.py:141-147 | wherever the corrected call delivers, the call as written raises |
| NotificationDispatchProperties.AsWrittenCycleDeliversNothing | backend/python-email-service/notification_worker.py:141-155 | a worker running the call as written delivers no notification in a whole cycle: every handled message's send raised or found no e-mail |
| NotificationDispatchProperties.KeywordsKeepBookkeeping | backend/python-email-service/notification_worker.py:85-117 | the mailer-call keywords change only send outcomes: workers on the same store handle the same messages and end with the same processed-set and marked ids, so every message the corrected worker mails is marked, and never retried, by the program as written |
| Mail.MessageSubject | backend/python-email-service/email_service.py:87 | the subject starts with `New message from `, ends with ` on Subly` and is 26 characters longer than the sender name |
| Mail.MessageSubjectInjective | backend/python-email-service/email_service.py:87 | the sender name can be read back from a message subject |
| Mail.ListingSubjectsDistinct | backend/python-email-service/email_service.py:104-166 | the four listing subjects never coincide across kinds, and the added and expired subjects determine the title |
| Mail.EmailService.constructor | backend/python-email-service/email_service.py:14-28 | the sender settings come from the configuration; a SendGrid client exists iff the provider is `sendgrid` and a non-empty key is set |
| Mail.EmailService.SendSmtpEmail | backend/python-email-service/email_service.py:30-50 | true iff the SMTP transport accepts; the From header is the display name followed by the address in angle brackets |
| Mail.EmailService.SendSendgridEmail | backend/python-email-service/email_service.py:52-67 | true iff SendGrid accepts; the sender is the bare address |
| Mail.EmailService.SendEmail | backend/python-email-service/email_service.py:69-74 | SendGrid is used iff it is the provider and its client exists, otherwise SMTP; a sent e-mail carries exactly the recipient, subject and HTML asked for |
| Mail.EmailService.RenderTemplate | backend/python-email-service/email_service.py:76-83 | a rendering failure gives `""`; a non-empty result is what the renderer produced |
| Mail.EmailService.Notify | backend/python-email-service/email_service.py:96-100 | empty HTML means nothing is sent; otherwise the outcome is `send_email` with the rendered HTML |
| Mail.EmailService.SendMessageNotification | backend/python-email-service/email_service.py:85-100 | renders `message_notification.html` with the sender name, preview, link and app name; an empty rendering sends nothing, and a non-empty one is exactly `send_email` to the recipient with the message subject and that HTML |
| Mail.EmailService.SendListingAddedNotification | backend/python-email-service/email_service.py:102-121 | renders `listing_added.html` with the listing context; an empty rendering sends nothing, and a non-empty one is exactly `send_email` to the recipient with the added subject and that HTML |
| Mail.EmailService.SendListingEditedNotification | backend/python-email-service/email_service.py:123-142 | renders `listing_edited.html` with the listing context; an empty rendering sends nothing, and a non-empty one is exactly `send_email` to the recipient with the edited subject and that HTML |
| Mail.EmailService.SendListingDeletedNotification | backend/python-email-service/email_service.py:144-162 | renders `listing_deleted.html` with the removal context; an empty rendering sends nothing, and a non-empty one is exactly `send_email` to the recipient with the removed subject and that HTML |
| Mail.EmailService.SendListingExpiredNotification | backend/python-email-service/email_service.py:164-183 | renders `listing_expired.html` with the expiry context; an empty rendering sends nothing, and a non-empty one is exactly `send_email` to the recipient with the expired subject and that HTML |
| MockEmail.GetSubject | backend/mockEmailService.js:25-38 | each of the four listing kinds gets the same subject the Python mailer builds for that title; every other kind gets `Subly Notification` |
| MockEmail.GenericSubjectIsDistinct | backend/mockEmailService.js:25-38 | a kind is one of the four listing kinds iff its subject is not the generic one |
| MockEmail.ListingAddress | backend/mockEmailService.js:45 | the address line is street, city, state and zip in that order, with their separators |
| MockEmail.ListingUrl | backend/mockEmailService.js:49 | the link is the listings prefix followed by exactly the listing id |
| MockEmail.ListingUrlInjective | backend/mockEmailService.js:49 | different listing ids give different links |
| MockEmail.MockEmailService.constructor | backend/mockEmailService.js:2-4 | a new stub has an empty log |
| MockEmail.MockEmailService.ListingPayload | backend/mockEmailService.js:41-50 | the added and edited payloads have exactly their eight keys, the listing's title and its link |
| MockEmail.MockEmailService.DeletedPayload | backend/mockEmailService.js:71-79 | exactly its seven keys, today's date as the removal date, and the dashboard link |
| MockEmail.MockEmailService.ExpiredPayload | backend/mockEmailService.js:85-94 | exactly its eight keys, today's date as the expiration date, and the dashboard link |
| MockEmail.MockEmailService.SendNotification | backend/mockEmailService.js:6-23 | appends exactly one entry, with the kind, payload, time and id, and reports success |
| MockEmail.MockEmailService.SendListingAddedNotification | backend/mockEmailService.js:40-53 | logs one `listing_added` entry with the listing payload |
| MockEmail.MockEmailService.SendListingEditedNotification | backend/mockEmailService.js:55-68 | logs one `listing_edited` entry with the listing payload |
| MockEmail.MockEmailService.SendListingDeletedNotification | backend/mockEmailService.js:70-82 | logs one `listing_deleted` entry with the deleted payload |
| MockEmail.MockEmailService.SendListingExpiredNotification | backend/mockEmailService.js:84-97 | logs one `listing_expired` entry with the expired payload |
| MockEmail.MockEmailService.GetNotifications | backend/mockEmailService.js:99-101 | returns the log as it is |
| MockEmail.MockEmailService.ClearNotifications | backend/mockEmailService.js:103-105 | the log becomes empty |
| MockEmail.StubSubjectsMatchMailer | backend/mockEmailService.js:25-97 | for every listing notification the stub logs, its subject equals the one the Python mailer sends for that listing |
| Expiration.Expire | backend/expirationService.js:23-28 | an expiring row becomes `inactive`, any other row is unchanged, and the result is no longer expiring |
| Expiration.ExpireAll | backend/expirationService.js:23-28 | every row of the table is updated by `Expire`, in place and in order |
| Expiration.CountExpiring | backend/expirationService.js:30 | the row count is at most the table size, and zero iff no row matches the WHERE clause |
| Expiration.OwnerOf | backend/expirationService.js:17 | a found owner is in the users table with the listing's user id; none iff no user has that id |
| Expiration.ExpiringRows | backend/expirationService.js:14-20 | the rows of the SELECT: every row is an expiring listing of the table joined with its owner's name and e-mail; every expiring listing that has an owner has its row; an owner-less listing drops out, so there are no more rows than the update count |
| Expiration.ExpireAllIdempotent | backend/expirationService.js:23-28 | a second run straight after changes nothing and touches no row |
| Expiration.NotifyAll | backend/expirationService.js:34-44 | one attempt per selected row, in order, each recording whether its e-mail call returned normally |
| Expiration.ExpirationService.constructor | backend/expirationService.js:5-8 | the service holds the given listings and users |
| Expiration.ExpirationService.ExpireListings | backend/expirationService.js:11-49 | the table becomes `ExpireAll` of the old one; the e-mails go to the selected rows iff the update touched a row, and otherwise none are sent |
| Bookings.PartyName | backend/routes/bookings.js:207 | `cancelled_by` is `guest` for the guest route and `host` for the host route |
| Bookings.UserBookingsExact | backend/routes/bookings.js:18-30 | a user is listed every stored booking where they are the guest or the host, and nothing else |
| Bookings.Find | backend/routes/bookings.js:105-112 | the stored row with status 200 iff the id exists; otherwise 404 `Booking not found` |
| Bookings.Create | backend/routes/bookings.js:33-95 | an unknown listing gets 404 and nothing else; otherwise the new row copies the listing's nightly price, stores the guest, host, dates and total as sent, and starts with both statuses `pending` |
| Bookings.Accept | backend/routes/bookings.js:117-132 | succeeds iff the row is `pending`, and then sets `confirmed` / `paid` and nothing else; otherwise 400 |
| Bookings.Decline | backend/routes/bookings.js:156-167 | succeeds iff the row is `pending`, and then sets `cancelled` / `released` and nothing else; otherwise 400 |
| Bookings.Cancel | backend/routes/bookings.js:192-210 | succeeds iff the row is `pending` or `confirmed`; records the reason, details, party and time; otherwise 400 |
| Bookings.End | backend/routes/bookings.js:277-288 | succeeds iff the row is `confirmed`, and then only the status becomes `ended`; otherwise 400 |
| Bookings.Handle | backend/routes/bookings.js:98-293 | an unknown id gets 404 whatever the request; a known one gets its transition |
| Bookings.PutAction | backend/routes/bookings.js:98-261 | exactly the five route names accept, decline, cancel, cancel-host and end have an action |
| Bookings.RoutePut | backend/routes/bookings.js:98-261 | a matched PUT path names a non-empty booking id without '/' |
| Bookings.RoutePutAction | backend/routes/bookings.js:98-261 | a PUT on `/<id>/<name>` reaches route `name`, in any letter case, with that id |
| Bookings.PutOnIdAloneNotFound | backend/routes/bookings.js:98-261 | a PUT on `/<id>` alone matches none of the `/:id/<name>` routes and is answered 404 |
| Bookings.Commit | backend/routes/bookings.js:123-129 | a refused request leaves the table unchanged; a successful one stores the returned row under the id, and every other row stays as it was |
| Bookings.TransitionFollowsLifecycle | backend/routes/bookings.js:117-288 | `Transition` (the handler of one PUT action): every successful transition follows a lifecycle edge and keeps the parties, dates and prices |
| Bookings.LifecycleEdgeIsTaken | backend/routes/bookings.js:98-293 | every lifecycle edge is taken by some request |
| Bookings.TerminalStatesAreFinal | backend/routes/bookings.js:117-288 | every request on a `cancelled` or `ended` row is refused with 400 |
| Bookings.RunStaysInLifecycle | backend/routes/bookings.js:98-293 | `Run` (a sequence of PUT actions): under any sequence of requests, a booking in a lifecycle status stays in one and keeps its reservation, and a terminal status never changes |
| Bookings.BookingRoutes.constructor | backend/routes/bookings.js:3-4 | the router holds the given tables |
| Bookings.BookingRoutes.CreateBooking | backend/routes/bookings.js:33-95 | the response is `Create`'s, and the table gains that row only on success |
| Bookings.BookingRoutes.GetBooking | backend/routes/bookings.js:296-310 | the response is the row lookup's |
| Bookings.BookingRoutes.Put | backend/routes/bookings.js:98-293 | the response is `Handle`'s; the table is committed accordingly; a success always changes the row's status |
| BookingsSimple.ExpiryOf | backend/routes/bookings-simple.js:115 | a set `expires_at` is read as stored; a null one reads as the epoch |
| BookingsSimple.Create | backend/routes/bookings-simple.js:45-93 | refused with 400 iff the start is more than 7 days away; otherwise 201 with the client's fields, `pending` / `pending`, and an expiry one day after now |
| BookingsSimple.Accept | backend/routes/bookings-simple.js:114-137 | succeeds iff the request has not expired and is `pending`; the expiry is checked first; success sets `confirmed` / `paid` only |
| BookingsSimple.Release | backend/routes/bookings-simple.js:145-207 | decline and cancel succeed iff the row is `pending`, and then set `cancelled` / `released` only |
| BookingsSimple.Update | backend/routes/bookings-simple.js:215-228 | 404 iff the id is unknown; otherwise the six columns take the request's values and the parties, ids and expiry stay |
| BookingsSimple.AcceptWindow | backend/routes/bookings-simple.js:71-115 | a request created here can be accepted exactly until one day after its creation |
| BookingsSimple.NullExpiryAlwaysExpired | backend/routes/bookings-simple.js:115 | a row without `expires_at`, as the mounted routes create, is always refused as expired after the epoch |
| BookingsSimple.CancelStricterThanMounted | backend/routes/bookings-simple.js:196-207 | every cancel allowed here is allowed by the mounted cancel (backend/routes/bookings.js lines 192-210), and a confirmed booking is refused here but not there |
| BookingsSimple.UpdateBypassesLifecycle | backend/routes/bookings-simple.js:215-228 | the general update can move a booking out of a terminal status |
| BookingsSimple.SimpleBookingRoutes.constructor | backend/routes/bookings-simple.js:5 | the router holds the given table |
| BookingsSimple.SimpleBookingRoutes.CreateBooking | backend/routes/bookings-simple.js:45-93 | the response is `Create`'s; the row is stored only on success |
| BookingsSimple.SimpleBookingRoutes.AcceptBooking | backend/routes/bookings-simple.js:96-142 | 404 for an unknown id, otherwise `Accept`; committed accordingly |
| BookingsSimple.SimpleBookingRoutes.ReleaseBooking | backend/routes/bookings-simple.js:145-212 | 404 for an unknown id, otherwise `Release`; committed accordingly |
| BookingsSimple.SimpleBookingRoutes.UpdateBooking | backend/routes/bookings-simple.js:215-228 | the response is `Update`'s; committed accordingly |
| HostReviews.ScoresAcceptedEach | backend/routes/host-reviews.js:70-75 | the five scores pass the loop iff each one passes |
| HostReviews.CheckScores | backend/routes/host-reviews.js:70-75 | the loop with early return accepts iff no score is rejected |
| HostReviews.PostAdmitsExactly | backend/routes/host-reviews.js:48-138 | `Post`: a review is stored iff every check passes; the stored review has the request's ids, scores in 1..5 as sent, an ended booking, and one participant reviewing the other |
| HostReviews.PostKeepsTriplesUnique | backend/routes/host-reviews.js:106-130 | storing an admitted review under a fresh id keeps (booking, reviewer, reviewee) unique |
| HostReviews.SecondPostRefused | backend/routes/host-reviews.js:106-114 | the same request, once stored, is refused the second time with 400 |
| HostReviews.Coalesce | backend/routes/host-reviews.js:189-194 | a given field replaces the column, a missing or null one keeps it |
| HostReviews.Put | backend/routes/host-reviews.js:141-205 | scores are checked first (400), then the row exists (404), then the author (403), then the 30 days (400); success keeps the ids and creation time and sets `updated_at`; each score and the comment the request gives is the one stored, and each it leaves out keeps its old value |
| HostReviews.Delete | backend/routes/host-reviews.js:208-246 | succeeds iff the row exists, the caller is its author and it is within 30 days; each refusal has its own status and message |
| HostReviews.UpdateAndDeleteShareWindow | backend/routes/host-reviews.js:173-236 | with acceptable scores, an update succeeds iff the same caller's delete does |
| HostReviews.HostReviewRoutes.constructor | backend/routes/host-reviews.js:3-4 | the router holds the given tables |
| HostReviews.HostReviewRoutes.CreateReview | backend/routes/host-reviews.js:48-138 | the step-by-step handler answers as `Post`, and the table gains the review only on success |
| HostReviews.HostReviewRoutes.UpdateReview | backend/routes/host-reviews.js:141-205 | answers as `Put`; the row is replaced only on success |
| HostReviews.HostReviewRoutes.DeleteReview | backend/routes/host-reviews.js:208-246 | answers as `Delete`; the row is removed only on success |
| RenterReviews.WithContent | backend/routes/renter-reviews.js:139-160 | every score and the comment take the request's value, a missing one null; ids and times are kept |
| RenterReviews.Post | backend/routes/renter-reviews.js:108-116 | a missing or unknown booking is 404 before any other check |
| RenterReviews.PostAdmitsExactly | backend/routes/renter-reviews.js:95-167 | `Post`: a review is stored iff the booking has ended, the reviewer is its host, the reviewed user its guest and no review of that pair exists; the stored row has the new id, the creation time, no `updated_at`, and each of the four scores and the comment as the request gives it (null when left out) |
| RenterReviews.PostKeepsPairsUnique | backend/routes/renter-reviews.js:128-136 | storing an admitted review under a fresh id keeps (booking, reviewer) unique |
| RenterReviews.SecondPostRefused | backend/routes/renter-reviews.js:128-136 | once a host's review of a booking is stored, the same parties posting again get 400 |
| RenterReviews.Put | backend/routes/renter-reviews.js:170-202 | fails with 404 iff the id is unknown; otherwise every score and the comment are overwritten and `updated_at` set |
| RenterReviews.PutErasesOmittedScores | backend/routes/renter-reviews.js:181-191 | a score the update leaves out becomes null |
| RenterReviews.Delete | backend/routes/renter-reviews.js:205-222 | fails with 404 iff the id is unknown |
| RenterReviews.RenterReviewRoutes.constructor | backend/routes/renter-reviews.js:3-4 | the router holds the given tables |
| RenterReviews.RenterReviewRoutes.CreateReview | backend/routes/renter-reviews.js:95-167 | answers as `Post`; the table gains the row only on success |
| RenterReviews.RenterReviewRoutes.UpdateReview | backend/routes/renter-reviews.js:170-202 | answers as `Put`; the row is replaced only on success |
| RenterReviews.RenterReviewRoutes.DeleteReview | backend/routes/renter-reviews.js:205-222 | answers as `Delete` and removes the row |
| Wishlist.Add | backend/routes/wishlist.js:35-58 | a saved pair is refused with 400 and the table kept; otherwise 201 with the new row, appended |
| Wishlist.Remove | backend/routes/wishlist.js:61-77 | succeeds iff the pair was saved; afterwards no row of the pair remains and every other row is kept; otherwise 404 |
| Wishlist.Check | backend/routes/wishlist.js:80-92 | `inWishlist` iff some row holds the pair |
| Wishlist.AddThenRemove | backend/routes/wishlist.js:35-77 | adding an unsaved pair and then removing it gives back the table as it was |
| Wishlist.CheckAfterChanges | backend/routes/wishlist.js:35-92 | after an add the check answers true, after a remove false |
| Wishlist.AddKeepsPairsUnique | backend/routes/wishlist.js:39-52 | adding keeps each (user, listing) pair saved at most once |
| Wishlist.UserWishlistCorrect | backend/routes/wishlist.js:6-17 | `UserWishlist`: the view holds exactly the user's rows whose listing is `active`, newest first |
| Wishlist.WishlistRoutes.constructor | backend/routes/wishlist.js:1-4 | the router holds the given table |
| Wishlist.WishlistRoutes.AddItem | backend/routes/wishlist.js:35-58 | answers and updates the table as `Add` |
| Wishlist.WishlistRoutes.RemoveItem | backend/routes/wishlist.js:61-77 | answers and updates the table as `Remove` |
| Wishlist.WishlistRoutes.CheckItem | backend/routes/wishlist.js:80-92 | answers as `Check` and changes nothing |
| Conversations.FirstFor | backend/routes/conversations.js:13-18 | the position found holds a conversation for the triple, and none is found iff no row holds one |
| Conversations.FindOrCreate | backend/routes/conversations.js:6-29 | a falsy id is 400 with the table kept; with all three ids given the answer is a success: the first conversation for the triple with 200 and the table unchanged, or, when there is none, a new row for the triple appended and returned with 201 |
| Conversations.FindOrCreateIdempotent | backend/routes/conversations.js:6-29 | a second call with the same triple returns the first call's conversation with 200 and changes nothing |
| Conversations.FirstForAfterAppend | backend/routes/conversations.js:13-25 | when no row matches, the appended row is the one the next lookup finds |
| Conversations.FindOrCreateKeepsTriplesUnique | backend/routes/conversations.js:13-25 | find-or-create keeps one conversation per (listing, guest, host) |
| Conversations.UserConversationsCorrect | backend/routes/conversations.js:32-43 | `UserConversations`: the list holds exactly the conversations the user is guest or host of, newest first |
| Conversations.GetById | backend/routes/conversations.js:46-55 | succeeds iff some row has the id, and returns such a row; otherwise 404 `Not found` |
| Conversations.ConversationRoutes.constructor | backend/routes/conversations.js:1-4 | the router holds the given table |
| Conversations.ConversationRoutes.FindOrCreateConversation | backend/routes/conversations.js:6-29 | answers and updates the table as `FindOrCreate` |
| Messages.Post | backend/routes/messages.js:20-34 | a falsy field is 400 and nothing is stored; otherwise one message is appended with 201, sent now and not yet e-mailed |
| Messages.ForConversationCorrect | backend/routes/messages.js:6-17 | `ForConversation`: the listing holds exactly the conversation's messages, each as often as stored, in ascending `sent_at` |
| Messages.PostedMessageIsPending | backend/routes/messages.js:26-29 | a posted message is selected by the worker's unsent query on any cycle whose watermark is not after its posting time |
| Messages.PostLeavesOtherConversations | backend/routes/messages.js:20-34 | posting into one conversation leaves every other conversation's listing unchanged |
| Messages.MessageRoutes.constructor | backend/routes/messages.js:1-4 | the router holds the given table |
| Messages.MessageRoutes.PostMessage | backend/routes/messages.js:20-34 | answers and updates the table as `Post` |
| Messages.MessageRoutes.ListMessages | backend/routes/messages.js:6-17 | returns the conversation's listing and changes nothing |
| Universities.Step | backend/routes/universities.js:56-78 | once the loop has aborted, a further entry changes nothing |
| Universities.ImportAccounting | backend/routes/universities.js:50-78 | `Import` (the loop as a fold of `Step`): each entry the loop reaches raises exactly one of added, skipped and errors; the table grows by exactly the added rows, keeps its old rows in front, and keeps domains and ids unique |
| Universities.ImportedDomainsPresent | backend/routes/universities.js:56-74 | after an import that did not abort, every well-formed entry's domain is in the table |
| Universities.ImportOfKnownDomainsAddsNothing | backend/routes/universities.js:65-74 | when every well-formed entry's domain is already present, the import leaves the table as it was and adds nothing |
| Universities.ReimportAddsNothing | backend/routes/universities.js:42-87 | importing the same array a second time adds no row |
| Universities.ImportStopsAfterCrash | backend/routes/universities.js:56-86 | once a `null` entry has aborted the loop, the later entries change nothing |
| Universities.BulkImportResponse | backend/routes/universities.js:42-87 | a payload that is not an array is 400; an aborted loop is 500; otherwise 200 with the loop's counters |
| Universities.Create | backend/routes/universities.js:28-39 | fails iff the domain is already taken (the unique index, 500); otherwise 201 with the next serial id |
| Universities.Replace | backend/routes/universities.js:94-97 | the row with the id gets the new name and domain, every other row is kept, and the length is unchanged |
| Universities.Update | backend/routes/universities.js:90-103 | an unknown id is 404; a domain held by another row is 500; on success the row is replaced and returned |
| Universities.UpdateKeepsDomainsUnique | backend/routes/universities.js:94-97 | a successful update keeps the domains unique |
| Universities.Get | backend/routes/universities.js:16-25 | succeeds iff some row has the id, and returns such a row; otherwise 404 |
| Universities.RemoveId | backend/routes/universities.js:109 | the rows left are exactly those without the id |
| Universities.Delete | backend/routes/universities.js:106-115 | an unknown id is 404 with the table kept; otherwise 204 and no row with the id remains |
| Universities.UniversityRoutes.constructor | backend/routes/universities.js:1-4 | the router holds the given table, serial counter and foreign functions |
| Universities.UniversityRoutes.BulkImport | backend/routes/universities.js:42-87 | the loop answers as `BulkImportResponse`, and leaves the table and counter as the `Import` fold does; a non-array payload touches nothing |
| Listings.Bind | backend/routes/listings.js:87-91 | a given body field is bound as its text, a missing one as null |
| Listings.OrDefault | backend/routes/listings.js:89-90 | `f \|\| d`: a falsy field takes the default, any other its own text |
| Listings.NewListingDefaults | backend/routes/listings.js:81-92 | `NewListing`: a new listing takes occupancy 1, status `active`, type `apartment`, space `entire_place`, one bedroom and one bathroom exactly when the body leaves those out or empty, and the body's values otherwise |
| Listings.ParseList | backend/routes/listings.js:77-78 | a falsy list field is the empty list; any other is the parse of its text |
| Listings.RowsFor | backend/routes/listings.js:96-114 | one `(listing, value)` row per element, in order |
| Listings.ImageRows | backend/routes/listings.js:117-128 | one image row per file, url `/uploads/` plus the stored name, `order_index` its position |
| Listings.ImageRowsOrdered | backend/routes/listings.js:118-126 | the uploaded images carry strictly increasing indices 0..n-1 and each url names its file under `/uploads/` |
| Listings.ImagesOfCorrect | backend/routes/listings.js:55-58 | a listing's images are exactly its rows, ascending by `order_index` |
| Listings.FirstImageIsLowest | backend/routes/listings.js:31-37 | the list view attaches at most one image: none iff the listing has none, otherwise one with the lowest `order_index` |
| Listings.Get | backend/routes/listings.js:46-65 | succeeds iff some row has the id, and returns it with all its images in order; otherwise 404 |
| Listings.Updated | backend/routes/listings.js:141-145 | the update keeps the id, owner, type, space, bedrooms and bathrooms |
| Listings.UpdateErasesOmittedColumns | backend/routes/listings.js:141-145 | an update that leaves out `status` or `max_occupancy` sets it to null, with no default |
| Listings.UpdateAll | backend/routes/listings.js:142-145 | every row with the id is updated and every other row kept |
| Listings.Put | backend/routes/listings.js:138-151 | an unknown id is 404 with nothing changed; otherwise 200 with an updated row of that id |
| Listings.IndexOf | backend/routes/listings.js:146-147 | the position of the first row with the id |
| Listings.RemoveId | backend/routes/listings.js:157 | the rows left are exactly those without the id |
| Listings.Delete | backend/routes/listings.js:154-163 | an unknown id is 404 with nothing changed; otherwise 204 and no row with the id remains |
| Listings.DeleteThenMissing | backend/routes/listings.js:138-163 | a deleted listing can no longer be updated or deleted (404) |
| Listings.ListingRoutes.constructor | backend/routes/listings.js:22-24 | the router holds the given tables, serial counter and foreign functions |
| Listings.ListingRoutes.CreateListing | backend/routes/listings.js:68-135 | more than ten photos or an unparsable list changes nothing; otherwise the listing is inserted under the next serial id, then its amenity, occupant and image rows in order |
| Listings.ListingRoutes.InsertAmenities | backend/routes/listings.js:96-104 | appends one amenity row per element and changes no other table |
| Listings.ListingRoutes.InsertOccupants | backend/routes/listings.js:106-114 | appends one occupant row per element and changes no other table |
| Listings.ListingRoutes.InsertImages | backend/routes/listings.js:116-128 | appends one image row per uploaded file and changes no other table |
| Listings.ListingRoutes.ListAll | backend/routes/listings.js:26-43 | every listing, in table order, with its first image attached |
| Listings.ListingRoutes.GetListing | backend/routes/listings.js:46-65 | answers as `Get` and changes nothing |
| Listings.ListingRoutes.UpdateListing | backend/routes/listings.js:138-151 | answers and updates the listings as `Put`; no other table changes |
| Listings.ListingRoutes.DeleteListing | backend/routes/listings.js:154-163 | answers and updates the listings as `Delete`; no other table changes |
| Api.BaseUrl | frontend/src/utils/api.ts:2 | a set, non-empty variable is the base; otherwise `http://localhost:4000`; never empty |
| Api.BuildApiUrl | frontend/src/utils/api.ts:9-13 | the base followed by exactly the endpoint |
| Api.BuildImageUrl | frontend/src/utils/api.ts:16-21 | a `/uploads/` path is prefixed with the base; any other path is returned unchanged |
| Api.BuildImageUrlIdempotent | frontend/src/utils/api.ts:16-21 | with a base that is an origin, building an image URL twice gives the same URL as once |
| Api.DefaultBaseIsOrigin | frontend/src/utils/api.ts:2 | the default base is such an origin |
| Api.AbsoluteUrlUnchanged | frontend/src/utils/api.ts:16-21 | a URL not starting with `/` (a storage URL) is used as it is |
| SupabaseStorage.IsHeicIgnoresCase | frontend/src/utils/supabaseStorage.ts:17-27 | the HEIC test gives the same answer for the lower-cased name and type |
| SupabaseStorage.Extension | frontend/src/utils/supabaseStorage.ts:113-116 | the extension is never empty and holds no dot (the avatar name at line 184 uses the same rule) |
| SupabaseStorage.ExtensionAfterLastDot | frontend/src/utils/supabaseStorage.ts:113-116 | the extension of `stem.ext` is `ext`, or `jpg` when `ext` is empty |
| SupabaseStorage.ExtensionOfDotlessName | frontend/src/utils/supabaseStorage.ts:113-116 | a name with no dot is taken whole as its extension |
| SupabaseStorage.ListingImageNameKeepsExtension | frontend/src/utils/supabaseStorage.ts:113-116 | the stored name has the same extension as the uploaded file |
| SupabaseStorage.Report | frontend/src/utils/supabaseStorage.ts:128-148 | success iff the storage reports no error; then the public URL, otherwise the error and no URL |
| SupabaseStorage.UploadListingImage | frontend/src/utils/supabaseStorage.ts:81-153 | with conversion switched off the file is uploaded as given, flagged as skipped iff it is HEIC; its name is built from the listing, index, time, random suffix and extension |
| SupabaseStorage.UploadAvatar | frontend/src/utils/supabaseStorage.ts:158-216 | a HEIC avatar is replaced by its conversion when that succeeds and kept otherwise; the name is `avatar-` plus user, time, suffix and the uploaded file's extension |
| SupabaseStorage.DeleteTarget | frontend/src/utils/supabaseStorage.ts:224-227 | a target exists iff the URL splits into exactly two parts on the public marker; bucket and path hold no `/` |
| SupabaseStorage.DeleteStorageFile | frontend/src/utils/supabaseStorage.ts:221-243 | true iff the URL has that shape and the removal reports no error |
| SupabaseStorage.DeleteRejectsForeignUrl | frontend/src/utils/supabaseStorage.ts:224-225 | a URL without the public marker is never deleted |
| SupabaseStorage.DeleteTargetSegments | frontend/src/utils/supabaseStorage.ts:227 | after the marker, the bucket and path are the first two segments; deeper segments are dropped |
| CivilDates.DaysInMonth | frontend/src/components/CompactCalendar.tsx:22-23 | a month has 28 to 31 days, and 29 exactly for February of a leap year |
| CivilDates.DivStep | frontend/src/components/CompactCalendar.tsx:22-23 | stepping a count on by one crosses a multiple of 4, 100 or 400 exactly when the new remainder is zero |
| CivilDates.EraRemainders | frontend/src/components/CompactCalendar.tsx:22-23 | a year's remainders by 4 and 100 are those of its year within the 400-year era |
| CivilDates.LeapByYearOfEra | frontend/src/components/CompactCalendar.tsx:22-23 | leap years repeat every 400 years |
| CivilDates.YearLength | frontend/src/components/CompactCalendar.tsx:22-23 | a March-based year has 366 days exactly when the February ending it is a leap February |
| CivilDates.EpochIsDayZero | frontend/src/components/CompactCalendar.tsx:28 | 1970-01-01 is day 0 and millisecond 0, and February 2000 has 29 days |
| CivilDates.Weekday | frontend/src/components/CompactCalendar.tsx:24 | `getDay()` lies in 0..6 |
| CivilDates.NextMonth | frontend/src/components/CompactCalendar.tsx:108-115 | the month after is again a month 0..11 |
| CivilDates.PrevMonth | frontend/src/components/CompactCalendar.tsx:99-106 | the month before is again a month 0..11 |
| CivilDates.MonthSteps | frontend/src/components/CompactCalendar.tsx:99-115 | next and previous move the month index by one each way and undo each other |
| CivilDates.NextDay | frontend/src/components/CompactCalendar.tsx:27-28 | consecutive days of a month have consecutive day numbers |
| CivilDates.MonthEndMeetsNextMonth | frontend/src/components/CompactCalendar.tsx:21-28 | the day after a month's last day is the first day of the next month |
| CivilDates.MonthOffsetStep | frontend/src/components/CompactCalendar.tsx:22-23 | consecutive months of a March-based year begin the earlier month's length apart |
| CivilDates.DateMsMonotone | frontend/src/components/CompactCalendar.tsx:35-48 | within a month a later day is a later date, `DayMs` per day apart |
| CompactCalendar.Leading | frontend/src/components/CompactCalendar.tsx:21-26 | the number of padding cells lies in 0..6 |
| CompactCalendar.Grid | frontend/src/components/CompactCalendar.tsx:25-59 | the grid has exactly the padding plus one cell per day of the month |
| CompactCalendar.GridLayout | frontend/src/components/CompactCalendar.tsx:21-59 | padding first, then days 1.. in order one day apart, the last one the day before the next month begins |
| CompactCalendar.GridMarks | frontend/src/components/CompactCalendar.tsx:29-41 | a day is available iff it is today or later, and marked as start or end iff it is that date |
| CompactCalendar.GridSelection | frontend/src/components/CompactCalendar.tsx:43-50 | with both dates a day is selected iff it lies between them; with only a start iff it lies after it and not after the hovered day; with no start never |
| CompactCalendar.GridStartMarkedOnce | frontend/src/components/CompactCalendar.tsx:34-37 | at most one cell is marked as the start |
| CompactCalendar.Click | frontend/src/components/CompactCalendar.tsx:62-82 | a click yields a new range iff it is on an available day |
| CompactCalendar.ClickCases | frontend/src/components/CompactCalendar.tsx:62-82 | a click completes a waiting range when the day is not before its start, and otherwise starts a new range at the day; the range is always ordered and the day is one of its ends |
| CompactCalendar.CompletedRangeSelected | frontend/src/components/CompactCalendar.tsx:43-72 | after a completing click the shown days between the two ends are exactly the selected ones |
| CompactCalendar.CalendarView.constructor | frontend/src/components/CompactCalendar.tsx:11-18 | the view opens on the start date's month if there is one, otherwise today's, with no hover |
| CompactCalendar.CalendarView.Days | frontend/src/components/CompactCalendar.tsx:25-59 | the two loops build exactly `Grid` of the shown month |
| CompactCalendar.CalendarView.MouseEnter | frontend/src/components/CompactCalendar.tsx:85-92 | an available day after a waiting start becomes the hover; anything else leaves it |
| CompactCalendar.CalendarView.MouseLeave | frontend/src/components/CompactCalendar.tsx:95-97 | clears the hover and keeps the month |
| CompactCalendar.CalendarView.GoPrevMonth | frontend/src/components/CompactCalendar.tsx:99-106 | the shown month becomes the one before, January stepping back to December |
| CompactCalendar.CalendarView.GoNextMonth | frontend/src/components/CompactCalendar.tsx:108-115 | the shown month becomes the one after, December stepping on to January |
| CompactCalendar.PrevStaysFromToday | frontend/src/components/CompactCalendar.tsx:120 | with the back button disabled on today's month, going back never shows a month before today's |
| MobileNavbar.DateLabel | frontend/src/components/MobileNavbar.tsx:141-146 | an absent date reads `Add dates`, a present one its formatted text |
| MobileNavbar.Midnight | frontend/src/components/MobileNavbar.tsx:290-291 | the local midnight of a time's day: not after it, less than a day before it, and a whole number of days |
| MobileNavbar.MidnightOfDate | frontend/src/components/MobileNavbar.tsx:290-291 | a date the calendar produces is already a midnight (the embedded calendar builds its dates at line 466) |
| MobileNavbar.MidnightMonotone | frontend/src/components/MobileNavbar.tsx:288-298 | normalising twice is normalising once, and it keeps two times in order |
| MobileNavbar.OnChange | frontend/src/components/MobileNavbar.tsx:288-298 | a complete range is stored normalised to midnight and closes the calendar; a partial one is stored as it is and closes nothing |
| MobileNavbar.ClickThenChange | frontend/src/components/MobileNavbar.tsx:288-298 | a click that completes a range closes the calendar with an ordered range of the waiting start and the clicked day; any other accepted click keeps it open with the day as the new start (the click rule is the embedded calendar's, lines 495-511) |
| MobileNavbar.NavbarDates.constructor | frontend/src/components/MobileNavbar.tsx:31 | the drop-down starts closed, with the range it is given |
| MobileNavbar.NavbarDates.ToggleCalendar | frontend/src/components/MobileNavbar.tsx:261-272 | a click on a date field flips the drop-down and keeps the range |
| MobileNavbar.NavbarDates.CloseCalendar | frontend/src/components/MobileNavbar.tsx:101-239 | closing (an outside click, collapsing, searching, focusing the location) keeps the range |
| MobileNavbar.NavbarDates.CalendarChanged | frontend/src/components/MobileNavbar.tsx:288-298 | stores the range as `OnChange` does, and closes the drop-down exactly when it completes the range |
| MobileNavbar.NavbarDates.ClickDay | frontend/src/components/MobileNavbar.tsx:495-511 | an ignored click changes nothing; an accepted one stores and closes as `OnChange` of the click's range (a completed range then goes through the handler of lines 288-298) |
| BookingForm.Nights | frontend/src/components/BookingForm.tsx:52-60 | the nights are exactly the day-number difference of the two inputs, so the rounding never changes them; they are positive iff check-out is after check-in |
| BookingForm.Totals | frontend/src/components/BookingForm.tsx:49-70 | (corrected effect) positive nights iff both dates are set and check-out is after check-in, then those nights; the total is always nights times the price |
| BookingForm.SubmitError | frontend/src/components/BookingForm.tsx:75-83 | a missing date shows the missing-dates message; with both dates the request goes out iff the nights are positive |
| BookingForm.SubmitOnlyForwardRanges | frontend/src/components/BookingForm.tsx:49-83 | with the corrected effect a request is made only for a check-out after the check-in, with the total of those nights |
| BookingForm.TotalsAsWritten | frontend/src/components/BookingForm.tsx:49-70 | (effect as written) when the dates give positive nights the figures are those of `Totals`; when check-out is not after check-in, or a date is missing, the previous nights and total are kept |
| BookingForm.StaleNightsAsWritten | frontend/src/components/BookingForm.tsx:62-83 | as written, on 2025-01-01, check-in 2025-01-02 with check-out 2025-01-05 gives 3 nights; moving the check-in to 2025-01-05, which the inputs' `min` and `max` (lines 145-170) allow, keeps 3 nights and their total, and the submit checks pass for a zero-night stay; the corrected effect gives 0 nights |
| BookingForm.TotalsAgreeOnValidRanges | frontend/src/components/BookingForm.tsx:62-68 | the as-written and corrected effects agree whenever check-out is after check-in |
| BookingForm.OutcomeError | frontend/src/components/BookingForm.tsx:105-118 | no message iff the booking was created; a refusal shows `error`, else `details`, else the fixed text; a thrown error its message or the fallback; never an empty message |
| BookingForm.Form.constructor | frontend/src/components/BookingForm.tsx:26-34 | the form starts with no dates, 0 nights, total 0, one guest, no error and not loading |
| BookingForm.Form.UpdateTotals | frontend/src/components/BookingForm.tsx:49-70 | (corrected) leaves nights and total equal to `Totals` of the dates and changes nothing else |
| BookingForm.Form.SetCheckIn | frontend/src/components/BookingForm.tsx:144 | stores the check-in, then the totals follow the dates |
| BookingForm.Form.SetCheckOut | frontend/src/components/BookingForm.tsx:163 | stores the check-out, then the totals follow the dates |
| BookingForm.Form.ResetForm | frontend/src/components/BookingForm.tsx:37-46 | clears both dates, nights, total and error, and sets one guest |
| BookingForm.Form.Submit | frontend/src/components/BookingForm.tsx:72-119 | a failing check shows its message and sends nothing; otherwise the request carries the listing, user, host, dates and total; a created booking resets the form, any other outcome shows its message and keeps the form; loading ends false |
| PhotoUpload.AsPhotos | frontend/src/components/PhotoUpload.tsx:67 | one new-file entry per file, in order |
| PhotoUpload.HandleFiles | frontend/src/components/PhotoUpload.tsx:51-69 | a batch with no image shows the images-only alert; one with an oversized image shows the too-large alert; it is accepted iff it holds an image and no image is oversized, and then the images follow the old photos, cut at the cap, and every added entry is an accepted image of the batch |
| PhotoUpload.RemovePhoto | frontend/src/components/PhotoUpload.tsx:97-100 | the photo at the index is dropped and the others keep their order; an index past the end changes nothing |
| PhotoUpload.RemovePhotoDropsOne | frontend/src/components/PhotoUpload.tsx:97-100 | removing takes out exactly that one photo |
| PhotoUpload.MovedIsPermutation | frontend/src/components/PhotoUpload.tsx:102-107 | a move keeps every photo, puts the moved one at the target, and moving it back restores the list |
| PhotoUpload.MovedMultiset | frontend/src/components/PhotoUpload.tsx:102-107 | taking a photo out and putting it back elsewhere keeps the multiset |
| PhotoUpload.MovedAt | frontend/src/components/PhotoUpload.tsx:102-107 | the photos between the two positions shift by one toward the old place, the others stay |
| PhotoUpload.LabelFormula | frontend/src/components/PhotoUpload.tsx:113-120 | every photo after the cover is labelled `Photo` and its one-based position |
| PhotoUpload.LabelsDistinct | frontend/src/components/PhotoUpload.tsx:113-120 | no two positions share a label |
| PhotoUpload.PhotoUploader.constructor | frontend/src/components/PhotoUpload.tsx:18-27 | the uploader holds the parent's list and cap, with no drag in progress |
| PhotoUpload.PhotoUploader.AddFiles | frontend/src/components/PhotoUpload.tsx:51-69 | a refused batch shows its alert and keeps the list; an accepted one makes the list the one `HandleFiles` gives |
| PhotoUpload.PhotoUploader.Remove | frontend/src/components/PhotoUpload.tsx:97-100 | the list becomes `RemovePhoto` of it |
| PhotoUpload.PhotoUploader.DragStart | frontend/src/components/PhotoUpload.tsx:130-133 | records the dragged index and keeps the list |
| PhotoUpload.PhotoUploader.DropOnPhoto | frontend/src/components/PhotoUpload.tsx:146-156 | a drop on another photo moves the dragged one there; otherwise the list is kept; the drag state is cleared |
| PhotoUpload.MovedForwardForm | frontend/src/components/PhotoUpload.tsx:102-107 | a forward move written as slices of the original list |
| PhotoUpload.MovedBackwardForm | frontend/src/components/PhotoUpload.tsx:102-107 | a backward move written as slices of the original list |
| PhotoUpload.MoveForward | frontend/src/components/PhotoUpload.tsx:104-105 | in place: the photos after `from` up to `to` move down one place, the moved one lands at `to`, the rest stay |
| PhotoUpload.ShiftedForward | frontend/src/components/PhotoUpload.tsx:104-105 | the array a forward shift leaves is the slice form of a forward move |
| PhotoUpload.MoveBackward | frontend/src/components/PhotoUpload.tsx:104-105 | in place: the photos from `to` up to before `from` move up one place, the moved one lands at `to`, the rest stay |
| PhotoUpload.ShiftedBackward | frontend/src/components/PhotoUpload.tsx:104-105 | the array a backward shift leaves is the slice form of a backward move |
| PhotoUpload.Reorder | frontend/src/components/PhotoUpload.tsx:102-107 | the spliced copy is exactly the list with the photo moved from `from` to `to` |
| Selection.Toggle | frontend/src/app/add-listings/page.tsx:115-130 | a chosen value is removed and nothing else changes; an unchosen one is appended |
| Selection.ToggleTwice | frontend/src/app/add-listings/page.tsx:115-130 | toggling twice restores the chosen values, and the list itself when the value was not chosen |
| Selection.AppendCapped | frontend/src/app/add-listings/page.tsx:137 | the old list then the new files, as a prefix no longer than the cap |
| Selection.AppendCappedKeepsOld | frontend/src/app/add-listings/page.tsx:137 | below the cap the old photos stay in front, in order, followed by as many new ones as fit |
| Selection.AppendCappedDrawsFrom | frontend/src/app/add-listings/page.tsx:137 | every photo kept is an old photo or one of the new files |
| AddListing.Put | frontend/src/app/add-listings/page.tsx:181-260 | a failed check records its message under its key; a passed one leaves the errors as they were |
| AddListing.AddressErrorsNameFields | frontend/src/app/add-listings/page.tsx:196-212 | the address step names each of the five fields exactly when it is blank, and no other key |
| AddListing.TextErrorsIffFails | frontend/src/app/add-listings/page.tsx:231-244 | a text step records nothing iff the text is not blank and not too long; otherwise one message under its key, `required` before `too long` |
| AddListing.AddressStepNamesBlankFields | frontend/src/app/add-listings/page.tsx:196-212 | step 3 names exactly the blank address fields and passes iff none is blank |
| AddListing.DateStepMessages | frontend/src/app/add-listings/page.tsx:250-260 | a missing start and a missing end are both reported; the order message replaces the end message only when both dates are given; the step passes iff both are given and the end is after the start |
| AddListing.StepErrorsIffFails | frontend/src/app/add-listings/page.tsx:181-265 | `StepErrors` records no error for a step iff the form meets `StepOk`, what that step asks |
| AddListing.Results | frontend/src/app/add-listings/page.tsx:287-292 | one verdict for each of the eleven steps |
| AddListing.FirstFalseCorrect | frontend/src/app/add-listings/page.tsx:287-292 | the search finds the least failing entry, and none iff all pass |
| AddListing.FirstFailingCorrect | frontend/src/app/add-listings/page.tsx:286-292 | `FirstFailing` (the submit loop): the step it stops at is the least failing one, and there is none iff every step passes |
| AddListing.FirstFailingIs | frontend/src/app/add-listings/page.tsx:286-292 | a step that fails after only passing steps is the one the loop stops at |
| AddListing.OrElse | frontend/src/app/add-listings/page.tsx:382 | `a \|\| b`: a non-empty text is kept, otherwise the fallback (also line 471) |
| AddListing.SubmittedListingIsActive | frontend/src/app/add-listings/page.tsx:317-339 | a submitted form becomes an `active` listing with the form's own type, space, title and end date |
| AddListing.DraftListingIsInactive | frontend/src/app/add-listings/page.tsx:432-452 | a saved draft becomes an `inactive` listing titled `Draft Listing` when the title is blank, dated today and a year later when the dates are blank |
| AddListing.FailureAlert | frontend/src/app/add-listings/page.tsx:374-392 | a JSON error shows its `message`, else `error`, else `Unknown error`; another body and a thrown request each show their fixed text (the draft save uses the same rule at lines 467-480) |
| AddListing.CheckAddress | frontend/src/app/add-listings/page.tsx:196-212 | the field-by-field checks give exactly the address errors |
| AddListing.CheckText | frontend/src/app/add-listings/page.tsx:231-244 | the checks give exactly the text errors |
| AddListing.CheckDates | frontend/src/app/add-listings/page.tsx:250-260 | the checks give exactly the date errors, the order message overwriting the missing-end one |
| AddListing.CheckField | frontend/src/app/add-listings/page.tsx:185-249 | the single-field checks of steps 1, 2, 4, 6, 7 and 10 give exactly that step's errors |
| AddListing.ListingForm.constructor | frontend/src/app/add-listings/page.tsx:37-67 | the form opens on step 1 with the initial values and no errors |
| AddListing.ListingForm.ValidateStep | frontend/src/app/add-listings/page.tsx:181-265 | replaces the shown errors with the step's errors and answers true iff the step passes, iff no error was recorded |
| AddListing.ListingForm.ValidateAll | frontend/src/app/add-listings/page.tsx:286-292 | the loop answers true iff every step passes; otherwise it leaves the errors of the first failing step shown |
| AddListing.ListingForm.NextStep | frontend/src/app/add-listings/page.tsx:267-274 | moves on one step and clears the errors iff the current step passes and is not the last; otherwise shows its errors and stays |
| AddListing.ListingForm.PrevStep | frontend/src/app/add-listings/page.tsx:276-280 | back one step, never below the first |
| AddListing.ListingForm.ToggleAmenity | frontend/src/app/add-listings/page.tsx:115-122 | toggles the amenity and changes nothing else |
| AddListing.ListingForm.ToggleOccupant | frontend/src/app/add-listings/page.tsx:124-131 | toggles the occupant and changes nothing else |
| AddListing.ListingForm.UploadPhotos | frontend/src/app/add-listings/page.tsx:133-141 | the new files follow the old photos, at most seven kept |
| AddListing.ListingForm.HandleSubmit | frontend/src/app/add-listings/page.tsx:282-396 | ignored while submitting; a failing step shows the incomplete alert and its errors; no user or an empty id each alert and send nothing; otherwise the form is sent, and only then is every step known to pass; success navigates, failure alerts |
| AddListing.ListingForm.SaveProgress | frontend/src/app/add-listings/page.tsx:398-484 | ignored while saving; no step is checked; without a user or id it alerts and sends nothing; otherwise the draft is sent, and the answer decides the alert and navigation |
| Register.StepError | frontend/src/app/register/page.tsx:56-90 | only steps 1 and 2 have checks that can show a message |
| Register.ChecksAgree | frontend/src/app/register/page.tsx:56-122 | on steps 1 and 2 `nextStep` shows no error iff the step's button is enabled, registration goes ahead iff step 3's button is, and a failed check names the first missing item |
| Register.ShortPasswordRefused | frontend/src/app/register/page.tsx:82-103 | with the other step-2 fields in order, step 2 is refused exactly for passwords shorter than six characters |
| Register.RegisterForm.constructor | frontend/src/app/register/page.tsx:13-25 | the form opens on step 1 with empty entries, no error and not loading |
| Register.RegisterForm.NextStep | frontend/src/app/register/page.tsx:56-90 | below the last step, the first failing check shows its message and the step stays; otherwise the error is cleared and the form moves on; on the last step nothing changes |
| Register.RegisterForm.PrevStep | frontend/src/app/register/page.tsx:92-97 | back one step with the error cleared, never below the first |
| Register.RegisterForm.BeginRegister | frontend/src/app/register/page.tsx:110-124 | sign-up starts iff the major is filled in and a year is chosen; otherwise the first missing item's message is shown and loading is unchanged |
| BecomeHost.HostWizard.constructor | frontend/src/app/become-host/page.tsx:31-51 | the wizard opens on step 1 with no amenities, occupants or photos |
| BecomeHost.HostWizard.NextStep | frontend/src/app/become-host/page.tsx:114-118 | up one step while below step 13, and nothing else changes |
| BecomeHost.HostWizard.PrevStep | frontend/src/app/become-host/page.tsx:120-124 | down one step while above step 1, and nothing else changes |
| BecomeHost.HostWizard.ToggleAmenity | frontend/src/app/become-host/page.tsx:89-96 | toggles the amenity and changes nothing else |
| BecomeHost.HostWizard.ToggleOccupant | frontend/src/app/become-host/page.tsx:98-105 | toggles the occupant and changes nothing else |
| BecomeHost.HostWizard.UploadPhotos | frontend/src/app/become-host/page.tsx:107-112 | the chosen files replace the photo list |
| BecomeHost.AfterNext | frontend/src/app/become-host/page.tsx:114-118 | `n` presses of next from step `s` reach `s + n`, stopping at step 13 |
| BecomeHost.AfterPrev | frontend/src/app/become-host/page.tsx:120-124 | `n` presses of back from step `s` reach `s - n`, stopping at step 1 |
| BecomeHost.NextThenPrev | frontend/src/app/become-host/page.tsx:114-124 | going forward and back the same number of steps, without reaching the last, returns to the start |
| ResultsPage.SearchParts | frontend/src/app/results/page.tsx:58-66 | the search yields at least one part |
| ResultsPage.CommaParts | frontend/src/app/results/page.tsx:61-66 | one part per comma-separated piece of the lower-cased search, each piece trimmed and lower-cased |
| ResultsPage.FilteredSpec | frontend/src/app/results/page.tsx:52-134 | `Filtered`: a blank search shows every listing; otherwise a listing is shown exactly when some part matches its city, its state (or the state's abbreviation) or its neighbourhood; the result keeps input order and adds nothing |
| ResultsPage.SearchPartsShape | frontend/src/app/results/page.tsx:58-66 | every part is lower case; with a comma the parts are the trimmed, comma-free pieces, one per piece; without a comma the single part is the whole lower-cased search, not trimmed |
| ResultsPage.LowerOfTrimmed | frontend/src/app/results/page.tsx:63 | lower-casing a trimmed comma-free piece leaves it trimmed and comma-free |
| ResultsPage.LowerCharKeeps | frontend/src/app/results/page.tsx:58-63 | lower-casing a character keeps whether it is white space and whether it is a comma |
| ResultsPage.TrimOfUntrimmable | frontend/src/app/results/page.tsx:63 | a text with no white space at either end is its own trim |
| ResultsPage.StateNameMatchesAbbreviation | frontend/src/app/results/page.tsx:69-130 | a full state name in the search matches a listing stored with the table's abbreviation for it |
| ResultsPage.TrailingCommaMatchesEveryCity | frontend/src/app/results/page.tsx:61-66 | a search ending in a comma shows every listing that has a city (through the city test at line 124) |
| ResultsPage.LastCommaPartEmpty | frontend/src/app/results/page.tsx:63 | the last part of a search ending in a comma is empty |
| ResultsPage.EmptyLastPiece | frontend/src/app/results/page.tsx:63 | a text ending in a comma splits into pieces the last of which is empty |
| ResultsPage.CityMatchIsMatch | frontend/src/app/results/page.tsx:124 | a part contained in the listing's city matches the listing |
| ListingsPage.FilteredSpec | frontend/src/app/listings/page.tsx:34-36 | `Filtered`: a listing is shown exactly when it has a city whose lower-cased text contains the lower-cased applied search; input order is kept and nothing is added |
| ListingsPage.EmptyQueryKeepsCities | frontend/src/app/listings/page.tsx:34-36 | an empty applied search shows exactly the listings that have a city |
| ListingsPage.SearchView.constructor | frontend/src/app/listings/page.tsx:10-11 | the typed and the applied search both start from the `where` parameter |
| ListingsPage.SearchView.Type | frontend/src/app/listings/page.tsx:49 | typing changes the typed search only |
| ListingsPage.SearchView.HandleSearch | frontend/src/app/listings/page.tsx:40-42 | the typed search becomes the applied one |
| MyListings.HostBookingsSpec | frontend/src/app/my-listings/page.tsx:67-76 | `HostBookings`: the page keeps exactly the fetched bookings whose host is the user, in order; an answer that is not an array gives none |
| MyListings.StatusChanged | frontend/src/app/my-listings/page.tsx:81-85 | the status event keeps the number of bookings |
| MyListings.StatusChangeTouchesOnlyMatching | frontend/src/app/my-listings/page.tsx:81-85 | a status event changes only the bookings with its id, and in them only the status; repeating it changes nothing more |
| MyListings.TabsSpec | frontend/src/app/my-listings/page.tsx:93-98 | the Pending and Approved tabs list exactly the bookings with that status, in order, and none is on both |
| MyListings.ApprovedTabEmptyForLifecycleBookings | frontend/src/app/my-listings/page.tsx:93 | bookings whose statuses are those the booking routes set never appear on the Approved tab |
| MyListings.Prefixed | frontend/src/app/my-listings/page.tsx:192-195 | rewriting the image URLs keeps the number of images |
| MyListings.DisplayImagesSpec | frontend/src/app/my-listings/page.tsx:183-195 | a listing without images shows the placeholder alone; otherwise its own images, a permutation of them, in ascending `order_index` when every image has one, each `/uploads/` path given the backend origin and other URLs unchanged |
| MyListings.OrderedImagesStay | frontend/src/app/my-listings/page.tsx:186-191 | images already in ascending `order_index` keep their order |
| MyListings.ApproveRequest | frontend/src/app/my-listings/page.tsx:332-342 | the approve request carries status 'approved' and the booking's own payment status |
| MyListings.ApproveNotRouted | frontend/src/app/my-listings/page.tsx:332-335 | the approve request `PUT /api/bookings/<id>` matches no route of the mounted bookings router, so a booking id without '/' is answered 404 |
| MyListings.ApproveOnUnmountedUpdate | backend/routes/bookings-simple.js:215-229 | only if the request reached the general `PUT /:id` update of bookings-simple.js, which the server does not mount, would it answer 200 with the stored booking changed in its status only |
| MyListings.BookingDetails.constructor | frontend/src/app/my-listings/page.tsx:322 | the details view starts with the booking's own status |
| MyListings.BookingDetails.Approve | frontend/src/app/my-listings/page.tsx:331-353 | on an OK answer the view's status becomes 'approved', one status event for the booking is sent and the success alert shows; otherwise the status stays and the failure alert shows |
| MyListings.BookingDetails.ApproveOnServer | frontend/src/app/my-listings/page.tsx:331-353 | against the server as mounted, approving a booking whose id has no '/' always fails: the status stays, no status event goes out and "Failed to approve booking." shows |
| MyListings.HostPage.constructor | frontend/src/app/my-listings/page.tsx:51 | the page starts with no bookings on the Listings tab |
| MyListings.HostPage.LoadBookings | frontend/src/app/my-listings/page.tsx:67-76 | the bookings become the user's bookings as host; the tab stays |
| MyListings.HostPage.HandleStatusChange | frontend/src/app/my-listings/page.tsx:81-88 | the bookings become the status-changed bookings; the tab stays |
| MyListings.HostPage.SelectTab | frontend/src/app/my-listings/page.tsx:107-122 | the selected tab changes; the bookings stay |
| MyListings.ApproveMovesBooking | frontend/src/app/my-listings/page.tsx:345-347 | had the approve request been answered OK, approving a pending booking puts it on the Approved tab and takes it off the Pending tab (through the listener of lines 81-85 and the tabs of lines 93-94) |

## Left out

- Scheduling (backend/python-email-service/notification_worker.py:19-38, 174-181): the APScheduler job and its two-minute interval are omitted; one cycle is one call of `CheckNewMessages`, with "now" as a parameter.
- The job wrapper `send_message_notification_task` (backend/python-email-service/notification_worker.py:159-172): it is a placeholder that only logs.
- The Supabase client, SMTP and SendGrid transports, Jinja rendering and the browser's `fetch` are all parameters. Each is a function or a flag whose answer the model receives. Without the real services, their real behaviour cannot be stated.
- Store availability is one flag, `reachable`, for the whole store rather than a fault of each call. Every error still becomes the empty answer its method returns, but the model cannot express faults that hit one call and spare the next. These behaviours are lost:
  - `get_user_by_id` failing for a sender after the fetch succeeded (backend/python-email-service/database.py:12-21): the message is skipped as if the sender were unknown, and the watermark still moves past it;
  - `get_user_by_id` failing for one participant inside `get_conversation_participants` (backend/python-email-service/database.py:50-57): that participant is dropped, so a message can be skipped for having no other participant;
  - the first query of `get_new_messages` failing for a transient reason while the `email_sent` column exists (backend/python-email-service/database.py:28-37): the worker falls back to every recent message, including ones already notified;
  - `mark_message_notified` failing after a send (backend/python-email-service/database.py:64-73): the message is sent but not marked, and only the in-memory processed-set keeps it from being sent again.
- Logging and `console.log` output are omitted: they do not affect any state.
- Floating point is not modelled. Prices and totals are integers, and the 1.5 % fees that `POST /api/bookings` computes (backend/routes/bookings.js:45-50) are never used in the source, so they are left out.
- Time zones and daylight-saving shifts are not modelled. Dates are proleptic Gregorian day numbers at UTC midnight, and times are integer milliseconds.
- The date inputs' `min`/`max` attributes in the booking form (frontend/src/components/BookingForm.tsx:145-150, 164-170) are enforced by the browser. The model states them as `BookingForm.InputsAllowed`, with the current date as a parameter, and uses them only to show that the counterexample of the findings can be entered.
- Bookings.RoutePut: Express's percent-decoding of path segments and its other pattern features are not modelled; a segment is taken as written.
- The booking form's guest count `parseInt` (frontend/src/components/BookingForm.tsx:184) is not modelled; the guest count is taken as an integer.
- Strings are trimmed and lower-cased over ASCII only, and a length is a count of characters rather than of UTF-16 code units. Unicode case tables are not available. JavaScript's `trim()` is modelled with space, tab, line feed, carriage return, vertical tab and form feed (`Strings.IsSpace`); Python's `str.split()` also splits on the separators 0x1C-0x1F (`Strings.IsPythonSpace`). Non-ASCII white space (U+0085, U+00A0, U+2028 and the other Unicode spaces) counts as white space in neither.
- `JSON.parse` and `JSON.stringify` of the amenities and occupants fields are parameters, not modelled.
- The HEIC-to-JPEG conversion branch of `uploadListingImage` (frontend/src/utils/supabaseStorage.ts:97-111) is unreachable while the conversion flag is false, so it is omitted.
- A failing INSERT inside the universities bulk-import loop is not modelled: the source catches it per entry (backend/routes/universities.js:75-77), pushes "Error processing <name>: <driver message>" to `errors` and goes on with the next entry, so it would only add one error and neither add nor skip that entry. `ImportStopsAfterCrash` is about a different case, a `null` entry, whose catch block throws again and ends the request with 500.
- Database faults inside the routes are not modelled: a table is a `map` whose updates always succeed, so the `catch` blocks that answer 500 with the driver's message never run in the model. The routes group no statements in a transaction, so a fault part-way leaves the earlier rows in place. For example, `POST /api/listings` (backend/routes/listings.js:81-128) inserts the listing, then its amenities, occupants and images one statement at a time; a failure after the first insert answers 500 but leaves a partial listing. The model does not capture such partial writes.
- Universities.Create: a `SERIAL` id that PostgreSQL draws for an `INSERT` which then fails on the unique domain is consumed, so ids can have gaps. The model advances `nextId` only on success; it states uniqueness and freshness of ids, not their values.
- List and join queries are not modelled:
  - the `GET` routes of host-reviews and renter-reviews (backend/routes/host-reviews.js:7-42, 249 onward; backend/routes/renter-reviews.js:7-92, 225 onward);
  - the bookings-simple `GET` routes (backend/routes/bookings-simple.js:8-42, 231-248);
  - the universities list (backend/routes/universities.js:6-13);
  - the list of all bookings, `GET /api/bookings` (backend/routes/bookings.js:7-16).

  These are reads with SQL joins and no rule of their own.
- `ORDER BY created_at DESC` and similar orderings of listed rows are not modelled where the table is a `map`. Orderings by a stored key (messages by `sent_at`, images by `order_index`) are modelled with a stable sort.
- Add-listing page:
  - `handleAddressSelect` (frontend/src/app/add-listings/page.tsx:143-164) is omitted: it copies an autocomplete result into the form fields and has no rule of its own;
  - the bathroom counter's half steps (frontend/src/app/add-listings/page.tsx:758-765) are omitted, because bathrooms would need fractional numbers; the model's bathroom count is an integer.
- Register page:
  - the sign-up with the authentication service, the profile insert and the avatar upload (frontend/src/app/register/page.tsx:126 onward) are external calls;
  - the `FileReader` preview (frontend/src/app/register/page.tsx:44-54) and the universities fetch are also external;
  - only the guards that run before them are modelled.
- Become-host page: the submit handler (frontend/src/app/become-host/page.tsx:126 onward) only forwards the wizard's data to the backend, so it is not modelled.
- The image URLs of the plain listings page and the `pendingListings` list of the my-listings page (frontend/src/app/my-listings/page.tsx:92) are omitted: they are display only.
- The average-ratings fetch of the results page is omitted: it does not take part in filtering.
- The state-abbreviation table is a Dafny `map`. Keys such as `constructor`, which a JavaScript object inherits from its prototype, are not modelled.
- MyListings.HostPage.VisibleBookings: on the Listings tab the page shows the host's listings rather than bookings; the model returns no bookings there.

## Findings

| source | as written | input that shows it | evidently intended | confidence | as-written member | corrected member |
|---|---|---|---|---|---|---|
| backend/python-email-service/notification_worker.py:141-147 | `send_notification` passes a `recipient_first_name` keyword to `send_message_notification`, which has no such parameter. The `TypeError` is caught at lines 154-155, so no message e-mail is ever sent, and the message is still marked processed. | any resolved message whose recipient has an e-mail address and a name | call the mailer with the parameters it declares (backend/python-email-service/email_service.py:85) | not executed | NotificationDispatch.NotificationWorker.SendNotificationAsWritten, NotificationDispatchProperties.AsWrittenRaisesWhereCorrectedDelivers, NotificationDispatchProperties.AsWrittenCycleDeliversNothing, NotificationDispatchProperties.KeywordsKeepBookkeeping | NotificationDispatch.NotificationWorker.SendNotification (the worker takes its mailer-call keywords as `sendKeywords`; with `AsWrittenKeywords` it is the program as written) |
| frontend/src/components/BookingForm.tsx:62-83 | the effect updates nights and total only when the new range gives a positive number of nights. A later change to a range that gives none keeps the previous figures, so the submit guard `nights <= 0` lets a zero-night stay through. | on 2025-01-01, check-in 2025-01-02 with check-out 2025-01-05, then check-in moved to 2025-01-05 (both inputs' `min` and `max` allow it): the form keeps 3 nights and their total, and the booking request goes out for check-in and check-out on the same day | dates that give no positive number of nights clear the figures and block the submit | not executed | BookingForm.TotalsAsWritten, BookingForm.StaleNightsAsWritten | BookingForm.Totals (used by BookingForm.Form.UpdateTotals) |

## Where the code and its description differ

The model follows the code in each of these points.

- **Watermark.** The watermark is not advanced after an empty fetch (backend/python-email-service/notification_worker.py:53-55). It is not advanced after an exception in the cycle either. It moves only at the end of a cycle that fetched something.
- **Store errors.** A store error becomes the empty list (backend/python-email-service/database.py:38-40). A failed fetch is therefore indistinguishable from an empty one, and nothing aborts the cycle.
- **Failed sends.** A message is added to the processed set and marked notified even when sending fails (backend/python-email-service/notification_worker.py:113-117). This is because `send_notification` swallows every failure.
- **Approve button.** The my-listings "Approve" button sends `PUT /api/bookings/<id>` with status 'approved' (frontend/src/app/my-listings/page.tsx:332-342). The router mounted at `/api/bookings` (backend/index.js:54, backend/routes/bookings.js) declares PUT routes only of the form `/:id/<name>` (lines 98-261); the plain `PUT /:id` exists only in bookings-simple.js, which is not mounted. Express therefore answers 404, and the button always shows "Failed to approve booking." and changes nothing (`MyListings.BookingDetails.ApproveOnServer`). `MyListings.ApproveOnUnmountedUpdate` states what the unmounted update would have done. Also, 'approved' is not a status of the booking lifecycle (pending, confirmed, cancelled, ended), and `MyListings.ApprovedTabEmptyForLifecycleBookings` states the consequence.
- **Results search.** The results-page search has three quirks:
  - a search ending in a comma yields an empty part, which matches every listing that has a city;
  - a search without a comma is lower-cased but not trimmed;
  - a part matches when it is contained in the city, the state (or, for a full state name, its abbreviation) or the neighbourhood.
- **Image order.** In my-listings, the image comparator answers 0 for any pair with a missing `order_index` (frontend/src/app/my-listings/page.tsx:186-191). With some indices missing it is not a consistent comparator, so the order `Array.prototype.sort` produces is implementation-defined: V8 sorts images a (index 2), c (index 1), b (no index) to c, a, b. The model sorts by index only when every image has one, and otherwise keeps the given order, which is one of the orders an engine may produce.
