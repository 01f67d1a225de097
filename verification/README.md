# A model of the messenger, with proofs

This project models the server of a chat messenger (Go, PostgreSQL, Redis, WebSocket) in Dafny and
proves what its concurrent parts guarantee, and where a guarantee stops. `dafny verify
dfyconfig.toml` checks everything. It has five parts.

**The event fabric.** Several replicas each run a hub loop, a broker loop, and a read and a write
pump for every connection; a shared log joins them. `Connections` is one connection: a send queue
of 256 items, a context, a write pump, a wire, and the history needed to say what was lost.
`Fabric` is the transition system: a step is a label with a guard (`Enabled`) and an effect
(`Apply`), and a failed enqueue and the `Disconnect` that follows it are two steps. `FabricInv`
is the inductive invariant, one predicate per kind of entity; `FabricEffects`, `FabricStructure`,
`FabricStarts`, `FabricDelivery` and `FabricDeliveryStarts` prove that every step keeps it.
`FabricTheorems`, `FabricLoss`, `FabricGap`, `Presence` and `Cascade` hold the results: the life of
a channel, delivery at most and exactly once, agreement on the order of remote events, gaps,
acknowledgements, presence, the end of the disconnect cascade by a lexicographic measure of eight
parts, and what has arrived once it has ended. `FabricAddressing` follows each request to the wires
of those it names, and of nobody else; `FabricWire` says what a wire holds, item by item. `Hub` has
the hub, the client and the broker as objects that change in place, and `HubRefinement` shows that
deliveries, registrations and unregistrations nobody interrupts do in the transition system what
the object's methods do.

**Typing indicators.** `Typing` splits the handler and the timer callback at every point where the
lock is released, with any number of handlers, armed timers and stale callbacks on one key.

**Message history.** `Store` has the tables and the statements that change them, as a function and
as an object. `Ordering` is ORDER BY, WHERE and LIMIT over sequences. `History` is keyset
paging, `Unread` the read watermark and unread count, `ChatList` the chat list, `Listing` the
message endpoint with its batched attachments, `ListingWalk` a client that pages through its
answers.

**Credentials.** `Credentials` makes every query of `RefreshToken` and `Register` a step, with the
row and index locks of the registration's transaction; `CredentialTheorems` says exactly when a call
succeeds, with which error it fails and which races remain; `CredentialHistory` says the same in
terms of the statements of the run alone; `UserService` is the service as an object, each of whose
calls, run alone and failing at any query, is a run of the machine.

**Smaller algorithms.** `ChatCreation` (the creating transaction), `Subprotocol` (reading the token
from the handshake) and `RateLimit` (the two token buckets and the read pump).

Assumptions of the model: replicas have distinct instance ids; the log is one FIFO that may lose
entries for a replica, or fail to take one, but never repeats an entry; a write under a cancelled
context does not reach the wire; random tokens and invite codes are fresh, so a code and the id of
its invite determine each other; the member list of a chat has no repetitions, which
`ChatCreation.Service.GetMemberIds` derives from the primary key of `chat_members`; the sequence
behind an id never repeats; inserts overlap, so rows may become visible in another order than they
got their ids or timestamps (`Store.Op` takes an id and shows the row in two steps).

Where the code does less than its comments say, the model follows the code:

- The comment on `SendLocal` promises that no state is dropped silently. Between a refused send and
  its `Disconnect` another goroutine's event can still enter the queue, and then the wire shows a
  gap (`Connections.GapHappens`, and `FabricGap.GapIsReachable` for the whole fabric).
  `NoSilentGap` gives the exact condition and `PromptRunsHaveNoGap` the case in which refusal and
  disconnection are one step.
- A typing handler stops the old timer before it looks up the members, so a failed lookup leaves
  the indicator on (`Typing.FailedLookupStrands`); `Typing.StepExactly` says which steps do that.
- Refresh tokens and invites are one-shot only for calls that start late enough; overlapping calls
  can both succeed (`BothRefreshesSucceed`, `BothRegistrationsSucceed`). `RefreshByHistory`
  and `RegisterByHistory` are the exact conditions.
- The unread count compares ids. A message whose insert took its id before another one's and ended
  after that one was read is never counted (`Unread.OverlapIsMissed`); `Unread.MessageCounts` is the
  exact condition.
- The check for an existing direct chat is made only for exactly one other member id
  (`ChatCreation.SecondDirectChat`).

## Model

| member | source | states |
|---|---|---|
| Connections.OfferKeeps | internal/ws/hub.go:105-112 | A non-blocking send keeps: wire + item in hand + queue are what was accepted; the queue never exceeds 256; nothing accepted after cancellation is on the wire; the first loss is where accepted and addressed events part |
| Connections.TrySendKeeps | internal/ws/client.go:65-74 | Error replies share the queue but never change which hub events are accepted or written |
| Connections.WriteKeeps | internal/ws/client.go:137-150 | A write under a live context moves the held item to the wire and keeps that invariant |
| Connections.CancelKeeps | internal/ws/client.go:59-61 | So does cancelling: what was accepted until then bounds what is ever written |
| Connections.GapExactly | internal/ws/hub.go:97-112 | The wire is a prefix of what was addressed to the connection if and only if the write pump has not passed the first lost event |
| Connections.GapHappens | internal/ws/hub.go:106-111 | From any live full connection: refusal, one dequeue, another goroutine's send, and the wire has a gap under a context that is still live |
| Connections.FloodFills | internal/ws/client.go:43-55 | Such full connections exist: sending 256 events to a new one fills it without a loss |
| FabricDeliveryStarts.StepKeeps | internal/ws/hub.go:32-143 | Every step of every goroutine keeps the whole invariant |
| FabricTheorems.ChannelLifecycle | internal/ws/hub.go:35-59 | In every reachable state a client is in its hub's map, under its own user and on its own replica only, exactly when its registration was processed and its channel is open; nothing has sent on or closed a closed channel; no user maps to an empty set |
| FabricTheorems.AtMostOnce | internal/ws/hub.go:86-115 | No connection on any replica is offered an event twice, and no broker loop delivers an event its own replica published |
| FabricLoss.ExactlyOnce | internal/ws/broker.go:77-93 | When nothing is under way, a connection registered before the send and still registered, whose user is addressed, was offered the event once if the log did not lose it for its replica, and never if it did |
| FabricLoss.LostIsNeverOffered | internal/ws/broker.go:54-73 | In every reachable state, an event whose publication failed or that a replica missed is offered to none of that replica's connections |
| FabricTheorems.RemoteOrderAgrees | internal/ws/broker.go:67-93 | Any two connections that were both offered two events foreign to both were offered them in the same order |
| FabricTheorems.NoSilentGap | internal/ws/hub.go:97-112 | A lost event implies a cancellation done or pending; the wire is gapless exactly when the pump has not passed the first loss, and always unless an event slipped in between refusal and cancellation |
| FabricTheorems.PromptRunsHaveNoGap | internal/ws/hub.go:106-111 | On runs where each refusal is at once followed by its disconnection, every wire is a prefix of what was addressed |
| FabricGap.FullQueueGaps | internal/ws/hub.go:100-115 | From every reachable state with a live, full, lossless connection, two deliveries and the write pump can interleave to a reachable state with a gap on its wire and no cancellation |
| FabricGap.GapIsReachable | internal/ws/hub.go:106-111 | So the failing side of NoSilentGap is reached by a run of the fabric from its start |
| FabricTheorems.DisconnectIsFinal | internal/ws/client.go:59-61 | Once a connection is cancelled, no run changes its wire or undoes the cancellation |
| FabricTheorems.AckImpliesMessage | internal/ws/handler.go:145-162 | A connection on the sending replica, registered before the send and addressed by it, has message.new on its wire before any message.ack of it |
| FabricAddressing.MessageReachesMembers | internal/ws/handler.go:145-162 | For a message sent to `members`: after a fault-free run to rest every connection of a member that was registered before and still is was offered `message.new` once and has it on its wire once, every such connection of the sender the acknowledgement, and no connection of anybody else either of them |
| FabricAddressing.AckFollowsMessage | internal/ws/handler.go:155-162 | In whatever run follows the request, a member's connection on the sender's replica has the message on its wire before its acknowledgement |
| FabricAddressing.CastReaches | internal/ws/handler.go:229-246 | The same for every other call with one `Send`: the users it names, once, and nobody else |
| FabricAddressing.TypingIsTakenBack | internal/ws/handler.go:192-204 | A started typing indicator is followed by a second broadcast from its timer, and both reach the same users |
| FabricAddressing.TimerReaches | internal/ws/handler.go:197-199 | A timer that fires sends to those its typing started for |
| FabricAddressing.OnlineReachesAll | internal/ws/hub.go:43-53 | The first connection of a user: every registered connection on every replica gets user.online once |
| FabricAddressing.OfflineReachesAll | internal/ws/hub.go:66-77 | The last one: every connection that stays gets user.offline once |
| FabricAddressing.ConnectionIsItsUsers | internal/ws/handler.go:85-86 | A connection belongs to the replica and the user it was opened for in every run |
| FabricAddressing.LiveConnectionsCanSend | internal/ws/handler.go:92-105 | At rest, every connection that is left is registered and can make any request |
| FabricWire.WireIsWhatEntered | internal/ws/client.go:137-150 | At rest, the wire of a live connection is what it held before and all that entered its queue since, events and error replies, in that order |
| FabricWire.ErrorReplyIsWritten | internal/ws/client.go:65-85 | An error reply that fits into the queue is on the wire at rest, behind all that was there before it |
| Presence.PresenceIsExact | internal/ws/hub.go:35-78 | Per replica and user, announcements alternate online and offline, online first; `IsOnline` is the last announcement; between iterations the `OnDisconnect` calls are the offline announcements in order |
| Cascade.StepDescends | internal/ws/hub.go:55-77 | Every system step makes the measure (connection phases, timers, publishes, unread log entries, operations, users, connections, queues) smaller |
| Cascade.CascadeTerminates | internal/ws/hub.go:100-143 | Without new connections, client frames or REST calls no infinite run exists: deliver, full queue, disconnect, unregister, presence, publish, deliver elsewhere comes to an end |
| Cascade.NeverStuck | internal/ws/hub.go:32-81 | Until everything is quiet some goroutine can take a step that is neither begun from outside nor a fault (a lost or refused log entry, a failing wire of a live connection) |
| Cascade.EndsQuiescent | internal/ws/client.go:87-167 | A reachable state is quiescent if and only if nothing but faults and new requests can happen in it; live connections may remain, with everything written |
| Cascade.SettlesFrom | internal/ws/hub.go:32-143 | From every reachable state a run of the system alone, without any fault, leads to a quiescent state |
| Cascade.EverythingArrives | internal/ws/hub.go:86-115 | When nothing fails from some moment on and the fabric comes to rest, every connection registered when a send to its user began, and still registered, was offered the event exactly once, and all it was offered is on its wire, unless the event was lost before that moment |
| Cascade.LosersAreGone | internal/ws/hub.go:106-111 | In a quiescent state a connection that lost an event is gone and in no map |
| HubObjects.Client.TrySend | internal/ws/client.go:65-74 | Returns whether the reply was enqueued; false when full, or when cancelled and the select chose so |
| HubObjects.Hub.SendLocal | internal/ws/hub.go:100-115 | Every connection is sent the event once per listing of its user, a full one is cancelled, nothing else changes |
| HubObjects.Hub.BroadcastAllLocal | internal/ws/hub.go:131-143 | Every connection is sent the event once |
| HubObjects.Hub.Send | internal/ws/hub.go:86-91 | Local delivery, then one targeted envelope with this origin |
| HubObjects.Hub.BroadcastAll | internal/ws/hub.go:120-125 | Local broadcast, then one broadcast envelope |
| HubObjects.Hub.Register | internal/ws/hub.go:35-53 | The map gains the client; an online announcement, which it hears itself, exactly when the user had no connection |
| HubObjects.Hub.Unregister | internal/ws/hub.go:55-78 | The map loses the client and its channel closes; for the last one `OnDisconnect` is called and offline is announced; an unknown user changes nothing |
| HubObjects.MapFollows | internal/ws/hub.go:35-66 | A user is in the map after either exactly while it has a connection, and no other user's connections come or go |
| HubObjects.Hub.IsOnline | internal/ws/hub.go:146-150 | True exactly when some connection in the map is the user's |
| HubObjects.Hub.HandleMessage | internal/ws/broker.go:77-93 | Undecodable and own payloads do nothing, others are delivered locally and never published again |
| HubObjects.Hub.RunBroker | internal/ws/broker.go:67-73 | The loop over the subscription does that for each payload in turn |
| HubObjects.BrokerOffersRemoteInOrder | internal/ws/broker.go:67-93 | A connection is offered exactly the foreign payloads that address its user, once each, in log order, and is not cancelled if its queue had room for them |
| HubObjects.DeliverKeeps | internal/ws/hub.go:105-112 | A send and its disconnection in one step keep the connection's invariant and never leave a gap |
| HubRefinement.DeliveryRefines | internal/ws/hub.go:100-143 | In every reachable state an agent about to deliver can finish alone, and the outcome is what the hub object's method computes for every client in the map, and nothing off it |
| HubRefinement.RegisterRefines | internal/ws/hub.go:35-53 | In every reachable state the hub loop's Register case, uninterrupted, leaves the map, the queues, the announcement and the log as the object's method does |
| HubRefinement.UnregisterRefines | internal/ws/hub.go:55-78 | So does the Unregister case, with the closed channel and the `OnDisconnect` call |
| Typing.StepExactly | internal/ws/handler.go:165-205 | While the indicator is settling (shown implies somebody will clear it) a step keeps it so if and only if it is not a lookup, failing or without the member, by the only goroutine that would clear it |
| Typing.TypingAlwaysClears | internal/ws/handler.go:173-204 | Under any interleaving, with overwritten entries and stale callbacks: if all lookups find the member, whenever the key is quiet the last indicator sent is off |
| Typing.LastStepExactly | internal/ws/handler.go:165-205 | While the last broadcast for a key was on, a step leaves another one due if and only if it is not a failed lookup by the only goroutine that would make it |
| Typing.LastBroadcastIsOff | internal/ws/handler.go:173-204 | Under any interleaving and any change of members: if no lookup fails, the last broadcast for a quiet key is off |
| Typing.StopsArmNothing | internal/ws/handler.go:194-204 | Under any interleaving, a key nobody starts typing under never gets a timer or an indicator |
| Typing.QuietKeyIsForgotten | internal/ws/handler.go:173-203 | Under any interleaving, with stale callbacks and overwritten entries, the map has no entry for a quiet key |
| Typing.FailedLookupStrands | internal/ws/handler.go:173-183 | From a state with one armed timer, a handler whose lookup fails leaves the key quiet and the indicator on |
| Typing.StartShows | internal/ws/handler.go:192-204 | That state is reached by one uninterrupted typing.start |
| Store.Tables.CreateMessage | internal/message/service.go:18-28 | Uninterrupted: exactly one row, with the next id, the given reply and time, NULL content for the empty string and nothing edited or deleted; nothing for a non-member, text the database refuses or a reply to nothing |
| Store.Tables.FinishInsert | internal/db/dbq/messages.sql.go:14-25 | An insert whose id was taken earlier makes its row visible last, whatever came in between, and changes nothing else |
| Store.Tables.UpdateMessageContent | internal/db/dbq/messages.sql.go:222-227 | Changes content and updated_at of the row with the id, if any, and no other row |
| Store.Tables.SoftDeleteMessage | internal/db/dbq/messages.sql.go:209-215 | Empties the content and stamps the row with the id, and no other row |
| Store.Tables.UpsertMessageRead | internal/db/dbq/message_reads.sql.go:66-72 | Keeps the greater watermark and no other changes; refused for non-members, and for an id of no message unless a watermark at least as great is stored |
| Store.RunOk | migrations/004_message_reads.sql:5 | Over every run, with inserts overlapping as they like, ids stay distinct and every watermark names a message |
| History.PageIs | internal/db/dbq/messages.sql.go:150-158 | A page is strictly newest first, within its chat and bound, and misses only rows older than its last, and only when full |
| History.PagingIsComplete | internal/db/dbq/messages.sql.go:87-98 | Whatever is inserted, edited or deleted between fetches and whatever the limits: rows come strictly descending in (created_at, id), and after an empty page the client has every message of the chat that was there at the first fetch |
| History.RunsMutate | internal/db/dbq/messages.sql.go:209-227 | The tables seen along any run of sends, edits, deletions and reads are tables that theorem covers |
| History.FixedTablePaging | internal/message/handler.go:51-76 | Over an unchanged table the pages concatenate to the full sorted list and then one is empty, whatever the limits |
| Unread.UnreadIsIncremental | internal/db/dbq/chats.sql.go:196-207 | Over every run the SQL count equals a counter that adds one for another member's message above the watermark, subtracts one for deleting a counted one and what a read passes |
| Unread.WatermarkIsMaximum | internal/db/dbq/message_reads.sql.go:66-72 | The stored watermark is the greatest accepted id ever read, or the initial one |
| Unread.WatermarkForgetsOrder | internal/db/dbq/message_reads.sql.go:66-72 | Two runs with the same set of read ids leave the same watermark, whatever order and repetition |
| Unread.WatermarkBelowNext | migrations/004_message_reads.sql:5 | A watermark never passes the last assigned id |
| Unread.MessageCounts | internal/db/dbq/chats.sql.go:202-207 | After any run, another member's message raises the unread count by one if and only if its id is above the reader's watermark, and otherwise leaves it |
| Unread.LaterMessageCounts | internal/db/dbq/chats.sql.go:196-207 | A message whose id is assigned after the reader's last read is counted, whenever it becomes visible |
| Unread.OverlapIsMissed | internal/db/dbq/chats.sql.go:202-207 | Of two overlapping inserts the one with the lower id, when it becomes visible after the other was read, is neither read nor ever counted |
| Unread.ReadingClears | internal/db/dbq/message_reads.sql.go:66-72 | After any run, reading up to the newest message leaves the unread count at zero |
| ChatList.HeadIsFirstOfLatest | internal/db/dbq/chats.sql.go:210-212 | The last message of a chat is the first row of its latest page for any limit, and NULL exactly when that page is empty |
| ChatList.ListIsInOrder | internal/db/dbq/chats.sql.go:166-215 | The list has each chat of the user once, strictly descending in (last activity, id); a row shows the id, text and time of the message newer than all others in its chat, the chat's own time if there is none, and the number of undeleted messages of others above the watermark |
| ChatList.NewMessageComesFirst | internal/db/dbq/chats.sql.go:208-215 | A message accepted later than everything else puts its chat first in the list of each member, with its text |
| ChatList.EditsKeepTheList | internal/db/dbq/messages.sql.go:209-227 | Edits and soft deletes change neither the order nor any last message; only the text of an edited or deleted last one changes |
| Listing.BatchHasEachMessage | internal/db/dbq/attachments.sql.go:161-174 | Picking one message's rows out of the batch gives what a query for that message alone gives, in id order |
| Listing.AttachmentsByMessageId | internal/message/dto.go:110-123 | The map has exactly the messages with attachments, each with exactly its own |
| Listing.Render | internal/message/handler.go:61-74 | Each row of the page becomes one entry with its own attachments, an empty list when it has none |
| Listing.ListMessages | internal/message/handler.go:32-104 | Which error answers when; otherwise the entries are messages of the chat older than the cursor's, strictly newest first, each with all its fields and its own attachments by id, at most `limit` (50 unless 1 to 100 is asked for); one is missing only if that many are listed and it is older than all of them |
| Listing.ListingCount | internal/message/handler.go:40-60 | Such an answer has exactly as many entries as messages qualify, up to the limit |
| Listing.UnknownCursorListsNothing | internal/db/dbq/messages.sql.go:87-98 | The answer to a cursor that names no message is empty |
| ListingWalk.ClientGetsAll | internal/message/handler.go:51-76 | A client that asks on from the last entry of each answer, whatever is written between and whatever limits it sends: entries strictly descending, and after an empty answer every message of the chat that was there at its first request |
| Credentials.StepKeeps | internal/user/service.go:59-171 | Every query of every call keeps the invariant over tables, histories and calls |
| CredentialTheorems.RefreshOutcome | internal/user/service.go:122-145 | A refresh no query of which failed succeeds if and only if it read the token after it was minted, before it was first deleted, and before it expired, and is otherwise refused as invalid; with a failed query it fails as such; owner and admin flag carry over |
| CredentialTheorems.RegisterOutcome | internal/user/service.go:59-108 | A registration no query of which failed: refused as invalid if and only if it did not read a good invite; otherwise its name is taken if and only if a visible user had it at the insert; otherwise it succeeds, as admin if and only if it counted before the first user was committed; a failed query gives the error of its place |
| CredentialHistory.RefreshByHistory | internal/user/service.go:122-145 | The condition in terms of the run: the token had been handed out before the step that read it, was not expired, and no delete of it came before that step |
| CredentialHistory.RegisterByHistory | internal/user/service.go:59-108 | The invite had been created before the step that read it, was not expired, and neither a deletion of it nor a commit on it came before that step |
| CredentialHistory.InviteTable | internal/db/dbq/invites.sql.go:14-105 | After any run the invites are those created and not deleted, with their expiry, and used exactly when a registration on them has committed |
| CredentialHistory.TokenTable | internal/db/dbq/refresh_tokens.sql.go:39-41 | After any run the tokens are those handed out and not deleted, with their owner and expiry |
| CredentialTheorems.SpentTokensStaySpent | internal/db/dbq/refresh_tokens.sql.go:39-41 | No refresh that starts after the token was deleted gets past reading it |
| CredentialTheorems.UsedInvitesStayUsed | internal/db/dbq/invites.sql.go:103-105 | No registration that starts after one committed on the invite gets past reading it |
| CredentialTheorems.LaterUsersAreNoAdmins | internal/user/service.go:74-78 | No registration that starts when there is a user makes an admin |
| CredentialTheorems.AccountsConsistent | migrations/001_init.sql:2-31 | Usernames stay unique under every interleaving and every token's owner exists |
| CredentialTheorems.NoDeadlock | internal/user/service.go:80-106 | From every call under way, following the calls whose transactions it waits for, after at most two of them one comes to a call whose own next query can run |
| CredentialTheorems.BlockedExactly | migrations/001_init.sql:4-19 | A call's own next query can run if and only if it waits for no other call's name or invite row |
| CredentialTheorems.WaitingDescends | internal/user/service.go:87-106 | Whoever is waited for is nearer its commit, so there is no circle |
| CredentialTheorems.BothRefreshesSucceed | internal/user/service.go:122-145 | From any tables with a valid token two overlapping refreshes of it can both succeed |
| CredentialTheorems.BothRegistrationsSucceed | internal/user/service.go:59-108 | From any tables with an unused invite two overlapping registrations on it can both succeed, both as admin if there were no users |
| UserService.RefreshIsARun | internal/user/service.go:122-145 | A refresh alone, with the database failing after any query, is a run of the machine with the same tables and result |
| UserService.RegisterIsARun | internal/user/service.go:59-108 | So is a registration |
| UserService.Service.GenerateTokens | internal/user/service.go:148-171 | Inserts the new token for the user, or nothing when the query fails |
| UserService.Service.RefreshToken | internal/user/service.go:122-145 | Which answer, and what is left in the tables, for every failing query: invalid if and only if the token is unknown or expired, a pair for its owner if and only if all four queries of a good one are answered, and after the delete the token is spent even without a new one |
| UserService.Service.Register | internal/user/service.go:59-108 | Which answer, for every failing query: invalid if and only if the invite is unknown, used or expired (or the first query fails), taken if and only if a user has the name (or the insert fails), a pair if and only if neither and all are answered; user and used invite are stored together or not at all, even when no token follows |
| ChatCreation.AddMembers | internal/chat/service.go:90-102 | The loop succeeds exactly when all statements are answered and all users exist; then exactly the requested users were added, none demoted |
| ChatCreation.Service.Create | internal/chat/service.go:44-109 | Succeeds under an exact condition, with the name's column length in it; then the members are the creator and the requested users, the creator the only admin, all else unchanged; otherwise all tables are unchanged |
| ChatCreation.CreatedExactly | internal/chat/service.go:44-109 | Refused as existing if and only if one other id is named and some direct chat holds it and the creator; created if and only if not refused, the name fits its column, all users exist and each statement is answered |
| ChatCreation.CreatedRow | internal/db/dbq/chats.sql.go:31-34 | The new row has the kind, the creator and the name as given, cut only of blanks beyond the hundredth character; other rows are unchanged |
| ChatCreation.NewDirectChat | internal/chat/service.go:45-57 | Two users whom no direct chat holds both get one, whatever other direct chats they are in |
| ChatCreation.Service.GetMemberIds | internal/chat/service.go:111-121 | Every member of the chat, each once, in the order of joining |
| ChatCreation.DirectChatOnce | internal/chat/service.go:45-57 | After a direct chat was created, creating it again is refused from either side and changes nothing |
| ChatCreation.SelfChat | internal/chat/service.go:45-57 | Creating a direct chat with oneself is refused as existing if and only if one is in some direct chat |
| ChatCreation.SecondDirectChat | internal/chat/service.go:45-57 | Creating a direct chat that exists succeeds when the other member is named twice, and leaves a second one with the same two members |
| Subprotocol.ProtocolFromRequest | internal/ws/handler.go:251-261 | Returns the first trimmed element, over all header lines, that has the prefix |
| Subprotocol.SameProtocol | internal/ws/handler.go:251-261 | Section 11.3.4 of RFC 6455: several lines give the same result as one line joining them with commas and blanks |
| Subprotocol.FirstIsFirst | internal/ws/handler.go:60-65 | The result is empty exactly when nothing has the prefix; otherwise it is the first that has, and prefix plus token gives it back |
| Subprotocol.TokenRoundTrip | internal/ws/handler.go:65 | A token offered among any other protocols is read back unchanged |
| Subprotocol.BrowserRoundTrip | internal/ws/handler.go:60-65 | In particular from a list with a comma and a blank between protocols of visible characters |
| Subprotocol.TrimExactly | internal/ws/handler.go:254 | Trimming gives t if and only if t has no blank at either end and the element is t between blanks |
| RateLimit.Limiter.Allow | internal/ws/client.go:108-114 | Takes one token if there is one after the refill, and otherwise changes nothing |
| RateLimit.ReadPump | internal/ws/client.go:96-127 | Which frames reach the handler and who is told rate_limited, for any sequence of frames |
| RateLimit.AllowedExactly | internal/ws/client.go:19-27 | A request is allowed if and only if no window ending with it would then hold more than burst plus refill |
| RateLimit.RateIsLimited | internal/ws/client.go:19-27 | In any window of length T at most 10 + T/2 sends and 60 + 3T other events reach the handler |
| RateLimit.ReachesWithinRate | internal/ws/client.go:19-27 | A send of a new connection reaches the handler if and only if, from every send before it, those that did are with it at most 10 plus one per two seconds; another event likewise with 60 and three per second |
| RateLimit.BurstPasses | internal/ws/client.go:19-27 | The first ten sends and the first sixty other events always pass |
| RateLimit.SendsAreAnswered | internal/ws/client.go:116-124 | Every send with a client id is either handled or answered once with rate_limited under that id, and nothing else is |
| RateLimit.KindsAreIndependent | internal/ws/client.go:108-114 | Which sends pass does not change when all other frames are deleted, and the other way round |

## Left out

- HTTP routing, JSON, CORS and origin checks, status codes, pagination of other lists: one-branch facts or library behaviour.
- JWT, bcrypt, hashing and random generation: tokens and codes are names assumed fresh; `Login`, which only reads and issues a token, is not modelled.
- S3, presigned links, thumbnails, web push, configuration, migrations at run time, deployment.
- Redis, PostgreSQL and the WebSocket library beyond a lossy FIFO, tables with their keys, foreign keys, row and index locks, and a wire that fails once cancelled; ping and pong timing.
- Errors of `json.Marshal` on the server's own payloads, which cannot fail for these types.
- The write pump, the read pump's lifecycle and `handleTyping` have no imperative counterpart: they are steps of `Fabric` and `Typing`, because only their interleaving with other goroutines is of interest. The fabric's sends begin at the point where the member list is known.
- Stopping a typing timer is a step of `Typing` only. In `Fabric` a stopped timer is one that has not fired yet: the safety results hold with it still armed, and removing it would only shrink the measure of the cascade.
- FabricAddressing.TypingIsTakenBack: every armed timer runs out there. One that a later handler stops is taken back by that handler's own broadcast, which `Typing.LastBroadcastIsOff` covers for one replica.
- The writer preference of the Go read-write lock: `Fabric` allows every order the lock allows, and more. No goroutine takes the lock twice, so the preference cannot block one that the model lets go on.
- Who may edit or delete a message (owner, 24 hours, admin): `Store` accepts every edit and deletion, so its results hold for those the handlers let through. Attachment rows removed with a message are not modelled.
- Names joined from `users` into message and chat rows (sender, direct chat title and avatar).
- Listing.ListMessages: a failing database is a number of answered queries; a query that returns rows partly is not modelled.
- The length limits of user names: `UserService` sees one that the database refuses as a failing query.
- RateLimit.RateIsLimited: tokens and time are real numbers, so the rounding of waiting times to nanoseconds in the rate library is not captured.
- Deleting members, chats and invites while messages are sent: membership is a fixed set in `Store`, and `Credentials` has only the deletion of invites.
- Presence across replicas is not claimed to be accurate for a user connected to two of them, nor message.read_update values to be monotone: the code supports neither.
