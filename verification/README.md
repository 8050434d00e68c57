# The replicated user cache and the WebSocket hub

A Dafny model, with proofs, of two state machines of the distributed user management system:
the replication path from the users table of the user service to the cache inside the client
library, and the hub of the gateway that pushes events to WebSocket clients.

## The system and its model

**Store and journal.** The user service keeps users in a table with soft delete and an email
index that is unique among live rows only (`UserTable.dfy`). Each request handler commits, replies,
and then publishes one event for each successful mutation (`Service.dfy`). `Journal.dfy` says
what an event does to a view of users by id. Identifiers, times, the outcome of decoding and
validation, and whether the database answers are parameters of the handlers.

**Pipeline and cache.** The client loads a snapshot and then subscribes. Each event goes through
two bounded queues that drop when full, with a bridge goroutine between them, and is applied to
a map; a reader that misses asks the server and sets the answer in a second step.
`Pipeline.dfy` is the two-stage queue, `UserClient.dfy` the cache and the client as objects, and
`Paging.dfy` the pages cut from the cache beside those cut by the database.

**The whole path.** `Replica.dfy` is one labelled transition system: commit, publish, wire,
delivery, bridge, processor, snapshot, subscription, fills, stop. Each commit is numbered, and
messages carry that number as a tag that the code does not have; `Refinement.dfy` shows that the
client's objects take the steps of the system once tags are removed. Order is assumed within one
subject only. Handlers of one subject run one at a time, as the callbacks of one subscription
do. `Convergence.dfy`, `Harmlessness.dfy` and `CleanRuns.dfy` say when cache and store agree,
`Subjects.dfy` what the order within a subject gives of its own accord, `Bookkeeping.dfy` what the
records of fills, subscriptions and shutdown mean, and `Disagreement.dfy` has three runs after which
cache and store never agree again, with the proof that they never do.

**Hub.** `Hub.dfy` is a second labelled transition system, in which the hub's loop over its
clients is interleaved with flag changes, replies and writes; `HubObjects.dfy` has the hub and
its clients as objects, and shows that calls on them take the steps of that system.
`KeepAlive.dfy` is the arithmetic of ping, pong and read deadline, where a ping counts as answered
when the reader handles the pong.

## What holds, and what does not

* Cache and store do not agree unconditionally. A deletion in the gap between snapshot and
  subscription, a reader that sets an old record after the deletion was applied, or a deletion that
  overtakes an update of the same user, each leave a deleted user in the cache with nothing pending,
  and no later step ever removes it (`Disagreement`).
* The exact condition is `Convergence.ConvergesIff`: because events carry whole records, what is
  pending leads to the live record if and only if it leads as far as the user's newest commit (the
  user is accounted for), or what it misses happens to do no harm. That happens in two cases only:
  the client misses the user's whole life, from before the creation to the deletion; or the newest
  commit is an update that writes again the very record which the client ends with. Step by step,
  `Harmlessness.AgreementAfterStepIff` names the steps that keep agreement and the steps that break
  it.
* An update whose database error is swallowed is answered and announced with a blank user, so the
  journal then has one user too many (`Service.FaithfulJournal`). In `Replica.dfy` the database
  answers.
* A negative limit or offset that reaches the cache makes its slice expression panic, in exactly the
  cases that `UserClient.Cache.List` gives.
* Each cached entry is always some version of its user that was committed, whatever goes wrong
  (`Convergence.CachedEntriesWereCommitted`).
* The documentation says that an event is published after every successful mutation (README.md
  of the repository, under Events). The code logs a failed publish and goes on, and the model
  follows the code: a failed publish is a loss.

## Model

| member | source | states |
|---|---|---|
| `UserTable.ExecSucceedsIff` | user-service/internal/adapters/postgresadaptor/repository.go:24-156 | create, update and delete succeed exactly when no other live user has the email and the user is live; a failure leaves the table as it was |
| `UserTable.ExecWrites` | user-service/internal/adapters/postgresadaptor/db/users.sql.go:15-263 | a statement that succeeds writes one row and no other, and says of each field of that row what it becomes |
| `UserTable.RunKeepsHistory` | user-service/internal/adapters/postgresadaptor/db/users.sql.go:15-263 | over every run of statements live emails stay unique, rows never disappear, and a deleted row is frozen and never revives |
| `UserTable.DeletedEmailIsReusable` | user-service/db/migrations/000002_fix_email_unique_index.up.sql:7-13 | after a deletion the email can be used at once, and only the newcomer has it |
| `UserTable.TableRefinesDirectory` | user-service/internal/adapters/postgresadaptor/db/users.sql.go:15-263 | over every run the table and a plain map of live users with a maintained email index give the same outcomes and stay related |
| `UserTable.LookupsAnswerAsDirectory` | user-service/internal/adapters/postgresadaptor/db/users.sql.go:76-122 | lookups by id and by email answer as that map and index do |
| `UserTable.Repository.CreateUser` | user-service/internal/adapters/postgresadaptor/repository.go:24-43 | inserts a live row under the generated id, or reports the email taken or the database error and changes nothing |
| `UserTable.Repository.UpdateUser` | user-service/internal/adapters/postgresadaptor/repository.go:118-140 | replaces the profile of a live row and keeps its creation time; not found exactly when the row is not live; an unknown database error comes out as success with a blank user and no change |
| `UserTable.Repository.DeleteUser` | user-service/internal/adapters/postgresadaptor/repository.go:141-156 | marks a live row deleted and keeps every row in the table; a database error changes nothing |
| `UserTable.Repository.GetByID` | user-service/internal/adapters/postgresadaptor/repository.go:45-55 | finds exactly the live rows; an unknown database error comes out as a blank user |
| `UserTable.Repository.GetByEmail` | user-service/internal/adapters/postgresadaptor/repository.go:57-66 | finds a live row with the email exactly when there is one; reports a database error |
| `UserTable.Repository.List` | user-service/internal/adapters/postgresadaptor/repository.go:68-95 | returns, in the database's order, the rows of the requested window: live, of the requested status, newest first and none twice; or the database error |
| `Service.AnnouncementTracksTable` | user-service/internal/adapters/natsadaptor/handler.go:98-106 | a statement changes the view of live users exactly as the event announcing it says; one event per success, none per failure |
| `Service.ReplyDescribesRequest` | user-service/internal/adapters/natsadaptor/handler.go:92-106 | a successful reply has the fields asked for, an empty status made ACTIVE, today's update time and the first creation time, and is what the store now holds, except for a swallowed update, whose reply is blank and changes nothing; a deletion is confirmed only if it removed a live user; an error changes and announces nothing |
| `Service.ErrorCodesIff` | user-service/internal/adapters/natsadaptor/handler.go:345-356 | exactly which requests get a validation error, not found, already exists and an internal error, told from the table and the request |
| `Service.FaithfulJournal` | user-service/internal/adapters/natsadaptor/handler.go:74-107 | over every run each mutation reported as successful is journalled once, in order, with the DTO of its reply; replaying the journal gives exactly the live users if and only if no update had its database error swallowed, and otherwise those and the blank user under the nil identifier |
| `Service.Handler.HandleCreate` | user-service/internal/adapters/natsadaptor/handler.go:74-107 | commit, one reply, then the created event unless publishing fails; an error is one reply and nothing else |
| `Service.Handler.HandleUpdate` | user-service/internal/adapters/natsadaptor/handler.go:232-278 | the same for updates; a swallowed database error is answered and announced as a blank user |
| `Service.Handler.HandleDelete` | user-service/internal/adapters/natsadaptor/handler.go:280-314 | the same for deletions |
| `Service.Handler.PublishEvent` | user-service/internal/adapters/natsadaptor/handler.go:327-339 | a failed publish leaves no trace |
| `Service.Handler.HandleGetByID` | user-service/internal/adapters/natsadaptor/handler.go:109-144 | replies with the live user's DTO, or not found, or a blank user if the database does not answer |
| `Service.Handler.HandleGetByEmail` | user-service/internal/adapters/natsadaptor/handler.go:146-173 | replies with a live user who has the email, or not found, or an internal error |
| `Service.Handler.HandleListAll` | user-service/internal/adapters/natsadaptor/handler.go:213-230 | replies with the DTO of every row the query returns, in its order, or an internal error |
| `Journal.LastWriterWins` | user-service/pkg/userclient/client.go:180-199 | replaying events leaves each user as the last event about that user says |
| `Journal.OrderMattersOnlyPerUser` | user-service/pkg/userclient/client.go:180-199 | two deliveries with the same order per user give the same cache from any start, however they interleave |
| `Journal.SameReplayIff` | user-service/pkg/userclient/client.go:180-199 | two deliveries are indistinguishable exactly when they settle the same about every user |
| `Pipeline.PipelineConserves` | user-service/pkg/userclient/client.go:96-147 | over every run the applied events and those inside are an ordered subsequence of the offered, offered = applied + inside + dropped as multisets, and both queues stay within 256 |
| `Pipeline.NothingDroppedUnlessCrowded` | user-service/pkg/userclient/client.go:114-144 | if at most 256 events are ever outstanding nothing is dropped |
| `Pipeline.StepCommutesWithMap` | user-service/pkg/userclient/client.go:106-147 | the pipeline moves the same way whatever tag its elements carry |
| `Pipeline.DrainTerminates` | user-service/pkg/userclient/client.go:166-175 | with delivery stopped each step of bridge or processor uses up a weighted backlog, so every schedule ends; the drain is done exactly when the processor has no step left |
| `Pipeline.DrainAppliesReady` | user-service/pkg/userclient/client.go:166-175 | when the drain is done, all that was with the processor when it began has been applied, in order, and only the bridge still holds events |
| `UserClient.Cache.Get` | user-service/pkg/userclient/cache.go:16-21 | answers as the map does |
| `UserClient.Cache.Set` | user-service/pkg/userclient/cache.go:23-27 | sets the entry under the user's own id and touches no other |
| `UserClient.Cache.Delete` | user-service/pkg/userclient/cache.go:29-33 | removes that entry and touches no other |
| `UserClient.Cache.GetByEmail` | user-service/pkg/userclient/cache.go:35-44 | in any order of iteration, finds a user with the email exactly when there is one |
| `UserClient.Cache.List` | user-service/pkg/userclient/cache.go:46-72 | for any limit and offset: a page of some enumeration of exactly the matching users, each once, or a panic, exactly when limit or offset is negative, the limit is not zero and the offset is short of the end; 32-bit inputs cannot overflow the 64-bit sum |
| `UserClient.UpdateDoesAsEvent` | user-service/pkg/userclient/client.go:109-145 | what the bridge puts on the channel has the type of the event and does to the cache as the event says |
| `UserClient.LoadGivesLiveView` | user-service/pkg/userclient/client.go:85-87 | loading the reply into an empty cache gives exactly the live users, whatever the row order |
| `UserClient.Client.LoadCache` | user-service/pkg/userclient/client.go:68-92 | sets the users of the reply and marks the cache complete; a failure does neither |
| `UserClient.Client.OnEvent` | user-service/pkg/userclient/client.go:357-370 | an offer to the pipeline that never blocks |
| `UserClient.Client.BridgeTake` | user-service/pkg/userclient/client.go:106-114 | takes the oldest event off the event channel |
| `UserClient.Client.BridgePut` | user-service/pkg/userclient/client.go:115-144 | hands the event on, or drops it if the update channel is full |
| `UserClient.Client.ProcessorPop` | user-service/pkg/userclient/client.go:160-164 | takes the oldest update off the update channel |
| `UserClient.Client.ApplyCacheUpdate` | user-service/pkg/userclient/client.go:180-199 | applies by type; an update without a user or of unknown type changes nothing |
| `UserClient.Client.ProcessorApply` | user-service/pkg/userclient/client.go:160-164 | the cache takes the event in hand |
| `UserClient.Client.Drain` | user-service/pkg/userclient/client.go:166-175 | whatever the bridge does in between, it terminates with the queue empty and the cache the fold, in order, of all that it took, which is all that was queued for it and perhaps more; with nothing left to the bridge, exactly that |
| `UserClient.Client.GetUserByID` | user-service/pkg/userclient/client.go:235-259 | a hit does not ask the server; a miss returns its answer, and leaves, user by user, a success set over whatever the events applied while it asked have settled; without a cache it only asks |
| `UserClient.Client.GetUserByEmail` | user-service/pkg/userclient/client.go:261-285 | the same by email |
| `UserClient.Client.ListUsers` | user-service/pkg/userclient/client.go:287-313 | pages from the cache only if there is one and its load was complete; a zero limit means 50; panics exactly when the cache does |
| `Paging.PageIsWindow` | user-service/internal/adapters/postgresadaptor/db/users.sql.go:166-172 | with a positive limit the cache pages as LIMIT and OFFSET do, with length max(0, min(limit, n - offset)) |
| `Paging.PagesPartition` | user-service/pkg/userclient/cache.go:50-71 | the pages at offsets 0, L, 2L, ... put together are exactly the list, as far as they reach |
| `Paging.EnoughPagesCoverAll` | user-service/pkg/userclient/cache.go:50-71 | enough pages together are the whole list, whatever the positive limit |
| `Paging.CachedPageAgrees` | user-service/pkg/userclient/cache.go:46-72 | when the cache is the live view, a cached page has the server page's length, only matching users and no repeats, and a page covering everything is a permutation of the server's |
| `Paging.EmailHitAgrees` | user-service/pkg/userclient/cache.go:35-44 | when the cache is the live view, a hit by email is the server's answer in any order of iteration, and there is one exactly when the server finds someone |
| `Replica.RunKeepsInv` | user-service/pkg/userclient/client.go:55-199 | every run keeps: the log is a faithful journal no version of which shares an email, and in it each user is created once, then updated, then deleted at most once; each commit's note is in exactly one place; each cached entry is its user's record at the version it reflects |
| `Refinement.StepIsClientStep` | user-service/pkg/userclient/client.go:94-199 | each step of the system does to the client what the client's method for it promises, and other steps leave the client alone |
| `Refinement.MissIsFill` | user-service/pkg/userclient/client.go:235-285 | a miss of the client is a run of the system in which events may be applied, then the step `FillSet`, and leaves what the client's methods promise of a miss |
| `Convergence.CachedEntriesWereCommitted` | user-service/pkg/userclient/client.go:85-87 | in every reachable state each cached entry sits under its own id and was once committed for that user |
| `Convergence.PendingLeadsToDestination` | user-service/pkg/userclient/client.go:157-199 | with no assumption, replaying a user's pending events on the cached entry gives the user's record at a version that the queues determine |
| `Convergence.ConvergesIff` | user-service/pkg/userclient/client.go:157-199 | with no assumption on the run: that is the live record if and only if the user is accounted for, or the user's whole life is missed, or the newest commit is an update that repeats the record last written before that version |
| `Convergence.AccountedIff` | user-service/pkg/userclient/client.go:157-199 | a user is accounted for exactly when what is pending leads as far as the newest commit |
| `Convergence.AccountedConverges` | user-service/pkg/userclient/client.go:157-199 | for a user whose newest commit is accounted for, replaying what is pending gives exactly the live record, whatever happened to others |
| `Convergence.SettledAgreesIff` | user-service/pkg/userclient/client.go:157-199 | with nothing pending for a user, cache and store agree on the user exactly in those cases |
| `Convergence.SettledAgrees` | user-service/pkg/userclient/client.go:157-199 | so an accounted user with nothing pending is the same in cache and store |
| `Harmlessness.AccountedAfterStepIff` | user-service/pkg/userclient/client.go:94-285 | a step keeps a user accounted for if and only if it is harmless: the exact conditions for losing, delivering, dropping, filling and installing |
| `Harmlessness.AgreementAfterStepIff` | user-service/pkg/userclient/client.go:94-285 | after a step from such a state, replaying what is pending gives the live record if and only if the step was harmless or what it makes the client miss is one of the two coincidences |
| `CleanRuns.CleanRunsConverge` | user-service/pkg/userclient/client.go:94-285 | over every run that loses none of a user's notes, delivers them oldest first and sets the entry only from undisturbed fills, cache and store agree whenever nothing is pending |
| `CleanRuns.FillsStayCovered` | user-service/pkg/userclient/client.go:244-256 | on a run that loses none of the user's notes and delivers them oldest first, a miss fill is safe as long as no event of that user is applied between its read and its set, even if others are queued |
| `CleanRuns.AccountedAtInstallIff` | user-service/pkg/userclient/client.go:61-62 | exactly when the installed snapshot accounts for a user, given what was committed in the gap |
| `CleanRuns.InstalledThenClean` | user-service/pkg/userclient/client.go:61-62 | so from the snapshot on: such a user whose run is clean is accounted for, and agrees whenever nothing is pending |
| `Subjects.SingleKindArrivesInOrder` | user-service/pkg/userclient/client.go:354-415 | in every reachable state the events of one subject offered to the pipeline are in commit order, and those on the wire or in the outbox come later |
| `Subjects.SingleKindConverges` | user-service/pkg/userclient/client.go:94-199 | so a user whose events are all of one subject, with no loss since the snapshot and no disturbed fill, is accounted for in every reachable state, and agrees once nothing is pending, with no assumption about order |
| `Bookkeeping.SubjectsDoNotWait` | user-service/pkg/userclient/client.go:354-415 | an event may be handed over exactly when no older one of its own subject is on the wire, and a request committed exactly when none of its kind awaits its publish |
| `Bookkeeping.AnythingMayHappen` | user-service/internal/adapters/natsadaptor/handler.go:327-339 | nothing shields an event: at any time its publish may fail and the wire may lose it; and a miss may be set at any time after its read |
| `Bookkeeping.FillReadsLiveRecord` | user-service/pkg/userclient/client.go:244-251 | a miss reads the live record at the current version |
| `Bookkeeping.InFlightIff` | user-service/pkg/userclient/client.go:235-259 | over every run a miss is in flight from its read until it is set or given up |
| `Bookkeeping.DisturbedIff` | user-service/pkg/userclient/client.go:244-256 | over every run a fill in flight keeps what it read, and is disturbed exactly when an event about its user was applied since |
| `Bookkeeping.MarkedIff` | user-service/pkg/userclient/client.go:253-256 | over every run a user counts as filled exactly when a fill set the entry, and as tainted exactly when a disturbed one did |
| `Bookkeeping.ClosingUnsubscribes` | user-service/pkg/userclient/client.go:208-213 | after unsubscribing from a subject nothing published on it is heard, until subscribing again |
| `Bookkeeping.ExitIsFinal` | user-service/pkg/userclient/client.go:166-175 | told to stop, the processor may exit exactly when its queue is empty and it holds nothing, and after that no event is ever applied |
| `CleanRuns.HistoryConverges` | user-service/pkg/userclient/client.go:94-285 | in every reachable state, a user with no loss since the snapshot, arrivals in commit order and no fill set after an event disturbed it is accounted for, and agrees once nothing is pending |
| `CleanRuns.LockstepIsOneVersion` | user-service/pkg/userclient/client.go:68-199 | with no loss, commit-order delivery from the snapshot and no fill, the cache is the live view at snapshot + applied, and never holds two users with one email |
| `CleanRuns.VersionOnlyGrows` | user-service/pkg/userclient/client.go:157-199 | along every run the number of applied events only grows, so that view never goes back in time |
| `CleanRuns.CacheIsReplayOfApplied` | user-service/pkg/userclient/client.go:157-199 | for every user whose entry no fill has set, the cache is the snapshot with the applied events replayed in the order applied, whatever was lost or reordered |
| `CleanRuns.AtExit` | user-service/pkg/userclient/client.go:166-175 | when the processor exits its queue is empty and, for every user whose entry no fill has set, the cache holds all it ever took, in order |
| `Disagreement.GapLeavesDeletedUser` | user-service/pkg/userclient/client.go:61-62 | a reachable state with nothing pending in which a user deleted before subscribing is still cached, and is after every further run |
| `Disagreement.StaleFillRevivesDeletedUser` | user-service/pkg/userclient/client.go:244-256 | a reachable state with nothing lost, all in order and nothing pending, in which a fill has put a deleted user back, there to stay after every further run |
| `Disagreement.OvertakingRevivesDeletedUser` | user-service/pkg/userclient/client.go:354-415 | a reachable state with nothing lost, no fill and nothing pending, in which an update delivered after the deletion has put a deleted user back, there to stay after every further run |
| `Disagreement.DisagreementIsPermanent` | user-service/pkg/userclient/client.go:157-285 | once a deleted user is cached with no event or fill about the user under way, every legal run leaves the entry there |
| `Hub.HubNeverFaults` | gateway-service/internal/adapters/wshandler/hub.go:28-62 | over every run a client is in the set exactly when it has registered and its queue is open, so whatever the hub next visits or closes is open: it never closes twice nor pushes on a closed queue, late unregisters included |
| `Hub.BroadcastsAreTakenOnce` | gateway-service/internal/adapters/wshandler/hub.go:44-71 | over every run the broadcasts taken, then those queued, are exactly those offered while fewer than 256 were queued, in order and once each |
| `Hub.StateFollowsLabels` | gateway-service/internal/adapters/wshandler/client.go:89-124 | over every run a reader is where its last action left it (reading, answering that message, leaving, gone), and the loop is at the broadcast last begun and not finished |
| `Hub.PushesAreGapFree` | gateway-service/internal/adapters/wshandler/hub.go:44-59 | over every run a client has been sent exactly, in order and once each, the broadcasts of types it was subscribed to when looked at, but for the last of them if it was disconnected for being slow; a registered client was looked at once per broadcast |
| `Hub.OneReplyPerRequest` | gateway-service/internal/adapters/wshandler/client.go:113-124 | over every run, with pushes set aside, replies match routed messages one by one in order and echo action and request id; at most one message ever lacks its reply |
| `Hub.RespondSays` | gateway-service/internal/adapters/wshandler/handler.go:42-60 | a reply reports success exactly for a known action whose handler succeeded, with its payload, and otherwise the reason |
| `Hub.PushAnnounces` | gateway-service/internal/adapters/wshandler/subscribe.go:31-69 | the type and action of a push name the kind of its event, and its body is the user, or the id of a deleted one |
| `Hub.VisitAllResult` | gateway-service/internal/adapters/wshandler/hub.go:45-59 | client by client: subscribed with room gains one push, subscribed and full is closed and removed, unsubscribed is untouched |
| `Hub.BroadcastOrderIsIrrelevant` | gateway-service/internal/adapters/wshandler/hub.go:45-59 | any two orders of iterating over the clients give the same state, in which the loop may end |
| `HubObjects.HubObject.Register` | gateway-service/internal/adapters/wshandler/hub.go:31-34 | adds the client |
| `HubObjects.HubObject.Unregister` | gateway-service/internal/adapters/wshandler/hub.go:36-42 | removes and closes a client still in the set, and closes no other |
| `HubObjects.HubObject.Visit` | gateway-service/internal/adapters/wshandler/hub.go:45-57 | one turn of the loop: unsubscribed untouched, one push if there is room, closed and removed if full |
| `HubObjects.HubObject.Deliver` | gateway-service/internal/adapters/wshandler/hub.go:44-59 | the loop itself, in an arbitrary order, with its outcome stated client by client |
| `HubObjects.HubObject.Broadcast` | gateway-service/internal/adapters/wshandler/hub.go:64-71 | queues the event, or drops it when 256 are queued |
| `HubObjects.HubObject.Take` | gateway-service/internal/adapters/wshandler/hub.go:44 | takes the oldest broadcast off the queue |
| `HubObjects.HubObject.Pump` | gateway-service/internal/adapters/wshandler/subscribe.go:31-69 | each event becomes one broadcast whose type and action name its kind and whose body is the user, or the id of a deleted one; dropped exactly when 256 are queued |
| `HubObjects.WsClient.Route` | gateway-service/internal/adapters/wshandler/handler.go:42-60 | one reply whatever the path, which blocks exactly on a full queue and panics exactly on a closed one; subscribing and unsubscribing change exactly the three flags, even if subscribing to the events fails |
| `HubObjects.WsClient.WriteNext` | gateway-service/internal/adapters/wshandler/client.go:50-87 | writes what was queued, in order, and stops only at a closed and empty queue |
| `HubObjects.MirroringIsValid` | gateway-service/internal/adapters/wshandler/hub.go:28-62 | in a state of the system that satisfies its invariant the hub may push and close as its methods require |
| `HubObjects.TakeConnect` | gateway-service/internal/adapters/wshandler/hub.go:31-34 | registering a new client is the step `Connect` of the system |
| `HubObjects.TakeUnregister` | gateway-service/internal/adapters/wshandler/hub.go:36-42 | unregistering is the step `Unregister`, late ones included |
| `HubObjects.TakeVisit` | gateway-service/internal/adapters/wshandler/hub.go:45-57 | one turn of the loop is the step `Visit` |
| `HubObjects.TakeVisits` | gateway-service/internal/adapters/wshandler/hub.go:44-59 | the whole loop is the visits of one broadcast, in any order |
| `HubObjects.TakeOffer` | gateway-service/internal/adapters/wshandler/hub.go:64-71 | broadcasting is the step `Offer` |
| `HubObjects.TakeBegin` | gateway-service/internal/adapters/wshandler/hub.go:44 | taking one is the step `Begin` |
| `HubObjects.TakeSetFlag` | gateway-service/internal/adapters/wshandler/client.go:34-38 | subscribing is the step that sets a flag |
| `HubObjects.TakeClearFlag` | gateway-service/internal/adapters/wshandler/client.go:40-44 | unsubscribing is the step that clears it |
| `HubObjects.TakeAnswer` | gateway-service/internal/adapters/wshandler/handler.go:42-60 | a reply is sent exactly when the system enables `Answer` and is that step, panics exactly when it enables `Panic` and is that one, and otherwise moves nothing |
| `HubObjects.TakeWrite` | gateway-service/internal/adapters/wshandler/client.go:50-87 | a write is the step `Write`, also after the queue was closed, until it is empty |
| `KeepAlive.NeverExpiresIff` | gateway-service/internal/adapters/wshandler/client.go:50-111 | for any ping period shorter than the pong wait, no run however long lets the read deadline expire, if and only if every ping is answered within the wait less the period |
| `KeepAlive.ExpiresIff` | gateway-service/internal/adapters/wshandler/client.go:50-111 | over every run the connection has expired exactly when more than the pong wait has passed since the last pong, or since the start if there was none; pings go out at every period and each pong answers one |
| `KeepAlive.PromptPeersLiveOn` | gateway-service/internal/adapters/wshandler/client.go:50-111 | a peer that answers at once stays connected for any length of time |

## Left out

- NATS, PostgreSQL, the WebSocket library and the HTTP router: only first-in-first-out per subscription, atomic statements and fresh identifiers are kept.
- JSON, validation tags and UUID parsing: a handler receives the outcome of decoding and validation; the age range and status names are therefore not checked again against the table's constraints.
- A database connection that fails after the statement took effect: a statement without an answer has had none. RPC errors other than an error reply or no answer.
- Swallowed database errors in the replication system: there the database answers.
- HubObjects.HubObject.Deliver: runs as one step, because a method cannot be interrupted; the turn that is atomic in the code is `HubObjects.HubObject.Visit`, and its interleaving with flags, replies and writes is in `Hub`.
- HubObjects.WsClient.Route: the service calls of the handlers are its `result`, and a blocked sender is reported instead of waiting.
- The handler of the paged list request: its window is `UserTable.Repository.List` and its DTOs are those of `Service.Handler.HandleListAll`.
- Payload types that do not match the event type: the callbacks never produce them.
- Several subscriptions by one client: each starts a further pump, so nothing is claimed about how often an event reaches a client, only about each broadcast that the hub takes.
- The registration, logging and HTTP layers, the pass-through service and adapter layers, error code tables, configuration and start-up.
- Write deadlines and failed writes: a writer that stops is one that takes no further step.
- A send queue of capacity zero, for which a push would need the writer to be waiting.
