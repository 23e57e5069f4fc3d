# A verified model of the shipment, customs and files modules

The application moves one fact across two bounded contexts: a shipment's cargo manifest
is finalized, and customs opens a clearance case for it. Between the two stand a
transactional outbox, a relay that publishes outbox rows, a broker with primary, retry
and error queues, a consumer, and an inbox that keeps handlers idempotent. A third
context stores files. This project states what that machinery promises and proves it in
Dafny; `dafny verify dfyconfig.toml` checks all of it.

## How the model is laid out

*The bus as a state machine.* `Bus` is a step relation over committed tables, open outbox
passes, queues (multisets of copies) and deliveries in progress. Any enabled action of any
process may come next: a request, a relay's batch, offer, commit or abort, a delivery, one
move of a consumer (look-up, handler, inbox insert, commit, failure, recovery,
cancellation, acknowledgement), a crash, a lost channel, a relay that loses its row locks
and goes on publishing, an expiry, a replay. A commit may be stored and still report
failure; a publication may be accepted and still raise. Six theories are proved over
every run:

- `BusOnce`: committed effects stand one to one with inbox rows, and no key has two.
- `BusRelay`: passes that hold their locks have disjoint batches, a sent row was
  published, no row goes back, and a row is offered again only when every earlier
  publication of it failed or was never committed.
- `BusNoLoss`: every published row is still on its way to each endpoint it is due at, or
  recorded there by every subscriber - unless a recovery publication raised or a dispatch
  was cancelled, which is exactly when the code loses a message.
- `BusHome`: a retried copy is only ever on its way to the endpoint that retried it, and
  is parked only after every retry.
- `BusBounds`: the handler bodies of a message - returned, raised or broken off - and its
  recoveries are bounded by what its accepted publications, and the copies that crashes
  or replays put back, pay for.
- `BusFinishes`: from every reachable state a message that was not given up can still be
  recorded, by a run in which nothing more goes wrong.

`Losses` builds, with `Refinement` and `Runs`, the runs in which a message really is lost.

`Declarations` says exactly which fleets of workers a broker accepts, and
`Deployment` derives what these theories ask of the routing from the bindings the workers
declare (`Topology`, `Connection`). `EndToEnd` composes them: at most one clearance case
per shipment, and it exists exactly when the inbox says so.

*The loops as imperative code.* `Dispatcher`, `Relay`, `Consumer` and `Connection` are
classes with the source's own loops and fields, proved against specification functions
(`Inbox`, `Outbox`, `Recovery`, `Envelope`) whose properties are then proved for all
inputs. `Refinement` shows that a whole dispatch, a whole delivery, a whole outbox pass
and a finalizing request are each a possible run of the machine that ends exactly where
those specifications say.

*The aggregates and the requests.* `Shipments` and `ClearanceCases` are the mutable
aggregates, `ShipmentRules` and `CaseRules` the rules on values they agree with call by
call. `Announcements` counts the outbox rows that announce them. `Requests` runs the
handlers in one session that commits or rolls back; `Ledgers` states what a request does
to the committed tables and proves, over every serial history with arbitrary failures,
that a state change and its announcement stand or fall together.

*Files.* `StorageLocations` normalizes paths and names and proves the object key
injective; `StoredFiles` de-duplicates references; `FileStorages` streams an upload onto
a disk; `Uploads` and `UploadHandler` are the two-resource saga with its compensation.

*Arithmetic and strings.* `Monies` (half-up cents) and `Waybills` (seven-digit serials).

Every lemma carries `{:induction false}`: a proof by induction is the one written in its
body.

## What the proofs assume

- Queues are bound before the relay publishes, each primary queue has one consumer
  configuration, and retry, error and primary queues have different names
  (`Deployment.QueuesApart`).
- Handler names differ among the subscribers of one type. The registry only
  de-duplicates classes; `Inbox.SharedNameSilences` shows what a shared name does.
- Requests on one shipment, case or storage key are serial, since the look-ups take no
  lock. Relays and consumers interleave freely.
- Identifiers and bodies are what the publishing module writes: canonical UUID text.
- Configured disk names are the four the settings know.

## Where code and documentation differ

The model follows the code.

- The acknowledgement stands in a `finally`, so a recovery publication that raises, or a
  cancelled dispatch, can lose the message. `Consumer.LostExactlyWhenRecoveryFails` gives
  the exact condition for one delivery, `BusNoLoss.LostExactlyWhenGivenUp` for one move
  among any others, and `Losses.LossIsReachable` a whole run for each of the two causes.
- A path is normalized when it is received and again whenever its row is read back, and
  the two disagree on some accepted paths (`/ a`, `/~k`). `ReadBackKeepsTheKeyIff` gives
  the exact condition under which a row still leads to its object.
- An upload can leave bytes no row points at; an empty file always does, and it then
  blocks its key (`Uploads.LeavesAnOrphanIff`, `Uploads.EmptyUploadBlocksItsKey`).
- Three members read the redelivery counter with the same code; one function,
  `Envelope.ReadCount`, stands for all three.

## Model

| member | source | states |
|---|---|---|
| BusOnce.CommitKeepsOnce | modules/shared/message_bus/inbox/dispatcher.py:120-144 | a commit adds one inbox row and one effect for the same key, also when it reports failure, and no other open transaction holds that key |
| BusOnce.RecordKeepsOnce | modules/shared/message_bus/tables.py:90-95 | the unique constraint lets only one open transaction hold an inbox key, and none that is committed already |
| BusOnce.RunKeepsOnce | modules/shared/message_bus/inbox/dispatcher.py:53-144 | every run of interleaved workers keeps inbox rows unique and coupled to their effects |
| BusOnce.EffectsAtMostOnce | modules/shared/message_bus/inbox/dispatcher.py:120-144 | over every run a key has as many committed effects as inbox rows, and that is zero or one |
| BusOnce.RaceHasOneWinner | modules/shared/message_bus/inbox/repository.py:26-44 | of two workers whose look-ups both found nothing, at most one can commit, and afterwards the other cannot record |
| BusRelay.BeginKeepsRelaying | modules/shared/message_bus/outbox/repository.py:53-67 | a batch taken with SKIP LOCKED, within the rows this module sees, is disjoint from every batch whose locks are held and has pending rows only |
| BusRelay.PublishKeepsRelaying | modules/shared/message_bus/outbox/relay.py:47-66 | offering the next row keeps the account: accepted publications are the unconfirmed ones plus at most one awaiting commit |
| BusRelay.CommitKeepsRelaying | modules/shared/message_bus/outbox/relay.py:66-69 | committing a pass marks exactly its confirmed rows and frees the others |
| BusRelay.AbortKeepsRelaying | modules/shared/message_bus/outbox/relay.py:41-69 | a pass that dies marks nothing, and every publication it had confirmed counts as unconfirmed from then on |
| BusRelay.LosingKeepsRelaying | modules/shared/message_bus/outbox/relay.py:38-69 | a pass that loses its connection goes on publishing without locks, confirms nothing any more, and keeps the account |
| BusRelay.RelaysShareNothing | modules/shared/message_bus/outbox/relay.py:34-72 | in every reachable state batches whose locks are held are disjoint and unsent, a sent row was published, and the accepted publications of a row are its unconfirmed ones or one more |
| BusRelay.RepublishedOnlyAfterFailure | modules/shared/message_bus/outbox/relay.py:41-69 | in every reachable state, when a pass holding its locks is about to offer a row, every earlier accepted publication of that row is one that failed or was never committed |
| BusRelay.UnconfirmedOnlyBy | modules/shared/message_bus/outbox/relay.py:57-69 | the count of unconfirmed publications of a row grows only when a publication raises after acceptance, a pass over it fails to commit or loses its locks, or a pass without locks publishes it |
| BusRelay.RowsOnlyAdvance | modules/shared/message_bus/outbox/outbox_message.py:66-69 | one step never changes a row's identity, body, target or headers, and never takes it from Sent back to Pending |
| BusRelay.SentForGood | modules/shared/message_bus/outbox/outbox_message.py:66-74 | over any further run a sent row stays sent, at the same place, with the same content |
| BusNoLoss.FinishedIsRecorded | modules/shared/message_bus/inbox/dispatcher.py:53-76 | a dispatch that reports no failure has an inbox row for every subscriber |
| BusNoLoss.RecoveryIsHomebound | modules/shared/message_bus/rabbitmq/consumer.py:128-140 | a republication that arrives, to the retry or the error queue, is on its way back to the same endpoint and will be accepted there |
| BusNoLoss.HandingOverKeeps | modules/shared/message_bus/rabbitmq/consumer.py:80-87 | recovering, crashing or losing the channel leaves a homebound copy in some queue, or the drop is on record |
| BusNoLoss.MoveKeeps | modules/shared/message_bus/rabbitmq/consumer.py:60-87 | no move of any delivery loses a message, except by giving it up |
| BusNoLoss.DeliverKeeps | modules/shared/message_bus/rabbitmq/consumer.py:44-62 | taking a copy out of a queue puts it into a worker's hands at its own endpoint |
| BusNoLoss.PublishKeeps | modules/shared/message_bus/outbox/relay.py:47-66 | a publication that arrives starts a homebound copy at every endpoint the row is due at |
| BusNoLoss.NothingIsLost | modules/shared/message_bus/rabbitmq/consumer.py:60-140 | over every run in which recovery publications succeed, each committed row is pending, on its way to each endpoint it is due at, or recorded there by every subscriber |
| BusNoLoss.LostOnlyIfDropped | modules/shared/message_bus/rabbitmq/consumer.py:80-87 | over every run at all, a row that does not survive at an endpoint was given up by a raised recovery or a cancellation at that endpoint |
| BusNoLoss.LostExactlyWhenGivenUp | modules/shared/message_bus/rabbitmq/consumer.py:80-87 | a move loses a surviving message if and only if it gives the message up (recovery raised, or cancelled) while no other copy waits or is in hand at that endpoint and some subscriber is unrecorded |
| Losses.LossIsReachable | modules/shared/message_bus/rabbitmq/consumer.py:80-87 | both ways of losing are real: for any deployment that routes the announcement to one subscribed queue, a run from the empty bus - finalize, publish, deliver, then raise or cancel - ends with the sent row lost there |
| BusHome.DeliveredIsOwn | modules/shared/message_bus/rabbitmq/consumer.py:112-126 | what a primary queue delivers is a fresh message or this endpoint's own retry |
| BusHome.ExpiredIsOwned | modules/shared/message_bus/rabbitmq/connection.py:146-178 | an expired retry lands only where the endpoint that retried it takes it |
| BusHome.ReplayedIsOwned | modules/shared/message_bus/rabbitmq/connection.py:309-332 | a replayed copy lands only where the endpoint that parked it takes it |
| BusHome.RecoveredIsOwned | modules/shared/message_bus/rabbitmq/connection.py:209-281 | a recovered copy is addressed to its own endpoint's retry or error queue and says so in its headers |
| BusHome.RetriesStayHome | modules/shared/message_bus/rabbitmq/consumer.py:112-126 | in every reachable state each queue holds its own copies only and a worker accepts exactly the types it subscribes to: the retry-endpoint check never has to reject a copy |
| BusHome.ParkedAfterEveryRetry | modules/shared/message_bus/rabbitmq/consumer.py:128-140 | in every reachable state no delivery was retried more often than max(delayed,0), and one that is to be parked has used up every retry |
| BusBounds.WorkIsPaidFor | modules/shared/message_bus/rabbitmq/consumer.py:128-140 | every run of a handler body, whether it returned, raised, was cancelled or died with its worker, and every recovery uses up budget that a copy carries; no move creates any, except a redelivery after a crash or lost channel, or a replay |
| BusBounds.MovesArePaidFor | modules/shared/message_bus/inbox/dispatcher.py:86-108 | over every run, crashes and replays included, the bodies run (raising ones included) and recoveries made of a message at an endpoint are at most what its accepted publications pay for plus what crashes, lost channels and replays put back |
| BusBounds.RecoveryIsBounded | modules/shared/message_bus/rabbitmq/consumer.py:128-140 | over every run without crash, lost channel or replay, a fresh message runs each subscriber's body, raising runs included, at most (max(immediate,0)+1)*(max(delayed,0)+1) times per accepted publication, and is recovered at most max(delayed,0)+1 times per accepted publication |
| BusBounds.DeliveryIsMetered | modules/shared/message_bus/inbox/dispatcher.py:53-108 | the bodies a dispatch counts for each subscriber are exactly what its run on the bus spends of that bound |
| BusFinishes.RowIsPublished | modules/shared/message_bus/outbox/relay.py:34-72 | from every state of the books, whatever passes are open, a smooth run publishes and marks any committed row |
| BusFinishes.SettlesOne | modules/shared/message_bus/rabbitmq/consumer.py:60-87 | a delivery in any stage can be brought to its end without a further fault, and one in which only refusing handlers have failed records every handler that takes the message |
| BusFinishes.EveryMessageCanBeFinished | modules/shared/message_bus/rabbitmq/consumer.py:60-140 | from every reachable state, after any crashes, failures and losses elsewhere, a row not given up at an endpoint where it is due has a fault-free continuation after which every handler there that takes it has recorded it |
| BusFinishes.CaseCanBeOpened | modules/customs_clearance/src/features/open_clearance_case/open_clearance_case_message_handler.py:31-52 | from every reachable state, a finalized shipment whose announcement customs did not give up has a fault-free continuation that opens its clearance case |
| Topology.RouteStable | modules/shared/message_bus/rabbitmq/connection.py:94-102 | declaring further exchanges moves no existing route |
| Topology.TopicMatchesIff | modules/shared/message_bus/rabbitmq/connection.py:146-178 | a topic pattern takes a key if and only if the key's words can be shared out in order: any number for `#`, one for `*`, that very word otherwise |
| Topology.RoutesExactly | modules/shared/message_bus/rabbitmq/connection.py:94-102 | a message reaches a queue if and only if a binding of its exchange takes it by the exchange's type; an unknown type is a topic exchange |
| Topology.ServedIffRouted | modules/shared/message_bus/rabbitmq/connection.py:146-178 | on a direct exchange a queue receives a target if and only if some worker of the fleet binds it there |
| Topology.RetryComesHomeIff | modules/shared/message_bus/rabbitmq/config.py:116-153 | however the four return-path settings are configured, on a direct return exchange an expired retry reaches exactly the queue that failed it if and only if some worker binds that queue to the return pair and no primary, return, retry or error binding takes the pair elsewhere |
| Topology.DerivedOrSpelledOut | modules/shared/message_bus/rabbitmq/config.py:116-153 | leaving the four return-path settings empty, or writing their derived values out, both give a return pair of the queue's own that the queue is bound to |
| Topology.RetryComesHome | modules/shared/message_bus/rabbitmq/connection.py:146-178 | for every fleet whose resolved return pairs follow the convention, derived or spelled out, the dead-letter pair and the endpoint descriptor each route to exactly the queue that failed the message |
| Topology.RetryKeyClashMisroutes | modules/shared/message_bus/rabbitmq/config.py:121-132 | a retry key spelled like another queue's return key receives that queue's expired retries as well |
| Topology.SharedReturnKeyReachesBoth | modules/shared/message_bus/rabbitmq/consumer.py:112-126 | two workers pointed at one return pair both receive its expired retries: the case the retry-endpoint header exists for |
| Topology.ConventionNeverIntrudes | modules/shared/message_bus/rabbitmq/config.py:116-153 | a `.delayed-retry` retry key, and an error key or direct primary key not ending in `.retry`, can never be another worker's return key |
| Connection.BrokerConnection.DeclareExchange | modules/shared/message_bus/rabbitmq/connection.py:94-102 | a name is declared once per connection and its later type argument is ignored; it is refused exactly when the broker has it with another type, and then nothing changes |
| Connection.BrokerConnection.DeclareExchanges | modules/shared/message_bus/rabbitmq/connection.py:125-144 | succeeds if and only if each exchange, where it is first asked for, is cached, free or of the type asked for |
| Connection.BrokerConnection.DeclareQueues | modules/shared/message_bus/rabbitmq/connection.py:146-181 | succeeds if and only if the primary and error queues are no retry queues and the retry queue is new or has this return pair and time to live; then all four bindings and the retry queue are there, and a refusal leaves what came before it |
| Connection.BrokerConnection.DeclareRetryQueue | modules/shared/message_bus/rabbitmq/connection.py:156-174 | succeeds if and only if the queue is new or has this return pair and time to live, and then is bound |
| Connection.BrokerConnection.DeclareConsumerTopology | modules/shared/message_bus/rabbitmq/connection.py:111-181 | succeeds if and only if exchanges and queues fit, then adds exactly this worker's topology, and disturbs no queue |
| Connection.BrokerConnection.Publish | modules/shared/message_bus/rabbitmq/connection.py:183-207 | raises before the broker sees the message if and only if its exchange must still be declared and exists with another type than topic; else the broker's answer is returned and the message lands on the routes the broker had before |
| Connection.BrokerConnection.ScheduleRetry | modules/shared/message_bus/rabbitmq/connection.py:209-243 | the copy sent to the retry target has one more redelivery and this endpoint's name, and the same content |
| Connection.BrokerConnection.DeadLetter | modules/shared/message_bus/rabbitmq/connection.py:245-281 | the copy sent to the error target carries the failures and the way back, and the same count and content |
| Declarations.InOrderIff | modules/shared/message_bus/rabbitmq/connection.py:94-144 | a series of declarations is refused nowhere if and only if the first ask for each name is cached, free or of its type |
| Declarations.DeclaresAsConfigured | modules/shared/message_bus/rabbitmq/config.py:116-153 | a worker adds exactly its four bindings, its retry queue with the resolved return pair and time to live, and its three queue names, each as configured or derived |
| Declarations.EmptyBrokerTakesIff | modules/shared/message_bus/rabbitmq/connection.py:111-181 | an empty broker takes a worker if and only if its retry queue is neither its primary nor its error queue |
| Declarations.DeclaringAgain | modules/shared/message_bus/rabbitmq/connection.py:111-181 | a worker that starts again on a new connection succeeds and changes nothing |
| Declarations.FleetDeclaresIff | modules/shared/message_bus/rabbitmq/connection.py:94-181 | a fleet can be declared on an empty broker, in any order, if and only if exchanges asked for twice have one type, no retry queue is anybody's primary or error queue, and a shared retry queue is declared alike |
| Declarations.FleetGrows | modules/shared/message_bus/rabbitmq/connection.py:111-181 | a worker that declares itself on a wired broker leaves it wired for the fleet and itself |
| Declarations.FleetIsWired | modules/shared/message_bus/rabbitmq/connection.py:111-181 | a broker that started empty is wired for a fleet after each worker declared in turn |
| Deployment.DeclaredIsWired | modules/shared/message_bus/rabbitmq/connection.py:111-181 | workers that declared in turn, the broker gaining one topology each, leave it wired for the fleet |
| Deployment.CompatibleFleetDeclares | modules/shared/message_bus/rabbitmq/connection.py:111-181 | every fleet whose workers get on with each other can in fact be declared in turn, so the guarantees for declared fleets are about real ones |
| Deployment.FleetIsDeployed | modules/shared/message_bus/rabbitmq/connection.py:111-181 | workers with their own queues give the bus the routing that keeps every message, whatever their exchange types |
| Deployment.RetryIsPointToPoint | modules/shared/message_bus/rabbitmq/connection.py:146-178 | with conventional names, derived or spelled out, a retry address reaches one retry queue only |
| Deployment.ErrorIsPointToPoint | modules/shared/message_bus/rabbitmq/connection.py:168-178 | with conventional names, derived or spelled out, an error address reaches one error queue only |
| Deployment.FleetIsPointToPoint | modules/shared/message_bus/rabbitmq/config.py:116-153 | with conventional names, derived or spelled out, every hop of the recovery path reaches one queue only |
| Deployment.DeclaredFleetIsSafe | modules/shared/message_bus/rabbitmq/consumer.py:60-140 | for any fleet whose workers declared in turn on an empty broker with conventional return pairs, and any run without a dropped recovery, no row is lost and no retry strays |
| Deployment.DeclaredFleetIsBounded | modules/shared/message_bus/inbox/dispatcher.py:86-108 | on such a fleet, while no worker dies and nothing is replayed, bodies (raising ones included) and recoveries of a fresh message are bounded per accepted publication |
| CopyPaths.AlongEveryPath | modules/shared/message_bus/rabbitmq/connection.py:209-289 | along any path of retries, parking, expiry and replay, id, type and body never change, the counter is the start plus the retries taken, and the retry endpoint names the last retrier |
| CopyPaths.AcceptedByItsRetrier | modules/shared/message_bus/rabbitmq/consumer.py:112-126 | an endpoint accepts a travelled copy if and only if it scheduled the last retry or nobody has retried it |
| CopyPaths.WayBackSurvives | modules/shared/message_bus/rabbitmq/connection.py:309-332 | a parked copy names the way back through every later retry, expiry and replay |
| CopyPaths.RetryHeaders | modules/shared/message_bus/rabbitmq/connection.py:209-243 | a rescheduled copy carries one redelivery more and this endpoint's name, and every other header as it came |
| CopyPaths.ParkedHeaders | modules/shared/message_bus/rabbitmq/connection.py:245-332 | a parked copy carries the failures, who failed it, its type and the resolved way back, and every other header as it came |
| Envelope.TextCountsReadAlike | modules/shared/message_bus/messages/envelope.py:44-50 | a counter that arrives as text reads like the number it spells, and text that spells none like no retry |
| Envelope.OddCountersReadAsNone | modules/shared/message_bus/messages/envelope.py:44-50 | a number is the counter itself; a missing or odd header counts as no retry |
| Recovery.RetryUsesOneUp | modules/shared/message_bus/rabbitmq/connection.py:217-218 | each retry uses up one of the delayed retries left, and the endpoint that scheduled it accepts it back |
| Recovery.RetriedAsConfigured | modules/shared/message_bus/inbox/dispatcher.py:47-108 | a handler whose first success would be attempt k is recorded and not reported if and only if k is at most max(immediate,0) |
| Recovery.BoundedRecovery | modules/shared/message_bus/rabbitmq/consumer.py:128-140 | one copy handed to its own endpoint again and again reaches the error queue after exactly one failed delivery more than it had delayed retries left (`BusBounds` bounds whole runs) |
| Recovery.BoundedBodies | modules/shared/message_bus/inbox/dispatcher.py:86-108 | along the life of that one copy no handler body runs more often than the immediate attempts times the deliveries left |
| Recovery.FreshCopyIsBounded | modules/shared/message_bus/inbox/dispatcher.py:47-108 | a fresh copy so handed around runs each body at most (max(immediate,0)+1)*(max(delayed,0)+1) times and, if parked, was parked at its (max(delayed,0)+1)-th failure exactly |
| Inbox.RunExactly | modules/shared/message_bus/inbox/dispatcher.py:78-108 | a handler's run succeeds exactly when some attempt returns, stores its write exactly when some attempt gets to store it, and runs no body when the work was done before |
| Inbox.InboxAfterDispatch | modules/shared/message_bus/inbox/dispatcher.py:53-76 | after a dispatch the inbox holds the old rows and exactly those subscribers one of whose attempts stored |
| Inbox.FailuresAfterDispatch | modules/shared/message_bus/inbox/dispatcher.py:64-76 | a subscriber is reported exactly when none of its attempts returns |
| Inbox.FailuresInOrder | modules/shared/message_bus/inbox/dispatcher.py:64-76 | failures are reported once each in subscription order, and no body runs more than immediate+1 times |
| Inbox.SiblingsAreIndependent | modules/shared/message_bus/inbox/dispatcher.py:64-76 | whatever happens to the other subscribers, one fails or succeeds, and is recorded or not, alike |
| Inbox.DispatchKeepsCoupling | modules/shared/message_bus/inbox/dispatcher.py:120-144 | a dispatch only adds inbox rows, each with its write, never one twice, and leaves the outbox alone |
| Inbox.CleanDispatchRecordsAll | modules/shared/message_bus/inbox/dispatcher.py:53-76 | a dispatch without failures has recorded every subscriber |
| Inbox.DispatchAmountsTo | modules/shared/message_bus/inbox/dispatcher.py:53-144 | a cancelled dispatch leaves the tables of a dispatch over the subscribers up to the cancelled one, whose last attempt stopped there; one not cancelled is the plain dispatch |
| Inbox.InboxAfterCut | modules/shared/message_bus/inbox/dispatcher.py:120-144 | with or without cancellation the inbox gains exactly the subscribers that got to store before it |
| Inbox.SharedNameSilences | modules/shared/message_bus/handlers/message_handler.py:50-54 | among any subscribers, once one is recorded or stores, a later one of the same name never runs a body and is unreported as soon as one look-up of its succeeds |
| Dispatcher.OpenClearanceCaseMessage | modules/customs_clearance/src/features/open_clearance_case/open_clearance_case_message_handler.py:39-52 | opens a case for the trimmed shipment exactly when it has 1 to 64 characters and the commodity code 1 to 16; a refused body leaves the session as it was |
| Dispatcher.InboxMessageDispatcher.Attempt | modules/shared/message_bus/inbox/dispatcher.py:110-144 | one attempt stores the write and its inbox row together, or neither, under any fault |
| Dispatcher.InboxMessageDispatcher.Run | modules/shared/message_bus/inbox/dispatcher.py:78-108 | the retry loop stops at the first attempt that returns, gives up after immediate+1, or is cut short by a cancellation |
| Dispatcher.InboxMessageDispatcher.Dispatch | modules/shared/message_bus/inbox/dispatcher.py:53-76 | the handler loop runs every subscriber and reports the failed ones, as the specification of a dispatch says, or stops where it is cancelled |
| Consumer.MessageConsumer.ShouldProcess | modules/shared/message_bus/rabbitmq/consumer.py:89-126 | a delivery is ours iff it has an id and a subscribed type and is no other endpoint's retry |
| Consumer.MessageConsumer.Recover | modules/shared/message_bus/rabbitmq/consumer.py:128-140 | a failed message goes to the error queue once its count reaches the delayed retries, else to the retry queue |
| Consumer.FateExactly | modules/shared/message_bus/rabbitmq/consumer.py:71-140 | an accepted delivery is completed, rescheduled, parked, escaped or cancelled exactly under these conditions, and recovery goes to the error pair once the count reaches the delayed retries, else to the retry pair |
| Consumer.MessageConsumer.Process | modules/shared/message_bus/rabbitmq/consumer.py:71-87 | tables, queues and fate after one accepted delivery are those of its dispatch and recovery, cancelled or not |
| Consumer.MessageConsumer.HandleDelivery | modules/shared/message_bus/rabbitmq/consumer.py:60-87 | a delivery is ignored, unreadable or dispatched; dispatched, it completes, is rescheduled, is parked, escapes or is cancelled as the dispatch and the recovery publication decide, and is acknowledged in every case but the unreadable one |
| Consumer.LeftOverIffUnrecorded | modules/shared/message_bus/inbox/dispatcher.py:120-144 | what the faults and the cancellation say is left over is exactly what the inbox lacks afterwards |
| Consumer.LostExactlyWhenRecoveryFails | modules/shared/message_bus/rabbitmq/consumer.py:80-87 | an accepted delivery is lost exactly when the dispatch was cancelled or the recovery publication never arrived, and some subscriber neither was recorded before nor got to store |
| Outbox.FindsOldestBatch | modules/shared/message_bus/outbox/repository.py:53-67 | a batch is the oldest unlocked pending rows in age order, as many as the limit allows |
| Outbox.OneMorePublished | modules/shared/message_bus/outbox/relay.py:47-66 | one more row offered adds one copy of that row where it is routed, iff the publication arrives |
| Outbox.PublishedExactly | modules/shared/message_bus/outbox/relay.py:47-66 | a queue gains exactly one copy for each offer that arrived there |
| Outbox.ConfirmedExactly | modules/shared/message_bus/outbox/relay.py:57-66 | the rows counted as dispatched are exactly those whose publication returned |
| Relay.OutboxMessageRepository.FindPending | modules/shared/message_bus/outbox/repository.py:53-67 | loads the batch's rows, each once, none marked |
| Relay.OutboxMessageRepository.Flush | modules/shared/message_bus/outbox/outbox_message.py:66-69 | writes back exactly the marks of the loaded rows |
| Relay.MarkedAreConfirmed | modules/shared/message_bus/outbox/relay.py:47-66 | the rows marked are exactly the rows the broker confirmed |
| Relay.OutboxMessageRelay.PublishRow | modules/shared/message_bus/outbox/relay.py:47-66 | a row is offered to the broker unless its exchange is refused, is marked iff its publication returned, and arrives iff the broker took it |
| Relay.OutboxMessageRelay.PublishBatch | modules/shared/message_bus/outbox/relay.py:47-66 | every row of the batch is offered once, in order, with the broker's own answer unless its exchange is refused, and a failure stops no other row |
| Relay.OutboxMessageRelay.DispatchBatch | modules/shared/message_bus/outbox/relay.py:38-72 | one transaction publishes the batch, marks what was confirmed and commits once |
| Relay.OutboxMessageRelay.Dispatch | modules/shared/message_bus/outbox/relay.py:34-72 | a pass does nothing if and only if the primary exchange is refused; else it takes the oldest free rows, each is answered by the broker or refused for its exchange, and queues and outbox are left as those answers say |
| Relay.GoodPassSendsAll | modules/shared/message_bus/outbox/relay.py:34-72 | a pass the broker accepts and whose commit stores marks every row taken, returns their number, and puts one copy per row on each of its routes |
| Refinement.AttemptRuns | modules/shared/message_bus/inbox/dispatcher.py:110-144 | one attempt under any fault is a run of the machine ending in the attempt's tables; only a commit is excluded while another transaction holds the same inbox key |
| Refinement.HandlerRuns | modules/shared/message_bus/inbox/dispatcher.py:78-108 | a handler's immediate retries, cut short or not, are a run of the machine ending in the run's tables, with as many body runs |
| Refinement.DispatchRuns | modules/shared/message_bus/inbox/dispatcher.py:53-76 | a whole dispatch is a run of the machine that runs each subscriber's body as often as the dispatch reports and then owes a recovery for exactly the failed subscribers; a cancelled one is given up |
| Refinement.DeliveryRuns | modules/shared/message_bus/rabbitmq/consumer.py:60-87 | handling a delivery from receipt to acknowledgement, whatever fails and whether cancelled or not, is a run of the machine, ending in the tables, queues and losses the consumer's contract gives and running the bodies it counts |
| Refinement.RunsOnTheBus | modules/shared/message_bus/rabbitmq/consumer.py:60-87 | a delivery's run is a run of the whole bus |
| Refinement.PassRuns | modules/shared/message_bus/outbox/relay.py:34-72 | an outbox pass with any results and any commit is a run of the machine, ending in the state its contract gives |
| Refinement.RequestIsBooked | modules/shipment/src/features/finalize_manifest/finalize_manifest_handler.py:30-55 | a finalizing request that commits is the machine's booking step, and one that does not books nothing |
| EndToEnd.BookKeepsAnnouncing | modules/shipment/src/features/finalize_manifest/finalize_manifest_handler.py:44-53 | in every step of the books a shipment has left Draft iff the outbox announces it, once |
| EndToEnd.AnnouncedBodyOpens | modules/customs_clearance/src/features/open_clearance_case/open_clearance_case_message_handler.py:31-52 | the body a finalized shipment announces always passes the opening handler's validation and opens a case for that shipment |
| EndToEnd.EveryShipmentCanBeAnnounced | modules/shipment/src/features/finalize_manifest/finalize_manifest_handler.py:30-55 | every shipment with a UUID can be created and finalized with any positive weight, non-negative volume and code of 1 to 16 characters, and the handler accepts what is announced |
| EndToEnd.WorkStaysSourced | modules/customs_clearance/src/features/open_clearance_case/open_clearance_case_message_handler.py:39-52 | every copy and every committed effect stems from a committed outbox row |
| EndToEnd.AtMostOneCase | modules/customs_clearance/src/features/open_clearance_case/open_clearance_case_message_handler.py:39-46 | over every run a shipment has at most one clearance case, and only if it left Draft by finalizing |
| EndToEnd.CaseIffRecorded | modules/shared/message_bus/inbox/dispatcher.py:120-144 | the case exists exactly when the inbox holds the shipment's message for the opening handler |
| EndToEnd.FinalizedShipmentGetsItsCase | modules/shipment/src/domain/shipment.py:105-123 | over every run without a dropped recovery, a finalized shipment's announcement has a body that opens its case, and it is pending or on its way to customs, or the case is open |
| Handlers.SubscribedExactly | modules/shared/message_bus/handlers/message_handler.py:50-70 | however often classes are registered, each type lists exactly its handlers, each once, and only types with one |
| Handlers.RegistrationOrder | modules/shared/message_bus/handlers/message_handler.py:50-66 | handlers of a type run in the order in which they were first registered |
| Handlers.OpensExactly | modules/customs_clearance/src/features/open_clearance_case/open_clearance_case_command.py:15-29 | the opening handler takes exactly a body with a shipment of 1 to 64 characters and a code of 1 to 16, and opens that shipment's case |
| Handlers.MessageHandlerRegistry.Register | modules/shared/message_bus/handlers/message_handler.py:50-54 | registering appends a class that is new for its type and changes no other type |
| Handlers.MessageHandlerRegistry.RegisterAll | modules/shared/message_bus/handlers/message_handler.py:56-59 | registers each class in turn, as registering one by one does |
| Shipments.Shipment.FinalizeManifest | modules/shipment/src/domain/shipment.py:90-123 | finalizing succeeds exactly on a draft with positive weight and returns the event; refused, it changes nothing |
| ShipmentRules.FinalizedForGood | modules/shipment/src/domain/shipment.py:105-123 | a finalized shipment is ready with the declared cargo, and no second attempt can change either |
| ShipmentRules.MakesExactly | modules/shipment/src/domain/value_objects/cargo_manifest.py:10-60 | a manifest is made exactly of a non-negative weight and volume and a code of 1 to 16 characters, upper-cased |
| ShipmentRules.FinalizesExactly | modules/shipment/src/domain/shipment.py:90-123 | finalizing succeeds exactly on a draft with a positive weight, each refusal names its reason, and the event names shipment, waybill and commodity |
| CaseRules.EveryHistory | modules/customs_clearance/src/domain/clearance_case.py:58-162 | over every history of calls, refused ones included: Opened iff no documents, RiskAssessment iff every required kind is cleared, announced then and once, files distinct, cleared iff signed off |
| CaseRules.SignOffsLast | modules/customs_clearance/src/domain/entities/document_registry_item.py:62-76 | no document disappears and no sign-off is ever overwritten |
| CaseRules.DecidedIsFinal | modules/customs_clearance/src/domain/clearance_case.py:86-136 | no call of any history changes a released or rejected case or announces it |
| CaseRules.CallKeepsLifecycle | modules/customs_clearance/src/domain/clearance_case.py:86-162 | each attach or verify call keeps the lifecycle rules |
| CaseRules.OpensExactly | modules/customs_clearance/src/domain/clearance_case.py:58-70 | any non-blank reference opens a case for the trimmed shipment |
| CaseRules.AttachesExactly | modules/customs_clearance/src/domain/clearance_case.py:72-106 | a new file on an undecided case is accepted, each refusal has its condition, and the new document has the type and file given |
| CaseRules.VerifiesExactly | modules/customs_clearance/src/domain/clearance_case.py:108-153 | each refusal of a sign-off has its condition, in order, and nothing else is refused |
| CaseRules.SignOffNamesTheInspector | modules/customs_clearance/src/domain/entities/document_registry_item.py:62-92 | an accepted sign-off clears that document and no other, names the trimmed inspector given, and announces exactly when both kinds are now cleared |
| CaseRules.SignOffOutcome | modules/customs_clearance/src/domain/clearance_case.py:125-162 | a set of pending sign-offs has one outcome, stated without its order: who signed what, the status, and one announcement iff it completes the paperwork |
| CaseRules.OrderDoesNotMatter | modules/customs_clearance/src/domain/clearance_case.py:137-162 | any permutation of the same sign-offs ends in the same documents, status and number of announcements |
| ClearanceCases.DocumentRegistryItem.Verify | modules/customs_clearance/src/domain/entities/document_registry_item.py:62-92 | clears an uncleared document and records the trimmed inspector given, of 1 to 128 characters; otherwise nothing changes |
| ClearanceCases.ClearanceCase.OpenForShipment | modules/customs_clearance/src/domain/clearance_case.py:58-70 | a case is opened for any non-blank shipment reference |
| ClearanceCases.ClearanceCase.FindDocument | modules/customs_clearance/src/domain/clearance_case.py:168-173 | the search loop finds the first document with the identifier |
| ClearanceCases.ClearanceCase.AttachDocument | modules/customs_clearance/src/domain/clearance_case.py:72-106 | agrees with the rule on values: the first document starts verification, and a refused call changes nothing |
| ClearanceCases.ClearanceCase.VerifyDocument | modules/customs_clearance/src/domain/clearance_case.py:108-153 | agrees with the rule on values, announcing completion exactly when it says so |
| ClearanceCases.ClearanceCase.Load | modules/customs_clearance/src/infrastructure/repositories/postgres_clearance_case_repository.py:26-30 | a case rebuilt from its rows has the value that was stored |
| Ledgers.RequestStaysCoupled | modules/shared/database/session.py:53-60 | whatever fails in a request, state and announcement change together or not at all |
| Ledgers.SentStaysCoupled | modules/shared/message_bus/outbox/relay.py:66-69 | marking rows sent takes no announcement away |
| Ledgers.StateAndAnnouncementAgree | modules/shipment/src/features/finalize_manifest/finalize_manifest_handler.py:44-53 | in every committed state of every serial history, a shipment has left Draft iff exactly one manifest row names it, and a case is in RiskAssessment iff exactly one completion row names it |
| Ledgers.AnnouncementsTellTheTruth | modules/customs_clearance/src/features/verify_document/verify_document_handler.py:56-64 | after every serial history each manifest row gives its shipment's waybill and cargo as they still are, and each completion row its case's shipment |
| Ledgers.CreatesExactly | modules/shipment/src/features/create_draft_shipment/create_draft_shipment_handler.py:28-38 | exactly when a draft is created, and the ledger it leaves |
| Ledgers.FinalizesOn | modules/shipment/src/features/finalize_manifest/finalize_manifest_handler.py:30-55 | exactly when a request finalizes, and then the shipment and the one new row, field by field |
| Ledgers.OpensOn | modules/customs_clearance/src/features/open_clearance_case/open_clearance_case_handler.py:21-29 | exactly when a case is opened, and the ledger it leaves |
| Ledgers.AttachesOn | modules/customs_clearance/src/features/attach_document/attach_document_handler.py:26-51 | exactly when a document is filed, and the ledger it leaves |
| Ledgers.VerifiesOn | modules/customs_clearance/src/features/verify_document/verify_document_handler.py:41-80 | exactly when a sign-off is recorded, and then the case and, if it completes the paperwork, the one new row |
| Requests.RequestHandlers.FinalizeManifest | modules/shipment/src/features/finalize_manifest/finalize_manifest_handler.py:30-55 | the updated shipment and its row are written through one session, or the handler raises |
| Requests.RequestHandlers.AttachDocument | modules/customs_clearance/src/features/attach_document/attach_document_handler.py:26-51 | the filed document and the new status are stored as one |
| Requests.RequestHandlers.VerifyDocument | modules/customs_clearance/src/features/verify_document/verify_document_handler.py:41-80 | the signed-off case and, when it is complete, its row are written through one session |
| Requests.Serve | modules/shared/database/session.py:47-60 | a request leaves its session's tables or the old ones, and tells its caller of success only when it committed |
| StorageLocations.AcceptedPath | modules/files/src/domain/value_objects/storage_location.py:44-66 | an accepted path is its plain segments joined, without backslashes |
| StorageLocations.KeySegmentsArePlain | modules/files/src/domain/value_objects/storage_location.py:107-110 | an accepted key splits into its directories and its name, none empty, `.` or `..` |
| StorageLocations.KeyIsInjective | modules/files/src/domain/value_objects/storage_location.py:54-110 | different accepted locations have different keys |
| StorageLocations.SameRowIffSameObject | modules/files/src/infrastructure/database/entities/file_table.py:50-53 | uniqueness of disk, path and name is uniqueness of disk and object |
| StorageLocations.NeverLeavesTheRoot | modules/files/src/infrastructure/storage/fsspec_file_storage.py:172-176 | resolving an accepted key segment by segment stands below the root at every step |
| StorageLocations.NormalizesTo | modules/files/src/domain/value_objects/storage_location.py:44-66 | every trimmed path is refused for a NUL byte, `~`, a drive, `.` or `..`, or more than 512 characters, in this order, and else is its non-empty segments joined |
| StorageLocations.KeepsTheOrder | modules/files/src/domain/value_objects/storage_location.py:57-66 | the segments kept are the non-empty ones, in their order and each as often as it occurs |
| StorageLocations.EmptyPiecesDoNotCount | modules/files/src/domain/value_objects/storage_location.py:26-27 | a slash too many in front, behind or between changes no segment |
| StorageLocations.SlashesDoNotMatter | modules/files/src/domain/value_objects/storage_location.py:26-27 | two spellings of the same directories are the same path, unless one is refused for how it begins |
| StorageLocations.BackslashesAreSlashes | modules/files/src/domain/value_objects/storage_location.py:54-66 | a backslash is a slash, and space around a path is nothing |
| StorageLocations.NameExactly | modules/files/src/domain/value_objects/storage_location.py:68-90 | exactly which names are accepted, each as sent, space around it aside |
| StorageLocations.KeyIsWhatWasAsked | modules/files/src/domain/value_objects/storage_location.py:107-110 | an accepted key is the directories asked for, in order, and the name |
| StorageLocations.NormalizesAgainIff | modules/files/src/domain/value_objects/storage_location.py:38-66 | normalizing an accepted location again returns it exactly when the path has no space at an end and does not start like a home directory or a drive |
| StorageLocations.ReadBackKeepsTheKeyIff | modules/files/src/infrastructure/database/entities/__init__.py:53-55 | a row read back leads to its own object exactly under that condition |
| StorageLocations.SecondPassChangesThePath | modules/files/src/domain/value_objects/storage_location.py:51-66 | `/ a` is accepted as a path a second pass changes |
| StorageLocations.SecondPassRefusesThePath | modules/files/src/domain/value_objects/storage_location.py:51-105 | `/~k` is accepted as a path a second pass refuses |
| StoredFiles.RelatesEachOnce | modules/files/src/domain/stored_file.py:72-91 | relating any references keeps one per thing, loses no thing declared and adds none |
| StoredFiles.KeysOfOneEntityAgree | modules/files/src/domain/entities/file_reference.py:82-143 | a key sent as a number, as text or with space around it declares the same thing, and blank text declares none |
| StoredFiles.DeclaresExactly | modules/files/src/domain/entities/file_reference.py:30-143 | a reference is made exactly of a context and a type of 1 to 128 characters and a key of at most 128, and names them as sent |
| StoredFiles.FoundIffReferenced | modules/files/src/infrastructure/repositories/postgres_stored_file_repository.py:52-73 | the query finds a file, once, exactly when the file says it is referenced by that thing |
| StoredFiles.PreciseQuestionsMatchOnce | modules/files/src/infrastructure/database/entities/file_table.py:82-93 | a question naming an identifier matches each file's references at most once |
| StoredFiles.StoredFile.Register | modules/files/src/domain/stored_file.py:48-75 | a file is registered with its facts checked and its references de-duplicated, or refused |
| StoredFiles.RegistersExactly | modules/files/src/domain/stored_file.py:48-75 | exactly when a file is registered, and each fact it then carries |
| StoredFiles.StoredFile.RelateTo | modules/files/src/domain/stored_file.py:77-91 | declaring the same context, type and key again changes nothing; a new one is appended |
| StoredFiles.StoredFile.IsReferencedBy | modules/files/src/domain/stored_file.py:93-110 | answers whether some reference is about that thing, the identifier being optional |
| FileStorages.FileStorage.Put | modules/files/src/infrastructure/storage/fsspec_file_storage.py:58-88 | size, digest and stored bytes are those of the concatenated chunks however they were cut; a total over the ceiling is refused and writes nothing |
| FileStorages.PutsExactly | modules/files/src/infrastructure/storage/fsspec_file_storage.py:58-88 | each refusal has its condition, in order; accepted, size, digest and stored bytes are those given and every other object stays |
| FileStorages.ReadInChunks | modules/files/src/features/upload_file/upload_file_controller.py:107-110 | the chunks are bounded, none empty, and together the upload |
| FileStorages.PrefixIsShorter | modules/files/src/infrastructure/storage/fsspec_file_storage.py:71-77 | refusing at the first chunk over the ceiling is refusing on the total |
| Uploads.NothingIsOverwritten | modules/files/src/features/upload_file/upload_file_handler.py:51-95 | no upload, whatever fails in it, overwrites or deletes an object that was there before |
| Uploads.AdmitsExactly | modules/files/src/features/upload_file/upload_file_handler.py:37-57 | each refusal before the write has its condition and leaves everything as it was |
| Uploads.UploadsExactly | modules/files/src/features/upload_file/upload_file_handler.py:37-95 | exactly when an upload succeeds, and the row and object it then leaves |
| Uploads.DeclaresAllExactly | modules/files/src/features/upload_file/upload_file_handler.py:60-76 | references are declared one by one in order, and one that cannot be refuses all |
| Uploads.UploadTouchesOnlyItsKey | modules/files/src/features/upload_file/upload_file_handler.py:51-95 | an upload touches its own object only, and only when nothing was there |
| Uploads.UploadStaysConsistent | modules/files/src/features/upload_file/upload_file_handler.py:51-95 | one upload with any step failing keeps every row backed by its object and every object at one row |
| Uploads.RowsAlwaysPointAtTheirObjects | modules/files/src/features/upload_file/upload_file_handler.py:51-95 | after every serial history every row points at an existing object whose size and digest it records, and no two rows share one |
| Uploads.LeavesAnOrphanIff | modules/files/src/features/upload_file/upload_file_handler.py:54-93 | exactly when an upload leaves bytes no row points at |
| Uploads.EmptyUploadBlocksItsKey | modules/files/src/features/upload_file/upload_file_handler.py:54-77 | an empty upload fails, leaves its object and makes every later upload to that key a conflict |
| UploadHandler.StoredFileRepository.Persist | modules/files/src/infrastructure/repositories/postgres_stored_file_repository.py:27-44 | the unique location decides a collision; any other failure is told apart from it |
| UploadHandler.UploadFileHandler.Insert | modules/files/src/features/upload_file/upload_file_handler.py:79-93 | a failed insert takes the object out again, except after a lost race for the key; a compensation that raises replaces the error it was for |
| UploadHandler.UploadFileHandler.Handle | modules/files/src/features/upload_file/upload_file_handler.py:37-95 | the handler's steps leave disks and session as specified, on every path |
| UploadHandler.ServeUpload | modules/shared/database/session.py:47-60 | the row commits with the request; what happened on the disks stays |
| Monies.SumsAreExact | modules/customs_clearance/src/domain/value_objects/money.py:101-109 | sums and differences are exact in cents, and a negative difference is refused |
| Monies.MakesExactly | modules/customs_clearance/src/domain/value_objects/money.py:36-77 | money is made exactly of a non-negative amount and a three-letter currency, upper-cased, and is within half a cent, ties going up |
| Monies.SubtractIffCovers | modules/customs_clearance/src/domain/value_objects/money.py:101-114 | subtracting succeeds iff the amount covers the other, undoes adding, and currencies never mix |
| Monies.MakingAgainChangesNothing | modules/customs_clearance/src/domain/value_objects/money.py:36-77 | money made again from its own amount is the same money |
| Monies.PercentageIsNearest | modules/customs_clearance/src/domain/value_objects/money.py:116-121 | a share is refused exactly when negative, and otherwise within half a cent of the true value, ties going up |
| Monies.PercentageIsMonotone | modules/customs_clearance/src/domain/value_objects/money.py:116-121 | a larger percentage of a larger amount is never a smaller share |
| Monies.SharesAddUp | modules/customs_clearance/src/domain/value_objects/money.py:116-121 | the shares p and 100-p add up to the amount, or to one cent more exactly on a half-cent tie |
| Waybills.PrintsIff | modules/shipment/src/domain/value_objects/waybill_number.py:18-34 | a serial prints as a well-formed number iff it is in 0..9,999,999, and the number gives it back |
| Waybills.ReadsBack | modules/shipment/src/domain/value_objects/waybill_number.py:18-34 | every well-formed number is the printed form of its serial |
| Waybills.ReadsExactly | modules/shipment/src/domain/value_objects/waybill_number.py:18-34 | a value reads as a number exactly when, trimmed and upper-cased, it is `MUST-` and seven digits |
| Waybills.WaybillNumberGenerator.Next | modules/shipment/src/infrastructure/database/postgres_waybill_number_generator.py:26-31 | a draw issues the printed form of the next serial |
| Waybills.IssuedAreDistinct | modules/shipment/src/infrastructure/database/postgres_waybill_number_generator.py:26-31 | every run of draws issues well-formed, pairwise distinct numbers until exactly 9,999,999 were issued |

## Left out

- Broker, database, storage and web frameworks: replaced by steps that succeed, fail, or succeed and report failure.
- Controllers, hypermedia links, problem details, OpenAPI and AsyncAPI documents, settings and the command line: no rules of their own.
- Concurrent requests on one shipment, case or storage key: the code takes no lock there, so the claims about them are for serial histories.
- Prefetch and task scheduling inside one consumer: deliveries are independent tasks that interleave freely, which allows every order.
- `Shipments.Shipment.Create`, `Requests.RequestHandlers.CreateDraftShipment`: the ports of the route and the drawing of the waybill number from the sequence are not part of them.
- `StoredFiles.StoredFile.Register`: takes no metadata.
- `BusBounds.RecoveryIsBounded`: runs with crashes, lost channels or replays are bounded by `BusBounds.MovesArePaidFor` instead; the routing it asks for is what `Deployment.DeclaredFleetIsClosed` derives, and a message addressed to the retry queue itself is not covered.
- `BusFinishes.EveryMessageCanBeFinished`: a finishing run exists; that every fair schedule finishes is not stated, since nothing is scheduled here. The run may replay a parked copy, which is an operator's step.
- Time: expiry may happen at any moment, `sent_at`, `created_at` and the retry delay are not modelled, and rows are kept in `created_at` order.
- Randomness: message, case and file identifiers are parameters; a repeated one is refused by the unique constraint.
- Weights and volumes are real numbers: NaN, infinities and binary rounding are not modelled.
- Text: white space is space, tab and line ends, case mapping is ASCII, digits are ASCII, and `int()` of a header accepts no underscores.
- Header values other than null, numbers, text, failures and descriptors (a boolean or fractional redelivery counter) are not modelled.
- Message bodies are maps from field to text; decoding malformed JSON to an empty or wrapped body is not modelled.
- `ShipmentRoute` and `assign_route`: the route is independent of everything proved here.
- `ClearanceCases.ClearanceCase.OpenForShipment`: takes a textual reference; a value that is no string is not modelled.
- Declared value and duty of a case, and the slices without code (risk assessment, duty payment, hold, release, flag): nothing acts on them.
- `BusHome.RetriesStayHome`: needs addresses that reach one queue each, which `Deployment.FleetIsPointToPoint` derives from conventional return pairs; workers that share a return key are `Topology.SharedReturnKeyReachesBoth`.
- File metadata: an opaque JSON object the code only passes on.
- Directories: an object stored at a prefix of another key, and backends that fold case, are not modelled.
- `Monies.PercentageIsNearest`: products are exact; the 28-digit context of the source's decimals does not round for stored amounts (14 digits) and percentages of up to 14 digits.
- Money read from text, and amounts that are not finite: the constructor takes an exact real.
