# QueueBuzz protocols: a verified model

QueueBuzz runs live queues. Three of its parts are state machines whose promises span many calls, and this project
models those parts and proves the promises for all inputs and all runs:

* **Event delivery** (`Subscriber.dfy`, `Broker.dfy`, `Delivery.dfy`, `Publication.dfy`, `EventStream.dfy`): the bounded buffer, the
  latest-wins map and the signal of a subscriber; the topic registry; their interleaving with any number of publishers,
  unsubscribes, shutdowns and stream writers, one lock, map or channel operation per step; and the text of the stream
  as a client parses it by sections 9.2.5 and 9.2.6 of the WHATWG HTML Standard.
* **The queue engine** (`SortedSet.dfy`, `QueueEngine.dfy`, `Tickets.dfy`, `RedisLock.dfy`, `StrictCalling.dfy`,
  `Timeline.dfy`): entries in MongoDB with their sorted-set index in Redis, ticket numbers and the loss of their counter,
  calling the next guest, strict mode under a leased lock with every storage call a step, and the history timeline.
* **Accounts** (`Billing.dfy`, `Accounts.dfy`, `PlanAccess.dfy`, `Webhooks.dfy`, `Quota.dfy`, `Recovery.dfy`): billing events, the plan
  cache, webhook idempotency and the ledger, the monthly quota under concurrent creations and deletions, and
  session-recovery tokens.

`Text.dfy` holds decimal printing and the byte-wise string order.

## How the model is put together

Code that updates its objects is a class (`Subscriber`, `Broker`, `TicketDesk`, `QueueService`, `Lock`, `BillingService`,
`WebhookHandler`, `RecoveryService`) or a method with the source's loop; each method's contract equates the new state, or
the answer, with a specification function of the old state. The results are lemmas about those functions: over all runs
of whole operations, or over all interleavings of single storage calls, whose states have a `Next` function and an
`Enabled` predicate per step. Answers that the stores choose (the order of ties in a database listing, which free id was
drawn, the clock) are parameters or step arguments constrained only by what the store guarantees. Storage calls succeed.

Reading order for the main results: `Delivery.LatestWins`, `Delivery.NeverSendsOnClosed`,
`Publication.PublicationReachesItsTopic`, `EventStream.RoundTripExact`,
`QueueEngine.OneNotionOfPosition`, `QueueEngine.RehydrationRestoresIndex`, `QueueEngine.BoundedBypass`,
`Tickets.TicketsSurviveCounterLoss`, `StrictCalling.StrictModeHolds`, `Timeline.TimelineIsOptimal`,
`PlanAccess.CancelledStaysCancelled`, `PlanAccess.CacheAgreesWithLookup`, `Webhooks.LedgerMatchesPayments`,
`Quota.QuotaHolds`, `Recovery.RoundTripExact`.

## Where the code does less than it seems to promise

Each point is proved: where the promise depends on the state or the input, as an if and only if; where it rests on an
assumption about time or interleaving, as a theorem under that assumption beside a run that shows it is needed.

* Ticket numbers: the counter is rebuilt from the string-greatest ticket with a width-4 scan, so the rebuild is exact if
  and only if no stored number exceeds 9999 (`Tickets.RebuildExact`); beyond that a ticket is handed out twice
  (`Tickets.DuplicateTicketBeyondFourDigits`).
* The index rebuild looks for WAITING, CALLED and ARRIVED entries only. An IDLE guest drops out of the index and stays
  out when the grace timer returns it to WAITING (`QueueEngine.IdleGuestLeavesIndex`). A join after the index is lost
  and before it is rebuilt makes the index non-empty, so the older guests are passed over
  (`QueueEngine.JoinAfterLossHidesOthers`). A call passes over nobody older if and only if every waiting guest outside
  the scanned index has one inside created no later (`QueueEngine.FairCallExact`).
* With k waiting entries ahead, the (k + 1)-th call need not reach an entry: a newcomer of the same millisecond with a
  smaller id goes first (`QueueEngine.TiedNewcomerBypasses`, `QueueEngine.NewcomerFirstExact`). The bound therefore
  counts joins placed ahead (`QueueEngine.BoundedBypassIndexed`); in runs with index losses, where a rebuild lists ties
  in any order, it counts all entries and joins created no later (`QueueEngine.BoundedBypass`).
* Strict mode is checked only while the queue lookup finds the queue running and unexpired (`StrictCalling.LoneCallExact`),
  and the lock's three-second lease is shorter than the timeouts of the calls made under it; a lease that lapses lets two
  entries be CALLED (`StrictCalling.LapsedLeaseBreaksStrictMode`).
* A client strips one leading space of an event name or payload, and reads an empty event name as "message"; the round
  trip is exact if and only if neither occurs (`EventStream.RoundTripExact`).
* A cached plan is answered after the subscription it came from has ended in grace; the answer is right if and only if
  no such plan is alive (`PlanAccess.CacheAgreesWithLookup`, `PlanAccess.StaleAfterGrace`), and wrong for less than an hour
  after the deadline (`PlanAccess.StaleUnderAnHour`). A cached answer also lacks the product ids and trial terms.
* A transaction or record whose eight-digit id is already taken is lost unnoticed, and the ledger then no longer matches
  (`Webhooks.MatchExact`).
* A webhook redelivered 72 hours or more after it was accepted is processed again (`Webhooks.RepeatExact`).
* A deletion reads the host's count and subtracts later: another deletion or a reset in between can take the count below
  zero (`Quota.InterleavedDeletionsGoNegative`, `Quota.ResetDuringDeletionGoesNegative`); no count is ever negative if and
  only if every such write finds what it owes (`Quota.NeverNegativeExact`). A creation that outlives its ten-second lease
  can overspend the quota (`Quota.LapsedLeaseOverspends`).
* A stateless recovery token whose ids hold a colon never verifies (`Recovery.RoundTripExact`); a stored one whose entry
  id holds a colon reads back different ids (`Recovery.ReadUndoesStore`).

## Model

| member | source | states |
|---|---|---|
| Subscribers.Subscriber.constructor | internal/sse/subscriber.go:38-44 | a new subscriber is open with empty buffer, map and signal |
| Subscribers.Subscriber.Send | internal/sse/subscriber.go:51-74 | on an open subscriber the three coalescing kinds, by name, replace the last frame of their type and leave the signal up; any other kind is appended to the buffer exactly when there is room; nothing else changes; only an ordered event on a closed subscriber panics |
| Subscribers.SentMeans | internal/sse/subscriber.go:51-74 | the same of the specification that publishing is stated with |
| Subscribers.Subscriber.DrainLatest | internal/sse/subscriber.go:79-94 | empties the map and returns the frame of every type in it exactly once |
| Subscribers.Subscriber.Close | internal/sse/subscriber.go:108-118 | closes and loses nothing buffered; closing again changes nothing |
| Brokers.SwapRemoveKeepsOthers | internal/sse/broker.go:76-104 | overwriting with the last and shortening removes one occurrence and keeps all others, for every list |
| Brokers.SwapRemoveFromDistinct | internal/sse/broker.go:76-104 | in a duplicate-free list exactly the one member is gone and no duplicate appears |
| Brokers.RemovedKeepsOthers | internal/sse/broker.go:76-104 | removal takes out one membership of one topic, leaves other topics alone, and no empty list stays behind |
| Brokers.RemovedListedOnce | internal/sse/broker.go:76-104 | a registry in which nobody is listed under two topics stays one |
| Brokers.Broker.Subscribe | internal/sse/broker.go:66-74 | appends a fresh open subscriber, with the smaller buffer under overload, and keeps the registry invariant |
| Brokers.Broker.Unsubscribe | internal/sse/broker.go:76-104 | a listed subscriber is removed and closed, an unlisted one left untouched; the registry invariant is kept |
| Brokers.Broker.Shutdown | internal/sse/broker.go:107-122 | the first shutdown closes everybody listed and empties the registry, a second one changes nothing |
| Brokers.Broker.PublishLocal | internal/sse/broker.go:144-159 | every subscriber of the topic is sent the built frame under the extracted event type, nobody anything for an empty payload, and no send can panic |
| Delivery.StepKeepsDisciplined | internal/sse/broker.go:66-159 | every atomic step of every operation keeps lock ownership, tidy topics, open members and no panic |
| Delivery.StepKeepsStreams | internal/sse/subscriber.go:51-94 | every atomic step keeps, for every subscriber, conservation of ordered frames, latest-wins bookkeeping and the announcement of undrained frames |
| Delivery.RunKeepsSound | internal/sse/broker.go:66-159 | both invariants hold after every run of any number of goroutines |
| Delivery.NeverSendsOnClosed | internal/sse/subscriber.go:65-73 | no interleaving sends on a closed channel although the ordered path does not check |
| Delivery.RegistryTidy | internal/sse/broker.go:66-122 | in every reachable state outside a shutdown's loop, registered subscribers are open and registered exactly once, and no topic has an empty list |
| Delivery.PublishersSeeOpenSubscribers | internal/sse/broker.go:144-159 | while a publisher holds the read lock nobody holds the write lock and all it still has to send to are open |
| Delivery.LatestWins | internal/sse/broker.go:286-300 | no wake-up is lost in any interleaving, and once nothing is pending the last frame drained of each type is the last one sent |
| Delivery.OrderedConservation | internal/sse/broker.go:302-311 | delivered followed by buffered frames are the accepted ones in order, the buffer never exceeds its capacity, and a frame is dropped exactly when the buffer is full |
| Publication.UndisturbedSend | internal/sse/subscriber.go:51-74 | with nothing in between, the atomic steps of one send leave the subscriber as the whole send does |
| Publication.UndisturbedWake | internal/sse/broker.go:287-300 | a wake-up and its drain take the signal, empty the map and write out all of it |
| Publication.DrainKeepsSignal | internal/sse/subscriber.go:79-94 | a drain leaves a signal raised since the wake-up where it is |
| Publication.SubscribeEnters | internal/sse/broker.go:66-74 | a subscriber enters open, empty and last on its list, with a buffer of 16, or of 4 under overload |
| Publication.UndisturbedUnsubscribe | internal/sse/broker.go:76-104 | the steps of an unsubscribe take the subscriber off its list, close it and unlock |
| Publication.StepUnderway | internal/sse/broker.go:144-159 | every step of anybody keeps: what a publication has done so far is a whole send for the targets behind it and nothing for the others |
| Publication.PublicationReachesItsTopic | internal/sse/broker.go:144-159 | over every interleaving, each subscriber listed when a publication begins is sent the frame whole and exactly once before it ends (a store then its signal, or an offer), and nobody else anything by it |
| Publication.OpenExactlyWhenListed | internal/sse/broker.go:66-122 | over every run, when no goroutine holds the write lock, the open subscribers are exactly the listed ones |
| Publication.ShutdownClosesAll | internal/sse/broker.go:107-122 | when a shutdown is about to end, every subscriber ever entered is closed |
| Publication.WakesArePaid | internal/sse/broker.go:287-300 | over every run a writer wakes for coalescing frames at most as often as publishers signalled |
| EventStream.BuildFrame | internal/sse/broker.go:211-233 | fails exactly on an empty payload; otherwise the frame has the event line, the data line and the blank line |
| EventStream.StreamReadsBack | internal/sse/broker.go:313-319 | any sequence of frames and keepalive comments, parsed by the standard's rules, gives one message per frame in order |
| EventStream.RoundTripExact | internal/sse/broker.go:211-233 | the messages are exactly the published pairs if and only if every event name is non-empty and no name or payload starts with a space |
| EventStream.RoutedTypeIsSeenType | internal/sse/broker.go:211-242 | the type that chooses the delivery path is the type the client sees, exactly when the decoded name has no leading space and, if a decoding error followed it, reads as "message" anyway |
| SortedSets.RankIsPlace | internal/modules/queue/repository/redis.go:268-277 | a member's rank is its place in the full range |
| SortedSets.RangeLength | internal/modules/queue/repository/redis.go:297-302 | the range holds every member once |
| SortedSets.RangeExists | internal/modules/queue/repository/redis.go:297-302 | every sorted set has such a range |
| QueueEngine.QueueService.CreateEntry | internal/modules/queue/service/service.go:472-558 | inserts a WAITING entry and, unless positions are manual, indexes it with its creation time |
| QueueEngine.QueueService.UpdateEntryStatus | internal/modules/queue/service/service.go:631-637 | writes one entry's status whatever it was before |
| QueueEngine.QueueService.RehydrateQueue | internal/modules/queue/service/service.go:1363-1394 | adds every WAITING, CALLED or ARRIVED entry with its creation time to the index and answers them in order |
| QueueEngine.QueueService.CallNextUser | internal/modules/queue/service/service.go:639-687 | rebuilds an empty index, then calls the first WAITING entry of the order worked through, or nobody |
| QueueEngine.QueueService.GetPosition | internal/modules/queue/service/service.go:768-785 | answers the rank, after one rebuild if the whole index is missing, or minus one |
| QueueEngine.QueueService.FinishUserSession | internal/modules/queue/service/service.go:701-738 | sets the final status and removes the entry from the index |
| QueueEngine.QueueService.TerminateQueue | internal/modules/queue/service/service.go:349-412 | every unfinished entry becomes SKIPPED and a visible queue's index is dropped |
| QueueEngine.StepKeepsConsistent | internal/modules/queue/service/expiry.go:70-353 | every service or timer step keeps each indexed member an entry scored with its own creation time |
| QueueEngine.StepStatus | internal/modules/queue/service/expiry.go:70-353 | which status each step leaves each entry with, and that creation times never change |
| QueueEngine.OnlyJoinsAppear | internal/modules/queue/service/service.go:472-558 | an entry appears only by a join, WAITING and created then |
| QueueEngine.StepIndex | internal/modules/queue/service/service.go:349-412 | who is in the index after each step; a rebuild brings in exactly the WAITING, CALLED and ARRIVED entries |
| QueueEngine.StepSentinel | internal/modules/queue/service/service.go:768-785 | a rebuild raises the sentinel, and only its expiry lowers it |
| QueueEngine.FinishMovesUp | internal/modules/queue/service/service.go:701-738 | a finish takes the entry off the index and lowers by one the rank of everybody behind it, of nobody else |
| QueueEngine.JoinTakesPlace | internal/modules/queue/service/service.go:537-548 | a join of an automatic queue raises by one the rank of those created later, or tied with a greater id, of nobody else; a manual join changes no rank |
| QueueEngine.OneNotionOfPosition | internal/modules/queue/service/expiry.go:209-246 | after every run the broadcast index, the rank plus one and one plus the number of earlier members agree and number the members one to n bijectively |
| QueueEngine.CallIsFifo | internal/modules/queue/service/service.go:639-687 | a call succeeds exactly when a scanned entry waits, changes that entry only, and nobody waiting was created earlier, on both the indexed and the rebuilt path |
| QueueEngine.OfferExists | internal/modules/queue/service/service.go:639-687 | the stores always have an answer to work through |
| QueueEngine.RebuildExact | internal/modules/queue/service/service.go:1363-1394 | after a loss the rebuild gives the old index restricted to live entries if and only if no live entry was missing from it |
| QueueEngine.RebuildAdds | internal/modules/queue/service/service.go:1363-1394 | a rebuild takes nobody out, and brings in the WAITING, CALLED and ARRIVED entries at their creation times |
| QueueEngine.RebuildIdempotent | internal/modules/queue/service/service.go:1363-1394 | rebuilding twice changes nothing |
| QueueEngine.RestrictedRange | internal/modules/queue/service/service.go:1363-1394 | the restricted index keeps the members' relative order |
| QueueEngine.StepKeepsLiveCovered | internal/modules/queue/service/service.go:1363-1394 | every guarded step, a loss included, keeps: the index is lost or holds every WAITING, CALLED and ARRIVED entry |
| QueueEngine.RehydrationRestoresIndex | internal/modules/queue/service/service.go:1363-1394 | over runs with any number of losses, loss and rebuild yield the old index restricted to live entries with scores and order kept, if and only if the index was not lost already with somebody live; the guard is that joins and returns to a live status meet an index that is whole |
| QueueEngine.CarefulRunsAreGuarded | internal/modules/queue/service/expiry.go:70-141 | before the first loss the guard follows from status writes hitting unfinished entries only |
| QueueEngine.IdleGuestLeavesIndex | internal/modules/queue/service/expiry.go:113-141 | an IDLE guest through a loss and rebuild is WAITING again later but not indexed |
| QueueEngine.FairCallExact | internal/modules/queue/service/service.go:639-687 | a call passes over nobody who waits and was created earlier, indexed or not, if and only if every waiting entry outside the scanned index has an indexed waiting one created no later |
| QueueEngine.JoinAfterLossHidesOthers | internal/modules/queue/service/service.go:537-548 | after a loss a join before the rebuild is called first, which is fair if and only if nobody who waits was created earlier |
| QueueEngine.NeverWaitsAgain | internal/modules/queue/service/service.go:639-687 | in runs with no return to WAITING, losses allowed, an entry that stopped waiting never waits again |
| QueueEngine.StepKeepsReachable | internal/modules/queue/service/service.go:639-687 | while an entry waits, every step with no return to WAITING, a loss included, keeps it indexed or the index lost; the guard is that in an automatically positioned queue no join meets a lost index |
| QueueEngine.CallTakesRival | internal/modules/queue/service/service.go:639-687 | on the indexed and on the rebuilt path, a call that leaves an entry waiting succeeds and takes one of the waiting entries created no later than it |
| QueueEngine.BoundedBypass | internal/modules/queue/service/service.go:639-687 | over runs with any number of losses and rebuilds, manual queues included, whether or not other entries are indexed: while an entry that is indexed, or whose index is lost, waits, every call succeeds, and the calls never exceed the others created no later at the start plus the joins created no later; the guard is that while it waits no join of an automatically positioned queue meets a lost index |
| QueueEngine.CalledWithinTurn | internal/modules/queue/service/service.go:639-687 | under the same guard on joins, with k such others and no such join, the entry is no longer waiting after k + 1 calls, losses or not |
| QueueEngine.BoundedBypassIndexed | internal/modules/queue/service/service.go:639-687 | without a loss the bound counts only the waiting entries and the joins that the index places ahead, ties settled by id |
| QueueEngine.CalledWithinTurnIndexed | internal/modules/queue/service/service.go:639-687 | with k waiting entries ahead and no join placed ahead, the entry is no longer waiting after k + 1 calls |
| QueueEngine.NewcomerFirstExact | internal/modules/queue/repository/redis.go:243-252 | a newcomer is called instead of the entry next in turn if and only if it has an earlier clock, or the same millisecond and a smaller id |
| QueueEngine.TiedNewcomerBypasses | internal/modules/queue/repository/redis.go:243-252 | a run in which an entry with nobody ahead still waits after one call, a tied newcomer having been called |
| Tickets.TicketDesk.EnsureTicketCounter | internal/modules/queue/service/service.go:1331-1361 | a missing counter is set from the string-greatest ticket, a present one left alone |
| Tickets.TicketDesk.NextTicket | internal/modules/queue/repository/redis.go:304-314 | increments, from zero when missing, and prints the number with at least four digits |
| Tickets.TicketDesk.CreateEntry | internal/modules/queue/service/service.go:472-558 | a join draws one number before its at most five insert attempts and stores the ticket with that number unless every verify code collided |
| Tickets.JoinMeans | internal/modules/queue/service/service.go:472-558 | a join takes the number after the counter, or after the last known one when the counter is lost, and stores it unless five attempts collided |
| Tickets.TicketsSpelled | internal/modules/queue/repository/redis.go:304-314 | the printed form of small numbers |
| Tickets.GreatestIsGreatest | internal/modules/queue/service/service.go:1342-1350 | no stored ticket sorts above the one the descending query returns |
| Tickets.ScanUndoesPrint | internal/modules/queue/service/service.go:1350-1356 | scanning a printed ticket gives its number if and only if it is at most 9999 |
| Tickets.TicketOrder | internal/modules/queue/service/service.go:1337-1350 | up to 9999 the string order of tickets is the numeric order |
| Tickets.LastKnownExact | internal/modules/queue/service/service.go:1337-1356 | the number read from the greatest ticket is the true maximum if and only if that is at most 9999 |
| Tickets.RebuildExact | internal/modules/queue/service/service.go:1331-1361 | a lost counter is rebuilt to the true maximum if and only if that is at most 9999 |
| Tickets.NextTicketAfterLoss | internal/modules/queue/service/service.go:1331-1361 | the ticket after a loss exceeds all stored ones if and only if all are at most 9999 |
| Tickets.DuplicateTicketBeyondFourDigits | internal/modules/queue/service/service.go:1331-1361 | with tickets 9999 and 10000 stored, a loss makes the next ticket 10000 again |
| Tickets.TicketsSurviveCounterLoss | internal/modules/queue/service/service.go:1331-1361 | over every run of joins and losses struck while the highest number is at most 9999, stored tickets are distinct and strictly increasing |
| Tickets.NoGaps | internal/modules/queue/service/service.go:1331-1361 | over such runs without a failed join the guests get the tickets 1, 2, 3 and so on, losses included |
| RedisLocks.Lock.Acquire | internal/redis/lock.go:34-36 | succeeds exactly when nobody holds the key and then holds it for the lease |
| RedisLocks.Lock.Release | internal/redis/lock.go:40-47 | deletes the key exactly when it still holds this lock's value |
| RedisLocks.HolderStays | internal/redis/lock.go:12-47 | over every run, a holder keeps the key until it releases or its lease lapses, whatever late releases others attempt |
| RedisLocks.FreedExact | internal/redis/lock.go:12-47 | while the owner holds the key every attempt by another fails, and the first attempt after that obtains it if and only if the owner released meanwhile or its lease lapsed |
| RedisLocks.LeaseExact | internal/redis/lock.go:34-36 | a key nobody releases is obtained by another exactly when the whole lease is over |
| StrictCalling.CallEntry | internal/modules/queue/http/handler.go:899-982 | busy exactly when the lock is held, and then nothing changes; otherwise conflict, a called entry or nobody, and the lock is free again |
| StrictCalling.NextUp | internal/modules/queue/http/handler.go:936-961 | warns at most the first two waiting guests among the first five of the range, never the one called |
| StrictCalling.WarnedIsSound | internal/modules/queue/http/handler.go:936-961 | whoever is warned is a waiting guest of the range and not the called one |
| StrictCalling.WarnedExact | internal/modules/queue/http/handler.go:936-961 | the warned are the first waiting others of the ids read, as many as there is room for |
| StrictCalling.WholeCallMeans | internal/modules/queue/http/handler.go:916-930 | a lone call conflicts exactly when the queue runs, is unexpired and strict and somebody is CALLED; otherwise it calls an earliest waiting scanned guest, or nobody when none waits |
| StrictCalling.UndisturbedRequestIsWholeCall | internal/modules/queue/http/handler.go:906-930 | the atomic steps of a request left alone do to the entries and the lock what the whole call does, on the indexed and the rebuilt path |
| StrictCalling.RequestLeaseExact | internal/modules/queue/http/handler.go:906-914 | while one request is inside, another is let in exactly when three seconds are over |
| StrictCalling.LoneCallExact | internal/modules/queue/http/handler.go:916-930 | with somebody CALLED, a call adds a second CALLED entry if and only if the check does not apply and somebody waits |
| StrictCalling.StepKeepsSound | internal/modules/queue/http/handler.go:906-930 | each storage call keeps: whoever is inside owns the key, past the check nobody is CALLED, at most one entry is CALLED |
| StrictCalling.StrictModeHolds | internal/modules/queue/http/handler.go:906-930 | over every interleaving of call requests with other entry traffic, with leases outliving the requests, at most one entry is CALLED |
| StrictCalling.OtherStepsAreTraffic | internal/modules/customer/service/service.go:59-270 | every service step except a call and a direct recall makes nobody newly CALLED |
| StrictCalling.LapsedLeaseBreaksStrictMode | internal/modules/queue/http/handler.go:906-930 | a run in which a lease lapses inside a request ends with two CALLED entries |
| Timeline.CollectEvents | internal/modules/queue/service/service.go:1480-1510 | one event per activity log, and per booking its join followed by its serving or its skipping |
| Timeline.GuestEventsMeans | internal/modules/queue/service/service.go:1500-1508 | a booking gives its join, then its serving if it was served, else its skipping if it ended otherwise |
| Timeline.RawEventsMeans | internal/modules/queue/service/service.go:1489-1508 | the raw events are the status changes in order, then those of each booking |
| Timeline.ItemsSpelled | internal/modules/queue/service/service.go:1548-1577 | kind, time, message and color of every item that is not a join |
| Timeline.JoinedItemMeans | internal/modules/queue/service/service.go:1534-1546 | a joined item has its first event's time and says in words how many sub-events it has |
| Timeline.GatherJoins | internal/modules/queue/service/service.go:1518-1535 | collects the joins up to the end of the run or of the window, with their number |
| Timeline.BuildTimeline | internal/modules/queue/service/service.go:1512-1579 | the loop with its index jump terminates and produces the greedy blocks |
| Timeline.GreedyIsCut | internal/modules/queue/service/service.go:1512-1547 | the loop's blocks are a cut into showable blocks, one item each |
| Timeline.FlattenCut | internal/modules/queue/service/service.go:1512-1547 | whatever grouping competes, its blocks laid end to end are all the events once each in order |
| Timeline.SubsLength | internal/modules/queue/service/service.go:1530-1547 | the count in a joined item is the number of its sub-events |
| Timeline.SubsShown | internal/modules/queue/service/service.go:1512-1547 | the sub-events shown are those of all joins, in time order |
| Timeline.UnfoldRestoresEvents | internal/modules/queue/service/service.go:1512-1579 | opening the joined items of the output gives one shown event per sorted event, in order, each as it would show by itself |
| Timeline.TimelineLosesNothing | internal/modules/queue/service/service.go:1489-1579 | for every order of ties, the output shows the sorted events once each in order and its sub-events are the bookings, each once |
| Timeline.LaterStart | internal/modules/queue/service/service.go:1512-1547 | starting the greedy grouping later never costs a block |
| Timeline.TimelineIsOptimal | internal/modules/queue/service/service.go:1512-1547 | no cut into blocks of adjacent joins within five minutes of their first has fewer joined blocks |
| Timeline.JoinedItems | internal/modules/queue/service/service.go:1512-1547 | the number minimised is the number of JOINED items shown |
| Billing.BillingService.HandleFailedPayment | internal/modules/billing/service/billing_service.go:358-413 | records a failed transaction, and an existing subscription enters grace with a new deadline and loses its cached plan |
| Billing.BillingService.HandleCancellation | internal/modules/billing/service/billing_service.go:417-462 | records the cancellation, cancels the subscription, puts the host on the free tier and drops the cached plan |
| Billing.BillingService.HandlePaymentSucceeded | internal/modules/billing/service/billing_service.go:682-784 | adds a transaction and its record, activates the subscription on the plan paid for keeping its old deadline, and sets the tier |
| Accounts.PaymentGivesPlan | internal/modules/billing/service/billing_service.go:682-784 | after a payment the lookup finds an active, uncancelled subscription on the event's plan and cycle, and both plan lookups answer that plan |
| Accounts.PaymentSetsTier | internal/modules/billing/service/billing_service.go:682-784 | a registered host gets the tier of the plan paid for, "free" for an unknown one, and keeps its counters |
| Accounts.FailureStartsGrace | internal/modules/billing/service/billing_service.go:358-413 | a failure leaves a counting subscription findable and on its plan up to the deadline, the configured or three days ahead, and not a second longer: then the lookup cancels it and the host is on the free plan and tier |
| Accounts.FailureEntry | internal/modules/billing/service/billing_service.go:358-384 | one failed transaction with the amount due and its kind in words, and no record |
| Accounts.CancellationEndsPlan | internal/modules/billing/service/billing_service.go:417-462 | after a cancellation nothing is found, the free plan is answered and the tier is "free" |
| Accounts.CancellationEntry | internal/modules/billing/service/billing_service.go:417-437 | one failed transaction of no amount |
| Accounts.StatusEventWrites | internal/modules/billing/service/billing_service.go:788-841 | an active, pending or real renewed event writes status and cancellation time and keeps an existing plan, deadline and unnamed cycle; a missing subscription is opened on the event's plan |
| Accounts.StatusEventCounts | internal/modules/billing/service/billing_service.go:788-841 | active and renewed start a new monthly cycle, pending touches no count, none the tier |
| Accounts.UpdateWrites | internal/modules/billing/service/billing_service.go:844-897 | an update merges what it names into an existing subscription and opens none |
| Accounts.UpdateSetsTier | internal/modules/billing/service/billing_service.go:844-897 | it sets the tier of a known plan it names and no counter |
| Accounts.IdleEvents | internal/modules/billing/service/billing_service.go:641-647 | an unrecognized event and a renewal without a previous billing date only drop the cached plan |
| Accounts.EntriesSpelled | internal/modules/billing/service/billing_service.go:682-724 | the fields of transactions and records |
| Accounts.CheckoutEntrySpelled | internal/modules/billing/service/billing_service.go:335-351 | the fields of a checkout's transaction |
| Accounts.LookupMeans | internal/modules/billing/service/billing_service.go:985-1011 | a lookup finds the uncancelled subscription as it is, and cancels one in grace past its deadline instead |
| Accounts.PlanLookupMeans | internal/modules/billing/service/billing_service.go:64-100 | without a live cache entry: the plan of the subscription found, kept an hour, or the free plan, kept ten minutes; a missing plan is not kept |
| Accounts.LivePlanAnswered | internal/modules/billing/service/billing_service.go:64-70 | a live cache entry is answered and nothing changes |
| Accounts.CreateThenDelete | internal/modules/billing/service/billing_service.go:492-539 | deleting a queue after creating it gives both counts back, unless the monthly one was reset in between |
| Accounts.DeletionMeans | internal/modules/billing/service/billing_service.go:510-539 | one off each positive count, the monthly one only for a queue of the current cycle |
| Accounts.ResetMeans | internal/modules/billing/service/billing_service.go:139-165 | a reset starts a cycle of at least 31 days that nothing older counts against |
| Billing.BillingService.HandleSubscriptionStateUpdate | internal/modules/billing/service/billing_service.go:788-841 | writes status and cancellation time, never the tier; active and renewed reset the monthly count |
| Billing.BillingService.HandleSubscriptionUpdated | internal/modules/billing/service/billing_service.go:844-897 | merges the non-empty fields into an existing subscription, and sets the tier of a known plan |
| Billing.BillingService.RecordCheckout | internal/modules/billing/service/billing_service.go:335-351 | opening a checkout adds one pending transaction |
| Billing.BillingService.ProcessBillingEvent | internal/modules/billing/service/billing_service.go:610-678 | drops the cached plan, then routes by kind; a renewal without a previous billing date does nothing more |
| Billing.BillingService.GetSubscription | internal/modules/billing/service/billing_service.go:985-1011 | finds the uncancelled subscription; one whose grace is over is cancelled on the way |
| Billing.BillingService.GetHostPlan | internal/modules/billing/service/billing_service.go:64-100 | answers from a live cache entry, else the subscription's or the free plan, and caches it for an hour or ten minutes without the product ids and trial terms that its JSON form leaves out |
| Billing.BillingService.DecrementMonthlyQueueCount | internal/modules/billing/service/billing_service.go:510-539 | takes one off each positive count, the monthly one only for a queue of the current cycle |
| Billing.BillingService.DecrementMonthlyQueueCountBulk | internal/modules/billing/service/billing_service.go:542-588 | one write that equals the single decrement applied queue by queue |
| Billing.BulkEqualsSingles | internal/modules/billing/service/billing_service.go:510-588 | the capped sums of the bulk form are the result of the single decrements in sequence |
| Billing.BillingService.IsMonthlyLimitExceeded | internal/modules/billing/service/billing_service.go:139-173 | compares the usage with the plan's maximum; a host not reset for over 31 days is reset and counted from zero; no maximum means never exceeded |
| Billing.EventTouchesOneAccount | internal/modules/billing/service/billing_service.go:610-678 | an event leaves every other host's subscription, counters and cached plan alone |
| Billing.EventEmptiesCache | internal/modules/billing/service/billing_service.go:610-615 | after any event its host has no cached plan |
| PlanAccess.RevivalExact | internal/modules/billing/service/billing_service.go:641-672 | an event makes a cancelled account findable again if and only if it is a payment.succeeded, or an active, pending or really renewed event whose status is not cancelled |
| PlanAccess.FoundAfterEventExact | internal/modules/billing/service/billing_service.go:985-1011 | the lookup after an event finds a subscription if and only if the event revives and does not say in-grace under an old deadline already over |
| PlanAccess.CancelledStaysCancelled | internal/modules/billing/service/billing_service.go:417-462 | after a cancellation, over every run without a reviving event of that host, no subscription is found and the plan is the free plan, up to the fields a cached answer leaves out |
| PlanAccess.SchedulingMeans | internal/modules/billing/service/billing_service.go:1013-1047 | scheduling a cancellation marks the subscription found, drops the cached plan and leaves the host on its plan |
| PlanAccess.StepKeepsHonest | internal/modules/billing/service/billing_service.go:64-100 | every event, lookup, scheduled cancellation and passage of time keeps a live cached plan right for an entitled host, and wrong for another only after a deadline passed |
| PlanAccess.CacheAgreesWithLookup | internal/modules/billing/service/redis.go:13-49 | over every run from an empty cache, the answer is the uncached one up to the fields the encoding leaves out if and only if no live cached plan other than the free one outlives the host's subscription; and it is the uncached one in full if and only if, besides, it is not from the cache or those fields are empty |
| PlanAccess.StaleUnderAnHour | internal/modules/billing/service/billing_service.go:64-100 | a stale answer comes less than an hour after a grace deadline of the host that passed during the run |
| PlanAccess.StaleAfterGrace | internal/modules/billing/service/billing_service.go:64-100 | a plan cached at the deadline is still answered one second after it |
| Webhooks.WebhookHandler.HandleWebhook | internal/modules/billing/http/handler.go:233-271 | 401 on a bad signature, 400 without a host, a repeat skipped, and only otherwise the event is handled and its key set for 72 hours |
| Webhooks.AcceptedApart | internal/modules/billing/http/handler.go:252-264 | over every sequence, two accepted deliveries of one id are at least 72 hours apart |
| Webhooks.RepeatExact | internal/modules/billing/http/handler.go:252-264 | a repeat is processed again if and only if it comes 72 hours or more after the accepted one |
| Webhooks.RepeatsChangeNothing | internal/modules/billing/http/handler.go:252-270 | over runs of any length with checkouts in between, from any books, in which each id repeats only within 72 hours: the books are those that the first occurrences alone leave |
| Webhooks.PaymentBookedExact | internal/modules/billing/service/billing_service.go:682-724 | each insert of a payment is lost exactly when its drawn id is taken, so a taken id leaves a record without its transaction or the reverse |
| Webhooks.MatchExact | internal/modules/billing/service/billing_service.go:682-724 | a payment keeps the one-to-one match if and only if both drawn ids are new to the ledger |
| Webhooks.EventAppends | internal/modules/billing/service/billing_service.go:610-784 | which transactions and records each kind of event adds when its drawn ids are new |
| Webhooks.LedgerFollowsPayments | internal/modules/billing/service/billing_service.go:682-784 | from any ledger, the records and succeeded transactions added correspond one to one with the handled payments, in order, ids and amounts |
| Webhooks.LedgerMatchesPayments | internal/modules/billing/http/handler.go:252-270 | the same over any run of deliveries and checkouts in which each id repeats only within 72 hours, with no webhook id twice among the payments |
| Quota.CreateQueue | internal/modules/queue/http/create_queue_guard.go:38-71 | which of the five outcomes occurs and when; a creation raises the counts by one and stays within the maximum; the lock is free afterwards |
| Quota.UsageMeans | internal/modules/billing/service/billing_service.go:147-162 | a host not reset for over 31 days counts from zero |
| Quota.UndisturbedCreation | internal/modules/queue/http/create_queue_guard.go:38-71 | the atomic steps of a creation left alone admit it exactly when there is no maximum or the usage is below it, count it once, reset a stale host and free the key |
| Quota.CreationLeaseExact | internal/modules/queue/http/create_queue_guard.go:38-50 | while one creation is inside, another is let in exactly when ten seconds are over |
| Quota.StepKeepsSound | internal/modules/queue/http/create_queue_guard.go:38-125 | each storage call keeps: whoever is inside owns the key, past the check the count is below the maximum, and it never passes it |
| Quota.QuotaHolds | internal/modules/queue/http/create_queue_guard.go:102-125 | over every interleaving of creations with lasting leases, deletions in one or two steps and resets, the monthly count stays within the maximum |
| Quota.StepNoDebtExact | internal/modules/billing/service/billing_service.go:510-588 | a step leaves both counts non-negative if and only if it is not the write of a two-step deletion that owes more than is there |
| Quota.NeverNegativeExact | internal/modules/billing/service/billing_service.go:510-588 | over every interleaving, leases or not, no state has a negative count if and only if every such write finds at least what it owes |
| Quota.NeverNegative | internal/modules/billing/service/billing_service.go:510-588 | with deletions in one step no count is ever negative |
| Quota.ReadThenWrite | internal/modules/billing/service/billing_service.go:510-539 | a read and write with nothing between is the one-step deletion |
| Quota.InterleavedDeletionsGoNegative | internal/modules/billing/service/billing_service.go:510-539 | two interleaved deletions take a count of one to minus one |
| Quota.ResetDuringDeletionGoesNegative | internal/modules/billing/service/billing_service.go:478-539 | so does a reset between the read and the write of one deletion |
| Quota.LapsedLeaseOverspends | internal/modules/queue/http/create_queue_guard.go:38-50 | two creations around a lapsed lease pass the maximum by one |
| Recovery.SplitToken | internal/modules/customer/service/recovery_service.go:199-206 | cuts at the last dot, or answers that there is none |
| Recovery.ParseVal | internal/modules/customer/service/recovery_service.go:208-215 | cuts at the first colon, or answers two empty ids |
| Recovery.HexRoundTrip | internal/modules/customer/service/recovery_service.go:115-132 | decoding undoes hexadecimal encoding for all byte strings |
| Recovery.HexSpelled | internal/modules/customer/service/recovery_service.go:91-115 | two lower-case digits per byte, the high half first |
| Recovery.SplitJoins | internal/modules/customer/service/recovery_service.go:140-143 | splitting at a separator loses nothing and leaves no separator in a part |
| Recovery.ScanUndoesPrint | internal/modules/customer/service/recovery_service.go:107-150 | scanning a printed expiration gives it back, negative ones included |
| Recovery.RoundTripExact | internal/modules/customer/service/recovery_service.go:107-156 | a generated token verifies to its ids if and only if neither holds a colon and the 15 minutes are not over, and otherwise names which failed |
| Recovery.TokenSpelled | internal/modules/customer/service/recovery_service.go:107-117 | the token is the payload entry:queue:expiration, 900 seconds ahead, and its signature, in hexadecimal |
| Recovery.ForgedRefused | internal/modules/customer/service/recovery_service.go:131-138 | whatever a token carries, it is refused for its signature unless its last part is the signature of what it carries |
| Recovery.UnreadableRefused | internal/modules/customer/service/recovery_service.go:120-129 | a token without a dot, and one whose first part is not hexadecimal, are refused as such |
| Recovery.SignedJudged | internal/modules/customer/service/recovery_service.go:140-155 | a rightly signed payload is judged by its two colons and by its third part, a number that must not be passed |
| Recovery.ValidMeansSigned | internal/modules/customer/service/recovery_service.go:120-156 | whatever verifies carries a matching signature over those ids and an expiration not passed |
| Recovery.RecoveryService.GenerateToken | internal/modules/customer/service/recovery_service.go:85-104 | signs the random bytes and stores the ids under the token's hash for two hours |
| Recovery.RecoveryService.ClaimToken | internal/modules/customer/service/recovery_service.go:159-192 | only a rightly signed token reaches the store, and the value is taken out with the fetch |
| Recovery.ForgedClaimRefused | internal/modules/customer/service/recovery_service.go:159-178 | a claim with a wrong signature fails and leaves the store as it was |
| Recovery.ClaimMeans | internal/modules/customer/service/recovery_service.go:85-192 | a rightly signed claim within two hours reads the stored ids, and takes the token out |
| Recovery.ClaimsAtMostIssues | internal/modules/customer/service/recovery_service.go:159-192 | over every interleaving, claims under a key succeed at most as often as it was stored |
| Recovery.SingleUse | internal/modules/customer/service/recovery_service.go:159-192 | one stored token is claimed at most once |
| Recovery.FirstClaimExact | internal/modules/customer/service/recovery_service.go:85-192 | the first claim gives the issued ids if and only if it is within two hours, neither id is empty and the entry id holds no colon |
| Recovery.ReadUndoesStore | internal/modules/customer/service/recovery_service.go:208-215 | a stored value reads back as its ids under that same condition on the ids |

## Left out

- Redis Pub/Sub relay between instances, HTTP and JSON decoding: the decoded event name of a payload is a parameter.
- EventStream: write deadlines and flush errors of the stream writer; a writer may leave at any select instead.
- Storage failures: every call is taken to succeed, so error replies that only they cause do not appear.
- QueueEngine: expiry of single Redis keys is covered as the loss of the index or of the sentinel; `positions` and join-code keys, stats and notifications are not modelled; ticks of the clock between a status write and its index write are one step.
- QueueEngine: RepositionEntry and MoveToBack, which have no caller in the modelled files.
- QueueEngine: finished entries are not claimed to stay finished, and closed queues not to stay closed; the code guards neither.
- Tickets: counter loss between the ensure and the increment of one join; a whole join is one step.
- Tickets.ScanUndoesPrint: leading blanks and signs that the scan would also accept, since no stored ticket has them.
- StrictCalling: resetting the queue's delay after a call and dispatching notifications, which touch no entry.
- StrictCalling: direct recall, which bypasses the check by design, is excluded from the traffic.
- Timeline: the sort algorithm (any time-ordered permutation is covered), clock-time formatting, and the other numbers of the history detail.
- Billing: of a plan only the name, tier, monthly maximum, product ids and trial terms are modelled.
- Billing: of a checkout only its pending transaction is modelled, not the guards before it; card data, provider ids, e-mails, invoice numbers, period ends and the extension of queue expiry; the grace period is counted in days of 24 hours.
- PlanAccess: lookups interleaved inside one event, and SyncSubscriptionDetails, which writes the status without dropping the cached plan; runs are sequential and over the other operations.
- Webhooks: concurrent deliveries of different ids; handling is sequential.
- Quota: the bypass token; plans changing while a creation is under way (the maximum is fixed); hosts without an account, for whom nothing is counted.
- Recovery: the signature and the hash are arbitrary functions, so forgery and collisions are outside; the range of 64-bit expirations; the dispatch of the e-mail.
- Geo-distance checks, masking of names, slugs, e-mail templates, seeding and configuration are not modelled.
