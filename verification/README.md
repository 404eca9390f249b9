# Verification of the tdlua runtime

TDLua runs any number of TDLib clients behind one receiver thread and lets Lua
coroutines wait for their answers. This project models the parts in which state,
concurrency and arithmetic are hard to get right, and proves what those parts
promise, in Dafny 4.11. `dafny verify dfyconfig.toml` checks all of it.

## What is modelled

**Failure cleanup** (`LedgerSpec`, `LedgerRuns`, `LedgerEffects`, `CleanupLists`,
`CleanupGauges`, `FailureCleanup`, `IdentityHistory`, `MapSum`). The per-client
ledger that closes every TDLib client after a failure. `LedgerSpec` has each
critical section as a function on a value without links and counters. `LedgerRuns`
is the step system: the worker's drain is cut wherever it gives up the mutex, and
owner threads may take any number of steps in between; its theorems are what never
happens, those of `LedgerEffects` what a drain and a send bring about. The class
`FailureCleanup` is the ledger as it is kept in memory: a record map threaded by two
doubly linked lists and ten redundant gauges, with a block bitset as identity
history; every method refines its function, and `Drain` is shown to be a run of the
step system for every behaviour of the other threads, the transport and the clock.

**Doorbell** (`Doorbell`, `LostWakeUps`). The coalescing wake-up between receiver
threads and a parked owner, with each atomic access, kernel read or write and
mailbox read as a step of its own. `LostWakeUps` says exactly when a wake-up can be
lost.

**Receiver** (`GenericBuffer`, `WorkerLife`, `Registry`, `RegistryRuns`,
`RegistryEffects`, `Receiver`). The bounded buffer of generic envelopes with its
ticket FIFO, in-place compaction and eviction, where owner threads may pop, expire
or drop tickets between any two accesses of the receiver, and the receiver between
the two accesses of a retirement; the start, stop and join protocol of the worker;
and the registry: demand tokens, subscription views, mailbox counts and routing, as
functions, as a step system and as a class with the original's loops. `RegistryRuns`
has what every run keeps, `RegistryEffects` that stopping stops, accepted demand has
a worker, what is wanted arrives and what goes leaves nothing.

**Scheduler** (`References`, `EventScheduler`, `ManagedStates`, `Driving`).
Ownership of the Lua references of updates and callbacks, and serial delivery, with
any allocation failing; a task is built in the code's own steps, each of which may
throw, with both places that roll it back. Life cycle of requests, Futures and
Tasks with their waits and handles; recursive driving of client cores through each
other, with the wait budget of every pump. Lua is a reference table and callbacks
that may call back in any order. The scheduler's objects are one map per kind here,
keyed by a number.

**Metadata and values** (`CleanupMetadata`, `LuaJson`, `Int64Codec`). The streaming
reading of a payload against the tree reading; Lua tables against JSON trees, for
any order in which a table is visited; 64-bit integers on Lua versions with
integers and on those whose only number is a floating-point format.

`Common` has the option and result types that all of them share.

Scripts that appear as method inputs (`Turn`, `Act`, `Call`, `during`, `quiet`,
`outcomes`) stand for what the rest of the world does: owner threads, kernel
answers, Lua callbacks, failing allocations. They are arbitrary.

## Where the code differs from what one might expect

- `enableWake` is documented for any thread (`include/tdlua/common/readiness.h:125`).
  A doorbell that another thread creates after an owner began to re-check does not
  wake that owner for work published before it was created; `EnabledTooLate` is
  such a run. `LostExactlyWithoutBell` gives the exact condition, known before the
  re-check: a wake-up can be lost if and only if the owner has no doorbell object
  (`wake`) as the re-check begins and its mailboxes show nothing that the receiver
  cannot drop again. `NoLostWakeUp` is the guarantee for everyone who created it in
  time, as an owner that enables it itself does.
- The count of pending tickets is not always the number of active ones: retiring a
  ticket is an exchange and a later decrement, and a publication may fall between
  them (`include/tdlua/common/receiver.h:69`). The count then passes the capacity
  (`CountPastCapacity`), or the only active ticket is evicted (`LivingEvicted`).
  What holds at every access is that active tickets stay within the capacity and
  that the count is these and the retirements under way (`AtEveryAccess`, `Bounds`);
  `PendingIsActive` and `EvictsExactly` say exactly when the count and the eviction
  are what one expects.
- The tree reading of a client identity converts any number or boolean and keeps
  the low 32 bits; the streaming reading accepts only an integer in 1 to 2^31-1.
  `ReadingsAgree` says exactly on which payloads the two answers are the same, and
  `LargeClientDiffers` gives one on which they are not.
- The round trip through JSON is not the identity on every tree: empty objects come
  back as empty arrays and `_` and `@type` are completed from each other.
  `PushedIsNormal` states the result, and `NormalExactly` on which trees it is the
  identity.
- When a number key and a string key of one table have the same name, the visiting
  order decides which value the tree gets (`Read`, `LastVisitWins`).
- A pushed integer is read back exactly when it went as an integer or as a string or
  fits the width of the Lua integer (`RoundTrip`); with 64-bit Lua integers that is
  always. `NarrowIntegerRefuses` is a value that does not return with 32 bits.
- A ranged read compares a text with the range and then narrows it to the Lua
  integer. With 32-bit Lua integers a field of 53 bits can so read another value
  (`NarrowTextTruncates`); `RangedRoundTrip` says exactly when.

## Model

| member | source | states |
|---|---|---|
| `IdentityHistory.MarkAddsOne` | include/tdlua/common/identity_history.h:22-29 | setting one bit of one 64-bit block adds exactly one identity to the set of positive identities and neither removes nor adds any other, across blocks |
| `IdentityHistory.History.Contains` | include/tdlua/common/identity_history.h:14-21 | true exactly for the identities inserted so far; zero and negative ones are never members |
| `IdentityHistory.History.Insert` | include/tdlua/common/identity_history.h:22-29 | an identity enters at most once; an invalid or reused one is refused and changes nothing; the counter is the size of the set |
| `LedgerRuns.QuiescenceSound` | include/tdlua/common/failure_cleanup.h:210-293 | in every run in which a drain ends quiescent, whatever owner threads did in the unlocked windows: no record and no send is left, and every identity ever registered is exactly one of unused, observed and delivered, or out of memory at registration; the running totals add up to the history |
| `LedgerRuns.DrainedExactly` | include/tdlua/common/failure_cleanup.h:256-260 | between effects, the completion test on gauges and queue heads holds if and only if no record is left |
| `LedgerRuns.CloseAtMostOnce` | include/tdlua/common/failure_cleanup.h:415-421 | over all drains of a run the cleanup issues at most one transport close per identity |
| `LedgerRuns.CloseOnlyWhenDue` | include/tdlua/common/failure_cleanup.h:265-271 | only a picking step of a failed ledger issues a close, and only for a live identity that was sent to, has no send in flight, is not terminal and has no close sent or in doubt |
| `LedgerRuns.VisitsBounded` | include/tdlua/common/failure_cleanup.h:241-276 | from the barrier of a drain to the next barrier, record visits grow by at most three per record live at the first, across every interleaving |
| `LedgerRuns.PickSpendsBudget` | include/tdlua/common/failure_cleanup.h:265-276 | each picked work item strictly lowers the number of visits the drain may still make |
| `LedgerRuns.TerminalWaits` | include/tdlua/common/failure_cleanup.h:376-401 | between effects of a drain, every terminal record is in the notification queue |
| `LedgerRuns.RetiredForever` | include/tdlua/common/failure_cleanup.h:402-414 | an identity whose record was retired has no record in any later state of any run |
| `LedgerRuns.StepRemembers` | include/tdlua/common/failure_cleanup.h:39-50 | no step gives a record to an identity already in the history; only a barrier moves the visit base; only a pick issues a close |
| `LedgerRuns.StepKeeps` | include/tdlua/common/failure_cleanup.h:39-293 | every critical section of owner threads and worker keeps the ledger invariant: queues hold each record that its flags call for exactly once, flags agree with what happened, materialized = terminals + remaining, visits stay in budget |
| `LedgerRuns.RunKeeps` | include/tdlua/common/failure_cleanup.h:39-293 | the invariant holds in every state that a run reaches |
| `LedgerRuns.RefreshLinks` | include/tdlua/common/failure_cleanup.h:376-401 | requeueing one record puts it in the one queue its flags call for, keeps both queues free of duplicates and moves no other record |
| `LedgerRuns.TouchKeeps` | include/tdlua/common/failure_cleanup.h:402-414 | a change of one record that is sound for its own flags, totals and log keeps the whole invariant through requeueing and retirement |
| `LedgerEffects.EveryoneIsClosed` | include/tdlua/common/failure_cleanup.h:241-293 | a drain that begins to listen has closed everyone: every client known to the source and not over has had a close issued for it by the cleanup, or sent or tried by itself |
| `LedgerEffects.ListensOnlyWhenClosed` | include/tdlua/common/failure_cleanup.h:251-286 | in every reachable state a drain listens only when each record is not terminal and has its close sent or in doubt, or is one whose only request may or may not have arrived |
| `LedgerEffects.ReservedNoticed` | include/tdlua/common/failure_cleanup.h:241-245 | straight after the barrier every record that nothing can have been sent for waits to be given up |
| `LedgerEffects.ClosingIsReal` | include/tdlua/common/failure_cleanup.h:265-271 | over any run a close that is sent or in doubt was issued by the cleanup or by the client itself |
| `LedgerEffects.NoticesFirst` | include/tdlua/common/failure_cleanup.h:265-271 | work is picked from the front, notifications before closes, and a picked record is in no queue until its effect has ended |
| `LedgerEffects.PhaseTells` | include/tdlua/common/failure_cleanup.h:251-271 | a pass stops the drain exactly on an imbalance, an empty record map or the deadline, and the phase says which; otherwise it works exactly when there is work |
| `LedgerEffects.DrainShutsOut` | include/tdlua/common/failure_cleanup.h:39-70 | from the moment a drain begins no client is registered and no send admitted; a close is refused, any other send rejected |
| `LedgerEffects.TakesSends` | include/tdlua/common/failure_cleanup.h:39-70 | a new client has every send admitted and counted in every later state of every run, until a drain begins, its end is seen or it is dropped as never sent to |
| `LedgerEffects.EndedTakesNone` | include/tdlua/common/failure_cleanup.h:53-70 | no send is admitted once the end of a client was seen or it was dropped |
| `LedgerEffects.SendsPinned` | include/tdlua/common/failure_cleanup.h:53-99 | in every run the sends in flight of an identity are those admitted and not ended, its record stays while there are any, and an end breaks the ledger exactly when it has no beginning |
| `LedgerEffects.ReachedAwaitsTerminal` | include/tdlua/common/failure_cleanup.h:71-135 | an identity that a request may have reached is never dropped as unused, in any later state: its record stays until a terminal was observed and delivered |
| `LedgerEffects.OwnCloseStands` | include/tdlua/common/failure_cleanup.h:71-99 | a client that tried to close, well or not, gets no second close from the cleanup in any run in which its shutdown is not rejected |
| `LedgerEffects.RejectReopens` | include/tdlua/common/failure_cleanup.h:173-182 | a rejected shutdown puts a client known to the source back in the close queue |
| `LedgerEffects.GivenUpAtOnce` | include/tdlua/common/failure_cleanup.h:124-170 | an identity nothing was sent for is given up at once; a delivered terminal ends its record exactly when no send is left |
| `LedgerEffects.SeenIsCertain` | include/tdlua/common/failure_cleanup.h:101-123 | an item settles whether a request arrived, except that a close in doubt stays in doubt until the terminal |
| `CleanupLists.SpliceOut` | include/tdlua/common/failure_cleanup.h:361-374 | relinking the neighbours takes exactly one record out of its doubly linked list and leaves every other link, flag and record alone |
| `CleanupLists.CutShape` | include/tdlua/common/failure_cleanup.h:356-375 | unlinking in memory is removal from the one sequence that has the record, in order; the other list is untouched and the length gauge falls by one |
| `CleanupLists.AppendShape` | include/tdlua/common/failure_cleanup.h:389-400 | linking behind the tail appends to the one sequence; the other list is untouched |
| `CleanupLists.PutLast` | include/tdlua/common/failure_cleanup.h:389-400 | the in-place link code makes the list hold the old sequence and the new record last |
| `CleanupGauges.GaugesMatch` | include/tdlua/common/failure_cleanup.h:256-257 | three zero gauges mean that every record is materialized, terminal and certain, and conversely |
| `CleanupGauges.SendsMatch` | include/tdlua/common/failure_cleanup.h:231-233 | the active-send gauge is zero exactly when no record has a send in flight |
| `CleanupGauges.Recount` | include/tdlua/common/failure_cleanup.h:324-351 | gauges that follow one record from old to new flags are again the counts over all records |
| `CleanupGauges.CountErase` | include/tdlua/common/failure_cleanup.h:407-413 | erasing a record that is ready to retire leaves every gauge the count over the rest, without underflow |
| `CleanupGauges.Sent` | include/tdlua/common/failure_cleanup.h:85-95 | what an ended send does to flags and gauges together, for every combination of success, close and terminal |
| `CleanupGauges.Seen` | include/tdlua/common/failure_cleanup.h:111-120 | what an observation does to flags and gauges together; a close in doubt stays in doubt until the terminal |
| `CleanupGauges.Finished` | include/tdlua/common/failure_cleanup.h:422-441 | what a returning or throwing effect does to flags and gauges together |
| `FailureCleanup.FailureCleanup.constructor` | include/tdlua/common/failure_cleanup.h:445-452 | a new ledger is the empty one |
| `FailureCleanup.FailureCleanup.Unlink` | include/tdlua/common/failure_cleanup.h:356-375 | class method: the record leaves its list; lists, gauges and history still agree with the value they stand for |
| `FailureCleanup.FailureCleanup.RefreshWork` | include/tdlua/common/failure_cleanup.h:376-401 | class method: refines the requeueing of the specification, both lists staying well formed; which work is wanted is pinned by EveryoneIsClosed, ReservedNoticed and TerminalWaits |
| `FailureCleanup.FailureCleanup.RetireIfReady` | include/tdlua/common/failure_cleanup.h:402-414 | class method: refines retirement; gauges, lists and map change together |
| `FailureCleanup.FailureCleanup.RegisterClient` | include/tdlua/common/failure_cleanup.h:39-50 | succeeds exactly for a positive identity never seen, on a ledger that has not failed and with memory for the record; without that memory the identity is used up and has no record |
| `FailureCleanup.FailureCleanup.BeginSend` | include/tdlua/common/failure_cleanup.h:53-70 | answers admitted, refused or rejected by failure, terminal state and history, and pins the record only when admitted |
| `FailureCleanup.FailureCleanup.EndSend` | include/tdlua/common/failure_cleanup.h:71-99 | refines the end of a send; an end without a beginning breaks the ledger for good and changes no record |
| `FailureCleanup.FailureCleanup.RetireReserved` | include/tdlua/common/failure_cleanup.h:154-170 | true exactly when no request can have reached the source or the identity is already retired; counts an unused identity once |
| `FailureCleanup.FailureCleanup.RetireUnused` | include/tdlua/common/failure_cleanup.h:136-151 | the same retirement, refused exactly for a live identity that may be in use |
| `FailureCleanup.FailureCleanup.RejectShutdown` | include/tdlua/common/failure_cleanup.h:173-182 | a live client that is not terminal may be closed again, on a ledger that has not failed |
| `FailureCleanup.FailureCleanup.Observe` | include/tdlua/common/failure_cleanup.h:101-123 | known, late or foreign by record and history; refines the observation |
| `FailureCleanup.FailureCleanup.AcknowledgeTerminal` | include/tdlua/common/failure_cleanup.h:124-135 | fails exactly when the record is live and not terminal; otherwise the terminal is delivered |
| `FailureCleanup.FailureCleanup.DrainEnter` | include/tdlua/common/failure_cleanup.h:217-230 | at most one caller owns a drain; a broken ledger or a second caller is turned away |
| `FailureCleanup.FailureCleanup.VisitAll` | include/tdlua/common/failure_cleanup.h:242-245 | the barrier loop visits and requeues every live record once, in any order of the map |
| `FailureCleanup.FailureCleanup.Pick` | include/tdlua/common/failure_cleanup.h:251-271 | the test on gauges and queue heads makes the decision of the step system, notifications first |
| `FailureCleanup.FailureCleanup.FinishEffect` | include/tdlua/common/failure_cleanup.h:422-443 | the locked tail of an effect refines the finishing step, returned or thrown |
| `FailureCleanup.FailureCleanup.Window` | include/tdlua/common/failure_cleanup.h:231-233 | any owner-thread activity while the mutex is free is a run of exactly those owner steps and keeps the invariant |
| `FailureCleanup.FailureCleanup.Await` | include/tdlua/common/failure_cleanup.h:231-245 | the active-send barrier is a run of the step system: past it no send is in flight; it gives up only after all the time there was |
| `FailureCleanup.FailureCleanup.PerformWork` | include/tdlua/common/failure_cleanup.h:415-444 | one effect with arbitrary activity during it is a run; it fails exactly when the effect throws, and the busy record survives it |
| `FailureCleanup.FailureCleanup.ReceiveOnce` | include/tdlua/common/failure_cleanup.h:277-286 | one receive with arbitrary activity during it is a run of exactly what the transport did; a foreign identity or an exception ends the drain |
| `FailureCleanup.FailureCleanup.Pass` | include/tdlua/common/failure_cleanup.h:246-286 | one pass: it looks at the clock, then does or hears exactly what the turn says, and goes on unless it stopped or something threw |
| `FailureCleanup.FailureCleanup.Drain` | include/tdlua/common/failure_cleanup.h:210-293 | a whole drain with arbitrary interleavings is a run of the step system; the worker enters, passes the barrier or gives up after all the time there was, makes one pass per turn as the turn says, stops for no other reason than the step system gives, and leaves; when it reports quiescent, the record map is empty and no send is active |
| `FailureCleanup.FailureCleanup.QuietIsEmpty` | include/tdlua/common/failure_cleanup.h:256-260 | in every reachable state a quiescent phase means an empty map and no active send |
| `Doorbell.NoLostWakeUp` | include/tdlua/common/wake.h:171-227 | any number of producers and mailboxes, each atomic access, kernel call and mailbox read a step: an owner parked after a re-check begun with a usable and still reliable doorbell has a readable object or a producer that will ring, whenever a bound mailbox has work |
| `Doorbell.QuietMeansReadable` | include/tdlua/common/readiness.h:204-218 | once every producer is idle, such an owner can have work only if its wait returns at once |
| `Doorbell.EnabledTooLate` | include/tdlua/common/readiness.h:128-139 | a concrete run: a doorbell created by another thread between the re-check and the park is slept through |
| `LostWakeUps.LostExactlyWithoutBell` | include/tdlua/common/readiness.h:128-139 | from every reachable state with some producer, for an owner about to re-check: later work in a bound mailbox can be slept through, with a valid and reliable doorbell, if and only if no doorbell object exists as the re-check begins and no bound mailbox shows a failure, a terminal or an item that the receiver cannot drop again |
| `LostWakeUps.BellLosesNothing` | include/tdlua/common/readiness.h:204-218 | the one half, whatever the mailboxes hold and whether or not the object is usable: no run of one re-check ends in a lost wake-up |
| `LostWakeUps.NoBellCanLose` | include/tdlua/common/readiness.h:128-139 | the other half: from each such state the run exists, whatever droppable items are buffered and whatever producers are underway |
| `LostWakeUps.FirmIsFound` | include/tdlua/common/readiness.h:204-218 | a re-check does not miss a failure, a terminal or an item without a ticket, read by read, whatever happens meanwhile |
| `Doorbell.StepSound` | include/tdlua/common/wake.h:171-227 | every step keeps: a raised flag stands for a readable object or a write still to come; what was read as empty and has work now has a pending bell |
| `Doorbell.RunSound` | include/tdlua/common/readiness.h:204-265 | that invariant holds in every reachable state |
| `Doorbell.WakeTarget.Ring` | include/tdlua/common/wake.h:171-194 | the call is a run of one producer; on a usable bell that is not raised, the first of eight answers that is no interruption decides: written makes the object readable, full leaves the flag up, an error or eight interruptions give the transport up |
| `Doorbell.WakeTarget.Clear` | include/tdlua/common/wake.h:199-227 | the call is a run of the owner; afterwards the flag is down and the object empty, and the transport is given up exactly when the other end proves closed before that |
| `GenericBuffer.PendingIsActive` | include/tdlua/common/receiver.h:53-80 | the shared count is the active tickets of the metadata FIFO and the retirements past their exchange and before their decrement; it equals the active tickets exactly when none is under way |
| `GenericBuffer.ActiveCount` | include/tdlua/common/receiver.h:53-80 | a list of distinct active tickets is no longer than the count, and equals it when no active ticket is missing |
| `GenericBuffer.AgedCount` | include/tdlua/common/receiver.h:69-80 | settling tickets never raises the count and lowers it strictly if one was active |
| `GenericBuffer.SettleSound` | include/tdlua/common/receiver.h:69-80 | the exchange: a ticket is retired at most once, with the reason it was retired for, and none is revived; the shared count does not move yet |
| `GenericBuffer.DiscountSound` | include/tdlua/common/receiver.h:69-80 | the decrement: a retirement under way is in the count and leaves it once |
| `GenericBuffer.FrontBound` | include/tdlua/common/receiver.h:1098-1105 | one deadline ahead at the front of the FIFO puts every active ticket ahead of the clock |
| `GenericBuffer.KeptFew` | include/tdlua/common/receiver.h:1108-1130 | in-place compaction keeps no more entries than were active when it began, in order, losing no active ticket, with concurrent retirement |
| `GenericBuffer.TrimmedActive` | include/tdlua/common/receiver.h:1136-1148 | making room leaves the active tickets, less the oldest one exactly when they and the retirements under way fill the buffer |
| `GenericBuffer.EvictsExactly` | include/tdlua/common/receiver.h:1136-1148 | undisturbed, an active ticket is lost to overflow if and only if there is one and active tickets plus retirements under way reach the capacity; with none under way, if and only if the active ones do |
| `GenericBuffer.OfferAccepted` | include/tdlua/common/receiver.h:1131-1152 | undisturbed, the receiver offers each new ticket to a bounded queue that drops its oldest entry, in which retirements under way take room |
| `GenericBuffer.Offer` | include/tdlua/common/receiver.h:1131-1152 | the abstract drop-oldest queue never exceeds its capacity, however many retirements are under way |
| `GenericBuffer.FlowDrop` | include/tdlua/common/receiver.h:178-191 | erasing an envelope that has a ticket keeps order, the count of every envelope and all envelopes without a ticket |
| `GenericBuffer.FlowDeliver` | include/tdlua/common/receiver.h:222-243 | delivery extends the delivered sequence in strictly rising receive order |
| `GenericBuffer.AbandonFlow` | include/tdlua/common/receiver.h:206-214 | abandoning accounts for every queued envelope |
| `GenericBuffer.GenericBuffer.Deactivate` | include/tdlua/common/receiver.h:69-75 | method: the exchange by any thread; won by one thread at most, after which the retirement is under way and one ticket less is active |
| `GenericBuffer.GenericBuffer.Discount` | include/tdlua/common/receiver.h:75-76 | method: the decrement, any number of steps of either side later |
| `GenericBuffer.GenericBuffer.Finish` | include/tdlua/common/receiver.h:69-76 | method: owner steps between the two accesses of the receiver's own retirement; afterwards it is not under way |
| `GenericBuffer.GenericBuffer.Check` | include/tdlua/common/receiver.h:63-68 | method: an overdue ticket is retired as expired before the answer; an answer of active means active and not overdue; owner steps fall between the accesses |
| `GenericBuffer.GenericBuffer.SkipDead` | include/tdlua/common/receiver.h:222-231 | method: exactly the dead prefix of the queue is dropped |
| `GenericBuffer.GenericBuffer.TryPop` | include/tdlua/common/receiver.h:222-243 | method: delivers the first envelope that is not dead, dropping only dead ones before it |
| `GenericBuffer.GenericBuffer.EraseGeneric` | include/tdlua/common/receiver.h:178-191 | method: removes the ticket's envelope wherever it is queued, and says whether it was |
| `GenericBuffer.GenericBuffer.Owner` | include/tdlua/common/receiver.h:222-243 | any steps of owner threads between two receiver accesses, iterations of a pop and single accesses of a retirement included: they settle tickets, revive none, evict none, may leave any retirements under way and leave envelopes without tickets to delivery |
| `GenericBuffer.GenericBuffer.DropStale` | include/tdlua/common/receiver.h:1098-1107 | the prune loop: afterwards no active ticket is overdue, and no active ticket has left the list |
| `GenericBuffer.GenericBuffer.Compact` | include/tdlua/common/receiver.h:1108-1130 | afterwards the FIFO has at most twice the capacity, also when twice the capacity overflows the size type |
| `GenericBuffer.GenericBuffer.Evict` | include/tdlua/common/receiver.h:1136-1148 | afterwards fewer tickets are active than the capacity; at most one was lost to overflow, the oldest active one at that moment, and only if active tickets plus retirements under way had reached the capacity |
| `GenericBuffer.GenericBuffer.MakeRoom` | include/tdlua/common/receiver.h:1131-1148 | prune, compact and evict together, with owner steps between any two accesses; afterwards fewer tickets are active than the capacity |
| `GenericBuffer.GenericBuffer.AddGeneric` | include/tdlua/common/receiver.h:1131-1152 | the new ticket is active, last in the FIFO and reachable by no owner step before it is queued |
| `GenericBuffer.GenericBuffer.Publish` | include/tdlua/common/receiver.h:1302-1335 | keeps: active tickets at most capacity, FIFO at most twice the capacity plus one, every active ticket listed; an envelope without a ticket changes no ticket; undisturbed it refines the drop-oldest queue |
| `GenericBuffer.GenericBuffer.Abandon` | include/tdlua/common/receiver.h:206-214 | every queued envelope is counted as abandoned and its ticket settles without counting as overflow |
| `GenericBuffer.GenericBuffer.Run` | include/tdlua/common/receiver.h:1085-1355 | any sequence of publications, owner accesses and abandonment, with owner steps inside each and retirements left under way across them, keeps the invariant; what was delivered is only extended |
| `GenericBuffer.GenericBuffer.Bounds` | include/tdlua/common/receiver.h:1098-1152 | what the invariant means after any such run: active tickets are at most the capacity, the count is these and the retirements under way, the FIFO is at most twice the capacity plus one and has every active ticket, deliveries rise, every envelope sent is delivered, dropped, abandoned or queued, and those without tickets are never dropped |
| `GenericBuffer.GenericBuffer.AtEveryAccess` | include/tdlua/common/receiver.h:69-80 | at every single access, not only between operations: active tickets at most the capacity, the count past it by at most the retirements under way |
| `GenericBuffer.CountPastCapacity` | include/tdlua/common/receiver.h:69-80 | a run with capacity one: a publication between the exchange and the decrement of a retirement leaves the count at two |
| `GenericBuffer.LivingEvicted` | include/tdlua/common/receiver.h:1136-1148 | a run with capacity two: the only active ticket is lost to overflow because another retirement is under way |
| `WorkerLife.OneWorker` | include/tdlua/common/receiver.h:1158-1210 | in every run at most one generation of the worker is alive, it is the latest, and none once the state reads stopped |
| `WorkerLife.JoinedInOrder` | include/tdlua/common/receiver.h:1158-1210 | generations are joined in order, each at most once and only after leaving run; a new one starts only when all before it are joined and nobody has the ticket |
| `WorkerLife.TicketExclusive` | include/tdlua/common/receiver.h:1183-1210 | while one coordinator has the join ticket nobody else takes it and nothing starts; it is given back by its holder alone, with the generation joined unless the join threw |
| `WorkerLife.ReapWaitsOnlyForHolder` | include/tdlua/common/receiver.h:1183-1192 | a coordinator that can neither leave nor take the ticket waits for a holder who can go on as soon as the worker leaves run |
| `WorkerLife.LifeStepSound` | include/tdlua/common/receiver.h:1158-1210 | every step keeps the agreement of state, stop flag, ticket and live threads |
| `WorkerLife.StartStarts` | include/tdlua/common/receiver.h:1158-1170 | in every run a start makes a thread exactly when the life is stopped and joined, there is something to serve and the thread spawns; then the state is running, the flag down and the generation the next; it throws exactly after failure, before the join, and when the thread does not spawn |
| `WorkerLife.StopStops` | include/tdlua/common/receiver.h:1171-1182 | in every run a stop request raises the flag, turns running into stopping and lets the live thread leave |
| `WorkerLife.StopHolds` | include/tdlua/common/receiver.h:1158-1210 | within one generation neither a thread nor a lowered stop flag comes back, in any run |
| `WorkerLife.StopCompletes` | include/tdlua/common/receiver.h:1183-1210 | every stop request can be carried out in at most four steps: the thread leaves, the ticket is taken, the join done, the ticket returned |
| `WorkerLife.TicketWhenNeeded` | include/tdlua/common/receiver.h:1183-1195 | in every run a coordinator may take the ticket exactly when a generation was told to stop and nobody has joined or is joining it, and leaves at once exactly when the worker runs on or all are joined |
| `RegistryRuns.TokensExact` | include/tdlua/common/receiver.h:651-689 | in every reachable state the driver and watch counts of each client are the numbers of live tokens that name it; tokens name live clients; watch tokens exist only while running |
| `RegistryRuns.InterestsAreViews` | include/tdlua/common/readiness_view.h:68-95 | for a client neither terminal nor forgotten, on a runtime that has not failed, each subscription count is the number of its active views, at every point between the separate locked steps of a view |
| `RegistryRuns.EnvelopesConserved` | include/tdlua/common/receiver.h:1211-1355 | in every reachable state received = unsolicited + abandoned + what all boxes, live and retired, took + at most one in flight or lost; one is lost only by failing |
| `RegistryRuns.SingleConsumer` | include/tdlua/common/receiver.h:1383-1466 | whenever the worker is at work its generation is the only live thread and has not been joined |
| `RegistryRuns.RetiredFrozen` | include/tdlua/common/receiver.h:1085-1093 | the statistics of a retired box never change again in any run, and the folded totals are exactly their sums |
| `RegistryRuns.LateReleaseIsNothing` | include/tdlua/common/receiver.h:1056-1084 | a token that was released or invalidated stays so: releasing it late or twice is the identity in every later state |
| `RegistryRuns.LeasesEnd` | include/tdlua/common/receiver.h:435-549 | in every run: once its client is terminated or forgotten every lease, and once the runtime stops or fails every watch lease, is over for good; its token is gone in all later states and releasing it then is the identity |
| `RegistryRuns.OwedIsDelivered` | include/tdlua/common/receiver.h:1251-1316 | in every reachable state between the two routing phases, a terminal or the answer of a protected request of a live client reaches its box whatever else is evicted or dropped: queued with an owner, abandoned without, never unsolicited |
| `RegistryRuns.StepKeeps` | include/tdlua/common/receiver.h:408-738 | every critical section of owners, coordinators, views and worker keeps tokens exact, boxes housed, envelopes conserved and interests equal to views |
| `RegistryRuns.RunKeeps` | include/tdlua/common/receiver.h:408-1355 | that invariant holds in every state of every run |
| `RegistryRuns.DetachAllKeeps` | include/tdlua/common/receiver.h:435-478 | the loop over the entries of a leaving owner keeps the invariant for any order of the entries |
| `RegistryRuns.StepOnward` | include/tdlua/common/receiver.h:651-689 | token numbers are never reused by any step |
| `RegistryEffects.RunLife` | include/tdlua/common/receiver.h:408-1210 | every run of the receiver is, for life and threads, a run of the worker machine |
| `RegistryEffects.HaltStopsReceiving` | include/tdlua/common/receiver.h:1171-1182 | in every run: after stopping, after the last owner left and after a failure, the generation at hand never begins another receive, no thread of it comes back, and a running state has become stopping or failed |
| `RegistryEffects.StopCarriedThrough` | include/tdlua/common/receiver.h:565-577 | whatever the worker is at when it is told to stop, some run lets it finish its envelope, leave and be joined |
| `RegistryEffects.DriverIsServed` | include/tdlua/common/receiver.h:651-664 | in every reachable state a driver lease is given exactly to a live client while a worker runs or can be started; then a worker is alive, not stopped and has somebody to serve; a refusal changes no client, lease or thread |
| `RegistryEffects.WatchIsServed` | include/tdlua/common/receiver.h:668-689 | likewise for the watch lease of a view, for clients that can be subscribed |
| `RegistryEffects.OneShotIsServed` | include/tdlua/common/receiver.h:798-809 | likewise for a one-shot request |
| `RegistryEffects.AdmissionIsServed` | include/tdlua/common/receiver.h:590-636 | a protected send that closes or expects an answer has a worker, and its answer is owed from then on; every other send leaves the registry alone; one that finds no worker only ends the protection of its own request |
| `RegistryEffects.UnsentIsUndone` | include/tdlua/common/receiver.h:637-650 | a send that was admitted and then failed leaves the client as it was, up to the protection of its own request; one that was sent stays |
| `RegistryEffects.OneShotSpent` | include/tdlua/common/receiver.h:1410-1418 | a claimed one-shot request is demand for one receive and over after it, also when the source has nothing |
| `RegistryEffects.RoutedExactly` | include/tdlua/common/receiver.h:1244-1347 | an envelope for a live client enters its box exactly when it is wanted, at the cost of others exactly when it is expendable; its request is settled, a terminal ends the client, nobody else is touched |
| `RegistryEffects.KeptExactly` | include/tdlua/common/receiver.h:1259-1328 | the retention flags amount to: who wants an update, by kind of interest, and which envelopes nobody is owed |
| `RegistryEffects.InterestSelects` | include/tdlua/common/receiver.h:698-738 | an interest that is taken up selects the envelopes it is for; a watch selects none |
| `RegistryEffects.InterestUndone` | include/tdlua/common/receiver.h:698-759 | giving an interest up again undoes taking it up; an unknown or terminal client takes none |
| `RegistryEffects.TerminalEnds` | include/tdlua/common/receiver.h:421-434 | the end of a client: nothing asks for it and no token names it any more, its box stays with its owner or is retired with the ownerless client; no other client is touched |
| `RegistryEffects.ForgetLeaves` | include/tdlua/common/receiver.h:516-541 | forgetting ends all but the accepted lifecycle work and abandons the box; a terminal client is retired |
| `RegistryEffects.OwnerLeaves` | include/tdlua/common/receiver.h:435-481 | in every reachable state and for any order of the loop: each client of a leaving owner keeps its lifecycle work if others can finish it and nothing otherwise, its box is abandoned; clients of others are untouched |
| `RegistryEffects.ReleasedOnce` | include/tdlua/common/receiver.h:1059-1084 | in every reachable state releasing a lease takes its one count of its one client, and nothing else |
| `RegistryEffects.OwnersFresh` | include/tdlua/common/receiver.h:408-419 | an owner gets a number nobody had before and stays one of the owners until it detaches; no later owner is mistaken for one that has gone |
| `RegistryEffects.CreatedFresh` | include/tdlua/common/receiver.h:491-515 | a created client can be subscribed, asks for nothing, wants nothing unsolicited and has an empty box; otherwise nothing changes |
| `RegistryEffects.FailureIsFinal` | include/tdlua/common/receiver.h:1356-1378 | watches and subscriptions end with a failure, and in every later state there are no new owners, clients, watches or workers |
| `Receiver.EraseTokens` | include/tdlua/common/receiver.h:1039-1047 | the erase loop leaves exactly the tokens of other clients, whatever the order |
| `Receiver.MuteAll` | include/tdlua/common/receiver.h:1176-1179 | the stop and failure loops clear what they should in every entry and nothing else |
| `Receiver.Runtime.StartLocked` | include/tdlua/common/receiver.h:1158-1170 | refines the start; when it does not throw and there are clients a worker runs, as the next generation unless it ran before; nothing starts before the join of the previous generation |
| `Receiver.Runtime.RequestStopLocked` | include/tdlua/common/receiver.h:1171-1182 | refines the stop request: the flag is up, running becomes stopping, every watch lease ends |
| `Receiver.Runtime.FailLocked` | include/tdlua/common/receiver.h:1356-1378 | refines the failure: the state is failed, the flag up, watch leases and subscriptions end |
| `Receiver.Runtime.ReapBegin` | include/tdlua/common/receiver.h:1183-1195 | self join is refused first; the ticket is taken exactly when nobody has it and there is something to join |
| `Receiver.Runtime.ReapEnd` | include/tdlua/common/receiver.h:1196-1210 | the ticket returns; the state becomes stopped only after a join and never after a failure |
| `Receiver.Runtime.AttachOwner` | include/tdlua/common/receiver.h:408-419 | the next owner number, which is one of the owners then, or none after failure |
| `Receiver.Runtime.CreateClient` | include/tdlua/common/receiver.h:491-515 | succeeds exactly for a live owner and a positive identity never used, by the rule of the identity history it shares |
| `Receiver.Runtime.CleanupTerminal` | include/tdlua/common/receiver.h:421-434 | refines the terminal: demand ends and an ownerless client is retired with its statistics folded in |
| `Receiver.Runtime.ForgetClient` | include/tdlua/common/receiver.h:516-541 | refines forget: live work for the terminal stays, everything else of the client ends |
| `Receiver.Runtime.DetachOwner` | include/tdlua/common/receiver.h:435-481 | the loop over the entries refines detaching, for some order that has every entry; without owners left the worker is stopped |
| `Receiver.Runtime.AcquireDriver` | include/tdlua/common/receiver.h:651-663 | a token is given exactly for a live client when the start does not throw; it is the next one and names the client, and a worker runs |
| `Receiver.Runtime.AcquireWatch` | include/tdlua/common/receiver.h:668-689 | likewise; an unknown, terminal or orphaned client and an unjoined generation get an empty lease |
| `Receiver.Runtime.ReleaseDriver` | include/tdlua/common/receiver.h:1059-1069 | refines the release; the token is gone afterwards; an unknown one does nothing |
| `Receiver.Runtime.ReleaseWatch` | include/tdlua/common/receiver.h:1073-1083 | refines the release; the token is gone afterwards; an unknown one does nothing |
| `Receiver.Runtime.RouteFirst` | include/tdlua/common/receiver.h:1219-1236 | refines the first locked phase: received is counted once, a gone client abandons, an unknown one throws |
| `Receiver.Runtime.RouteSecond` | include/tdlua/common/receiver.h:1244-1347 | refines the second locked phase, with demand and ownership looked at again |
| `EventScheduler.EventScheduler.OnePlace` | include/tdlua/common/request_router.h:734-764 | in every reachable state, with any allocation failing: each update or callback reference ever made is live or released, never both; a live one is in exactly one of deferred queue, lane queue, lane callback, selection, task update and task callback, and there once; a released one is in none |
| `EventScheduler.EventScheduler.SerialDelivery` | include/tdlua/common/request_router.h:988-1122 | a serial handler or observer has at most one unfinished task; an idle one has an empty queue; without allocation failure the started updates are a prefix of the bound ones, and bound = started + queued while it is open |
| `EventScheduler.LaneStep` | include/tdlua/common/request_router.h:1006-1081 | one change of one lane, with at most one new task, keeps order and serial delivery of all lanes |
| `EventScheduler.StatusSerial` | include/tdlua/common/request_router.h:1133-1173 | a task that ends leaves its serial lane vacant |
| `EventScheduler.EventScheduler.constructor` | include/tdlua/common/request_router.h:463-562 | a new scheduler owns nothing |
| `EventScheduler.EventScheduler.Release` | include/tdlua/common/request_router.h:563-571 | a reference is released at most once, and only while it is live and in a local variable |
| `EventScheduler.EventScheduler.Discard` | include/tdlua/common/request_router.h:605-613 | everything queued is released; nothing else moves |
| `EventScheduler.EventScheduler.CreateState` | include/tdlua/common/request_router.h:695-721 | the state is published with both slots empty, or nothing is when it throws |
| `EventScheduler.EventScheduler.CopyCallback` | include/tdlua/common/request_router.h:523-546 | a copy of a live callback reference fills the callback slot, or nothing changes when it throws |
| `EventScheduler.EventScheduler.Rollback` | include/tdlua/common/request_router.h:734-749 | the state is gone and exactly what its slots had is released, whichever slots were filled |
| `EventScheduler.EventScheduler.Withdraw` | include/tdlua/common/request_router.h:751-764 | the update is released once, from the local variable or from the response slot, with the copied callback if there is one and the state if there is one |
| `EventScheduler.EventScheduler.CreateEventTask` | include/tdlua/common/request_router.h:923-945 | a complete state that is not ready yet; when a step throws, tasks and callback references are as before and the update is released |
| `EventScheduler.EventScheduler.ScheduleEvent` | include/tdlua/common/request_router.h:1067-1081 | the caller's half: a complete state that finds no place in the ready queue is rolled back there, its update and its copied callback released once each |
| `EventScheduler.EventScheduler.CreateUpdateTask` | include/tdlua/common/request_router.h:947-971 | the place in the ready queue is part of the creation: after any throwing step no task, no place and no reference made on the way is left, and the update is released |
| `EventScheduler.EventScheduler.ReleaseSlots` | include/tdlua/common/request_router.h:584-591 | exactly the references of the two slots are released |
| `References.OnlyPlace` | include/tdlua/common/request_router.h:734-764 | under the ownership invariant no reference is in two places |
| `References.PutCopied` | include/tdlua/common/request_router.h:930-931 | filling a callback slot from a local variable keeps every reference in one place |
| `References.TakeGiven` | include/tdlua/common/request_router.h:584-591 | emptying a response slot into a local variable keeps every reference in one place |
| `EventScheduler.EventScheduler.FinishEvent` | include/tdlua/common/request_router.h:1051-1082 | the oldest queued update of an open serial handler becomes its next task, last in the ready queue; otherwise the handler rests idle with an empty queue; whichever allocation fails, no task is left of it and every reference stays owned or is released |
| `EventScheduler.EventScheduler.FinishLoop` | include/tdlua/common/request_router.h:988-1048 | likewise for an observer, which a fault closes; a stop request closes it with an empty queue and starts nothing |
| `EventScheduler.EventScheduler.Launch` | include/tdlua/common/request_router.h:1006-1026 | on failure the active flag goes back to what it was, no task is left and the update is released |
| `EventScheduler.EventScheduler.StartAtOnce` | include/tdlua/common/request_router.h:1107-1121 | an update that need not wait becomes a task, last in the ready queue; a failure is remembered and leaves lane and order as they were |
| `EventScheduler.EventScheduler.Deliver` | include/tdlua/common/request_router.h:1006-1026 | an update reaching an open lane waits last in the queue of a busy serial one and becomes a task at once otherwise; it is lost only to a failing allocation |
| `EventScheduler.EventScheduler.DeferEvent` | include/tdlua/common/request_router.h:2299-2325 | true exactly when events are on and both allocations succeed, and then the update is last in the queue; otherwise the queue is as it was and nothing leaks |
| `EventScheduler.EventScheduler.Bind` | include/tdlua/common/request_router.h:1084-1122 | delivered to the handler registered now, or released with nothing else changed |
| `EventScheduler.EventScheduler.DrainDeferred` | include/tdlua/common/request_router.h:1124-1131 | every deferred update is bound, in order, to the open handler registered for it, and none to any other lane; without failing allocations none is lost; nothing stays deferred |
| `EventScheduler.EventScheduler.RunFront` | include/tdlua/common/request_router.h:1175-1272 | the front of the ready queue starts, or fails with its setup, and then its lane goes on; its update and its callback are released |
| `EventScheduler.EventScheduler.Retract` | include/tdlua/common/request_router.h:593-603 | the lane is closed; exactly its callback and its queued updates are released |
| `EventScheduler.EventScheduler.Finish` | include/tdlua/common/request_router.h:1133-1173 | the task gets its final status and its lane goes on: the oldest queued update of a serial lane is the next task, or the lane rests idle and empty; a failure or a stop closes an observer |
| `EventScheduler.EventScheduler.Lose` | include/tdlua/common/request_router.h:2632-2648 | an abandoned or externally resumed task fails; nothing else moves |
| `EventScheduler.EventScheduler.OnEvent` | include/tdlua/common/request_router.h:2246-2271 | the new registration is published empty and idle with its own callback, then the old one is closed and its references released; when the reference or the publication fails, registrations and live references are as before |
| `EventScheduler.EventScheduler.OffEvent` | include/tdlua/common/request_router.h:2273-2276 | the registration is gone and closed, exactly its callback and its queued updates released; running tasks stay |
| `EventScheduler.EventScheduler.FinishPoll` | include/tdlua/common/request_router.h:2112-2174 | the selected update is returned, or handed to exactly one new task; a callback that cannot be referenced leaves the selection, a task that cannot be made costs the update and leaves no other reference |
| `EventScheduler.EventScheduler.Observe` | include/tdlua/common/request_router.h:2009-2049 | a poll that has selected nothing selects the update or, when that fails, still nothing; otherwise the selection stays and an open observer has the update delivered |
| `EventScheduler.EventScheduler.StartLoop` | include/tdlua/common/request_router.h:2191-2211 | the new observer is current and open, the old one closed without its callback, a selected update its first and started; when the callback cannot be referenced everything is as before |
| `EventScheduler.EventScheduler.EndConsumer` | include/tdlua/common/request_router.h:2084-2095 | the observer is closed, without its callback, and dropped; a selected update stays selected |
| `EventScheduler.EventScheduler.Detach` | include/tdlua/common/request_router.h:2658-2679 | nothing deferred, no registration, every lane of one closed with nothing in it, the observer closed and empty; the selection stays exactly when asked to |
| `EventScheduler.EventScheduler.Run` | include/tdlua/common/request_router.h:923-1278 | any sequence of calls, the clearing of deferred events by a failed request among them, with any allocation failing, keeps the ownership and order invariants; histories only extend |
| `ManagedStates.WaitFacts` | include/tdlua/common/request_router.h:1351-1410 | a state that a coroutine waits on has a positive count, the wait was not resumed before, and a successful result is still readable |
| `ManagedStates.Removed` | include/tdlua/common/request_router.h:1312-1349 | removing a wait keeps every count equal to the waits on its state |
| `ManagedStates.Registered` | include/tdlua/common/request_router.h:1520-1653 | registering a wait keeps every count equal to the waits on its state |
| `ManagedStates.Detached` | include/tdlua/common/request_router.h:2684-2691 | moving a wait from the timers to the detached notifications keeps every count |
| `ManagedStates.Unpend` | include/tdlua/common/request_router.h:656-661 | settling a request keeps the counter equal to the number of managed pending requests |
| `ManagedStates.LaterTwice` | include/tdlua/common/request_router.h:722-732 | monotone status composes over runs |
| `ManagedStates.ResumedGone` | include/tdlua/common/request_router.h:1459-1472 | a wait that was resumed does not come back, whatever resumed Lua code does |
| `ManagedStates.StateTable.Create` | include/tdlua/common/request_router.h:695-721 | a new live identity, pending unless it is a callback, which is ready at once; all counts kept |
| `ManagedStates.StateTable.Retire` | include/tdlua/common/request_router.h:670-693 | a state is let go exactly when terminal, without handles and without waits |
| `ManagedStates.StateTable.Dispatch` | include/tdlua/common/request_router.h:2389-2436 | a pending identity is routed at most once ever: a raw one is done, a managed one goes to the ready queue, a Future resolved with a readable value, a task still to start; an unknown one changes nothing |
| `ManagedStates.StateTable.ServeReady` | include/tdlua/common/request_router.h:2743-2755 | the front of the ready queue: a terminal state is to be woken, a pending task starts on the coroutine, nothing else changes |
| `ManagedStates.StateTable.EndTask` | include/tdlua/common/request_router.h:1133-1173 | a running task ends once; success keeps a readable result; no other state changes |
| `ManagedStates.StateTable.Register` | include/tdlua/common/request_router.h:1520-1653 | refused for a terminal state and for a coroutine already waiting |
| `ManagedStates.StateTable.Remove` | include/tdlua/common/request_router.h:1312-1349 | the wait is gone from both tables and is counted no more, and the state let go with its last one; it counts as resumed only if it never was before |
| `ManagedStates.StateTable.Resume` | include/tdlua/common/request_router.h:1351-1436 | each wait is resumed at most once; a coroutine not waiting on the state is left alone; a successful value is read before it can be let go with the last wait |
| `ManagedStates.StateTable.Cancel` | include/tdlua/common/request_router.h:2380-2388 | exactly a pending request is withdrawn: neither pending nor live; others stay |
| `ManagedStates.StateTable.ReleaseHandle` | include/tdlua/common/request_router.h:2650-2654 | one handle less, and the state is let go with its last one once it is over and nobody waits; what other holders and waiters may read stays readable |
| `ManagedStates.StateTable.Detach` | include/tdlua/common/request_router.h:2658-2692 | every pending request fails and is queued for waking, the counter is zero; every coroutine keeps its wait, off the timers when its state is terminal; nothing is resumed |
| `ManagedStates.StateTable.Wake` | include/tdlua/common/request_router.h:1459-1472 | with arbitrary calls by each resumed coroutine no wait that was on the state at the start is left; without calls exactly those waits were resumed |
| `ManagedStates.StateTable.DrainNotifications` | include/tdlua/common/request_router.h:2711-2721 | with arbitrary calls by each resumed coroutine the loop ends with no notification left; without calls every one was resumed and no timer touched |
| `ManagedStates.StateTable.CollectExpired` | include/tdlua/common/request_router.h:2723-2733 | with the clock read again for every coroutine: every wait overdue at the first reading is collected and none that is not overdue at the last |
| `ManagedStates.StateTable.Expire` | include/tdlua/common/request_router.h:2723-2741 | with arbitrary calls by each resumed coroutine no wait overdue at the start is left with the timers; without calls each of them was resumed, and none touched that was not overdue at the last reading of the clock |
| `ManagedStates.StateTable.Run` | include/tdlua/common/request_router.h:649-732 | any calls in any order: statuses only advance, terminal ones are final, answered requests and resumed waits stay so |
| `Driving.Schedulers.DriveStep` | include/tdlua/common/request_router.h:1955-2007 | returns on every dependency graph, cycles included, with callbacks creating cores and driving any core again; every flag is restored, thrown or not; every pump got a fair wait; a core already driven is left alone; any other does the whole step: it ticks, with a pump it pumps once as asked, gives every dependency its turn exactly under the guard of the code, pauses when nothing came, and ticks |
| `Driving.Schedulers.Outside` | include/tdlua/common/request_router.h:1909-1923 | Lua and transport code that changes dependencies and deadlines, drives cores and throws keeps all of that |
| `Driving.Schedulers.DriveAll` | include/tdlua/common/request_router.h:1925-1941 | each dependency is stepped once, in order, unless one throws; all flags are restored |
| `Driving.Schedulers.Follow` | include/tdlua/common/request_router.h:1979-2006 | after a receive the round takes place exactly unless a timed poll has its update or the time of the caller is over, and always when the call does not block; a pause follows exactly a pump that brought nothing while the caller has time |
| `Driving.Schedulers.Wait` | include/tdlua/common/request_router.h:1967-1973 | the pump's wait is non-negative and at most the request, the cross-client slice when other clients are waited on, every waiter deadline of this core and its dependencies and the caller's; and no smaller than these allow |
| `Driving.Schedulers.DeadlineBound` | include/tdlua/common/request_router.h:1860-1868 | the largest wait within all deadlines, with the clock running during the loop |
| `Driving.Schedulers.Budget` | include/tdlua/common/request_router.h:1895-1907 | the same over the core and all its dependencies |
| `Driving.Schedulers.Dependencies` | include/tdlua/common/request_router.h:1878-1893 | exactly the other live cores that running tasks wait on, each once |
| `Driving.Schedulers.PumpTransport` | include/tdlua/common/request_router.h:1909-1923 | the pump is called with the given wait; its flag is put back on every way out |
| `CleanupMetadata.SaxMeaning` | include/tdlua/backend/json/cleanup_metadata.h:21-100 | for every tree with unique names, any nesting and order: the automaton answers the root's client and closed flag, or refuses, in terms of lookups in the tree |
| `CleanupMetadata.ReadingsAgree` | src/backend/json/runtime.cpp:134-142 | for every tree with unique names: the automaton and the tree lookup agree if and only if the client is an integer in 1 to 2^31-1 and the type tags fit, or the client is no number or the tags do not fit |
| `CleanupMetadata.DomAccepts` | src/backend/json/runtime.cpp:134-142 | the tree lookup accepts exactly the objects with a numeric or boolean client whose type tags fit, and what it then answers |
| `CleanupMetadata.WellTypedAgree` | src/backend/json/runtime.cpp:134-142 | for well-typed payloads both give the same client and terminal flag |
| `CleanupMetadata.LargeClientDiffers` | src/backend/json/runtime.cpp:134 | a concrete payload on which the two readings differ |
| `CleanupMetadata.EndsExactly` | include/tdlua/backend/json/cleanup_metadata.h:40-83 | with names and types spelled out: for every client and every pair of type names both readings give the client, and call it terminal for updateAuthorizationState with authorizationStateClosed and for no other pair |
| `CleanupMetadata.RootMembers` | include/tdlua/backend/json/cleanup_metadata.h:21-83 | at the root, each of client, type and authorization is decided by the last member that can, and nested values do not disturb it |
| `CleanupMetadata.Inner` | include/tdlua/backend/json/cleanup_metadata.h:48-83 | below the levels that matter an arbitrary tree changes nothing but the key |
| `CleanupMetadata.Read` | include/tdlua/backend/json/cleanup_metadata.h:88-99 | feeding the events to the callbacks, which update fields in place, computes the fold |
| `CleanupMetadata.Reader.OnStartObject` | include/tdlua/backend/json/cleanup_metadata.h:48-55 | callback: refines the step |
| `CleanupMetadata.Reader.OnString` | include/tdlua/backend/json/cleanup_metadata.h:40-47 | callback: refines the step at both levels |
| `LuaJson.MaxIsCount` | src/common/lua_json.cpp:15-35 | positive integer keys have their number as maximum exactly when they are 1 to n |
| `LuaJson.DetectArray` | src/common/lua_json.cpp:15-35 | one pass in any order says whether the keys are 1 to n, any other key saying no |
| `LuaJson.PushedIsNormal` | src/common/lua_json.cpp:47-87 | the table of any tree without nulls can be read in any order and says the tree with _ and @type completed and empty objects as empty arrays |
| `LuaJson.NormalTwice` | src/common/lua_json.cpp:47-87 | that map is idempotent |
| `LuaJson.NormalExactly` | src/common/lua_json.cpp:47-87 | a tree comes back unchanged if and only if no object in it is empty and each has both or neither of _ and @type |
| `LuaJson.PushValue` | src/common/lua_json.cpp:47-87 | the recursive push with in-place tables builds the table that the tree stands for, whatever the member order |
| `LuaJson.Read` | src/common/lua_json.cpp:111-177 | succeeds exactly on supported values and keys; what it gives is the result of some visiting order at every level; when no two keys have one name it is the one tree of the table |
| `LuaJson.LastVisitWins` | src/common/lua_json.cpp:145-168 | where keys share a name, the one visited last decides the member |
| `LuaJson.ReadArray` | src/common/lua_json.cpp:134-144 | elements visited in any order land at their index with no gap left |
| `LuaJson.ReadObject` | src/common/lua_json.cpp:145-168 | members visited in any order; @type is filled from _ exactly when it has no key of its own |
| `LuaJson.PushAndRead` | src/common/lua_json.cpp:47-177 | push then read is the normal form, for every tree without nulls and with 64-bit integers |
| `LuaJson.TypeHasTwoNames` | src/common/lua_json.cpp:71-168 | with the names spelled out: a pushed object has its type under @type and under _, and a table that has it under _ reads back with both |
| `Int64Codec.BitsDecide` | include/tdlua/lua_compat.h:224-258 | significand and total bit counts decide representability in a binary format, by the definition of section 3.3 of IEEE 754-2019 |
| `Int64Codec.OddIsLeast` | include/tdlua/lua_compat.h:224-258 | the odd part is the least significand over all ways to write a magnitude |
| `Int64Codec.FitsBinaryNumber` | include/tdlua/lua_compat.h:234-258 | the bit loops answer true exactly for representable values, the least 64-bit integer and zero included, for any format |
| `Int64Codec.PushInteger` | include/tdlua/lua_compat.h:282-301 | an integer exactly where the Lua integer is wide enough, an exact number exactly where a binary format has the value, the decimal string otherwise; never a rounded value |
| `Int64Codec.CanPush` | include/tdlua/lua_compat.h:260-280 | true exactly when the value is pushed as an integer or an exact number; a format of another radix is never trusted |
| `Int64Codec.ParseDecimal` | include/tdlua/backend/native/codec_runtime.h:236-250 | every decimal string that can be pushed parses to its value |
| `Int64Codec.CanonicalText` | include/tdlua/backend/native/codec_runtime.h:236-250 | the text pushed for a value is the only one without leading zeros and needless signs that parses to it |
| `Int64Codec.ReadsExactly` | include/tdlua/backend/native/codec_runtime.h:232-252 | a Lua value reads as an integer exactly when it is that integer, a number without fraction in the range of the Lua integer, or a text that parses to it |
| `Int64Codec.RoundTrip` | include/tdlua/backend/native/codec_runtime.h:232-252 | on every kind of Lua a pushed value is read back exactly when it went as an integer or as a string or fits the Lua integer; never as another value |
| `Int64Codec.NarrowIntegerRefuses` | include/tdlua/backend/native/codec_runtime.h:232-252 | a concrete value that does not return: 2 to the 40 with binary64 numbers and 32-bit Lua integers |
| `Int64Codec.RangedRoundTrip` | include/tdlua/backend/native/codec_runtime.h:189-216 | a ranged read gives the pushed value exactly when it is in the range and went as an integer or fits the Lua integer; it gives another value exactly when one in the range went as a text and does not fit |
| `Int64Codec.NarrowRangeSafe` | include/tdlua/backend/native/codec_runtime.h:219-229 | a range within the Lua integer type never gives another value |
| `Int64Codec.NarrowTextTruncates` | include/tdlua/backend/native/codec_runtime.h:225-229 | a concrete value: with 32-bit Lua integers 2 to the 40 is pushed as a text and a 53-bit field reads it as zero |
| `Int64Codec.PushThenRead` | include/tdlua/backend/native/codec_runtime.h:189-252 | with 64-bit Lua integers every value returns on every kind of Lua; ranged readers accept exactly their range |
| `Int64Codec.ArrayLength` | include/tdlua/backend/native/codec_runtime.h:288-314 | a length exactly when the keys are 1 to n; a bad key is reported exactly when there is one |

## Left out

Contracts that say less than the code does:

- LuaJson.Read: error texts with paths are not modelled.
- EventScheduler.EventScheduler.Lose: a serial handler whose task is resumed from outside or abandoned may stay active for ever; only safety is claimed there, as the code does not let the handler go on.
- EventScheduler.EventScheduler.OnePlace: only the references of updates and callbacks are tracked; those of coroutines, contexts and task results are not, and a slot of the Lua reference table is never reused here.
- EventScheduler.EventScheduler.StartLoop: the previous observer is closed just before the new one is published instead of just after; nothing else runs in between.
- ManagedStates.StateTable.Run: Lua allocations succeed; the failure paths of resuming a coroutine across two cores, timeouts of field waits and error texts are not modelled.
- Driving.Schedulers.DriveStep: callbacks of one round create finitely many cores, as many as one likes; whether a pump made progress is up to the transport; sleeping takes exactly the back-off time.
- Doorbell.NoLostWakeUp: atomics are sequentially consistent, and the hub mutex is dropped, which allows more interleavings than the code; binding and unbinding happen on the owner thread.
- Int64Codec.ReadInteger: the cast of a text that does not fit keeps its low bits in two's complement, which C++ before 2020 leaves to the compiler.
- GenericBuffer.GenericBuffer.Deactivate: in the destructor the loss of the last reference and the exchange are one step, as nobody else can reach the ticket in between; the stored reason and the drop statistics, which decide nothing, move with the exchange. A decrement that another thread sees late is one that is still under way.
- GenericBuffer.GenericBuffer.Publish: capacity and time to live are positive, as the constructor of the runtime demands; acquisition times of one client do not go back, as the clock is steady.
- RegistryRuns.EnvelopesConserved: the mailbox contents are counts here; module GenericBuffer has the queue itself. The split of dropped envelopes by reason, high-water marks and receive-call statistics are not modelled.
- FailureCleanup.FailureCleanup.Drain: the deadline is reached at the end of the script, which may be of any length; an effect either returns or throws.
- RegistryEffects.StopCarriedThrough: says that such a run exists from every state; that threads get their turn is not modelled.
- Receiver.Runtime.ReapBegin: the worker is told by a flag instead of a thread-local pointer; waiting for the ticket is left to the caller.
- CleanupMetadata.ReadingsAgree: payloads with repeated member names in the root or its authorization state, unsigned numbers past 2^63-1 and malformed text are not covered; a floating-point client outside the range of int, whose conversion C++ leaves undefined, converts to some integer.

Not modelled at all:

- Wrap-around of size and statistics counters; integers here are unbounded except where the code's rule depends on the width (identity blocks, capacity doubling, 32-bit client conversion, 64-bit values).
- Sockets, eventfd, Winsock and poll; descriptor creation is only "usable or not".
- TDLib itself, logging, module residency and the singletons of the backends.
- Lua VM mechanics: yields, longjmp, protected calls, metatables, finalizer order and the continuation variants of Lua 5.1 and LuaJIT.
- Argument parsing of the bindings and the C interface; they forward.
- The client pumps of the two backends, which forward to scheduler and receiver.
- Code emitted by the generator, the vendored compatibility layer and test-only members.
- JSON nulls in the round trip: a null member disappears from a Lua table.
