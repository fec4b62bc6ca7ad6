# Verified model of the sink delivery engine and the PLC broker

The sink (`apps/banto-hub-sink`) writes PLC values to external databases. Each sink
group has a bounded, id-stamped queue; one flusher per DB connection copies a batch
from the front, INSERTs it in one transaction, and acknowledges it by id once the
COMMIT was confirmed. A new configuration replaces groups while rows are in flight:
the next generation shares the queue object if the destination stays the same, and
otherwise the queue is flushed, discarded and counted. The broker
(`crates/banto-broker`, used by `crates/banto-collect`) owns one PLC session per
connection.

The model proves, over every interleaving: delivery at least once with exact
accounting of what was dropped, a bound on duplicates, no row in a foreign table,
every stored row with exactly the columns that were pushed,
push order of every row that was not dropped, rows and statuses kept by whatever
fails in a round, safe reconfiguration and shutdown wherever a call is dropped, and
what a complete trace file proves, the true outcome of every attempt included; and for
the broker, that a job reaches a session at most once and ends exactly once, that
the tentative result of a diagnostic always belongs to the attempt that owns it, and
that every session dials what its connection resolves to.

## Files

| file | what it holds |
|---|---|
| `Rows.dfy`, `RowQueue.dfy` | rows, counters, the queue object and its value, exact ACK |
| `Delivery.dfy`, `Order.dfy`, `Contents.dfy` | whole runs of producers, generations, flushers and the database; push order; stored columns |
| `Plan.dfy` | the difference between two configurations |
| `Groups.dfy` | one generation of a group and its status |
| `Flush.dfy` | `flush_group` on the value of a queue |
| `FlushLog.dfy` | what follows from the log of one connection id, flusher after flusher |
| `Flusher.dfy` | table checks, INSERTs, `round`, on shared objects |
| `Tables.dfy`, `World.dfy`, `Engine.dfy` | `apply_plan`, `status_body`, `shutdown`, a whole run; what the other tasks do meanwhile |
| `Incidents.dfy` | concrete runs in which something is lost or left behind |
| `OnChange.dfy` | the on-change sampler |
| `Trace.dfy` | what is recorded of a run, the writer, what a complete file proves |
| `BrokerTask.dfy`, `Sessions.dfy` | the broker task; session directory and simulator registry |

`dafny verify dfyconfig.toml` checks all of it.

Conventions. In `Engine` an await takes the next element of a script of what the
other tasks do meanwhile; an exhausted script is a call that was dropped there. In
`Flushes` and `Flushers` each step takes the next reply: what the other tasks did to
all queues before the flusher looks, the answer of the DB operation, and what they
did and which groups were registered while it was pending. The others push and
discard (`Harmless`); only a flusher commits. `requires` clauses with `WellFormed`,
`UniqueIds`, `UniqueTags` and `Registered` state what the code relies on: ids are
unique in a Hub answer and in a registry, and a connection is either usable or
unavailable.
`abort` takes effect when it is called; a fingerprint is the tuple that is hashed;
`RowQueue.Push` requires that row ids have not run out, where the source panics.

## What turned out not to hold

* Push order is not unconditional. A row that was counted as dropped while its
  transaction had an unknown end may become visible after later rows did.
  `PushOrders.PushOrder` proves that in every run only such rows are out of order,
  `PushOrders.InOrderIff` gives the exact condition on the run, and
  `PushOrders.LateLandingCanReorder` is a run that violates it.
* The branch of `start_group` that gives up an inherited queue is called
  structurally unreachable in the source (run.rs:592-594). It is reached exactly if
  the connection neither has a flusher that stays nor is started with a port that
  can be built (`GroupTables.InheritsIffServed`, from any state the engine can be
  in). Between two configurations that is a bad port (`GroupTables.InheritsIffBuildable`,
  `Incidents.BadPort`); after a shutdown stopped the flushers it happens with a good
  port, too, if the Hub answers the last push with 422 (`Incidents.GivenUpInShutdown`).
  For the same reason an unchanged group runs on without a flusher after its port
  went bad, and stays broken after the port was corrected
  (`GroupTables.PortChangeTouchesNoGroup`).
* The final status push of `shutdown` is not always the last thing to happen: if
  the Hub answers 422 the configuration is fetched and applied once more
  (run.rs:837-839). A producer runs after the shutdown exactly if that configuration
  starts its group, the group can be set up, and its connection is itself started and
  has a port that can be built (`GroupTables.RefetchRuns`,
  `Engines.Engine.Shutdown`). What it pushes is never sent and never counted
  (`Incidents.RowsAfterShutdown`).
* A table is not always checked after reconnecting (group.rs:88-89, sql.rs:116-118).
  If a connection is edited under its id, its unchanged groups stay ready, and the
  new flusher writes to the new target without a check
  (`Incidents.UncheckedTarget`). `FlushLogs.CheckedHereIff` gives the exact condition:
  the flusher that writes has checked the group iff the group was not ready when that
  flusher took over, or failed since.

## Model

| member | source | states |
|---|---|---|
| `RowQueues.RowQueue.WithDropped` | apps/banto-hub-sink/src/queue.rs:98-102 | a new queue is empty and continues the given count of dropped rows |
| `RowQueues.RowQueue.Push` | apps/banto-hub-sink/src/queue.rs:139-163 | the whole new state: the pushed row itself is stored last, under the next id; what overflows goes from the front and is counted; the rest stays in place; a zero capacity only counts |
| `RowQueues.PushStores` | apps/banto-hub-sink/src/queue.rs:144-162 | after a push there are min(n + 1, capacity) rows, the last is the pushed one with the old next id, the others are the newest of before, and the difference is counted |
| `RowQueues.RowQueue.PeekBatch` | apps/banto-hub-sink/src/queue.rs:167-188 | copies the first rows and the last id, the queue keeps them |
| `RowQueues.RowQueue.Commit` | apps/banto-hub-sink/src/queue.rs:193-204 | removes the rows at the front up to the last id of the batch and nothing else |
| `RowQueues.RowQueue.DiscardAll` | apps/banto-hub-sink/src/queue.rs:209-225 | empties the queue and counts exactly what was in it |
| `RowQueues.CoveredCount` | apps/banto-hub-sink/src/queue.rs:194-197 | the count is where the ids pass the last id of the batch |
| `RowQueues.RunDescends` | apps/banto-hub-sink/src/queue.rs:139-225 | any sequence of pushes, commits of any batch and discards keeps the contiguous id range, never brings an id back, never lowers the count |
| `RowQueues.ExactAck` | apps/banto-hub-sink/src/queue.rs:139-204 | whatever happened since the peek, the commit removes a queued row iff it was in the batch, also among rows with identical fields |
| `RowQueues.RepeatedAckIsNoOp` | apps/banto-hub-sink/src/group.rs:240-285 | committing a batch a second time, however late and through whichever generation, changes nothing |
| `Delivery.LedgerPushKeepsBalance` | apps/banto-hub-sink/src/queue.rs:139-163 | a push keeps every departed id in exactly one of acked, overflowed, discarded, and the count in balance |
| `Delivery.LedgerCommitKeepsBalance` | apps/banto-hub-sink/src/queue.rs:193-204 | so does a commit, and its ids have left the queue for good |
| `Delivery.LedgerDiscardKeepsBalance` | apps/banto-hub-sink/src/queue.rs:209-225 | so does a discard |
| `Delivery.StepAdvancesLedgers` | apps/banto-hub-sink/src/flush.rs:679-743 | no step of producers, flushers, database or reconfiguration moves a queue back |
| `Delivery.StepKeepsSerial` | apps/banto-hub-sink/src/flush.rs:679-743 | of two transactions on one queue the earlier has ended, and if it was confirmed the later starts past it |
| `Delivery.StepKeepsInv` | apps/banto-hub-sink/src/run.rs:441-505 | every step keeps the accounts, the destinations, one transaction per connection, and the counts of stored copies |
| `Delivery.EveryRunKeepsInv` | apps/banto-hub-sink/src/run.rs:441-505 | and so does every run |
| `Delivery.PushesAreStamped` | apps/banto-hub-sink/src/queue.rs:139-163 | the pushes of a run are exactly the ids given out and the rows rejected at zero capacity |
| `Delivery.Conservation` | apps/banto-hub-sink/src/queue.rs:139-225 | pushes + carried = acked + dropped + queued, each row in exactly one of these ways, and the reported count is that total capped at `u64::MAX` |
| `Delivery.NothingLostUncounted` | apps/banto-hub-sink/src/flush.rs:679-743 | a row that is neither stored nor queued was counted as dropped |
| `Delivery.AckedMeansConfirmed` | apps/banto-hub-sink/src/flush.rs:699-712 | an acknowledged row was in a confirmed transaction and is stored |
| `Delivery.DuplicateBound` | apps/banto-hub-sink/src/flush.rs:767-794 | a row is stored at most 1 + (transactions with it that ended unknown) times, however late they land |
| `Delivery.NeverResent` | apps/banto-hub-sink/src/group.rs:29-37 | a confirmed row is in no later transaction, also across a hand-off in the middle of an INSERT |
| `Delivery.DestinationSafety` | apps/banto-hub-sink/src/run.rs:279-292 | each stored row is in the table of the generation that pushed it |
| `Delivery.QueuesAreOpened` | apps/banto-hub-sink/src/queue.rs:98-102 | over whole runs every queue keeps the destination, capacity and carried count it was opened with |
| `Delivery.DropEmpties` | apps/banto-hub-sink/src/queue.rs:209-225 | in any state of a run a discard empties the queue and counts every row in it |
| `Delivery.StaysStopped` | apps/banto-hub-sink/src/run.rs:443-446 | a generation whose producer was aborted never pushes again, whatever happens later |
| `Contents.EveryRunHolds` | apps/banto-hub-sink/src/queue.rs:139-188 | in every run the row queued, sent or stored under an id has exactly the columns of the push with that number |
| `Contents.PushedRowArrives` | apps/banto-hub-sink/src/flush.rs:679-743 | each pushed row is stored or queued with its columns, or was counted as dropped; no copy of it has other columns |
| `PushOrders.EveryRunKeepsNoGaps` | apps/banto-hub-sink/src/flush.rs:679-743 | in every run, below the largest stored id of a queue nothing is missing that is still pending or queued |
| `PushOrders.CaughtUpIff` | apps/banto-hub-sink/src/flush.rs:767-794 | a transaction that lands has all its rows below the largest stored id stored iff its dropped rows are; one not given up on always has |
| `PushOrders.LandingKeepsOrderIff` | apps/banto-hub-sink/src/flush.rs:767-794 | a landing transaction keeps the order of first copies iff what it holds below the largest stored id is stored already |
| `PushOrders.PushOrder` | apps/banto-hub-sink/src/flush.rs:679-743 | in every run, also with late landings, a first copy is out of push order only if the row had been counted as dropped |
| `PushOrders.InOrderIff` | apps/banto-hub-sink/src/flush.rs:679-743 | a run stores first copies in push order iff no transaction that was given up on brings in a dropped row for the first time below the largest stored id |
| `PushOrders.LateLandingCanReorder` | apps/banto-hub-sink/src/flush.rs:713-722 | a concrete run in which a transaction with a lost answer lands late and out of order |
| `Plans.PlanChanges` | apps/banto-hub-sink/src/run.rs:203-271 | the four lists hold exactly what is to stop and to start, ascending and without duplicates |
| `Plans.GroupLists` | apps/banto-hub-sink/src/run.rs:209-252 | the two group lists, with the unchanged groups whose connection id appeared or vanished in both |
| `Plans.ConnectionLists` | apps/banto-hub-sink/src/run.rs:211-234 | the two connection lists |
| `Plans.SortByKey` | apps/banto-hub-sink/src/run.rs:254-263 | ascending, with exactly the same members |
| `Plans.PlanConverges` | apps/banto-hub-sink/src/run.rs:203-271 | removing the stops and adding the starts gives exactly the desired maps |
| `Plans.PlanEmptyIffApplied` | apps/banto-hub-sink/src/run.rs:191-201 | the plan is empty iff applied equals desired |
| `Plans.TouchedIff` | apps/banto-hub-sink/src/run.rs:203-271 | a group is touched iff it is new, removed, changed, or its connection id appeared or vanished; one that stays is stopped iff it is started |
| `Groups.GroupRuntime.WithQueue` | apps/banto-hub-sink/src/group.rs:188-234 | a new generation starts running and unchecked, also with an inherited queue |
| `Groups.SetupProblem` | apps/banto-hub-sink/src/group.rs:188-200 | which configurations are refused, and for which reason |
| `Groups.TableNameIff` | apps/banto-hub-sink/src/sql.rs:54-77 | splitting at dots accepts exactly a segment, or two segments around one dot |
| `Groups.TableNameIsPlain` | apps/banto-hub-sink/src/sql.rs:78-86 | an accepted name holds nothing but letters, digits, underscores and the dot, so quoting it is safe |
| `Flushes.ChunksCover` | apps/banto-hub-sink/src/flush.rs:680-701 | the transactions of a drain hold every row once and in order, and there are `ceil(n / batch_size)` |
| `Flushes.DrainAppends` | apps/banto-hub-sink/src/flush.rs:679-743 | an undisturbed drain sends exactly those transactions and leaves the queue empty, nothing more dropped |
| `Flushes.DrainRefinesAppend` | apps/banto-hub-sink/src/flush.rs:679-743 | a drain is an append of the contents in `ceil(n / batch_size)` transactions |
| `Flushes.OnlyConfirmedLeave` | apps/banto-hub-sink/src/flush.rs:699-741 | however a flush ends, what left the queue is what was confirmed, in order; a failed batch stays in front |
| `Flushes.FlushDescends` | apps/banto-hub-sink/src/flush.rs:679-743 | whatever happens meanwhile a flush only takes rows from the front, and one that ends by itself leaves nothing |
| `Flushes.OnlyLastFails` | apps/banto-hub-sink/src/flush.rs:713-741 | a failed INSERT ends the flush with its scope, and only it fails |
| `Flushes.OnlyConnectionErrorsSpread` | apps/banto-hub-sink/src/flush.rs:459-464 | a flush fails for the connection iff its last INSERT had an error of the connection; a timeout fails the group alone |
| `FlushLogs.ReadyIffChecked` | apps/banto-hub-sink/src/group.rs:296-347 | a generation is ready iff its own check succeeded and nothing failed it since |
| `FlushLogs.OthersDoNotMatter` | apps/banto-hub-sink/src/flush.rs:607-626 | a group nothing happened to keeps its status |
| `FlushLogs.AccountsAdvance` | apps/banto-hub-sink/src/queue.rs:139-225 | whatever the flushers of a connection and the other tasks do, every queue keeps a balanced account and the reported count |
| `FlushLogs.AckedWasConfirmed` | apps/banto-hub-sink/src/flush.rs:699-741 | a row acknowledged since some moment was in an INSERT on its queue that was confirmed since then |
| `FlushLogs.FailuresKeepRows` | apps/banto-hub-sink/src/flush.rs:713-741 | while no INSERT on a queue is confirmed nothing of it is acknowledged, whatever fails; without pushes and discards it does not change at all |
| `FlushLogs.LeftMeansGone` | apps/banto-hub-sink/src/flush.rs:699-761 | what left a queue was confirmed, or was dropped and counted |
| `FlushLogs.DrainedMeansGone` | apps/banto-hub-sink/src/flush.rs:680-684 | once a peek found a queue empty, all that was queued before was confirmed or counted |
| `FlushLogs.TurnIsOwn` | apps/banto-hub-sink/src/flush.rs:608-624 | a turn checks and sends for its own group only, and ends with an empty queue, a check not due or a failure, unless the connection is lost or the flusher stops |
| `FlushLogs.TurnIsolates` | apps/banto-hub-sink/src/flush.rs:619-624 | a group-scoped failure changes the status of no other group and takes no row from another queue |
| `FlushLogs.InsertNeedsOwnCheck` | apps/banto-hub-sink/src/flush.rs:607-761 | over all flushers a connection id ever has, each INSERT went through a generation whose own check succeeded, with no failure since |
| `FlushLogs.OnlyOneCheckHolds` | apps/banto-hub-sink/src/flush.rs:609-612 | at any time at most one check of a generation still holds: a second one needs a failure in between |
| `FlushLogs.WrittenWhereChecked` | apps/banto-hub-sink/src/run.rs:507-547 | that check was made against the target written to iff the flusher that took over since then, if any, has the same target |
| `FlushLogs.CheckedHereIff` | apps/banto-hub-sink/src/group.rs:88-89 | the flusher that writes checked the generation itself iff it was not ready when that flusher took over, or failed since |
| `Flushers.Flusher.First` | apps/banto-hub-sink/src/flush.rs:401-432 | the first flusher of a connection id finds no checked generation |
| `Flushers.Flusher.Successor` | apps/banto-hub-sink/src/run.rs:507-547 | the flusher of an edited connection finds statuses and queues as the previous one left them |
| `Flushers.Flusher.FailConnection` | apps/banto-hub-sink/src/flush.rs:748-761 | exactly the registered groups of the connection back off; no queue changes |
| `Flushers.Flusher.CheckTable` | apps/banto-hub-sink/src/flush.rs:630-676 | ready and running after success; in error until the recheck after a timeout or an error of the group; every group of the connection backing off after an error of the connection; every queue is what the other tasks made of it meanwhile |
| `Flushers.Flusher.Insert` | apps/banto-hub-sink/src/flush.rs:689-741 | a confirmed batch is committed on the shared queue and noted as a flush, any other takes no row and puts the group in error or the connection in backoff; every other queue is what the other tasks made of it meanwhile |
| `Flushers.Flusher.FlushGroup` | apps/banto-hub-sink/src/flush.rs:679-743 | sends, commits and ends exactly as the flush of the queue value does, whatever the other tasks do to all queues |
| `Flushers.Flusher.Attend` | apps/banto-hub-sink/src/flush.rs:608-624 | one group of a round: skipped iff it is not ready and its next check lies ahead, else checked if it is not ready, then flushed if ready |
| `Flushers.Flusher.Round` | apps/banto-hub-sink/src/flush.rs:607-626 | the groups the connection had at the start, and no others, by ascending id; an idle round had the turn of each: its queue was found empty then, its check was not due, or it failed; a lost connection ends the round |
| `Flushers.Flusher.RoundServes` | apps/banto-hub-sink/src/flush.rs:607-626 | after an idle round, all that was queued at its start was confirmed or counted, except for groups that were skipped or failed |
| `Flushers.Flusher.RowsAreKept` | apps/banto-hub-sink/src/flush.rs:748-761 | whatever failed, also the connection, a row that left a queue was confirmed or is counted as dropped |
| `Flushers.Flusher.AttendIsolates` | apps/banto-hub-sink/src/flush.rs:619-624 | a group that fails on its own changes no other status and acknowledges no row of another queue |
| `Flushers.Flusher.LostRoundBacksOff` | apps/banto-hub-sink/src/flush.rs:748-761 | after a lost connection every group of it backs off and is not ready |
| `Incidents.UncheckedTarget` | apps/banto-hub-sink/src/run.rs:244-264 | a run in which a row is written to an edited target that was never checked |
| `GroupTables.StopKeepsPlaces` | apps/banto-hub-sink/src/run.rs:443-485 | stopping a group leaves every row in a registered group |
| `GroupTables.StopOneMore` | apps/banto-hub-sink/src/run.rs:443-485 | one more stopped group keeps the account of heirs, groups to flush and counts passed on |
| `GroupTables.CountsCarryOn` | apps/banto-hub-sink/src/run.rs:487-505 | what was discarded is passed on with exactly the count it then had |
| `GroupTables.ServedAgain` | apps/banto-hub-sink/src/run.rs:507-547 | in step or not, after stopping and starting connections no flusher is left that the configuration does not have |
| `GroupTables.MatchedAgain` | apps/banto-hub-sink/src/run.rs:507-547 | from flushers that are exactly the buildable connections the plan leads to exactly the buildable desired ones |
| `GroupTables.StartOneMore` | apps/banto-hub-sink/src/run.rs:549-553 | one more started group runs iff it can, else it is broken, and changes no other |
| `GroupTables.FollowersReady` | apps/banto-hub-sink/src/run.rs:549-553 | each group to start is free of its old producer and fits what was carried for it |
| `GroupTables.PlanDone` | apps/banto-hub-sink/src/run.rs:441-557 | the steps together leave untouched groups alone and start exactly what can run |
| `GroupTables.CountsDone` | apps/banto-hub-sink/src/run.rs:441-557 | no desired group reports fewer dropped rows than before, and a rebuilt one exactly its old count plus what was discarded |
| `GroupTables.InstalledAfter` | apps/banto-hub-sink/src/run.rs:441-557 | running and broken groups together are the desired ones, each running one with its producer and configuration |
| `GroupTables.RefetchRuns` | apps/banto-hub-sink/src/run.rs:837-839 | a configuration applied without flushers and producers starts exactly the groups whose connection is itself started and can be built |
| `GroupTables.InheritsIffServed` | apps/banto-hub-sink/src/run.rs:592-638 | from any state of the engine, an inheriting group goes on with its queue iff its connection has a flusher or is started and can be built, else it is given up and broken |
| `GroupTables.InheritsIffBuildable` | apps/banto-hub-sink/src/run.rs:592-638 | between two configurations that holds iff the port can be built |
| `GroupTables.PortChangeTouchesNoGroup` | apps/banto-hub-sink/src/flush.rs:120-125 | an unchanged group stays as it is whatever happens to the port, and has a flusher afterwards iff the port can be built |
| `Incidents.BadPort` | apps/banto-hub-sink/src/run.rs:592-638 | a run with good, bad and corrected port: no flusher, then a given-up queue, then a group still broken |
| `Incidents.GivenUpInShutdown` | apps/banto-hub-sink/src/run.rs:846-959 | a run in which a refetch during shutdown gives up an inherited queue with a good port |
| `Incidents.RowsAfterShutdown` | apps/banto-hub-sink/src/run.rs:837-839 | a run in which a producer outlives the shutdown and pushes a row that nobody counts |
| `Engines.Engine.constructor` | apps/banto-hub-sink/src/run.rs:334-362 | an engine without groups is settled |
| `Engines.Engine.Happen` | apps/banto-hub-sink/src/run.rs:404-413 | one step of a producer or flusher keeps every row reachable and lowers no count |
| `Engines.Engine.StopGroup` | apps/banto-hub-sink/src/run.rs:443-485 | a stopped group is succeeded on the same queue object, kept for flushing, or leaves its count |
| `Engines.Engine.CarriesIffHeir` | apps/banto-hub-sink/src/run.rs:448-462 | a queue is handed on iff the desired group has the same destination, can be set up, and its connection is not stopped |
| `Engines.Engine.FlushBeforeDiscard` | apps/banto-hub-sink/src/run.rs:565-583 | exactly the polls that are needed: each while the limit lasts and some group has rows, is running and has a flusher; it ends at the first moment that is not so; every row stays reachable, also if the call is dropped |
| `Worlds.SendableRowsAreWaitedFor` | apps/banto-hub-sink/src/run.rs:487-505 | a running group with a flusher loses rows to a discard only after the whole limit was waited |
| `Worlds.WaitsOnlyForSendableRows` | apps/banto-hub-sink/src/run.rs:565-575 | there is a wait only if some group to discard has rows, is running and has a flusher |
| `Worlds.NoPollTooMany` | apps/banto-hub-sink/src/run.rs:579-582 | and so for every further poll |
| `Engines.Engine.DiscardRetired` | apps/banto-hub-sink/src/run.rs:492-505 | exactly these groups leave the registry, each with exactly the count it then had |
| `Engines.Engine.StopConnections` | apps/banto-hub-sink/src/run.rs:507-513 | exactly these flushers are gone, unless the call is dropped |
| `Engines.Engine.StartConnections` | apps/banto-hub-sink/src/run.rs:528-547 | exactly the connections that can be built get a flusher to the new target |
| `Engines.Engine.StartGroup` | apps/banto-hub-sink/src/run.rs:585-690 | starts iff the connection has a flusher and the group can be set up, else it is broken with everything counted and the right reason |
| `Engines.Engine.StartGroups` | apps/banto-hub-sink/src/run.rs:549-553 | each group runs iff it can, on the inherited queue if there is one, with the count that was passed on |
| `Engines.Engine.ApplyPlan` | apps/banto-hub-sink/src/run.rs:413-557 | dropped anywhere, every row is still in a registered group and at most the broken groups it was to restart are forgotten; completed, the partition of the desired groups, the hand-overs, the exact flushers and the counts are as promised, from any state, and what was discarded had been flushed first as far as that could be; without flushers it always completes |
| `Engines.Engine.ServedIffBuildable` | apps/banto-hub-sink/src/run.rs:528-547 | between two configurations a running group has a flusher, to the applied target, iff its connection can be built |
| `Engines.Engine.StartedAreServed` | apps/banto-hub-sink/src/run.rs:631-638 | whatever state it started from, `apply_plan` starts a group iff its connection then has a flusher and the group can be set up |
| `Engines.Engine.StatusBody` | apps/banto-hub-sink/src/run.rs:792-816 | each running or broken group once, by ascending id: the length and count of its own queue, its state, last flush and error; of a broken one no rows, the count it left, and why |
| `Engines.PhaseLimit` | apps/banto-hub-sink/src/run.rs:133-138 | never more than configured nor than what remains, and one of the two |
| `Engines.StopFlusher` | apps/banto-hub-sink/src/flush.rs:196-235 | completed iff task and pool end by themselves within the timeout together; it takes exactly that time, or else the whole timeout |
| `Engines.Engine.Drain` | apps/banto-hub-sink/src/run.rs:877-899 | exactly the polls that are needed: each while rows are queued and flush time and deadline lie ahead; rows only leave acknowledged |
| `Engines.Engine.StopFlushers` | apps/banto-hub-sink/src/run.rs:900-916 | every flusher once, one after the other, each with what is left of the budget then; clean iff each ended by itself |
| `Engines.StopsInBudget` | apps/banto-hub-sink/src/run.rs:902-909 | however they end, each takes at most one timeout and all of them at most what is left |
| `Engines.CleanMeansEach` | apps/banto-hub-sink/src/run.rs:910-916 | a clean stop means that every flusher ended by itself within one timeout |
| `Engines.Engine.DiscardEverything` | apps/banto-hub-sink/src/run.rs:917-921 | every queue ever made is empty and counted; the total is the exact number of rows that were queued |
| `Engines.Engine.EmptyQueues` | apps/banto-hub-sink/src/run.rs:877-921 | each row was acknowledged from the front or counted as dropped, none is left, and the total is the number of those counted |
| `Engines.Engine.Refetch` | apps/banto-hub-sink/src/run.rs:837-839 | always completes, leaves all queues empty if they were, and runs exactly the groups that `GroupTables.RefetchRuns` names |
| `Engines.Engine.FinalPush` | apps/banto-hub-sink/src/run.rs:818-842 | when it is sent and when it is delivered, and how long that takes, exactly; it changes the engine only if it is answered with 422, and then says exactly which producers run |
| `Engines.Engine.Shutdown` | apps/banto-hub-sink/src/run.rs:846-959 | with a deadline it ends at most one poll past it, whatever DB and Hub do; it reports completion iff subscription, queues, every flusher and the push ended in what was left of the budget at that time; every row was acknowledged or is one of the `lost` ones when the final push goes out; all queues are empty at the end; exactly which producers run after a 422 |
| `Engines.Engine.Run` | apps/banto-hub-sink/src/run.rs:1000-1107 | after any configurations of which the last may be cut short, shutdown leaves every queue ever made empty, and groups that are in all configurations never report a lower count |
| `OnChange.OnChangeGate.Admit` | apps/banto-hub-sink/src/group.rs:487-507 | admits and remembers a changed pair after the interval, otherwise changes nothing |
| `OnChange.SampleOnChange` | apps/banto-hub-sink/src/group.rs:518-552 | rows and gate of one evaluation |
| `OnChange.EveryRowIsASample` | apps/banto-hub-sink/src/group.rs:426-439 | every row ever emitted is the sample of one of the tags at that time, column by column, good unless bad ones are stored, with its own time or else the time of the evaluation |
| `OnChange.RunOnChange` | apps/banto-hub-sink/src/group.rs:594-627 | the rows of a whole generation |
| `OnChange.StreamIsSpaced` | apps/banto-hub-sink/src/group.rs:473-552 | consecutive rows of a tag differ in bits or quality and are at least the interval apart, for any clock |
| `OnChange.OwnTagDecides` | apps/banto-hub-sink/src/group.rs:527-550 | only its own sample changes what is remembered of a tag |
| `OnChange.CurrentUnlessThrottled` | apps/banto-hub-sink/src/group.rs:473-552 | after an evaluation the last row is the current sample iff it was already, there was none, or the interval has passed |
| `Traces.PushReplays` | apps/banto-hub-sink/src/queue.rs:139-163 | replaying what a push records gives the queue after the push, rows included |
| `Traces.CommitReplays` | apps/banto-hub-sink/src/queue.rs:193-204 | the same for a commit |
| `Traces.DiscardReplays` | apps/banto-hub-sink/src/queue.rs:209-225 | the same for a discard |
| `Traces.StepAgrees` | apps/banto-hub-sink/src/queue.rs:117-225 | every move of a run keeps the replay of every queue equal to the queue |
| `Traces.StepKeepsAcks` | apps/banto-hub-sink/src/flush.rs:699-712 | every acknowledged id is in an attempt on its queue that was confirmed |
| `Traces.EveryRunKeepsInv` | apps/banto-hub-sink/src/d5_trace.rs:201-273 | as long as nothing was lost the history replays, and names each attempt and each outcome once |
| `Traces.QueuesAreRuns` | apps/banto-hub-sink/src/queue.rs:139-225 | each queue of a run is what its own pushes, commits and discards, and no others, make of the empty queue it was opened as |
| `Traces.OutcomesAreTrue` | apps/banto-hub-sink/src/d5_trace.rs:254-273 | in every run an attempt is recorded as confirmed iff it was, as not committed iff it was given up before its COMMIT started, as unknown iff it was given up after that |
| `Traces.BoundariesAreTrue` | apps/banto-hub-sink/src/queue.rs:122-135 | each configuration boundary of a queue is recorded, in order, as a hand-off iff the queue was carried over, else as retiring |
| `Traces.SnapshotsAreTrue` | apps/banto-hub-sink/src/queue.rs:122-188 | a boundary lists exactly what is queued then, an attempt the front of it |
| `Traces.LostIff` | apps/banto-hub-sink/src/d5_trace.rs:225-237 | the events of a run lose the trace iff one of them cannot be recorded |
| `Traces.TraceOutput.Record` | apps/banto-hub-sink/src/d5_trace.rs:206-223 | a record is kept in order, or the trace is lost; nothing is recorded after the end |
| `Traces.TraceOutput.Receive` | apps/banto-hub-sink/src/d5_trace.rs:286-307 | the writer knows exactly what reached it; it loses the trace only for an unmatched outcome or too many events |
| `Traces.TraceOutput.Finish` | apps/banto-hub-sink/src/d5_trace.rs:147-159 | completes the file iff it was asked to, nothing was lost and the records are consistent; then the file is all records in order |
| `Traces.WriterFollows` | apps/banto-hub-sink/src/d5_trace.rs:276-307 | one more written record keeps file, size, queues seen and open attempts in step |
| `Traces.Outcome` | apps/banto-hub-sink/src/d5_trace.rs:308-319 | the writer's final condition holds iff all records are consistent and fit into the file |
| `Traces.OutcomesMatch` | apps/banto-hub-sink/src/d5_trace.rs:290-302 | in a consistent history every attempt has exactly one outcome, and later |
| `Traces.CompleteTraceReplays` | apps/banto-hub-sink/src/d5_trace.rs:260-319 | a complete trace replays to the rows and counts of every queue, each attempt ends once and as recorded, each acknowledged row was in a confirmed attempt, boundaries and attempts list what was queued |
| `Traces.TraceRun` | apps/banto-hub-sink/src/d5_trace.rs:206-319 | a complete file holds every event of the run, in order |
| `BrokerTasks.BoundedJob` | crates/banto-broker/src/lib.rs:1807-1822 | Ok iff the call finished with one result per request |
| `BrokerTasks.Settle` | crates/banto-broker/src/lib.rs:2095-2110 | Ok iff the session answered, with its results; lost iff it failed, and then the caller is told its very fault; Disconnected iff there was none |
| `BrokerTasks.JobIsAnswered` | crates/banto-broker/src/lib.rs:1904-2041 | a job calls the session iff there is one, is answered with what came of it, and the session is lost iff the call failed |
| `BrokerTasks.EveryAnswerIsTrue` | crates/banto-broker/src/lib.rs:1836-2078 | in every run each read, write, clock and diagnose job is answered with the session's results iff it was called and the call finished with the expected number, else with why not; the time of a clock job is reported iff it was built and sent |
| `BrokerTasks.ConnectedJobIsServed` | crates/banto-broker/src/lib.rs:1904-2047 | a job that arrives while connected is called and answered at once, and the session stays up iff it did not fail |
| `BrokerTasks.RetriesWhenDue` | crates/banto-broker/src/lib.rs:1847-1903 | after a failed attempt the next one starts iff the delay is over, with the next number |
| `BrokerTasks.LostSessionIsRetried` | crates/banto-broker/src/lib.rs:2042-2047 | a lost session is dialed again without delay, from the first attempt |
| `BrokerTasks.EveryRunKeepsTentative` | crates/banto-broker/src/lib.rs:1934-1977 | in every run the task remembers exactly what its session was told to suppress and was neither told to withdraw nor to keep |
| `BrokerTasks.StopCloses` | crates/banto-broker/src/lib.rs:2050-2078 | a stop closes the session that is up, once, and publishes it |
| `BrokerTasks.BrokerTask.ServeJob` | crates/banto-broker/src/lib.rs:1904-2041 | each kind of job calls, answers and changes ownership as the state machine says |
| `BrokerTasks.BrokerTask.Accept` | crates/banto-broker/src/lib.rs:1934-1955 | installs only for the latest attempt, and withdraws if the requester is gone |
| `BrokerTasks.BrokerTask.HandleJob` | crates/banto-broker/src/lib.rs:2042-2047 | a fatal job drops session, ownership and attempt count, and publishes it |
| `BrokerTasks.BrokerTask.CaptureEpoch` | crates/banto-broker/src/lib.rs:865-884 | an epoch exists only while connected and gets the next number |
| `BrokerTasks.RunBrokerTask` | crates/banto-broker/src/lib.rs:1836-2078 | the loop over any sequence of wake-ups, jobs and captures is the state machine |
| `BrokerTasks.EveryRunKeepsInv` | crates/banto-broker/src/lib.rs:1847-2047 | in every run the published status matches state and attempt, tentative suppression has one owner, the owner is an attempt of the live session |
| `BrokerTasks.SupersededNeverAccepted` | crates/banto-broker/src/lib.rs:1934-1955 | an attempt is never accepted after a later one was captured |
| `BrokerTasks.AcceptIff` | crates/banto-broker/src/lib.rs:1934-1955 | the exact condition of an accept, on the session it was captured on; abandoned, it leaves nothing tentative |
| `BrokerTasks.OnlyCurrentOwnerActs` | crates/banto-broker/src/lib.rs:1956-1977 | discard and finalize work iff the epoch is the owner's and no status was sent since; otherwise nothing changes |
| `BrokerTasks.ServeIsOneJob` | crates/banto-broker/src/lib.rs:1904-2041 | a job touches only the live session, with at most one call, and ends once with an answer that fits |
| `BrokerTasks.EveryRunKeepsLog` | crates/banto-broker/src/lib.rs:1836-2078 | in every run each job reaches a session at most once and ends exactly once; a lost or closed session is never used again |
| `BrokerTasks.NotConnectedTouchesNothing` | crates/banto-broker/src/lib.rs:1904-2041 | Disconnected without touching a session iff not connected |
| `Sessions.FingerprintsAgree` | crates/banto-broker/src/lib.rs:468-505 | two fingerprints are equal iff protocol and simulator table are, each setting whose key is not secret occurs equally often in both, and the references of the secret keys are the same |
| `Sessions.BrokerSimRegistry.Resolve` | crates/banto-collect/src/broker_sim.rs:153-187 | the table is reused only by the same protocol, the target is remembered, and changed iff it differs |
| `Sessions.SessionDirectory.StopAndJoin` | crates/banto-broker/src/lib.rs:1426-1447 | the session of the id is stopped and untracked, no other |
| `Sessions.SessionDirectory.EnsureWith` | crates/banto-broker/src/lib.rs:1320-1377 | refuses exactly unknown protocols and refused settings; a tracked session is reused whatever it dials |
| `Sessions.StaysSynced` | crates/banto-collect/src/sessions.rs:124-170 | synchronising another connection changes nothing for one that is synchronised |
| `Sessions.KeptIffSameTarget` | crates/banto-collect/src/sessions.rs:133-163 | the session of before is kept iff what it was dialed with and what the connection resolves to now have the same target |
| `Sessions.SyncedOneMore` | crates/banto-collect/src/sessions.rs:133-166 | one more synchronised connection keeps the promise for all before it |
| `Sessions.BrokerSessions.SyncOne` | crates/banto-collect/src/sessions.rs:138-163 | the session dials what the connection resolves to now, and is the old one exactly if that already did |
| `Sessions.BrokerSessions.Sync` | crates/banto-collect/src/sessions.rs:124-175 | every handle is of a running session of exactly the stamped target, kept from before iff that has the same protocol, table, public settings and secret references; every other planned connection is a failure, stale is what is tracked but not planned, and all tracked sessions stay coherent |
| `Sessions.BrokerSessions.Remove` | crates/banto-collect/src/sessions.rs:179-184 | these sessions are stopped and their simulators and targets forgotten, the others stay as they are and coherent |
| `Sessions.BrokerSessions.StopAll` | crates/banto-collect/src/sessions.rs:187-190 | afterwards nothing runs |
| `Sessions.SessionDirectory.NeverTwoRunning` | crates/banto-broker/src/lib.rs:1320-1447 | two running sessions of one id are the same session |

## Left out

- SQL, sqlx, TLS, HTTP, WebSocket and driver I/O: each call is one of a few outcomes, chosen by the environment.
- Which SQL errors are connection-scoped: the scope of an error is an input.
- Backoff delays, flush intervals and wake-ups of `Flusher::run`: a round may come at any time; `BrokerTask` takes the delay after a failed connect as an input.
- Subscription handling (`ensure_subscription`), the value view's origin and the DB bridge: the view is an input of the sampler.
- Log lines, the DDL hint, redaction and secrets: no effect on rows or sessions. The errors a flusher reports carry no text.
- Interval sampling, `OnChangeGate::retain_tags` and `RowBatch` slicing: they copy or filter, and no other result needs them.
- Engines.Engine.FinalPush: `refetched` is the configuration that reaches the engine in time after a 422; none means that the push was not answered so or that the fetch failed.
- Engines.Engine.StatusBody: the redaction of error texts is left out.
- Engines.Engine.Run: its lower bound on counts and its empty tables are stated for runs without a 422 on the last push; what a 422 changes is what `Engines.Engine.Shutdown` says.
- Flushers.Flusher.Round: the other tasks act before a flusher looks at a queue and while a DB operation is pending, not between a commit and the status update that follows it. Groups of other connections belong to other flushers and are not part of `beginning`.
- Engines.Engine.Shutdown: graceful shutdown assumes that subscription and Hub answer, where the source waits for them without a limit.
- RowQueues.RowQueue.Push: requires that row ids have not run out, where the source panics; in `Delivery` ids are unbounded.
- Traces.TraceRun: text length and finiteness of a value are one flag of the push, the size of a line is a function of the line, and the writer reads between the moves of a run, not within one; the run is not followed after the trace was lost.
- Sessions.FingerprintOf: the fingerprint is the tuple that is hashed, so hash collisions are not modelled, nor the one of a malformed reference with a reference of that literal text; `simulation` settings never hold secrets.
- BrokerTasks.BrokerTask.CaptureEpoch: epochs of another task are not modelled; the check a handle makes before it sends an accept is left out, the broker task repeats it.
- `u32` attempt numbers of the broker and the watch version are unbounded.
- `SessionDirectory::remove`, `BrokerSessions::shutdown` and races between directory operations: the directory is used one operation at a time.
- Config range checks and the catalogue of drivers: a driver is its secret keys and the settings it accepts.
