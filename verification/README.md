# addrsyncd in Dafny

addrsyncd mirrors interface addresses into kernel policy rules. Address events are coalesced into a
pending map, debounced, cut into batches, prefiltered against the owned addresses, sent over netlink
and committed when acknowledgements arrive; a maintenance machine with six states interleaves startup
cleanup, resync and shutdown cleanup. This project models that reactor together with the kernel it
talks to, and proves what holds over whole runs. Around it stand the chunked resync merge, the
sequence ring and acknowledgement tracker, the netlink codec and rule messages, the CIDR filter, the
log rate limiter and the two readers of the command line.

| file | what it holds |
|---|---|
| `IpKeys.dfy` | addresses, ordered keys, the sorted duplicate-free listing of a key set |
| `SeqRing.dfy`, `AckTracking.dfy` | sequence numbers on a ring of 2^32 - 1, the acknowledgement tracker |
| `ResyncDiff.dfy` | the resumable two-cursor merge and the chunking of deletes |
| `Reactor.dfy` | the state machine: world, steps, runs |
| `Ownership.dfy`, `Jobs.dfy`, `Invariants.dfy` | what each step keeps, put together over runs |
| `Theorems.dfy`, `ResyncRuns.dfy` | the statements about reachable worlds and whole runs |
| `Ledger.dfy` | an observer of runs and the books it keeps |
| `StartupRuns.dfy`, `RequestRuns.dfy`, `Timing.dfy` | startup cleanup, requests, times and sizes, against those books |
| `Accounting.dfy`, `Reports.dfy` | what the daemon reports, against the kernel's answers and the deadlines missed |
| `Orphans.dfy`, `Compensation.dfy` | rules the daemon lost track of, and what a resync can repair |
| `LoopRuns.dfy`, `Stopping.dfy`, `StopRuns.dfy`, `StopEnds.dfy` | the event loop pass by pass, exactly when stopping is clean, and that it ends |
| `Witnesses.dfy` | three runs that break a promise one might expect |
| `Daemon.dfy` | the daemon as an object; each method refines the step of the same operation |
| `Codec.dfy`, `RuleMessages.dfy` | framing, attributes, rule requests and dump parsing, as bytes |
| `CidrFilter.dfy`, `RateLimiter.dfy`, `CommandLine.dfy` | the three smaller refinements |

`dafny verify dfyconfig.toml` checks everything.

## How a run is modelled

A `World` holds the daemon's state, the kernel's rules (`installed`, and `mine` for those this process
added) with its answer to every message, and a history that only the theorems read. A run is a list of
actions: accepted route events, drained acknowledgements, signals, rule changes by other programs, an
expired acknowledgement deadline, a flush, a maintenance turn. Clock readings, hash order, dump
contents, socket outcomes and kernel refusals are arbitrary inputs of the actions.
`Theorems.ReactorStaysReachable` and `Theorems.SliceStaysReachable` tie the code's own step order to
these actions, so a theorem about reachable worlds covers every pass of the loop. Where it matters that
the exit condition is looked at only between passes, as for stopping, runs are lists of passes
(`LoopRuns.Loops`), and `LoopRuns.LoopStaysReachable` ties those to the reachable worlds.

Where a statement is about what a run did and not about what the daemon holds, it is made against the
books of an observer (`Ledger`). The observer sees each action and the worlds before and after it, and
notes the operations each job sends with their message numbers, the messages of batches given up, what
the dumps listed, the requests made and the times of events and batches. No step of the reactor reads
or writes these books; every run has them and they are of runs only.

What the code forces on the statements is spelled out rather than hidden:

- A batch that times out commits nothing, even acknowledgements already seen. Its keys are `loose`
  until a later operation on them succeeds. A send that breaks off makes the delivered keys loose too;
  it fails only while messages are left, so the last message of a failed send was never delivered.
- EEXIST on an add takes no ownership.
- Pending batches may run between two chunks of a resync whose plan is fixed; their keys are `missed`.
- A resync or startup cleanup still queued when shutdown cleanup finishes is run afterwards.

Assumptions: `batch_max` is between 1 and 2^32 - 1 and `debounce <= debounce_max`, both positive;
drained acknowledgements were sent by the kernel for one of the last 2^32 - 1 messages, in any order,
late or repeated; other programs do not touch rules this daemon added.

## Findings

- The project's README (line 68) says `stop` triggers tracked cleanup. The code cleans up what is
  tracked at that moment and then, within the same slice, still goes on to a queued startup cleanup or
  resync, so a stop that arrives during startup can exit with a freshly added rule installed
  (`Witnesses.StopCanLeaveARule`). `StopRuns.StopIsCleanIff` says exactly when stopping is clean: every
  way to the loop's end removes the daemon's rules if and only if, at the turn that begins shutdown
  cleanup, no resync and no startup cleanup is queued, or else the cleanup is one batch of 256 deletes
  that uses up a whole slice, so that the loop leaves before it looks at the queue.
- A timeout is not the only way ownership goes stale: when the send of two or more startup-cleanup
  deletes breaks off after the first, the delivered ones remove rules the daemon goes on owning
  (`Witnesses.BrokenSendLeavesStaleOwnership`); `Theorems.BrokenSendGoesStaleOn` says for exactly which
  keys, never for one deleted by the last message alone.
- An add that times out although the kernel carried it out leaves a rule the daemon never owns again
  (`Witnesses.TimedOutAddIsLost`, and exactly then by `Orphans.TimeoutOrphansIff`). The compensating
  resync's add is answered EEXIST, delete events are prefiltered, no plan and no shutdown list has the
  key (`Orphans.OrphanStays`). `Compensation.ResyncRepairsIff`: a resync takes an unowned address into
  ownership if and only if no rule for it is installed and the batch of its add is in time.
- An ignored network written as an IPv4-mapped IPv6 prefix of 96 or more bits never takes effect,
  because addresses are unmapped before the lookup and networks are not
  (`CidrFilter.NetworkTakesEffectIff`).
- Reading `/proc/<pid>/cmdline` drops empty arguments, so the process scanner reads the words after an
  empty option value in the wrong roles. A daemon started as `addrsyncd -c "" -c a.toml run` is not
  found, and `addrsyncd run ""`, which the parser refuses, counts as a daemon while the process lasts
  (`CommandLine.EmptyArgumentMisleads`). `CommandLine.RecognisedIff` says exactly what is recognised,
  `CommandLine.RecognitionAgreesIff` when that agrees with the parser, and
  `CommandLine.DaemonIsFoundIff` puts it in terms of the options: a daemon is found if and only if its
  empty option values come in neighbouring pairs.

## Model

| member | source | states |
|---|---|---|
| `Theorems.OwnershipIsExact` | src/daemon/service/batch_apply.rs:28-280 | in every reachable world a key neither in flight nor loose is owned iff a rule this process added for it is installed, for any interleaving of events, resync, cleanup, duplicate or late acks and kernel errors |
| `Theorems.BrokenSendGoesStaleOn` | src/daemon/service/resync_cleanup.rs:277-303 | after a broken send of deletes, ownership of a settled key disagrees with the kernel iff the key was owned and an unrefused delete of it was delivered; a key deleted by the last message alone stays settled |
| `Theorems.LooseNeedsACause` | src/daemon/service/batch_apply.rs:186-243 | one step: before shutdown cleanup nothing makes a key loose except a timeout or a broken send |
| `Theorems.HealthyRunIsExact` | src/daemon/service/batch_apply.rs:28-280 | over every run without timeouts and broken sends, until shutdown cleanup, nothing is loose and ownership is exact on every key not in flight |
| `Theorems.CommittedBatchIsComplete` | src/daemon/service/batch_apply.rs:523-544 | a batch committed by acks has every slot seen and input = noop + added + deleted + failed |
| `Theorems.WantIsFold` | src/daemon/service/event_loop.rs:195-198 | the history's wanted set is the sequential fold of the events the run accepted |
| `Theorems.CoalescingPreservesMeaning` | src/daemon/service/batch_apply.rs:39-93 | in-flight operations and then pending applied to ownership give, per key, what the accepted events give one by one, for every schedule, batch size and extraction order |
| `Theorems.CalmRunOwnsSequentialResult` | src/daemon/service/batch_apply.rs:402-414 | with all acks successful and no maintenance operation, a drained daemon owns exactly the sequential result |
| `Theorems.HandOffIsExact` | src/daemon/service/batch_apply.rs:141-184 | a job waits for batch id w iff exactly one of the in-flight maintenance batch and the completed batch has id w; with no job waiting neither exists |
| `Theorems.NoTurnStalls` | src/daemon/service/resync_cleanup.rs:338-425 | the id-mismatch and batch-not-started branches are unreachable |
| `Theorems.ResyncConverges` | src/daemon/service/resync_cleanup.rs:338-426 | when a resync ends, ownership equals its snapshot except on keys whose operation failed or that a pending batch touched |
| `ResyncRuns.UndisturbedResyncIsExact` | src/daemon/service/resync_cleanup.rs:314-426 | from snapshot to end without an interleaved pending batch, timeouts included, a key reaches the snapshot iff the kernel did not turn down the operation planned for it and its batch did not time out |
| `ResyncRuns.GrantedResyncReachesSnapshot` | src/daemon/service/resync_cleanup.rs:314-426 | if all those operations succeed in time the daemon ends up owning exactly the snapshot |
| `ResyncRuns.StaysOnCourse` | src/daemon/service/resync_cleanup.rs:338-426 | throughout, the m-th planned operation is message first + m, what is sent is a prefix of the plan, and ownership is what its answered part achieved, lost batches left aside |
| `Theorems.ShutdownIsExact` | src/daemon/service/resync_cleanup.rs:427-521 | the loop exits only after each key owned when shutdown cleanup began was sent exactly one delete, and removed + noop + failed equals their number, timeouts included |
| `Reports.ShutdownReport` | src/daemon/service/resync_cleanup.rs:427-521 | when the loop exits, shutdown cleanup was seen to send one delete per key owned when it began, in key order; removed is the number answered with success, noop the number answered ENOENT or ESRCH, failed all others, every delete of a timed-out batch among them |
| `Accounting.ShutdownReportIsTrue` | src/daemon/service/resync_cleanup.rs:427-494 | each counter of the shutdown summary is the number of seen deletes with that fate, by the kernel's answers and the messages given up |
| `Accounting.StartupReportIsTrue` | src/daemon/service/resync_cleanup.rs:188-276 | the same for each counter of the last startup cleanup that came to its end |
| `Accounting.ResyncReportIsTrue` | src/daemon/service/resync_cleanup.rs:338-426 | the last finished resync reports as added, deleted and failed the numbers of its operations with these fates |
| `Reports.ResyncReportsSizes` | src/daemon/service/resync_cleanup.rs:639-668 | it reports as target and current the sizes of its snapshot and of what was owned when that was taken |
| `Accounting.RunBalances` | src/daemon/service/batch_apply.rs:141-243 | in every run the totals of a job plus the completed batch, if any, count the operations seen to be sent and settled, answer by answer |
| `Accounting.CountIsComplete` | src/daemon/service/batch_apply.rs:362-509 | every operation sent has exactly one fate |
| `StartupRuns.StartupIsExact` | src/daemon/service/resync_cleanup.rs:77-313 | a startup cleanup that ends without a failure has sent exactly one delete per target its dumps listed, in that order, and has dumped IPv4 and then IPv6 iff it is enabled |
| `Reports.StartupTotalsTargets` | src/daemon/service/resync_cleanup.rs:188-276 | its summary totals the number of targets listed |
| `StartupRuns.StartupTriesAreFew` | src/daemon/service/resync_cleanup.rs:691-720 | over any run a startup cleanup is begun at most four times |
| `StartupRuns.RetryWaits` | src/daemon/service/resync_cleanup.rs:691-720 | it is begun again at least 500 ms after the last attempt ended, and only while every attempt so far failed |
| `RequestRuns.RequestsAreKept` | src/daemon/service/event_loop.rs:131-303 | over every run a resync stands requested exactly from a resync signal, a parse failure, a timed-out batch of events, a snapshot error or the end or failure of a startup cleanup until a turn takes it up; a loss stands until a resync finishes; a stop is never taken back |
| `RequestRuns.RequestIsServed` | src/daemon/service/resync_cleanup.rs:39-76 | the next idle turn with no shutdown or startup cleanup due takes the request up and plans a resync from what is owned to the snapshot taken; if the snapshot fails the request stands again |
| `RequestRuns.FailedSnapshotEndsSlice` | src/daemon/service/resync_cleanup.rs:328-335 | a failed snapshot is the last turn of its slice and leaves the request standing, so it is tried again in a later pass only |
| `Ledger.RunHasBooks` | src/daemon/service/event_loop.rs:20-129 | every run has books, so statements about books cover every run |
| `Ledger.BooksAreOfRuns` | src/daemon/service/event_loop.rs:20-129 | and books are of runs only |
| `StopRuns.StopIsCleanIff` | src/daemon/service/resync_cleanup.rs:33-76 | from the turn that begins shutdown cleanup, with no further event or resync request, every exit of the loop leaves at most refused and previously loose rules, iff nothing is queued at that turn or the cleanup is one batch that fills a slice |
| `StopRuns.QueuedStopCanLeave` | src/daemon/service/resync_cleanup.rs:427-521 | otherwise, for any number of owned keys and any options, passes of the loop end with a rule the daemon still owns |
| `Stopping.QuietStopIsClean` | src/daemon/service/event_loop.rs:66-83 | with nothing queued every exit is clean, timeouts and signals to stop included |
| `Stopping.OneBatchStopIsClean` | src/daemon/service/resync_cleanup.rs:456-494 | a cleanup of one batch of 256 exits before the queue is looked at, and clean |
| `LoopRuns.LoopStaysReachable` | src/daemon/service/event_loop.rs:20-90 | the loop, pass by pass, stays within the reachable worlds |
| `StopEnds.StopComesToAnEnd` | src/daemon/service/event_loop.rs:66-83 | with nothing queued, every batch settled before the next slice and time in every slice, the loop makes at most as many passes as keys were owned and has left, clean, when it has made that many |
| `Theorems.QuietExitLeavesNothing` | src/daemon/service/event_loop.rs:76-83 | the state at such an exit: nothing owned, and only refused or previously loose rules |
| `Theorems.ExitLeavesWhatIsOwned` | src/daemon/service/event_loop.rs:76-83 | what stays behind at any other exit: outside loose keys exactly the rules still owned |
| `Orphans.OrphanStays` | src/daemon/service/batch_apply.rs:39-93 | over every run in which no startup dump lists it, a rule of the daemon's that it does not own stays installed and unowned, through resyncs, events and shutdown cleanup |
| `Orphans.TimeoutOrphansIff` | src/daemon/service/batch_apply.rs:186-243 | a timeout makes an unowned key such an orphan iff the kernel carried out an add of it from the batch, or held the daemon's rule before and carried out no delete; for a settled key the add is the one cause |
| `Orphans.RunOneAction` | src/daemon/service/batch_apply.rs:39-93 | in every run the batch in flight has one action per key |
| `Orphans.AddsBounce` | src/daemon/service/batch_apply.rs:426-438 | adds of an installed key are answered with an error and leave its rule |
| `Orphans.DeleteIsDropped` | src/daemon/service/batch_apply.rs:75-93 | no delete of a key that is not owned survives the prefilter |
| `Compensation.ResyncRepairsIff` | src/daemon/service/resync_cleanup.rs:314-426 | a resync without an interleaved pending batch takes an unowned address of its snapshot into ownership iff no rule for it was installed when it began and the batch of its add did not time out |
| `Witnesses.StopCanLeaveARule` | src/daemon/service/resync_cleanup.rs:39-76 | a run in which a stop request at startup exits with shutdown cleanup done, nothing loose and the daemon's rule installed |
| `Witnesses.BrokenSendLeavesStaleOwnership` | src/daemon/service/resync_cleanup.rs:277-303 | a run without any timeout, in which the send of two deletes breaks off after the first, and after which an owned key has no rule |
| `Witnesses.TimedOutAddIsLost` | src/daemon/service/batch_apply.rs:186-243 | a run in which the add of one event is carried out and times out: its rule is installed and unowned, and a compensating resync is asked for |
| `Theorems.DebounceIsExact` | src/daemon/service/batch_apply.rs:546-569 | an unforced flush is due exactly from the earlier of last touch + debounce and epoch + debounce_max |
| `Theorems.StreamCannotPostpone` | src/daemon/service/event_loop.rs:211-217 | from any reachable world with pending entries, every run without a flush keeps them and the debounce_max limit, so a flush is due from it on |
| `Theorems.BurstCannotPostpone` | src/daemon/service/event_loop.rs:211-217 | in the list of arrivals and cuts, arrivals alone never move the epoch that limit counts from |
| `Timing.FlushIsDueByArrivals` | src/daemon/service/event_loop.rs:199-217 | over every run an unforced flush is due iff events came in since the map was last empty and the last arrival or cut is debounce ago, or the first arrival since then or last cut is debounce_max ago |
| `Timing.BatchesGetTheirTime` | src/daemon/service/batch_apply.rs:28-184 | a batch in flight has at most batch_max operations and is given up exactly from five seconds after it was sent |
| `LoopRuns.OverdueBatchIsGivenUp` | src/daemon/service/event_loop.rs:92-129 | a pass changes nothing while the batch in flight still has time, and goes on from the timed-out world once it is overdue |
| `LoopRuns.PassCutsIff` | src/daemon/service/event_loop.rs:92-129 | otherwise a pass cuts batch_max pending entries, or all, iff a flush is due or a shutdown is requested, and leaves the map alone if not |
| `LoopRuns.ShutdownFlushesAtOnce` | src/daemon/service/batch_apply.rs:546-569 | once a shutdown is requested, a pass with nothing in flight cuts a batch from a non-empty pending map at once |
| `Theorems.TimerIsLeast` | src/daemon/service/batch_apply.rs:571-598 | the timer is armed for the least of the times at which something falls due, and disarmed iff there is none |
| `Theorems.NoLostWakeUp` | src/daemon/service/batch_apply.rs:571-598 | pending is non-empty iff both debounce deadlines are set; the timer is disarmed iff nothing is pending, in flight, under maintenance, requested or awaited |
| `Theorems.WakesInTime` | src/daemon/service/batch_apply.rs:571-598 | whatever falls due at t is met by a wake-up no later than t, or one tick from now |
| `Theorems.SliceIsBounded` | src/daemon/service/resync_cleanup.rs:33-526 | a maintenance slice takes at most 1285 turns even if its clock stands still |
| `Reactor.TurnUsesUp` | src/daemon/service/resync_cleanup.rs:33-526 | every turn that continues lowers the measure of remaining operations and job rank |
| `Theorems.SliceStaysReachable` | src/daemon/service/resync_cleanup.rs:33-526 | a whole slice leads from reachable worlds to reachable worlds |
| `Theorems.ReactorStaysReachable` | src/daemon/service/event_loop.rs:92-129 | one pass of timeout, flush and slice leads from reachable worlds to reachable worlds |
| `Invariants.StepKeeps` | src/daemon/service/event_loop.rs:20-129 | every action keeps the combined invariant on flow, jobs and timers |
| `Invariants.ReachableInv` | src/daemon/service/event_loop.rs:20-129 | hence every reachable world that has not failed satisfies it |
| `Ownership.RunEffect` | src/netlink/rule.rs:163-213 | a batch changes the daemon's rules exactly by the operations the kernel answered with success |
| `Ownership.DeletesRemove` | src/netlink/rule.rs:163-213 | a partly delivered batch of deletes removes a key iff an unrefused delete of it was delivered |
| `Ownership.DrainKeepsGenuine` | src/netlink/rule.rs:215-263 | late, repeated and reordered acks fill the tracker only with the kernel's own answers to this batch |
| `Ownership.FinishOwns` | src/daemon/service/batch_apply.rs:245-280 | committing keeps ownership equal to the kernel outside loose keys, and settles loose keys that succeeded |
| `Ownership.TimeoutKeeps` | src/daemon/service/batch_apply.rs:186-243 | a timeout keeps the flow invariant by making its keys loose |
| `Ownership.CutKeepsOutlook` | src/daemon/service/batch_apply.rs:39-93 | extracting and prefiltering a batch leaves the eventual outcome of every key unchanged |
| `Jobs.TallyIsComplete` | src/daemon/service/batch_apply.rs:362-509 | the four counters of a commit add up to the prefiltered operations plus the batch |
| `Jobs.TallyCounts` | src/daemon/service/batch_apply.rs:362-489 | added and deleted count the successful operations of that kind, noop the prefiltered ones and those answered EEXIST, ENOENT or ESRCH |
| `Jobs.CommitIsBalanced` | src/daemon/service/batch_apply.rs:362-509 | a committed batch is balanced, with unseen slots counted as failed |
| `Jobs.FinishResyncs` | src/daemon/service/batch_apply.rs:245-280 | committing a batch keeps the resync invariant: outside missed keys, ownership is the target wherever nothing is left to do |
| `DaemonObject.Daemon.constructor` | src/daemon/service.rs:217-238 | a new daemon is in an initial world |
| `Reactor.OutcomesAreCalls` | src/netlink/socket.rs:275-314 | every outcome of a send is that of some list of calls, and every list of calls has its outcome |
| `DaemonObject.Daemon.SendManyRaw` | src/netlink/socket.rs:275-314 | the loop sends what the calls take in all; a send that fails left its last message unsent |
| `DaemonObject.Daemon.StartBatch` | src/daemon/service/batch_apply.rs:141-184 | sending makes the batch the one in flight with a fresh block and tracker, or breaks off with fewer than all messages delivered |
| `DaemonObject.Daemon.PrefilterInPlace` | src/daemon/service/batch_apply.rs:75-93 | the in-place compaction keeps exactly the operations that are not redundant, in order |
| `DaemonObject.Daemon.StartPendingBatch` | src/daemon/service/batch_apply.rs:28-139 | refines the flush step |
| `DaemonObject.Daemon.CommitAckOutcomes` | src/daemon/service/batch_apply.rs:362-509 | ownership changes by the successful operations and the counters are the tally |
| `DaemonObject.Daemon.FinishInflightBatch` | src/daemon/service/batch_apply.rs:245-280 | refines the commit step, handing maintenance results over |
| `DaemonObject.Daemon.HandleAckTimeout` | src/daemon/service/batch_apply.rs:186-243 | refines the timeout step: nothing is committed, a pending batch asks for a compensating resync |
| `DaemonObject.Daemon.DrainRuleAcksOnce` | src/daemon/service/batch_apply.rs:523-544 | refines the acknowledgement step |
| `DaemonObject.Daemon.HandleRouteEvents` | src/daemon/service/event_loop.rs:131-248 | refines the route step: the last event per key wins and the deadlines are armed |
| `DaemonObject.Daemon.HandleSignal` | src/daemon/service/event_loop.rs:250-303 | refines the signal step, whose requests `RequestRuns.RequestsAreKept` follows |
| `DaemonObject.Daemon.ShouldFlushPending` | src/daemon/service/batch_apply.rs:546-569 | decides the flush predicate |
| `DaemonObject.Daemon.NextWakeUp` | src/daemon/service/batch_apply.rs:571-598 | computes the deadline the wake-up theorems are about |
| `DaemonObject.Daemon.PrepareShutdownCleanupJob` | src/daemon/service/resync_cleanup.rs:670-689 | gives up the owned keys to a sorted delete list and starts the job |
| `DaemonObject.Daemon.ScheduleStartupCleanupRetry` | src/daemon/service/resync_cleanup.rs:691-720 | refines the retry step, whose limit and delay `StartupRuns` pins over runs |
| `DaemonObject.Daemon.TakeIdleTurn` | src/daemon/service/resync_cleanup.rs:39-76 | refines the idle turn and its priorities |
| `DaemonObject.Daemon.TakeCollectTurn` | src/daemon/service/resync_cleanup.rs:77-187 | refines the dump collection turn of `StartupRuns.StartupIsExact` |
| `DaemonObject.Daemon.TakeDumpApplyTurn` | src/daemon/service/resync_cleanup.rs:188-313 | refines the startup delete turn of `StartupRuns.StartupIsExact` and `Accounting.StartupReportIsTrue` |
| `DaemonObject.Daemon.TakeBuildTurn` | src/daemon/service/resync_cleanup.rs:314-337 | refines the planning turn with sorted snapshot and owned keys |
| `DaemonObject.Daemon.TakeResyncTurn` | src/daemon/service/resync_cleanup.rs:338-426 | refines the resync turn of `ResyncRuns` and `Accounting.ResyncReportIsTrue` |
| `DaemonObject.Daemon.TakeCleanupTurn` | src/daemon/service/resync_cleanup.rs:427-521 | refines the shutdown delete turn of `Reports.ShutdownReport` |
| `DaemonObject.Daemon.DriveMaintenanceSlice` | src/daemon/service/resync_cleanup.rs:23-526 | the loop refines the slice and terminates by the measure |
| `DaemonObject.Daemon.DriveReactor` | src/daemon/service/event_loop.rs:92-129 | one pass refines timeout, flush and slice in that order |
| `ResyncDiff.ChunkIsPrefix` | src/daemon/service/resync_cleanup.rs:750-799 | a chunk is the next piece of the remaining operations, as long as the room allows |
| `ResyncDiff.EmptyChunkMeansDone` | src/daemon/service/resync_cleanup.rs:750-799 | with positive room a chunk is empty iff nothing is left, and then both cursors are at the end |
| `ResyncDiff.RestIsDifference` | src/daemon/service/resync_cleanup.rs:750-799 | the merge of sorted lists emits exactly the set difference, in both directions |
| `ResyncDiff.RestIncreases` | src/daemon/service/resync_cleanup.rs:750-799 | the operations come in strictly increasing key order |
| `ResyncDiff.ChunkedDiffIsSetDifference` | src/daemon/service/resync_cleanup.rs:750-799 | for any cutting into chunks the whole is strictly increasing, adds target minus current, deletes current minus target, and turns current into target |
| `ResyncDiff.ChunksMakeProgress` | src/daemon/service/resync_cleanup.rs:750-799 | enough positive chunks always finish the merge |
| `ResyncDiff.FillResyncChunk` | src/daemon/service/resync_cleanup.rs:750-799 | the loop computes the chunk and moves both cursors to match |
| `ResyncDiff.FillTrackedCleanupChunk` | src/daemon/service/resync_cleanup.rs:801-818 | the loop emits the next deletes in order and moves the offset to match |
| `SeqRing.AdvanceIsWire` | src/netlink/codec.rs:303-309 | advancing on the ring is counting, for any number of steps and across the wrap |
| `SeqRing.IndexSeqInverse` | src/netlink/codec.rs:176-196 | index to sequence and back are mutual inverses for every first number and length up to 2^32 - 1, never using 0 |
| `SeqRing.NewestBlockOwnsItsAcks` | src/netlink/codec.rs:176-196 | of the last full turn of numbers exactly the newest block's map to an index, each to its own |
| `SeqRing.BlocksDisjoint` | src/netlink/codec.rs:284-309 | blocks reserved within one turn share no number |
| `SeqRing.SeqCounter.ReserveBlock` | src/netlink/codec.rs:284-292 | a reservation hands out the next consecutive numbers |
| `AckTracking.PendingCountsUnseen` | src/netlink/rule.rs:94-131 | after any ack stream pending equals the number of unseen slots |
| `AckTracking.FirstAckWins` | src/netlink/rule.rs:215-263 | a slot is seen iff some ack addressed it and keeps the first one's status |
| `AckTracking.SameFirstAcksSameTracker` | src/netlink/rule.rs:215-263 | streams with the same first ack per slot leave the same slots |
| `AckTracking.SwapOrDuplicate` | src/netlink/rule.rs:215-263 | swapping acks of distinct slots or repeating one changes no slot |
| `AckTracking.AnomaliesAreCounted` | src/netlink/rule.rs:116-122 | the two anomaly counters are the numbers of acks that name no message of the batch and of messages that are no ack |
| `AckTracking.AckTracker.Prepare` | src/netlink/rule.rs:94-102 | a prepared tracker has every slot open |
| `AckTracking.AckTracker.MarkStatus` | src/netlink/rule.rs:124-131 | marking refines the first-wins update |
| `AckTracking.AckTracker.Drain` | src/netlink/rule.rs:215-263 | draining refines receiving the messages one by one |
| `IpKeys.KeyBijection` | src/ip_key.rs:9-23 | addresses and keys are in bijection |
| `IpKeys.SortedListingUnique` | src/daemon/service/resync_cleanup.rs:651-659 | a set of keys has only one sorted duplicate-free listing |
| `IpKeys.SortedListing` | src/daemon/service/resync_cleanup.rs:651-659 | copying, sorting and removing duplicates yields that listing |
| `Codec.AttrsRoundTripIff` | src/netlink/codec.rs:256-278 | a list of attributes is parsed back in order without error iff no payload exceeds 65531 bytes |
| `Codec.WalkIsExact` | src/netlink/codec.rs:256-278 | the walk ends without error and hands out these attributes iff the bytes are these attributes one after the other, each padded to four bytes somehow |
| `Codec.WalkNlas` | src/netlink/codec.rs:256-278 | the loop hands out exactly the parsed attributes and reports malformed ends |
| `Codec.HeaderRoundTrip` | src/netlink/codec.rs:53-83 | a message header is read back from its sixteen bytes |
| `Codec.FramesAreSafe` | src/netlink/codec.rs:53-83 | on arbitrary bytes the views are in bounds, in order and disjoint, and an error is the last item |
| `Codec.FramesAreExact` | src/netlink/codec.rs:53-83 | the iterator yields these messages and no error iff the bytes are these messages one after the other, each as long as its header says and padded somehow |
| `Codec.FramesOfConcat` | src/netlink/codec.rs:53-83 | any run of aligned messages is taken apart again, each with its header, body and offset |
| `Codec.MessageIter.Next` | src/netlink/codec.rs:56-82 | each call yields the next item, shrinks the slice and stops after an error |
| `Codec.Buffer.AppendNla` | src/netlink/codec.rs:205-214 | the buffer grows by exactly the encoded attribute |
| `RuleMessages.RequestOnTheWire` | src/netlink/rule.rs:294-354 | read as one frame, a request has type 32 and flags 0x605 for an add, type 33 and flags 0x5 for a delete, and the given number; then twelve bytes for family, prefix length, table and the rest; then attributes 1, 6 and 15 with octets, preference and table |
| `RuleMessages.RequestBytes` | src/netlink/rule.rs:294-354 | the same as plain bytes, from the first to the last |
| `RuleMessages.BuildRuleMessageInto` | src/netlink/rule.rs:294-354 | the buffer grows by exactly the bytes of the rule request that `RequestBytes` lists |
| `RuleMessages.RuleMessageRoundTrip` | src/netlink/cleanup.rs:120-174 | a built request is framed as one message and read back as its address under its own context and family, and as nothing under any other; taken for a dump message only an add is a rule |
| `RuleMessages.RequestsAreUnambiguous` | src/netlink/rule.rs:294-354 | equal requests have the same context, address, action and sequence |
| `RuleMessages.ParseCleanupRuleAddr` | src/netlink/cleanup.rs:120-174 | the parser with its callback computes the specified match, mismatch or error |
| `RuleMessages.DumpedRuleIsOursIff` | src/netlink/cleanup.rs:120-174 | a dumped rule is taken for the daemon's rule on an address iff it is for one address, well formed, and its last preference, table and destination are the daemon's and that address; it is an error iff such a rule is ill formed |
| `RuleMessages.TargetsAreExact` | src/netlink/cleanup.rs:46-75 | the targets of a dump are exactly its matching addresses, none twice |
| `RuleMessages.CleanupDumpScratch.BeginFamily` | src/netlink/cleanup.rs:28-32 | a new family starts with nothing seen |
| `RuleMessages.CleanupDumpScratch.OnMessage` | src/netlink/cleanup.rs:57-70 | each message extends the emitted targets by at most its own new address |
| `CidrFilter.MaskRoundsDown` | src/netlink/addr.rs:123-141 | shifting the all-ones word and conjunction round down to a multiple of a power of two |
| `CidrFilter.HitIffHeld` | src/netlink/addr.rs:99-120 | looking up the masked address in the buckets is the same as comparing it with every network of its family |
| `CidrFilter.NewMatcher` | src/netlink/addr.rs:63-97 | the buckets file exactly the masked networks by prefix, longest first |
| `CidrFilter.Contains` | src/netlink/addr.rs:99-120 | accepts an address iff some configured network of its family agrees on its leading prefix bits |
| `CidrFilter.NewFilters` | src/netlink/addr.rs:29-45 | the filter holds the listed addresses unmapped and a matcher for the networks |
| `CidrFilter.ShouldIgnoreAddr` | src/netlink/addr.rs:47-53 | ignores an address iff, unmapped, it is listed or held by a network |
| `CidrFilter.NetworkTakesEffectIff` | src/netlink/addr.rs:336-344 | a network can hold some address iff it is not an IPv4-mapped one of 96 or more bits |
| `RateLimiting.RateLimiter.ShouldLog` | src/logger.rs:199-234 | the slot scan, the append and the oldest-first eviction compute the specified decision |
| `RateLimiting.StoredKeysAreDistinct` | src/logger.rs:199-234 | in every history the stored keys are distinct and fit the sixteen slots |
| `RateLimiting.EarlyRepeatNeedsRivals` | src/logger.rs:199-234 | two acceptances of a key closer than the interval imply sixteen other distinct keys accepted in that window |
| `RateLimiting.SuppressionIsJustified` | src/logger.rs:199-234 | a suppressed line had an accepted line of its key within the interval |
| `RateLimiting.ExactWithFewKeys` | src/logger.rs:199-234 | with at most sixteen keys a line passes iff no line of its key passed within the interval |
| `RateLimiting.OneKeyTooMany` | src/logger.rs:220-234 | seventeen keys suffice for a line to pass again at once, so the bound of sixteen is the best possible |
| `CommandLine.ScanRunWorkDir` | src/control.rs:236-275 | the two scanning loops compute the specified scan |
| `CommandLine.ScannerIsExact` | src/control.rs:236-275 | the scan yields w iff the arguments are a rendering of options, `run` and daemon flags whose last work directory is w |
| `CommandLine.ParserIsExact` | src/cli.rs:82-217 | the parser accepts exactly options followed by `stop`, `resync`, `status`, `run` with daemon flags, `cleanup` with modes of which the last decides, or an accepted `pbr` list, each as that command with the last work directory and config given; it shows help or version exactly when asked for it, and refuses the rest |
| `CommandLine.ParseArgs` | src/cli.rs:82-167 | the loop and dispatch compute the parse that `ParserIsExact` pins |
| `CommandLine.ParseRunCommand` | src/cli.rs:169-185 | the flag loop computes the specified parse |
| `CommandLine.ParseCleanupCommand` | src/cli.rs:187-217 | the mode loop computes the specified parse |
| `CommandLine.FileNameIff` | src/control.rs:278-284 | the program name is the last component of the path, empty and single-dot components at the end left aside, and there is none behind `..` |
| `CommandLine.ReadersAgree` | src/control.rs:236-275 | for every argument vector the scanner finds w iff the parser returns a run command with work directory w |
| `CommandLine.ReadCmdlineArgs` | src/control.rs:220-234 | the split yields the non-empty parts between zero bytes |
| `CommandLine.CmdlineRoundTripIff` | src/control.rs:220-234 | the argument vector is read back iff no argument is empty |
| `CommandLine.RecognisedIff` | src/control.rs:197-275 | a process is recognised with work directory w iff its non-empty arguments are the program's name and a run command with last work directory w |
| `CommandLine.RecognitionAgreesIff` | src/control.rs:197-275 | recognition and parser agree on every work directory iff leaving out the empty arguments makes the same run command or none |
| `CommandLine.DaemonIsFoundIff` | src/control.rs:197-275 | a daemon with plain option values is found under its work directory iff its empty option values come in neighbouring pairs, and otherwise not at all |
| `CommandLine.ProcessIsRecognised` | src/control.rs:197-275 | in particular a process without empty arguments is found iff its parser runs there |
| `CommandLine.EmptyArgumentMisleads` | src/control.rs:220-275 | a daemon that is not recognised, and a refused command line that is |

## Left out

- Sockets, epoll, timerfd, signalfd, `sendmmsg` and `recvmmsg`: their outcomes are inputs of the steps.
- The dump engine: a collected dump is an arbitrary list, and no claim is made that a dump completes.
- Datagrams beyond the route budget, `RouteBudgetState` and ring sizing: the input is the sequence of accepted events.
- The blocking `cleanup_rules` path: the same counting as tracked cleanup, plus socket waiting.
- The endless outer loop: one pass is `DriveReactor`, and its exit condition is `Exits`.
- Log output (the counters of finished startup cleanups and resyncs are kept in `Report` instead), metrics such as dropped counts and durations, extended-ack text and the classification of ack wait errors.
- TOML configuration, policy-routing commands, process start, the ready pipe, `/proc` enumeration and usage texts.
- Hash-map order and the clock are parameters; `usize` counters and times are unbounded integers.
- Codec and rule messages: little-endian targets only; native byte order elsewhere is not modelled.
- Address events: the attribute parsing of `parse_addr_event` and the validity test of addresses would only add easy members.
- CommandLine.ParseArgs: how the option list of `pbr` turns out is a parameter, and arguments are character strings, so lossy decoding of non-UTF-8 arguments is not modelled.
- Options::load, which refuses an empty config or work directory after parsing, is modelled only as the condition that the work directory in use is not empty.
- CommandLine.DaemonIsFoundIff: is for option values that do not themselves read as an option or as `run`; for the others `CommandLine.RecognisedIff` says what is recognised.
- CommandLine.ScanRunWorkDir: yields the work directory as written; resolving it against the process directory is not modelled.
- Theorems.ResyncConverges: pending batches may run between chunks, so it says nothing on the keys they touch; `ResyncRuns.UndisturbedResyncIsExact` covers the case without them.
