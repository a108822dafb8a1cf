/**
 Stops that are not clean: with something queued, and cleanup not filling a
 slice, the loop can go on to a resync that installs a rule, and leave it.
 */
module StopRuns {
  import opened IpKeys
  import opened SeqRing
  import opened AckTracking
  import opened ResyncDiff
  import opened Reactor
  import opened Ownership
  import opened Jobs
  import opened Invariants
  import opened LoopRuns
  import opened Stopping

  const SLICE: nat := MAINTENANCE_OP_BUDGET

  /** Every turn has time, finds an empty dump and the single address k, and sends without a hitch. */
  function TickFor(k: IpKey, now: nat): Tick {
    Tick(true, now, true, DumpDone, [], Addresses([k]), Send(true, 0, NoRefusal, 0))
  }

  // -------------------------------------------------------------------
  // Acknowledging a whole batch
  // -------------------------------------------------------------------

  ghost function AllAcks(x: World): seq<AckMsg>
    requires BatchInv(x) && x.flow.inflight.Some?
  {
    var first := x.hist.mark.first;
    seq(|x.flow.inflight.value.ops|, i requires 0 <= i < |x.flow.inflight.value.ops| =>
      Ack(Wire(first + i), x.kernel.replies[first + i]))
  }

  lemma {:induction false} HitIsSeen(t: Tracker, firstSeq: Word, len: nat, msgs: seq<AckMsg>, m: nat, i: nat)
    requires TrackerFits(t, len) && i < len && m < |msgs| && Hits(msgs[m], firstSeq, len, i)
    ensures var r := ReceiveAll(t, firstSeq, len, msgs); |r.seen| == len && r.seen[i]
    decreases |msgs|
  {
    var n := |msgs| - 1;
    PendingCountsUnseen(t, firstSeq, len, msgs[..n]);
    if m < n {
      HitIsSeen(t, firstSeq, len, msgs[..n], m, i);
    }
  }

  lemma AllAcksFinish(x: World)
    requires BatchInv(x) && x.flow.inflight.Some?
    ensures forall i :: 0 <= i < |AllAcks(x)| ==> Genuine(x, AllAcks(x)[i])
    ensures var b := x.flow.inflight.value; ReceiveAll(b.tracker, b.firstSeq, |b.ops|, AllAcks(x)).pending == 0
  {
    var b, first, msgs := x.flow.inflight.value, x.hist.mark.first, AllAcks(x);
    var t := ReceiveAll(b.tracker, b.firstSeq, |b.ops|, msgs);
    PendingCountsUnseen(b.tracker, b.firstSeq, |b.ops|, msgs);
    forall i: nat | i < |b.ops| ensures Genuine(x, msgs[i]) && t.seen[i] {
      assert GenuineAt(x, msgs[i], first + i);
      NewestBlockOwnsItsAcks(first, |b.ops|, first + i);
      HitIsSeen(b.tracker, b.firstSeq, |b.ops|, msgs, i, i);
    }
    UnseenZero(t.seen);
  }

  /** The world once every message of the maintenance batch in flight is acknowledged. */
  ghost function Acked(x: World): World
    requires BatchInv(x) && x.flow.inflight.Some?
  {
    AcksStep(x, AllAcks(x), false)
  }

  lemma AckedIs(x: World)
    requires BatchInv(x) && Flies(x.flow)
    ensures var y, b := Acked(x), x.flow.inflight.value;
            && y.ctl == x.ctl && y.kernel == x.kernel && y.seqs == x.seqs && y.hist.close == x.hist.close
            && y.failed == x.failed && y.flow.pending == x.flow.pending && y.flow.inflight.None?
            && y.flow.completed.Some? && y.flow.completed.value.result.input == b.inputCount
            && y.flow.owned
               == Effects(x.flow.owned, b.ops, ReplyFlags(x.kernel.replies, x.hist.mark.first, |b.ops|), |b.ops|)
  {
    var b := x.flow.inflight.value;
    var msgs := AllAcks(x);
    AllAcksFinish(x);
    DrainKeepsGenuine(x, b, msgs);
    PendingCountsUnseen(b.tracker, b.firstSeq, |b.ops|, msgs);
    FinishedFlags(x, b.(tracker := ReceiveAll(b.tracker, b.firstSeq, |b.ops|, msgs)));
  }

  /** A pass in which they all come in. */
  lemma AckPass(o: Options, from: World, x: World, t: Tick)
    requires GoodOptions(o) && Inv(o, x) && !x.failed && Flies(x.flow) && x.flow.pending == map[]
    requires Arrives(o, from, x) && !Exits(x)
    ensures Arrives(o, from, Acked(x)) && Inv(o, Acked(x))
  {
    AllAcksFinish(x);
    AckedIs(x);
    var a := Acks(AllAcks(x), false);
    StepKeeps(o, x, a);
    InputPass(o, from, x, a, t);
  }

  // -------------------------------------------------------------------
  // Cleanup runs its course
  // -------------------------------------------------------------------

  /** What holds from the beginning of shutdown cleanup on. */
  ghost predicate Closing(o: Options, x: World) {
    Inv(o, x) && ClosingAt(x)
  }

  ghost predicate ClosingAt(x: World) {
    && !x.failed && x.ctl.req.shutdown && x.flow.pending == map[] && x.flow.owned == {}
    && x.hist.close.begun && x.hist.close.refused == {}
  }

  /** Cleanup still has to reach k if a rule for it is there. */
  ghost predicate Reaching(x: World, k: IpKey) {
    && x.ctl.job.CleanupTracked? && x.ctl.job.offset <= |x.ctl.close.tracked|
    && (k in x.kernel.mine ==> k in KeySet(x.ctl.close.tracked[x.ctl.job.offset..]))
  }

  /** A chunk is in flight, and unless more follow it is smaller than a slice. */
  ghost predicate Cleaning(o: Options, x: World, k: IpKey) {
    && Closing(o, x) && Reaching(x, k) && Flies(x.flow) && Queued(x)
    && (x.ctl.job.offset < |x.ctl.close.tracked| || x.flow.inflight.value.inputCount < SLICE)
  }

  /** The chunk is acknowledged and not yet counted. */
  ghost predicate Collecting(o: Options, x: World, k: IpKey) {
    && Closing(o, x) && Reaching(x, k) && x.flow.inflight.None? && Queued(x)
    && x.flow.completed.Some? && x.flow.completed.value.result.input > 0
    && (x.ctl.job.offset < |x.ctl.close.tracked| || x.flow.completed.value.result.input < SLICE)
  }

  lemma CleaningAcked(o: Options, from: World, x: World, k: IpKey)
    requires GoodOptions(o) && Cleaning(o, x, k) && Arrives(o, from, x)
    ensures Arrives(o, from, Acked(x)) && Collecting(o, Acked(x), k)
    ensures Acked(x).ctl == x.ctl
  {
    AckPass(o, from, x, TickFor(k, 0));
    AckedIs(x);
    var b := x.flow.inflight.value;
    assert CloseInv(x.flow, x.ctl, x.hist) && AllDeletes(b.ops);
    DeletesOnNothing(b.ops, ReplyFlags(x.kernel.replies, x.hist.mark.first, |b.ops|), |b.ops|);
  }

  /** Sending deletes of tracked[offset..next], none turned down. */
  lemma ChunkReaches(x: World, k: IpKey, next: nat, s: Send)
    requires x.kernel.mine <= x.kernel.installed && Reaching(x, k)
    requires x.ctl.job.offset <= next <= |x.ctl.close.tracked| && s.refuse == NoRefusal
    ensures var chunk := Deletes(x.ctl.close.tracked[x.ctl.job.offset..next]);
            && RefusedKeys(chunk, s.refuse) == {}
            && (k in KernelRun(x.kernel, chunk, s.refuse, x.seqs.issued, |chunk|).mine ==>
                  k in KeySet(x.ctl.close.tracked[next..]))
  {
    var chunk := Deletes(x.ctl.close.tracked[x.ctl.job.offset..next]);
    CleanupSendQuiet(x, chunk, x.ctl.job.offset, next, s);
    var keep := x.kernel.mine - {k};
    assert x.kernel.mine <= keep + KeySet(x.ctl.close.tracked[x.ctl.job.offset..]);
    assert RefusedKeys(chunk, s.refuse) == {};
  }

  /** What a turn that sends the next chunk leaves alone. */
  ghost predicate SameElsewhere(x: World, y: World) {
    && y.flow.owned == x.flow.owned && y.flow.pending == x.flow.pending && y.failed == x.failed
    && y.ctl.req == x.ctl.req && y.ctl.startup == x.ctl.startup && y.ctl.close.tracked == x.ctl.close.tracked
    && y.hist.close.begun == x.hist.close.begun && y.hist.close.refused == x.hist.close.refused
  }

  lemma ChunkSent(o: Options, x: World, k: IpKey, summary: Summary, left: nat, now: nat)
    requires x.kernel.mine <= x.kernel.installed && Reaching(x, k) && x.flow.inflight.None?
    requires x.ctl.job.offset < |x.ctl.close.tracked|
    ensures var r := CleanupChunkTurn(o, x, summary, left, TickFor(k, now));
            && SameElsewhere(x, r.world) && Reaching(r.world, k) && Flies(r.world.flow) && r.verdict == Break(BatchStarted)
            && x.ctl.job.offset < r.world.ctl.job.offset
            && r.world.flow.inflight.value.inputCount == r.world.ctl.job.offset - x.ctl.job.offset
            && r.world.flow.inflight.value.inputCount <= ChunkRoom(o, left)
  {
    var t, j := TickFor(k, now), x.ctl.job;
    var next := CleanupEnd(x.ctl.close.tracked, j.offset, ChunkRoom(o, left));
    ChunkReaches(x, k, next, t.send);
    var chunk, id := Deletes(x.ctl.close.tracked[j.offset..next]), NextId(j.batchId);
    assert CleanupChunkTurn(o, x, summary, left, t)
        == Turn(WithJob(SendBatch(x, id, MaintenanceOwner, |chunk|, 0, chunk, t.send),
                        CleanupTracked(next, id, summary, Some(id))), left, Break(BatchStarted));
    assert x.hist.close.refused + RefusedKeys(chunk, t.send.refuse) == x.hist.close.refused;
  }

  lemma CollectingTurn(o: Options, x: World, k: IpKey, t: Tick)
    requires Collecting(o, x, k)
    ensures var j, done := x.ctl.job, x.flow.completed.value.result;
            CleanupTurn(o, x, SLICE, t)
            == CleanupChunkTurn(o, AfterCollect(x, j.waiting), AddUp(j.summary, done), Spend(SLICE, done.input), t)
    ensures x.ctl.job.waiting.Some?
  {
    assert HandoffInv(x.flow, x.ctl.job);
  }

  /** More to send: the next chunk is smaller than a slice. */
  lemma CollectMore(o: Options, from: World, x: World, k: IpKey, now: nat)
    requires GoodOptions(o) && Collecting(o, x, k) && Arrives(o, from, x)
    requires x.ctl.job.offset < |x.ctl.close.tracked|
    ensures var y := CleanupTurn(o, x, SLICE, TickFor(k, now)).world;
            && Arrives(o, from, y) && Cleaning(o, y, k) && y.ctl.startup == x.ctl.startup
            && y.ctl.close.tracked == x.ctl.close.tracked && y.ctl.job.offset > x.ctl.job.offset
  {
    var t, done := TickFor(k, now), x.flow.completed.value.result;
    CollectingTurn(o, x, k, t);
    var x1 := AfterCollect(x, x.ctl.job.waiting);
    assert OwnInv(x);
    ChunkSent(o, x1, k, AddUp(x.ctl.job.summary, done), Spend(SLICE, done.input), now);
    StepKeeps(o, x, Maintain(SLICE, t));
    TurnPass(o, from, x, t);
  }

  /** Cleanup is over, the queue is not empty, and no rule for k is there. */
  ghost predicate Cleaned(o: Options, x: World, k: IpKey) {
    Inv(o, x) && CleanedAt(x, k)
  }

  ghost predicate CleanedAt(x: World, k: IpKey) {
    ClosingAt(x) && x.ctl.close.done && x.flow.inflight.None? && k !in x.kernel.mine
  }

  /** All sent: the slice has operations left for what is queued. */
  lemma CollectLast(o: Options, from: World, x: World, k: IpKey, now: nat)
    requires GoodOptions(o) && Collecting(o, x, k) && x.ctl.job.offset == |x.ctl.close.tracked|
    ensures var r := CleanupTurn(o, x, SLICE, TickFor(k, now));
            && r.verdict.Continue? && r.budget > 0 && Cleaned(o, r.world, k) && r.world.ctl.job.Idle? && Queued(r.world)
            && r.world.ctl.startup == x.ctl.startup
  {
    var t := TickFor(k, now);
    CollectingTurn(o, x, k, t);
    assert x.ctl.close.tracked[x.ctl.job.offset..] == [];
    StepKeeps(o, x, Maintain(SLICE, t));
  }

  // -------------------------------------------------------------------
  // What was queued
  // -------------------------------------------------------------------

  predicate Ripe(x: World, now: nat) {
    x.ctl.startup.retryDeadline.Some? ==> now >= x.ctl.startup.retryDeadline.value
  }

  /** On the way to a resync. */
  ghost predicate Dumping(o: Options, x: World, k: IpKey) {
    && Cleaned(o, x, k) && !x.ctl.startup.due
    && x.ctl.job.DumpCollect? && x.ctl.job.dumpSeq.None? && x.ctl.startup.keys == []
  }

  ghost predicate Building(o: Options, x: World, k: IpKey) {
    Cleaned(o, x, k) && !x.ctl.startup.due && !x.ctl.req.resync && x.ctl.job.ResyncBuild?
  }

  lemma IdleGoesOn(o: Options, x: World, k: IpKey, budget: nat, now: nat)
    requires GoodOptions(o) && Cleaned(o, x, k) && x.ctl.job.Idle? && Queued(x) && Ripe(x, now) && budget > 0
    ensures var y := JobTurn(o, x, budget, TickFor(k, now)).world;
            Dumping(o, y, k) || Building(o, y, k)
    ensures !x.ctl.startup.due ==> Building(o, JobTurn(o, x, budget, TickFor(k, now)).world, k)
  {
    StepKeeps(o, x, Maintain(budget, TickFor(k, now)));
  }

  lemma DumpTurn(o: Options, x: World, k: IpKey, now: nat)
    requires GoodOptions(o) && Dumping(o, x, k)
    ensures var r := JobTurn(o, x, SLICE, TickFor(k, now));
            if NextFamily(x.ctl.job.familyIdx, o.ipv6).Some?
            then Dumping(o, r.world, k) && r.world.ctl.job.familyIdx == x.ctl.job.familyIdx + 1
            else r.verdict.Continue? && r.budget > 0 && Cleaned(o, r.world, k) && r.world.ctl.job.Idle?
                 && r.world.ctl.req.resync && !r.world.ctl.startup.due
  {
    StepKeeps(o, x, Maintain(SLICE, TickFor(k, now)));
    var t, j := TickFor(k, now), x.ctl.job;
    assert x.ctl.startup.keys + t.targets == [];
    if NextFamily(j.familyIdx, o.ipv6).Some? {
      assert JobTurn(o, x, SLICE, t)
          == PollTurn(ReserveSeqs(x, 1), j.familyIdx, NormalizeSeq(x.seqs.next), Spend(SLICE, 1), t);
    } else {
      assert JobTurn(o, x, SLICE, t) == Turn(StartupDone(x, j.summary, j.batchId), Spend(SLICE, 1), Continue);
    }
  }

  /** Startup cleanup finds nothing in any family and goes over to the resync it asks for. */
  lemma {:induction false} DumpToBuild(o: Options, from: World, x: World, k: IpKey, now: nat) returns (y: World)
    requires GoodOptions(o) && Dumping(o, x, k) && Arrives(o, from, x)
    ensures Arrives(o, from, y) && Building(o, y, k)
    decreases if x.ctl.job.familyIdx < 2 then 2 - x.ctl.job.familyIdx else 0
  {
    var t := TickFor(k, now);
    var r := JobTurn(o, x, SLICE, t);
    DumpTurn(o, x, k, now);
    if NextFamily(x.ctl.job.familyIdx, o.ipv6).Some? {
      TurnPass(o, from, x, t);
      y := DumpToBuild(o, from, r.world, k, now);
    } else {
      IdleGoesOn(o, r.world, k, r.budget, RipeTime(r.world));
      TwoTurnPass(o, from, x, t, TickFor(k, RipeTime(r.world)));
      y := JobTurn(o, r.world, r.budget, TickFor(k, RipeTime(r.world))).world;
    }
  }

  function RipeTime(x: World): (now: nat)
    ensures Ripe(x, now)
  {
    if x.ctl.startup.retryDeadline.Some? then x.ctl.startup.retryDeadline.value else 0
  }

  // -------------------------------------------------------------------
  // The resync installs a rule
  // -------------------------------------------------------------------

  lemma PlanOf(k: IpKey, room: nat)
    requires room > 0
    ensures NextChunk([k], [], 0, 0, room) == Chunk([RuleOp(k, Add)], 1, 0)
    ensures NextChunk([k], [], 1, 0, room) == Chunk([], 1, 0)
  {
    assert NextChunk([k], [], 1, 0, room - 1) == Chunk([], 1, 0);
  }

  lemma ListingOfOne(s: set<IpKey>, k: IpKey)
    requires s == {k}
    ensures SortKeys(s) == [k]
  {
    SortKeysLists(s);
    assert KeySet([k]) == {k};
    SortedListingUnique(SortKeys(s), [k]);
  }

  /** A plan with one add, the cursors at `idx`. */
  ghost predicate PlannedFor(o: Options, x: World, k: IpKey, idx: nat) {
    && Inv(o, x) && !x.failed && x.ctl.req.shutdown && x.flow.pending == map[] && x.ctl.close.done
    && x.hist.close.refused == {}
    && x.ctl.job.ResyncApply? && x.ctl.job.targetIdx == idx && x.ctl.job.currentIdx == 0 && x.ctl.plan == Plan([k], [])
  }

  /** Whoever had a rule for k removes it, and the resync takes its snapshot. */
  lemma BuildToPlan(o: Options, from: World, x: World, k: IpKey) returns (y: World)
    requires GoodOptions(o) && Building(o, x, k) && Arrives(o, from, x)
    ensures Arrives(o, from, y) && PlannedFor(o, y, k, 0) && y.flow.inflight.None? && y.ctl.job.waiting.None?
    ensures y.flow.owned == {} && k !in y.kernel.installed
  {
    var t := TickFor(k, 0);
    var x1 := ForeignStep(x, k, false);
    StepKeeps(o, x, Foreign(k, false));
    InputPass(o, from, x, Foreign(k, false), t);
    StepKeeps(o, x1, Maintain(SLICE, t));
    TurnPass(o, from, x1, t);
    y := JobTurn(o, x1, SLICE, t).world;
    ListingOfOne(KeySet([k]), k);
    assert SortKeys({}) == [];
    assert y == Planned(DumpSeqs(x1, o.ipv6), [k], [], x1.ctl.job.batchId);
  }

  lemma AddSent(o: Options, x: World, k: IpKey)
    requires PlannedFor(o, x, k, 0) && x.flow.inflight.None? && x.ctl.job.waiting.None?
    requires x.flow.owned == {} && k !in x.kernel.installed
    ensures var y := ResyncTurn(o, x, SLICE, TickFor(k, 0)).world;
            && y.flow.owned == {} && Flies(y.flow) && y.flow.inflight.value.ops == [RuleOp(k, Add)]
            && y.hist.mark.first in y.kernel.replies && y.kernel.replies[y.hist.mark.first].None? && k in y.kernel.mine
            && !y.failed && y.ctl.req == x.ctl.req && y.flow.pending == x.flow.pending && y.ctl.close == x.ctl.close
            && y.hist.close == x.hist.close && y.ctl.plan == x.ctl.plan
            && y.ctl.job.ResyncApply? && y.ctl.job.targetIdx == 1 && y.ctl.job.currentIdx == 0
  {
    var t, n, ops := TickFor(k, 0), x.seqs.issued, [RuleOp(k, Add)];
    PlanOf(k, ChunkRoom(o, SLICE));
    assert KernelRun(x.kernel, ops, NoRefusal, n, 0) == x.kernel;
    var after := KernelRun(x.kernel, ops, NoRefusal, n, 1);
    assert after == KernelOp(x.kernel, ops[0], None, n);
  }

  /** Its add is in flight, and the kernel has carried it out. */
  ghost predicate Adding(o: Options, x: World, k: IpKey) {
    && PlannedFor(o, x, k, 1) && x.flow.owned == {} && Flies(x.flow) && x.flow.inflight.value.ops == [RuleOp(k, Add)]
    && x.hist.mark.first in x.kernel.replies && x.kernel.replies[x.hist.mark.first].None? && k in x.kernel.mine
  }

  lemma PlanToSend(o: Options, from: World, x: World, k: IpKey) returns (y: World)
    requires GoodOptions(o) && Arrives(o, from, x) && PlannedFor(o, x, k, 0)
    requires x.flow.inflight.None? && x.ctl.job.waiting.None? && x.flow.owned == {} && k !in x.kernel.installed
    ensures Arrives(o, from, y) && Adding(o, y, k)
  {
    var t := TickFor(k, 0);
    AddSent(o, x, k);
    StepKeeps(o, x, Maintain(SLICE, t));
    TurnPass(o, from, x, t);
    y := ResyncTurn(o, x, SLICE, t).world;
  }

  lemma AddedEffect(replies: map<nat, AckStatus>, first: nat, k: IpKey)
    requires first in replies && replies[first].None?
    ensures Effects({}, [RuleOp(k, Add)], ReplyFlags(replies, first, 1), 1) == {k}
  {
    var ok := ReplyFlags(replies, first, 1);
    assert ok[0];
    assert Effects({}, [RuleOp(k, Add)], ok, 0) == {};
  }

  /** The add is acknowledged: the daemon owns k while it is about to leave. */
  lemma SendToAck(o: Options, from: World, x: World, k: IpKey) returns (y: World)
    requires GoodOptions(o) && Arrives(o, from, x) && Adding(o, x, k)
    ensures Arrives(o, from, y) && PlannedFor(o, y, k, 1) && y.flow.inflight.None?
    ensures k in y.kernel.mine && k in y.flow.owned
  {
    AckPass(o, from, x, TickFor(k, 0));
    AckedIs(x);
    AddedEffect(x.kernel.replies, x.hist.mark.first, k);
    y := Acked(x);
  }

  /** The loop leaves a rule for k, which the daemon still owns. */
  ghost predicate Leaves(e: World, k: IpKey) {
    Exits(e) && !e.failed && k in e.kernel.mine && k in e.flow.owned && e.hist.close.refused == {}
  }

  /** The resync is over and the loop leaves. */
  lemma AckToExit(o: Options, from: World, x: World, k: IpKey) returns (e: World)
    requires GoodOptions(o) && Arrives(o, from, x) && PlannedFor(o, x, k, 1) && x.flow.inflight.None?
    requires k in x.kernel.mine && k in x.flow.owned
    ensures Arrives(o, from, e) && Leaves(e, k)
  {
    var t := TickFor(k, 0);
    TurnPass(o, from, x, t);
    e := ResyncTurn(o, x, SLICE, t).world;
    assert HandoffInv(x.flow, x.ctl.job);
    assert CanProceed(x, x.ctl.job.waiting);
    PlanOf(k, ChunkRoom(o, BudgetAfter(x, x.ctl.job.waiting, SLICE)));
  }

  /** From the end of cleanup with something queued to an exit that leaves the rule. */
  lemma QueueToExit(o: Options, from: World, x: World, k: IpKey) returns (e: World)
    requires GoodOptions(o) && Arrives(o, from, x) && (Dumping(o, x, k) || Building(o, x, k))
    ensures Arrives(o, from, e) && Leaves(e, k)
  {
    var b := x;
    if !Building(o, x, k) {
      b := DumpToBuild(o, from, x, k, 0);
    }
    var p := BuildToPlan(o, from, b, k);
    var s := PlanToSend(o, from, p, k);
    var a := SendToAck(o, from, s, k);
    e := AckToExit(o, from, a, k);
  }

  /** From a chunk in flight to that exit. */
  lemma {:induction false} CleaningToExit(o: Options, from: World, x: World, k: IpKey) returns (e: World)
    requires GoodOptions(o) && Arrives(o, from, x) && Cleaning(o, x, k)
    ensures Arrives(o, from, e) && Leaves(e, k)
    decreases |x.ctl.close.tracked| - x.ctl.job.offset
  {
    CleaningAcked(o, from, x, k);
    var y := Acked(x);
    var t := TickFor(k, RipeTime(x));
    if y.ctl.job.offset < |y.ctl.close.tracked| {
      CollectMore(o, from, y, k, RipeTime(x));
      e := CleaningToExit(o, from, CleanupTurn(o, y, SLICE, t).world, k);
    } else {
      CollectLast(o, from, y, k, RipeTime(x));
      var r := CleanupTurn(o, y, SLICE, t);
      IdleGoesOn(o, r.world, k, r.budget, RipeTime(x));
      TwoTurnPass(o, from, y, t, t);
      e := QueueToExit(o, from, JobTurn(o, r.world, r.budget, t).world, k);
    }
  }

  // -------------------------------------------------------------------
  // The beginning
  // -------------------------------------------------------------------

  /** Nothing is owned, so cleanup is over at once. */
  lemma BeginsCleaned(w: World, k: IpKey)
    requires !w.failed && Due(w) && Queued(w) && w.flow.owned == {} && k !in w.kernel.mine
    ensures var x := PrepareShutdown(w); CleanedAt(x, k) && x.ctl.job.Idle? && Queued(x) && RipeTime(x) == RipeTime(w)
  {
    Listing({});
    PreparedWorld(w, []);
  }

  lemma ReachingAtFirst(w: World, tracked: seq<IpKey>, x: World, k: IpKey)
    requires GivenUp(w, tracked, x) && x.ctl.job == CleanupTracked(0, w.ctl.batchId, NO_SUMMARY, None)
    requires k in w.kernel.mine ==> k in KeySet(tracked)
    ensures Reaching(x, k)
  {
    assert tracked[0..] == tracked;
  }

  lemma BeginsReaching(w: World, k: IpKey)
    requires !w.failed && Due(w) && Queued(w) && w.flow.owned != {} && (k in w.kernel.mine ==> k in w.flow.owned)
    ensures var x := PrepareShutdown(w);
            && ClosingAt(x) && Reaching(x, k) && Queued(x) && x.flow.inflight.None?
            && x.ctl.job.offset == 0 < |x.ctl.close.tracked| == |w.flow.owned| && x.ctl.job.waiting.None?
  {
    var tracked := SortKeys(w.flow.owned);
    Listing(w.flow.owned);
    PreparedWorld(w, tracked);
    ReachingAtFirst(w, tracked, PrepareShutdown(w), k);
  }

  /** The first chunk after the beginning. */
  lemma FirstChunk(o: Options, x: World, budget: nat, k: IpKey)
    requires GoodOptions(o) && 0 < budget <= SLICE
    requires Closing(o, x) && Reaching(x, k) && Queued(x) && x.flow.inflight.None?
    requires x.ctl.job.offset == 0 < |x.ctl.close.tracked| && x.ctl.job.waiting.None?
    requires !(budget == SLICE && |x.ctl.close.tracked| == SLICE && o.batchMax >= SLICE)
    ensures Cleaning(o, CleanupTurn(o, x, budget, TickFor(k, 0)).world, k)
  {
    var t, j := TickFor(k, 0), x.ctl.job;
    assert CleanupTurn(o, x, budget, t) == CleanupChunkTurn(o, x, AddUp(j.summary, Collected(x, None)), budget, t);
    assert OwnInv(x);
    ChunkSent(o, x, k, AddUp(j.summary, Collected(x, None)), budget, 0);
    StepKeeps(o, x, Maintain(budget, t));
  }

  /** Nothing was owned: the slice goes on with what is queued. */
  lemma NothingToExit(o: Options, x: World, budget: nat, k: IpKey, t: Tick) returns (e: World)
    requires GoodOptions(o) && 0 < budget && Cleaned(o, x, k) && x.ctl.job.Idle? && Queued(x)
    requires t == TickFor(k, RipeTime(x))
    ensures Arrives(o, JobTurn(o, x, budget, t).world, e) && Leaves(e, k)
  {
    var y := JobTurn(o, x, budget, t).world;
    IdleGoesOn(o, x, k, budget, RipeTime(x));
    ArrivesAtOnce(o, y);
    e := QueueToExit(o, y, y, k);
  }

  /** Something was owned: the slice sends the first chunk. */
  lemma SomeToExit(o: Options, y: World, k: IpKey) returns (e: World)
    requires GoodOptions(o) && Cleaning(o, y, k)
    ensures Arrives(o, y, e) && Leaves(e, k)
  {
    ArrivesAtOnce(o, y);
    e := CleaningToExit(o, y, y, k);
  }

  lemma LeavesUnclean(o: Options, before: set<IpKey>, x: World, budget: nat, t: Tick, e: World, k: IpKey)
    returns (passes: seq<Pass>)
    requires budget > 0 && t.timeLeft
    requires Arrives(o, JobTurn(o, x, budget, t).world, e) && Leaves(e, k) && k !in before
    ensures StopsFrom(o, x, budget, FirstTicks(t, t, 1), passes, e) && !Clean(before, e)
  {
    OneTurnSlice(o, x, budget, t);
    passes :| Loops(o, JobTurn(o, x, budget, t).world, passes, e) && Lulls(passes);
  }

  lemma UncleanWithNothing(o: Options, before: set<IpKey>, x: World, budget: nat, k: IpKey)
    returns (ticks: nat -> Tick, passes: seq<Pass>, e: World)
    requires GoodOptions(o) && 0 < budget && Cleaned(o, x, k) && x.ctl.job.Idle? && Queued(x) && k !in before
    ensures StopsFrom(o, x, budget, ticks, passes, e) && !Clean(before, e) && k in e.kernel.mine && k in e.flow.owned
  {
    var t := TickFor(k, RipeTime(x));
    e := NothingToExit(o, x, budget, k, t);
    ticks := FirstTicks(t, t, 1);
    passes := LeavesUnclean(o, before, x, budget, t, e, k);
  }

  lemma UncleanWithSome(o: Options, before: set<IpKey>, x: World, budget: nat, k: IpKey)
    returns (ticks: nat -> Tick, passes: seq<Pass>, e: World)
    requires GoodOptions(o) && 0 < budget && x.ctl.job.CleanupTracked? && k !in before
    requires Cleaning(o, CleanupTurn(o, x, budget, TickFor(k, 0)).world, k)
    ensures StopsFrom(o, x, budget, ticks, passes, e) && !Clean(before, e) && k in e.kernel.mine && k in e.flow.owned
  {
    var t := TickFor(k, 0);
    e := SomeToExit(o, CleanupTurn(o, x, budget, t).world, k);
    ticks := FirstTicks(t, t, 1);
    passes := LeavesUnclean(o, before, x, budget, t, e, k);
  }

  /** Cleanup has begun, and either is over at once or has a first chunk to send that does not end it with the slice. */
  ghost predicate GoesOn(o: Options, x: World, budget: nat, k: IpKey) {
    || (CleanedAt(x, k) && x.ctl.job.Idle? && Queued(x))
    || (&& ClosingAt(x) && Reaching(x, k) && Queued(x) && x.flow.inflight.None?
        && x.ctl.job.offset == 0 < |x.ctl.close.tracked| && x.ctl.job.waiting.None?
        && !(budget == SLICE && |x.ctl.close.tracked| == SLICE && o.batchMax >= SLICE))
  }

  lemma BeginsGoingOn(o: Options, w: World, budget: nat, k: IpKey)
    requires !w.failed && Due(w) && Queued(w) && w.kernel.mine <= w.hist.loose + w.flow.owned
    requires !FillsASlice(o, w, budget) && k !in w.hist.loose
    ensures GoesOn(o, PrepareShutdown(w), budget, k)
  {
    if w.flow.owned == {} {
      BeginsCleaned(w, k);
    } else {
      BeginsReaching(w, k);
    }
  }

  /** With something queued, and cleanup not filling a slice, some stop leaves a rule the daemon still owns. */
  lemma QueuedStopCanLeave(o: Options, before: set<IpKey>, x: World, budget: nat, k: IpKey)
    returns (ticks: nat -> Tick, passes: seq<Pass>, e: World)
    requires GoodOptions(o) && Inv(o, x) && 0 < budget <= SLICE && GoesOn(o, x, budget, k) && k !in before
    ensures StopsFrom(o, x, budget, ticks, passes, e) && !Clean(before, e) && k in e.kernel.mine && k in e.flow.owned
  {
    if x.ctl.job.Idle? {
      ticks, passes, e := UncleanWithNothing(o, before, x, budget, k);
    } else {
      FirstChunk(o, x, budget, k);
      ticks, passes, e := UncleanWithSome(o, before, x, budget, k);
    }
  }

  /**
   Stopping, exactly.  Shutdown cleanup begins with `budget` operations left in
   the slice, and no event or resync request comes in any more.  Then every way
   to the loop's end removes all the daemon's rules, but for those the kernel
   refused to delete and keys that were loose before, if and only if no resync
   and no startup cleanup is queued at that moment, or the cleanup is a single
   batch that uses up a slice.
   */
  lemma StopIsCleanIff(o: Options, w: World, budget: nat, k: IpKey)
    requires Begins(o, w) && 0 < budget <= SLICE && k !in w.hist.loose
    ensures (forall ticks, passes, e :: Stops(o, w, budget, ticks, passes, e) ==> Clean(w.hist.loose, e))
            <==> !Queued(w) || FillsASlice(o, w, budget)
  {
    BeginsReady(o, w, TickFor(k, 0));
    if !Queued(w) || FillsASlice(o, w, budget) {
      forall ticks, passes, e | Stops(o, w, budget, ticks, passes, e) ensures Clean(w.hist.loose, e) {
        CleanStops(o, w, budget, ticks, passes, e);
      }
    } else {
      BeginsGoingOn(o, w, budget, k);
      var ticks, passes, e := QueuedStopCanLeave(o, w.hist.loose, PrepareShutdown(w), budget, k);
      assert Stops(o, w, budget, ticks, passes, e);
    }
  }

  lemma CleanStops(o: Options, w: World, budget: nat, ticks: nat -> Tick, passes: seq<Pass>, e: World)
    requires Ready(o, w) && 0 < budget <= SLICE && (!Queued(w) || FillsASlice(o, w, budget))
    requires Stops(o, w, budget, ticks, passes, e)
    ensures Clean(w.hist.loose, e)
  {
    if Queued(w) {
      OneBatchBegins(o, w);
      OneBatchStopIsClean(o, w.hist.loose, PrepareShutdown(w), ticks, passes, e);
    } else {
      QuietBegins(w);
      QuietStopIsClean(o, w.hist.loose, PrepareShutdown(w), budget, ticks, passes, e);
    }
  }
}
