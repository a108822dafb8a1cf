/**
 Three promises the daemon does not keep, each with a run that breaks it.

 `StopRuns.StopIsCleanIff`, `Theorems.BrokenSendGoesStaleOn` and
 `Orphans.TimeoutOrphansIff` say exactly when each is kept.
 */
module Witnesses {
  import opened IpKeys
  import opened SeqRing
  import opened AckTracking
  import opened ResyncDiff
  import opened Reactor
  import opened Invariants
  import opened Theorems
  import opened LoopRuns
  import opened Orphans

  const OPTS := Options(2, 1, 1, false)
  const KEY := V4(1)
  const OTHER := V4(2)

  /** Every turn finds an empty dump, the single address KEY on the interfaces, and a socket that works. */
  function PlainTick(): Tick {
    Tick(true, 0, true, DumpDone, [], Addresses([KEY]), Send(true, 0, NoRefusal, 0))
  }

  function Fresh(): World {
    World(Flow({}, map[], None, None, None, None),
          Control(0, Requests(false, false, false), Idle, Close(false, NO_SUMMARY, []),
                  Startup(true, None, 0, []), Plan([], []), NO_REPORT),
          Seqs(1, 0), Kernel({}, {}, map[]),
          History(SentMark(0, {}), {}, {}, {}, {}, CloseLog(false, {}, [], {}, {}, false), []), false)
  }

  lemma FreshReachable()
    ensures Reachable(OPTS, Fresh())
  {
    assert Runs(OPTS, Fresh(), [], Fresh());
  }

  lemma ListingOfNone()
    ensures SortKeys({}) == []
  {
  }

  lemma ListingOfOne(s: set<IpKey>)
    requires s == {KEY}
    ensures SortKeys(s) == [KEY]
  {
    SortKeysLists(s);
    assert KeySet([KEY]) == {KEY};
    SortedListingUnique(SortKeys(s), [KEY]);
  }

  /** Where the run stands: what the next steps depend on. */
  ghost predicate At(w: World, job: Job, due: bool, resync: bool, owned: set<IpKey>) {
    && Reachable(OPTS, w) && !w.failed
    && w.flow.pending == map[] && w.flow.inflight.None? && w.flow.owned == owned
    && w.ctl.job == job && w.ctl.startup.due == due && w.ctl.startup.retryDeadline.None? && w.ctl.startup.keys == []
    && w.ctl.req.resync == resync && w.ctl.req.shutdown && w.ctl.close.done
    && w.hist.loose == {}
  }

  ghost function Next(w: World): World {
    JobTurn(OPTS, w, 256, PlainTick()).world
  }

  lemma MaintainStep(w: World)
    requires Reachable(OPTS, w) && !w.failed && w.flow.inflight.None?
    ensures Reachable(OPTS, Next(w))
  {
    Extend(OPTS, w, Maintain(256, PlainTick()));
  }

  /** A stop request that arrives first: shutdown cleanup finds nothing to do and is over. */
  lemma StopFirst() returns (w: World)
    ensures At(w, Idle, true, false, {}) && w.flow.completed.None?
    ensures w.kernel == Kernel({}, {}, map[]) && w.seqs == Seqs(1, 0) && w.ctl.batchId == 0
  {
    FreshReachable();
    Extend(OPTS, Fresh(), Signal(false));
    var w1 := SignalStep(Fresh(), false);
    ListingOfNone();
    MaintainStep(w1);
    w := Next(w1);
    assert w == PrepareWith(w1, []);
  }

  /** Startup cleanup, still due, is run all the same and asks for a resync. */
  lemma ThenStartup() returns (w: World)
    ensures At(w, Idle, false, true, {}) && w.flow.completed.None?
    ensures w.kernel == Kernel({}, {}, map[]) && w.seqs == Seqs(2, 1) && w.ctl.batchId == 0
  {
    var w0 := StopFirst();
    MaintainStep(w0);
    var w1 := Next(w0);
    assert At(w1, DumpCollect(0, None, 0, NO_SUMMARY), false, false, {});
    MaintainStep(w1);
    var w2 := Next(w1);
    assert w2 == PollTurn(ReserveSeqs(w1, 1), 0, 1, 255, PlainTick()).world;
    assert At(w2, DumpCollect(1, None, 0, NO_SUMMARY), false, false, {});
    MaintainStep(w2);
    w := Next(w2);
    assert w == StartupDone(w2, NO_SUMMARY, 0);
  }

  /** The resync plans an add for the one address. */
  lemma ThenPlan() returns (w: World)
    ensures At(w, ResyncApply(0, 0, 0, ResyncResult(1, 0, 0, 0, 0), None), false, false, {})
    ensures w.flow.completed.None? && w.ctl.plan == Plan([KEY], [])
    ensures w.kernel == Kernel({}, {}, map[]) && w.seqs == Seqs(3, 2)
  {
    var w0 := ThenStartup();
    MaintainStep(w0);
    var w1 := Next(w0);
    assert At(w1, ResyncBuild(0), false, false, {}) && w1.flow.completed.None?;
    MaintainStep(w1);
    w := Next(w1);
    ListingOfNone();
    ListingOfOne(KeySet([KEY]));
    assert w == Planned(ReserveSeqs(w1, 1), [KEY], [], 0);
  }

  lemma PlanChunk()
    ensures NextChunk([KEY], [], 0, 0, 2) == Chunk([RuleOp(KEY, Add)], 1, 0)
    ensures NextChunk([KEY], [], 1, 0, 2) == Chunk([], 1, 0)
  {
    assert NextChunk([KEY], [], 1, 0, 1) == Chunk([], 1, 0);
  }

  /** The add goes out and the kernel installs the rule. */
  lemma ThenSend() returns (w: World)
    ensures Reachable(OPTS, w) && !w.failed
    ensures w.flow == Flow({}, map[], None, None,
                           Some(Inflight(1, 5000, 1, 0, 3, Prepared(1), MaintenanceOwner, [RuleOp(KEY, Add)])), None)
    ensures w.ctl.job == ResyncApply(1, 0, 1, ResyncResult(1, 0, 0, 0, 0), Some(1)) && w.ctl.plan == Plan([KEY], [])
    ensures w.ctl.req.shutdown && !w.ctl.req.resync && w.ctl.close.done && !w.ctl.startup.due
    ensures w.kernel == Kernel({KEY}, {KEY}, map[2 := None]) && w.seqs.issued == 3
    ensures w.hist.loose == {}
  {
    var w0 := ThenPlan();
    PlanChunk();
    MaintainStep(w0);
    w := Next(w0);
    var ops := [RuleOp(KEY, Add)];
    assert KernelRun(w0.kernel, ops, NoRefusal, 2, 0) == w0.kernel;
    assert KernelRun(w0.kernel, ops, NoRefusal, 2, 1) == Kernel({KEY}, {KEY}, map[2 := None]);
    var s := SendBatch(w0, 1, MaintenanceOwner, 1, 0, ops, PlainTick().send);
    assert w == WithJob(s, ResyncApply(1, 0, 1, ResyncResult(1, 0, 0, 0, 0), Some(1)));
    assert s.flow.quiet.None? && s.flow.maxDeadline.None? by {
      ReachableInv(OPTS, w0);
    }
  }

  lemma TheAck(w: World)
    requires w.seqs.issued == 3 && w.kernel.replies == map[2 := None]
    ensures Genuine(w, Ack(3, None))
  {
    assert Wire(2) == 3;
    assert GenuineAt(w, Ack(3, None), 2);
  }

  lemma TheTracker()
    ensures ReceiveAll(Prepared(1), 3, 1, [Ack(3, None)]) == Tracker([true], [None], 0, 0, 0)
  {
    var m := [Ack(3, None)];
    assert m[..0] == [];
    assert ReceiveAll(Prepared(1), 3, 1, []) == Prepared(1);
    assert SeqToBatchIndex(3, 3, 1) == Some(0);
    assert Prepared(1).seen == [false] && Prepared(1).status == [None];
  }

  /** It is acknowledged and the daemon owns the address. */
  lemma ThenAck() returns (w: World)
    ensures Reachable(OPTS, w) && !w.failed && w.flow.pending == map[] && w.flow.inflight.None?
    ensures w.flow.owned == {KEY} && w.kernel.mine == {KEY} && w.hist.loose == {}
    ensures w.ctl.job == ResyncApply(1, 0, 1, ResyncResult(1, 0, 0, 0, 0), Some(1)) && w.ctl.plan == Plan([KEY], [])
    ensures w.ctl.req.shutdown && w.ctl.close.done
    ensures w.flow.completed == Some(Completed(1, ApplyResult(1, 0, 1, 0, 0), MaintenanceOwner))
  {
    var w0 := ThenSend();
    TheAck(w0);
    TheTracker();
    var msgs := [Ack(3, None)];
    Extend(OPTS, w0, Acks(msgs, false));
    w := AcksStep(w0, msgs, false);
    var b := w0.flow.inflight.value.(tracker := Tracker([true], [None], 0, 0, 0));
    assert w == Finish(w0.(flow := w0.flow.(inflight := Some(b))));
    var ok := OkFlags(b.tracker, 1);
    assert ok == [true];
    assert Effects({}, b.ops, ok, 0) == {};
    assert Effects({}, b.ops, ok, 1) == {KEY};
    assert TallyUpTo(0, b.ops, b.tracker, 0) == Tally(0, 0, 0, 0);
    assert TallyUpTo(0, b.ops, b.tracker, 1) == Tally(0, 1, 0, 0);
  }

  /**
   Stopping is meant to remove the daemon's rules.  A stop request that arrives
   while startup cleanup or a resync is queued lets the loop leave with shutdown
   cleanup done, nothing loose, and a rule the daemon added still installed.
   */
  lemma StopCanLeaveARule() returns (w: World)
    ensures Running(OPTS, w) && Exits(w)
    ensures w.kernel.mine == {KEY} && w.flow.owned == {KEY} && w.hist.loose == {}
  {
    var w0 := ThenAck();
    PlanChunk();
    MaintainStep(w0);
    w := Next(w0);
    assert ChunkRoom(OPTS, 255) == 2;
    assert w == ResyncDone(AfterCollect(w0, Some(1)), ResyncResult(1, 0, 1, 0, 0), 1);
  }

  // -------------------------------------------------------------------
  // A send that breaks off
  // -------------------------------------------------------------------

  /** Reachable without any acknowledgement deadline ever passing. */
  ghost predicate Punctual(w: World) {
    exists start: World, actions: seq<Action> :: Initial(start) && Runs(OPTS, start, actions, w)
                             && forall i :: 0 <= i < |actions| ==> !actions[i].Expire?
  }

  lemma ExtendPunctual(w: World, a: Action)
    requires Punctual(w) && Enabled(OPTS, w, a) && !a.Expire?
    ensures Punctual(Step(OPTS, w, a))
  {
    var start: World, actions: seq<Action> :| Initial(start) && Runs(OPTS, start, actions, w)
                          && forall i :: 0 <= i < |actions| ==> !actions[i].Expire?;
    var more := actions + [a];
    assert more[..|more| - 1] == actions;
    assert Runs(OPTS, start, more, Step(OPTS, w, a));
  }

  lemma FreshPunctual()
    ensures Punctual(Fresh())
  {
    assert Runs(OPTS, Fresh(), [], Fresh());
  }

  /** An add event is accepted. */
  lemma EventAccepted() returns (w: World)
    ensures Punctual(w) && !w.failed && !w.hist.close.begun
    ensures w.flow == Flow({}, map[KEY := Add], Some(OPTS.debounce), Some(OPTS.debounceMax), None, None)
    ensures w.ctl == Fresh().ctl && w.kernel == Fresh().kernel && w.seqs == Fresh().seqs
  {
    var ev := [RuleOp(KEY, Add)];
    FreshPunctual();
    ExtendPunctual(Fresh(), Route(ev, 0, false, 0));
    w := RouteStep(OPTS, Fresh(), ev, 0, false, 0);
    assert ev[..0] == [];
    assert InsertAll(map[], []) == map[];
    assert InsertAll(map[], ev) == map[KEY := Add];
  }

  /** What the flush of that one event sends. */
  lemma EventKept()
    ensures Prefilter({}, TakeOps(map[KEY := Add], [KEY])) == [RuleOp(KEY, Add)]
    ensures KernelRun(Fresh().kernel, [RuleOp(KEY, Add)], NoRefusal, 0, 1) == Kernel({KEY}, {KEY}, map[0 := None])
  {
    var ev := [RuleOp(KEY, Add)];
    assert TakeOps(map[KEY := Add], [KEY]) == ev;
    assert ev[..0] == [];
    assert Prefilter({}, []) == [];
    assert KernelRun(Fresh().kernel, ev, NoRefusal, 0, 0) == Fresh().kernel;
  }

  lemma SentFlow(w: World)
    requires w.flow == Flow({}, map[KEY := Add], Some(OPTS.debounce), Some(OPTS.debounceMax), None, None)
    ensures TakePending(OPTS, w, [KEY], 1).flow == Flow({}, map[], None, None, None, None)
  {
    assert KEY in KeySet([KEY]);
    assert w.flow.pending - KeySet([KEY]) == map[];
  }

  lemma EventFlushed(w: World)
    requires w.flow == Flow({}, map[KEY := Add], Some(OPTS.debounce), Some(OPTS.debounceMax), None, None)
    ensures ValidPick(OPTS, w.flow.pending, [KEY])
    ensures FlushStep(OPTS, w, [KEY], 1, PlainTick().send)
            == SendKept(TakePending(OPTS, w, [KEY], 1), 1, [RuleOp(KEY, Add)], PlainTick().send)
  {
    assert |w.flow.pending| == 1;
    EventKept();
  }

  lemma EventGoesOut(w: World)
    requires w.flow == Flow({}, map[], None, None, None, None)
    requires w.ctl == Fresh().ctl && w.kernel == Fresh().kernel && w.seqs == Fresh().seqs
    ensures var e := SendKept(w, 1, [RuleOp(KEY, Add)], PlainTick().send);
            && e.flow == Flow({}, map[], None, None,
                              Some(Inflight(1, 5000, 1, 0, 1, Prepared(1), PendingOwner, [RuleOp(KEY, Add)])), None)
            && e.ctl == Fresh().ctl.(batchId := 1) && e.kernel == Kernel({KEY}, {KEY}, map[0 := None])
            && e.seqs == Seqs(2, 1) && e.failed == w.failed && e.hist.close == w.hist.close
  {
    EventKept();
  }

  /** The event is flushed and sent. */
  lemma EventSent() returns (w: World)
    ensures Punctual(w) && !w.failed
    ensures w.flow == Flow({}, map[], None, None,
                           Some(Inflight(1, 5000, 1, 0, 1, Prepared(1), PendingOwner, [RuleOp(KEY, Add)])), None)
    ensures w.ctl == Fresh().ctl.(batchId := 1)
    ensures w.kernel == Kernel({KEY}, {KEY}, map[0 := None]) && w.seqs == Seqs(2, 1)
    ensures !w.hist.close.begun
  {
    var w1 := EventAccepted();
    EventFlushed(w1);
    ExtendPunctual(w1, Flush(1, [KEY], 1, PlainTick().send));
    SentFlow(w1);
    EventGoesOut(TakePending(OPTS, w1, [KEY], 1));
    w := FlushStep(OPTS, w1, [KEY], 1, PlainTick().send);
  }

  lemma EventAck(w: World)
    requires w.seqs.issued == 1 && w.kernel.replies == map[0 := None]
    ensures Genuine(w, Ack(1, None))
    ensures ReceiveAll(Prepared(1), 1, 1, [Ack(1, None)]) == Tracker([true], [None], 0, 0, 0)
  {
    assert Wire(0) == 1;
    assert GenuineAt(w, Ack(1, None), 0);
    var m := [Ack(1, None)];
    assert m[..0] == [];
    assert ReceiveAll(Prepared(1), 1, 1, []) == Prepared(1);
    assert SeqToBatchIndex(1, 1, 1) == Some(0);
    assert Prepared(1).seen == [false] && Prepared(1).status == [None];
  }

  /** The daemon owns the address and its rule is installed. */
  lemma EventOwned() returns (w: World)
    ensures Punctual(w) && !w.failed && w.flow == Flow({KEY}, map[], None, None, None, None)
    ensures w.ctl == Fresh().ctl.(batchId := 1)
    ensures w.kernel == Kernel({KEY}, {KEY}, map[0 := None]) && w.seqs == Seqs(2, 1)
    ensures !w.hist.close.begun
  {
    var w0 := EventSent();
    EventAck(w0);
    var msgs := [Ack(1, None)];
    ExtendPunctual(w0, Acks(msgs, false));
    w := AcksStep(w0, msgs, false);
    var b := w0.flow.inflight.value.(tracker := Tracker([true], [None], 0, 0, 0));
    assert w == Finish(w0.(flow := w0.flow.(inflight := Some(b))));
    var ok := OkFlags(b.tracker, 1);
    assert ok == [true];
    assert Effects({}, b.ops, ok, 0) == {};
    assert Effects({}, b.ops, ok, 1) == {KEY};
  }

  /** A dump lists the address and another one; the send of their deletes fails after the first. */
  function BrokenTick(): Tick {
    Tick(true, 0, true, DumpDone, [KEY, OTHER], Addresses([]), Send(false, 1, NoRefusal, 0))
  }

  const BOTH := [RuleOp(KEY, Delete), RuleOp(OTHER, Delete)]

  lemma DumpListed() returns (w: World)
    ensures Punctual(w) && !w.failed && w.flow == Flow({KEY}, map[], None, None, None, None)
    ensures w.ctl.job == DumpApply(0, 1, NO_SUMMARY, None, 1) && w.ctl.startup.keys == [KEY, OTHER]
    ensures w.kernel == Kernel({KEY, OTHER}, {KEY}, map[0 := None]) && w.seqs.issued == 2
    ensures !w.hist.close.begun
  {
    var t := BrokenTick();
    var w0 := EventOwned();
    ExtendPunctual(w0, Foreign(OTHER, true));
    var w1 := ForeignStep(w0, OTHER, true);
    ExtendPunctual(w1, Maintain(256, t));
    var w2 := JobTurn(OPTS, w1, 256, t).world;
    assert w2.ctl.job == DumpCollect(0, None, 1, NO_SUMMARY) && w2.ctl.startup.keys == [];
    ExtendPunctual(w2, Maintain(256, t));
    w := JobTurn(OPTS, w2, 256, t).world;
    assert w == PollTurn(ReserveSeqs(w2, 1), 0, 2, 255, t).world;
    assert [] + [KEY, OTHER] == [KEY, OTHER];
  }

  lemma DumpTurnPunctual(w: World, t: Tick)
    requires Punctual(w) && !w.failed && w.ctl.job.DumpApply? && w.flow.inflight.None?
    ensures Punctual(DumpApplyTurn(OPTS, w, 256, t).world)
  {
    ExtendPunctual(w, Maintain(256, t));
  }

  lemma BrokenTurn(w: World)
    requires w.ctl.job == DumpApply(0, 1, NO_SUMMARY, None, 1) && w.ctl.startup.keys == [KEY, OTHER]
    requires w.flow.inflight.None?
    ensures DumpApplyTurn(OPTS, w, 256, BrokenTick()).world == ScheduleRetry(BreakSend(w, BOTH, BrokenTick().send), 0)
  {
    assert ChunkRoom(OPTS, 256) == 2;
    assert CleanupChunk([KEY, OTHER], 0, 2) == BOTH;
  }

  lemma BrokenKernel(w: World)
    requires w.kernel == Kernel({KEY, OTHER}, {KEY}, map[0 := None]) && w.seqs.issued == 2
    ensures var w' := BreakSend(w, BOTH, BrokenTick().send);
            w'.kernel.installed == {OTHER} && w'.flow == w.flow && w'.failed == w.failed && w'.hist.close == w.hist.close
  {
    assert KernelRun(w.kernel, BOTH, NoRefusal, 2, 0) == w.kernel;
    assert KernelRun(w.kernel, BOTH, NoRefusal, 2, 1).installed == {OTHER};
  }

  /**
   Timeouts are not the only way ownership and the kernel part: when the send of
   two startup deletes breaks off after the first, the rule of an address the
   daemon goes on owning is gone, though no deadline ever passed.
   */
  lemma BrokenSendLeavesStaleOwnership() returns (w: World)
    ensures Punctual(w) && !w.failed && !w.hist.close.begun && w.flow.inflight.None?
    ensures KEY in w.flow.owned && KEY !in w.kernel.installed
  {
    var w0 := DumpListed();
    DumpTurnPunctual(w0, BrokenTick());
    BrokenTurn(w0);
    BrokenKernel(w0);
    w := ScheduleRetry(BreakSend(w0, BOTH, BrokenTick().send), 0);
  }

  // -------------------------------------------------------------------
  // An add that times out
  // -------------------------------------------------------------------

  /**
   The add of one event is sent and carried out, and its acknowledgement does not
   come in time: the rule is there, the daemon does not own it, and the
   compensating resync it asks for cannot change that.
   */
  lemma TimedOutAddIsLost() returns (w: World)
    ensures Running(OPTS, w) && Orphan(w, KEY) && w.ctl.req.resync && w.ctl.req.compensate
  {
    var w0 := EventSent();
    assert Reachable(OPTS, w0);
    Extend(OPTS, w0, Expire(5000));
    var ops := w0.flow.inflight.value.ops;
    assert ops[0] == RuleOp(KEY, Add) && w0.hist.mark.first in w0.kernel.replies by {
      ReachableInv(OPTS, w0);
    }
    TimeoutOrphansIff(OPTS, w0, KEY);
    w := Timeout(w0);
  }
}
