/**
 When stopping is clean.

 A stop is followed from the turn that begins shutdown cleanup to the pass after
 which the loop leaves.  `before` is the set of keys that were loose when it began.
 */
module Stopping {
  import opened IpKeys
  import opened ResyncDiff
  import opened Reactor
  import opened Ownership
  import opened Jobs
  import opened Invariants
  import opened Theorems
  import opened LoopRuns

  /** The next turn of the slice begins shutdown cleanup. */
  ghost predicate Begins(o: Options, w: World) {
    Running(o, w) && Due(w)
  }

  predicate Due(w: World) {
    w.ctl.job.Idle? && w.flow.inflight.None? && ShutdownDue(w)
  }

  /** From x on, with `budget` operations left in the slice and no event or resync request, the loop leaves at e. */
  ghost predicate StopsFrom(o: Options, x: World, budget: nat, ticks: nat -> Tick, passes: seq<Pass>, e: World) {
    && Lulls(passes) && Loops(o, Slice(o, x, budget, ticks, 0), passes, e)
    && Exits(e) && !e.failed
  }

  /** The turn that begins shutdown cleanup is taken, and the loop leaves at e. */
  ghost predicate Stops(o: Options, w: World, budget: nat, ticks: nat -> Tick, passes: seq<Pass>, e: World) {
    StopsFrom(o, PrepareShutdown(w), budget, ticks, passes, e)
  }

  ghost predicate Clean(before: set<IpKey>, e: World) {
    e.kernel.mine <= before + e.hist.close.refused
  }

  predicate Queued(w: World) {
    w.ctl.req.resync || w.ctl.startup.due
  }

  /** Cleanup is one batch that takes a whole slice: the loop then leaves before it looks at anything queued. */
  predicate FillsASlice(o: Options, w: World, budget: nat) {
    budget == MAINTENANCE_OP_BUDGET && |w.flow.owned| == MAINTENANCE_OP_BUDGET && o.batchMax >= MAINTENANCE_OP_BUDGET
  }

  // -------------------------------------------------------------------
  // Nothing queued
  // -------------------------------------------------------------------

  ghost predicate QuietClose(o: Options, before: set<IpKey>, x: World) {
    Inv(o, x) && !x.failed && x.hist.close.begun && x.hist.close.quiet && x.hist.close.loose == before
  }

  lemma CleanupKeepsLog(o: Options, x: World, budget: nat, t: Tick)
    requires x.ctl.job.CleanupTracked?
    ensures var h := CleanupTurn(o, x, budget, t).world.hist.close;
            h.begun == x.hist.close.begun && h.quiet == x.hist.close.quiet && h.loose == x.hist.close.loose
  {
  }

  lemma QuietTurn(o: Options, before: set<IpKey>, x: World, budget: nat, t: Tick)
    requires QuietClose(o, before, x) && x.flow.inflight.None?
    ensures var h := JobTurn(o, x, budget, t).world.hist.close; h.begun && h.quiet && h.loose == before
  {
    assert JobInv(x);
    assert CloseInv(x.flow, x.ctl, x.hist) && QuietInv(x);
    if x.ctl.job.CleanupTracked? {
      CleanupKeepsLog(o, x, budget, t);
    } else {
      assert x.ctl.job.Idle? && x.ctl.close.done;
      assert JobTurn(o, x, budget, t) == IdleTurn(x, budget, t);
    }
  }

  lemma QuietStep(o: Options, before: set<IpKey>, x: World, a: Action)
    requires GoodOptions(o) && QuietClose(o, before, x) && Enabled(o, x, a) && !Step(o, x, a).failed
    requires IsInput(a) ==> Lull(a)
    ensures QuietClose(o, before, Step(o, x, a))
  {
    StepKeeps(o, x, a);
    match a
    case Maintain(budget, t) => QuietTurn(o, before, x, budget, t);
    case _ =>
  }

  lemma {:induction false} QuietSlice(o: Options, before: set<IpKey>, x: World, budget: nat, ticks: nat -> Tick, n: nat)
    requires GoodOptions(o) && QuietClose(o, before, x) && x.flow.inflight.None?
    requires !Slice(o, x, budget, ticks, n).failed
    ensures QuietClose(o, before, Slice(o, x, budget, ticks, n))
    decreases TurnsLeft(x, budget)
  {
    if budget > 0 && ticks(n).timeLeft {
      var r := JobTurn(o, x, budget, ticks(n));
      TurnUsesUp(o, x, budget, ticks(n));
      ContinueIsFree(o, x, budget, ticks(n));
      QuietStep(o, before, x, Maintain(budget, ticks(n)));
      if r.verdict.Continue? {
        QuietSlice(o, before, r.world, r.budget, ticks, n + 1);
      }
    }
  }

  lemma {:induction false} QuietInputs(o: Options, before: set<IpKey>, x: World, inputs: seq<Action>, y: World)
    requires GoodOptions(o) && QuietClose(o, before, x) && Runs(o, x, inputs, y) && !y.failed
    requires forall i :: 0 <= i < |inputs| ==> Lull(inputs[i])
    ensures QuietClose(o, before, y)
    decreases |inputs|
  {
    if inputs != [] {
      var n := |inputs| - 1;
      var mid :| Runs(o, x, inputs[..n], mid) && Enabled(o, mid, inputs[n]) && y == Step(o, mid, inputs[n]);
      QuietInputs(o, before, x, inputs[..n], mid);
      QuietStep(o, before, mid, inputs[n]);
    }
  }

  lemma QuietDrive(o: Options, before: set<IpKey>, x: World, p: Pass, y: World)
    requires GoodOptions(o) && QuietClose(o, before, x) && Drives(o, x, p, y) && !y.failed
    ensures QuietClose(o, before, y)
  {
    var x1 := AfterDeadline(x, p.now);
    if x.flow.inflight.Some? && p.now >= x.flow.inflight.value.ackDeadline {
      QuietStep(o, before, x, Expire(p.now));
    }
    assert QuietClose(o, before, x1) && x1.flow.pending == map[];
    if x1.flow.inflight.None? {
      QuietSlice(o, before, x1, MAINTENANCE_OP_BUDGET, p.ticks, 0);
    }
  }

  lemma {:induction false} QuietLoop(o: Options, before: set<IpKey>, x: World, passes: seq<Pass>, e: World)
    requires GoodOptions(o) && QuietClose(o, before, x) && Loops(o, x, passes, e) && Lulls(passes) && !e.failed
    ensures QuietClose(o, before, e)
    decreases |passes|
  {
    if passes != [] {
      var n := |passes| - 1;
      var p := passes[n];
      var mid :| Loops(o, x, passes[..n], mid) && !Exits(mid) && OnePass(o, mid, p, e);
      var fed :| Runs(o, mid, p.inputs, fed) && Drives(o, fed, p, e);
      RunNotFailed(o, mid, p.inputs, fed);
      QuietLoop(o, before, x, passes[..n], mid);
      QuietInputs(o, before, mid, p.inputs, fed);
      QuietDrive(o, before, fed, p, e);
    }
  }

  lemma {:induction false} RunNotFailed(o: Options, x: World, actions: seq<Action>, y: World)
    requires Runs(o, x, actions, y) && !y.failed
    ensures !x.failed
    decreases |actions|
  {
    if actions != [] {
      var n := |actions| - 1;
      var mid :| Runs(o, x, actions[..n], mid) && Enabled(o, mid, actions[n]) && y == Step(o, mid, actions[n]);
      RunNotFailed(o, x, actions[..n], mid);
    }
  }

  lemma {:induction false} LoopNotFailed(o: Options, x: World, passes: seq<Pass>, e: World)
    requires Loops(o, x, passes, e) && !e.failed
    ensures !x.failed
    decreases |passes|
  {
    if passes != [] {
      var n := |passes| - 1;
      var mid :| Loops(o, x, passes[..n], mid) && !Exits(mid) && OnePass(o, mid, passes[n], e);
      var fed :| Runs(o, mid, passes[n].inputs, fed) && Drives(o, fed, passes[n], e);
      RunNotFailed(o, mid, passes[n].inputs, fed);
      LoopNotFailed(o, x, passes[..n], mid);
    }
  }

  /** The turn that begins shutdown cleanup gives up ownership, uses no operation and goes on. */
  lemma BeginningTurn(o: Options, w: World, budget: nat, t: Tick)
    requires Due(w) && budget > 0
    ensures JobTurn(o, w, budget, t) == Turn(PrepareShutdown(w), budget, Continue)
  {
  }

  /** What reachability is needed for. */
  ghost predicate Ready(o: Options, w: World) {
    && GoodOptions(o) && !w.failed && Due(w)
    && Inv(o, PrepareShutdown(w)) && w.kernel.mine <= w.hist.loose + w.flow.owned
  }

  lemma BeginsReady(o: Options, w: World, t: Tick)
    requires Begins(o, w)
    ensures Ready(o, w)
  {
    ReachableInv(o, w);
    OwnedCoversMine(w);
    BeginningTurn(o, w, 1, t);
    StepKeeps(o, w, Maintain(1, t));
  }

  lemma OwnedCoversMine(w: World)
    requires OwnInv(w) && w.flow.inflight.None?
    ensures w.kernel.mine <= w.hist.loose + w.flow.owned
  {
  }

  lemma Listing(s: set<IpKey>)
    ensures Sorted(SortKeys(s)) && KeySet(SortKeys(s)) == s && |SortKeys(s)| == |s|
  {
    SortKeysLists(s);
    SortedSize(SortKeys(s));
  }

  /** What giving up ownership to shutdown cleanup changes, and what it does not. */
  ghost predicate GivenUp(w: World, tracked: seq<IpKey>, x: World) {
    && x.flow == w.flow.(owned := {}) && x.ctl.close.tracked == tracked && x.kernel == w.kernel && x.failed == w.failed
    && x.ctl.req == w.ctl.req && x.ctl.startup == w.ctl.startup
    && x.hist.close.begun && x.hist.close.refused == {} && x.hist.close.loose == w.hist.loose
    && x.hist.close.quiet == !Queued(w)
  }

  lemma GivesUp(w: World, tracked: seq<IpKey>)
    ensures GivenUp(w, tracked, GiveUpOwned(w, tracked))
  {
  }

  lemma PreparedWorld(w: World, tracked: seq<IpKey>)
    ensures var x := PrepareWith(w, tracked);
            && GivenUp(w, tracked, x)
            && (tracked == [] ==> x.ctl.job.Idle? && x.ctl.close.done)
            && (tracked != [] ==>
                  x.ctl.job == CleanupTracked(0, w.ctl.batchId, NO_SUMMARY, None) && x.ctl.close.done == w.ctl.close.done)
  {
    GivesUp(w, tracked);
  }

  /** With nothing queued every stop is clean. */
  lemma QuietStopIsClean(o: Options, before: set<IpKey>, x: World, budget: nat, ticks: nat -> Tick,
                         passes: seq<Pass>, e: World)
    requires GoodOptions(o) && QuietClose(o, before, x) && x.flow.inflight.None?
    requires StopsFrom(o, x, budget, ticks, passes, e)
    ensures Clean(before, e)
  {
    LoopNotFailed(o, Slice(o, x, budget, ticks, 0), passes, e);
    QuietSlice(o, before, x, budget, ticks, 0);
    QuietLoop(o, before, Slice(o, x, budget, ticks, 0), passes, e);
  }

  lemma QuietBegins(w: World)
    requires !w.failed && Due(w) && !Queued(w)
    ensures var x := PrepareShutdown(w);
            && !x.failed && x.hist.close.begun && x.hist.close.quiet && x.hist.close.loose == w.hist.loose
            && x.flow.inflight.None?
  {
    PreparedWorld(w, SortKeys(w.flow.owned));
  }

  // -------------------------------------------------------------------
  // A cleanup that fills a slice
  // -------------------------------------------------------------------

  /** All deletes are still to be sent. */
  ghost predicate Unstarted(before: set<IpKey>, x: World) {
    && x.ctl.job.CleanupTracked? && x.ctl.job.offset == 0 && Total(x.ctl.job.summary) == 0
    && x.ctl.job.waiting.None? && x.flow.inflight.None?
    && x.kernel.mine <= before + KeySet(x.ctl.close.tracked)
  }

  /** All deletes are sent and not yet counted. */
  ghost predicate AllSent(before: set<IpKey>, x: World) {
    && x.ctl.job.CleanupTracked? && x.ctl.job.offset == |x.ctl.close.tracked| && Total(x.ctl.job.summary) == 0
    && x.ctl.job.waiting.Some? && (x.flow.inflight.Some? ==> Flies(x.flow)) && Clean(before, x)
  }

  /** A cleanup of one batch, until the loop leaves. */
  ghost predicate OneBatch(o: Options, before: set<IpKey>, x: World) {
    Inv(o, x) && InOneBatch(o, before, x)
  }

  ghost predicate InOneBatch(o: Options, before: set<IpKey>, x: World) {
    && !x.failed && x.hist.close.begun && x.ctl.req.shutdown && x.flow.pending == map[]
    && |x.ctl.close.tracked| == MAINTENANCE_OP_BUDGET && o.batchMax >= MAINTENANCE_OP_BUDGET
    && (Unstarted(before, x) || AllSent(before, x) || (Exits(x) && Clean(before, x)))
  }

  lemma OneBatchInput(o: Options, before: set<IpKey>, x: World, a: Action)
    requires GoodOptions(o) && OneBatch(o, before, x) && !Exits(x) && Enabled(o, x, a) && !Step(o, x, a).failed
    requires Lull(a) || a.Expire?
    ensures OneBatch(o, before, Step(o, x, a)) && !Exits(Step(o, x, a))
  {
    StepKeeps(o, x, a);
  }

  lemma {:induction false} OneBatchInputs(o: Options, before: set<IpKey>, x: World, inputs: seq<Action>, y: World)
    requires GoodOptions(o) && OneBatch(o, before, x) && !Exits(x) && Runs(o, x, inputs, y) && !y.failed
    requires forall i :: 0 <= i < |inputs| ==> Lull(inputs[i])
    ensures OneBatch(o, before, y) && !Exits(y)
    decreases |inputs|
  {
    if inputs != [] {
      var n := |inputs| - 1;
      var mid :| Runs(o, x, inputs[..n], mid) && Enabled(o, mid, inputs[n]) && y == Step(o, mid, inputs[n]);
      OneBatchInputs(o, before, x, inputs[..n], mid);
      OneBatchInput(o, before, mid, inputs[n]);
    }
  }

  /** The whole list goes out at once. */
  lemma SendsAll(o: Options, before: set<IpKey>, x: World, t: Tick)
    requires OneBatch(o, before, x) && Unstarted(before, x)
    requires !CleanupTurn(o, x, MAINTENANCE_OP_BUDGET, t).world.failed
    ensures var r := CleanupTurn(o, x, MAINTENANCE_OP_BUDGET, t);
            r.verdict == Break(BatchStarted) && AllSent(before, r.world) && r.world.ctl.close.tracked == x.ctl.close.tracked
            && r.world.flow.pending == x.flow.pending && r.world.ctl.req == x.ctl.req && r.world.hist.close.begun
  {
    var tracked, n := x.ctl.close.tracked, MAINTENANCE_OP_BUDGET;
    assert ChunkRoom(o, n) == n && CleanupEnd(tracked, 0, n) == n;
    CleanupSendQuiet(x, Deletes(tracked[0..n]), 0, n, t.send);
    assert tracked[0..] == tracked && tracked[n..] == [];
  }

  /** Its result uses up the slice that collects it. */
  lemma CollectsAll(o: Options, before: set<IpKey>, x: World, t: Tick)
    requires OneBatch(o, before, x) && AllSent(before, x) && x.flow.inflight.None?
    ensures var r := CleanupTurn(o, x, MAINTENANCE_OP_BUDGET, t);
            r.budget == 0 && !r.world.failed && Exits(r.world) && Clean(before, r.world)
            && r.world.ctl.close.tracked == x.ctl.close.tracked && r.world.hist.close.begun
  {
    assert HandoffInv(x.flow, x.ctl.job) && CloseInv(x.flow, x.ctl, x.hist);
    assert Outstanding(x.flow) == MAINTENANCE_OP_BUDGET;
    assert CanProceed(x, x.ctl.job.waiting);
    assert BudgetAfter(x, x.ctl.job.waiting, MAINTENANCE_OP_BUDGET) == 0;
  }

  lemma OneBatchSlice(o: Options, before: set<IpKey>, x: World, ticks: nat -> Tick, n: nat)
    requires GoodOptions(o) && OneBatch(o, before, x) && !Exits(x) && x.flow.inflight.None?
    requires !Slice(o, x, MAINTENANCE_OP_BUDGET, ticks, n).failed
    ensures OneBatch(o, before, Slice(o, x, MAINTENANCE_OP_BUDGET, ticks, n))
  {
    if ticks(n).timeLeft {
      var r := JobTurn(o, x, MAINTENANCE_OP_BUDGET, ticks(n));
      TurnUsesUp(o, x, MAINTENANCE_OP_BUDGET, ticks(n));
      ContinueIsFree(o, x, MAINTENANCE_OP_BUDGET, ticks(n));
      if Unstarted(before, x) {
        SendsAll(o, before, x, ticks(n));
      } else {
        CollectsAll(o, before, x, ticks(n));
        assert Slice(o, r.world, r.budget, ticks, n + 1) == r.world;
      }
      StepKeeps(o, x, Maintain(MAINTENANCE_OP_BUDGET, ticks(n)));
    }
  }

  lemma OneBatchDrive(o: Options, before: set<IpKey>, x: World, p: Pass, y: World)
    requires GoodOptions(o) && OneBatch(o, before, x) && !Exits(x) && Drives(o, x, p, y) && !y.failed
    ensures OneBatch(o, before, y)
  {
    var x1 := AfterDeadline(x, p.now);
    if x.flow.inflight.Some? && p.now >= x.flow.inflight.value.ackDeadline {
      OneBatchInput(o, before, x, Expire(p.now));
    }
    assert OneBatch(o, before, x1) && !Exits(x1) && x1.flow.pending == map[];
    if x1.flow.inflight.None? {
      OneBatchSlice(o, before, x1, p.ticks, 0);
    }
  }

  lemma {:induction false} OneBatchLoop(o: Options, before: set<IpKey>, x: World, passes: seq<Pass>, e: World)
    requires GoodOptions(o) && OneBatch(o, before, x) && Loops(o, x, passes, e) && Lulls(passes) && !e.failed
    ensures OneBatch(o, before, e)
    decreases |passes|
  {
    if passes != [] {
      var n := |passes| - 1;
      var p := passes[n];
      var mid :| Loops(o, x, passes[..n], mid) && !Exits(mid) && OnePass(o, mid, p, e);
      var fed :| Runs(o, mid, p.inputs, fed) && Drives(o, fed, p, e);
      RunNotFailed(o, mid, p.inputs, fed);
      OneBatchLoop(o, before, x, passes[..n], mid);
      OneBatchInputs(o, before, mid, p.inputs, fed);
      OneBatchDrive(o, before, fed, p, e);
    }
  }

  lemma OneBatchAtFirst(o: Options, w: World, tracked: seq<IpKey>, x: World)
    requires GivenUp(w, tracked, x) && x.ctl.job == CleanupTracked(0, w.ctl.batchId, NO_SUMMARY, None)
    requires !w.failed && Due(w) && w.kernel.mine <= w.hist.loose + KeySet(tracked)
    requires |tracked| == MAINTENANCE_OP_BUDGET && o.batchMax >= MAINTENANCE_OP_BUDGET
    ensures InOneBatch(o, w.hist.loose, x) && !Exits(x) && x.flow.inflight.None?
  {
  }

  /** A cleanup that fills a slice ends the loop before anything queued is looked at. */
  lemma OneBatchStopIsClean(o: Options, before: set<IpKey>, x: World, ticks: nat -> Tick, passes: seq<Pass>, e: World)
    requires GoodOptions(o) && OneBatch(o, before, x) && !Exits(x) && x.flow.inflight.None?
    requires StopsFrom(o, x, MAINTENANCE_OP_BUDGET, ticks, passes, e)
    ensures Clean(before, e)
  {
    LoopNotFailed(o, Slice(o, x, MAINTENANCE_OP_BUDGET, ticks, 0), passes, e);
    OneBatchSlice(o, before, x, ticks, 0);
    OneBatchLoop(o, before, Slice(o, x, MAINTENANCE_OP_BUDGET, ticks, 0), passes, e);
  }

  lemma OneBatchBegins(o: Options, w: World)
    requires !w.failed && Due(w) && w.kernel.mine <= w.hist.loose + w.flow.owned
    requires FillsASlice(o, w, MAINTENANCE_OP_BUDGET)
    ensures var x := PrepareShutdown(w); InOneBatch(o, w.hist.loose, x) && !Exits(x) && x.flow.inflight.None?
  {
    var tracked := SortKeys(w.flow.owned);
    Listing(w.flow.owned);
    PreparedWorld(w, tracked);
    OneBatchAtFirst(o, w, tracked, PrepareShutdown(w));
  }
}
