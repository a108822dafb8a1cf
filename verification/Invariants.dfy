/**
 Theorems about every run of the reactor.
 */
module Invariants {
  import opened IpKeys
  import opened SeqRing
  import opened AckTracking
  import opened ResyncDiff
  import opened Reactor
  import opened Ownership
  import opened Jobs

  ghost predicate Inv(o: Options, w: World) {
    FlowInv(w) && JobInv(w) && TimerInv(o, w)
  }

  // -------------------------------------------------------------------
  // Turns keep ownership and coalescing
  // -------------------------------------------------------------------

  lemma GiveUpKeeps(w: World, tracked: seq<IpKey>)
    requires FlowInv(w) && w.flow.inflight.None? && w.flow.pending == map[]
    ensures FlowInv(GiveUpOwned(w, tracked))
  {
  }

  lemma IdleFlow(w: World, budget: nat, t: Tick)
    requires FlowInv(w) && w.ctl.job.Idle? && w.flow.inflight.None?
    ensures FlowInv(IdleTurn(w, budget, t).world)
  {
    if ShutdownDue(w) {
      GiveUpKeeps(w, SortKeys(w.flow.owned));
    }
  }

  /** Flow, sequence numbers, kernel and history are all that `FlowInv` reads. */
  lemma FlowFrame(w: World, w': World)
    requires FlowInv(w) && w'.flow == w.flow && w'.seqs == w.seqs && w'.kernel == w.kernel
    requires w'.hist.mark == w.hist.mark && w'.hist.loose == w.hist.loose
    requires w'.hist.want == w.hist.want && w'.hist.strayed == w.hist.strayed
    ensures FlowInv(w')
  {
  }

  lemma CollectFlow(o: Options, w: World, budget: nat, t: Tick)
    requires FlowInv(w) && w.ctl.job.DumpCollect? && w.flow.inflight.None?
    ensures FlowInv(CollectTurn(o, w, budget, t).world)
  {
    ReserveKeeps(w, 1);
    var w' := CollectTurn(o, w, budget, t).world;
    if w'.seqs == w.seqs {
      FlowFrame(w, w');
    } else {
      FlowFrame(ReserveSeqs(w, 1), w');
    }
  }

  lemma BuildFlow(o: Options, w: World, budget: nat, t: Tick)
    requires FlowInv(w) && w.ctl.job.ResyncBuild? && w.flow.inflight.None?
    ensures FlowInv(BuildTurn(o, w, budget, t).world)
  {
    ReserveKeeps(w, 1);
    ReserveKeeps(ReserveSeqs(w, 1), 1);
    var second := o.ipv6 && (t.snapshot.Addresses? || t.snapshot.afterSecond);
    FlowFrame(DumpSeqs(w, second), BuildTurn(o, w, budget, t).world);
  }

  /** Collecting a completed batch is invisible to ownership. */
  lemma AfterCollectFlow(w: World, waiting: Option<nat>)
    requires FlowInv(w) && w.flow.inflight.None?
    ensures FlowInv(AfterCollect(w, waiting))
  {
  }

  lemma MaintenanceSendFlow(w: World, id: nat, ops: seq<RuleOp>, s: Send)
    requires FlowInv(w) && w.flow.inflight.None? && 0 < |ops| <= SPAN
    ensures FlowInv(SendBatch(w, id, MaintenanceOwner, |ops|, 0, ops, s))
    ensures FlowInv(BreakSend(w, ops, s))
  {
    SendKeeps(w, id, MaintenanceOwner, |ops|, 0, ops, s);
    MaintenanceSendCoalesces(w, id, |ops|, 0, ops, s);
    BreakKeeps(w, ops, s);
  }

  lemma RoomFits(o: Options, budget: nat)
    requires GoodOptions(o)
    ensures ChunkRoom(o, budget) <= SPAN
  {
  }

  lemma DumpChunkFlow(o: Options, w: World, summary: Summary, left: nat, t: Tick)
    requires GoodOptions(o) && FlowInv(w) && w.ctl.job.DumpApply? && w.flow.inflight.None?
    ensures FlowInv(DumpChunkTurn(o, w, summary, left, t).world)
  {
    var j := w.ctl.job;
    var w' := DumpChunkTurn(o, w, summary, left, t).world;
    var chunk := CleanupChunk(w.ctl.startup.keys, j.offset, ChunkRoom(o, left));
    RoomFits(o, left);
    if chunk == [] {
      FlowFrame(w, w');
    } else {
      MaintenanceSendFlow(w, NextId(j.batchId), chunk, t.send);
      if t.send.ok {
        FlowFrame(SendBatch(w, NextId(j.batchId), MaintenanceOwner, |chunk|, 0, chunk, t.send), w');
      } else {
        FlowFrame(BreakSend(w, chunk, t.send), w');
      }
    }
  }

  lemma ResyncChunkFlow(o: Options, w: World, metrics: ResyncResult, left: nat, t: Tick)
    requires GoodOptions(o) && FlowInv(w) && w.ctl.job.ResyncApply? && w.flow.inflight.None?
    requires !ResyncChunkTurn(o, w, metrics, left, t).world.failed
    ensures FlowInv(ResyncChunkTurn(o, w, metrics, left, t).world)
  {
    var j := w.ctl.job;
    var w' := ResyncChunkTurn(o, w, metrics, left, t).world;
    var c := NextChunk(w.ctl.plan.target, w.ctl.plan.current, j.targetIdx, j.currentIdx, ChunkRoom(o, left));
    RoomFits(o, left);
    ChunkIsPrefix(w.ctl.plan.target, w.ctl.plan.current, j.targetIdx, j.currentIdx, ChunkRoom(o, left));
    if c.ops == [] {
      FlowFrame(w, w');
    } else {
      MaintenanceSendFlow(w, NextId(j.batchId), c.ops, t.send);
      FlowFrame(SendBatch(w, NextId(j.batchId), MaintenanceOwner, |c.ops|, 0, c.ops, t.send), w');
    }
  }

  lemma CleanupChunkFlow(o: Options, w: World, summary: Summary, left: nat, t: Tick)
    requires GoodOptions(o) && FlowInv(w) && w.ctl.job.CleanupTracked? && w.flow.inflight.None?
    requires !CleanupChunkTurn(o, w, summary, left, t).world.failed
    ensures FlowInv(CleanupChunkTurn(o, w, summary, left, t).world)
  {
    var j := w.ctl.job;
    var w' := CleanupChunkTurn(o, w, summary, left, t).world;
    var chunk := CleanupChunk(w.ctl.close.tracked, j.offset, ChunkRoom(o, left));
    RoomFits(o, left);
    if chunk == [] {
      FlowFrame(w, w');
    } else {
      MaintenanceSendFlow(w, NextId(j.batchId), chunk, t.send);
      FlowFrame(SendBatch(w, NextId(j.batchId), MaintenanceOwner, |chunk|, 0, chunk, t.send), w');
    }
  }

  /** The applying jobs: collect, then send the next chunk. */
  lemma ApplyFlow(o: Options, w: World, budget: nat, t: Tick)
    requires GoodOptions(o) && FlowInv(w) && w.flow.inflight.None?
    requires w.ctl.job.DumpApply? || w.ctl.job.ResyncApply? || w.ctl.job.CleanupTracked?
    requires !JobTurn(o, w, budget, t).world.failed
    ensures FlowInv(JobTurn(o, w, budget, t).world)
  {
    var waiting := Waiting(w.ctl.job);
    if CanProceed(w, waiting) {
      var w1 := AfterCollect(w, waiting);
      AfterCollectFlow(w, waiting);
      var done := Collected(w, waiting);
      var left := BudgetAfter(w, waiting, budget);
      match w.ctl.job
      case DumpApply(_, _, summary, _, _) => DumpChunkFlow(o, w1, AddUp(summary, done), left, t);
      case ResyncApply(_, _, _, metrics, _) => ResyncChunkFlow(o, w1, AddMetrics(metrics, done), left, t);
      case CleanupTracked(_, _, summary, _) => CleanupChunkFlow(o, w1, AddUp(summary, done), left, t);
    }
  }

  // -------------------------------------------------------------------
  // Deadlines
  // -------------------------------------------------------------------

  lemma LiveAfter(touches: seq<Touch>, t: Touch)
    ensures Live(touches + [t]) <==> t.Arrival? || !t.drained
    ensures Live(touches + [t]) ==> LastTouch(touches + [t]) == t.at
    ensures Live(touches + [t]) ==>
              Epoch(touches + [t]) == if t.Cut? || !Live(touches) then t.at else Epoch(touches)
  {
    assert (touches + [t])[..|touches|] == touches;
  }

  lemma RouteTimers(o: Options, w: World, events: seq<RuleOp>, parseFailed: nat, now: nat)
    requires TimerInv(o, w)
    ensures TimerInv(o, RouteStep(o, w, events, parseFailed, false, now))
  {
    if events != [] {
      LiveAfter(w.hist.touches, Arrival(now));
      var last := events[|events| - 1];
      assert last.key in InsertAll(w.flow.pending, events);
    }
  }

  lemma FlushTimers(o: Options, w: World, pick: seq<IpKey>, now: nat, s: Send)
    requires TimerInv(o, w) && ValidPick(o, w.flow.pending, pick)
    ensures TimerInv(o, FlushStep(o, w, pick, now, s))
  {
    if w.flow.inflight.None? && w.flow.pending != map[] {
      LiveAfter(w.hist.touches, Cut(now, w.flow.pending - KeySet(pick) == map[]));
    }
  }

  ghost predicate SamePending(w: World, w': World) {
    && w'.flow.pending == w.flow.pending && w'.flow.quiet == w.flow.quiet
    && w'.flow.maxDeadline == w.flow.maxDeadline && w'.hist.touches == w.hist.touches
    && w'.hist.want == w.hist.want
  }

  lemma DumpTimers(o: Options, w: World, summary: Summary, left: nat, t: Tick)
    requires w.ctl.job.DumpApply?
    ensures SamePending(w, DumpChunkTurn(o, w, summary, left, t).world)
  {
  }

  lemma ResyncTimers(o: Options, w: World, metrics: ResyncResult, left: nat, t: Tick)
    requires w.ctl.job.ResyncApply?
    ensures SamePending(w, ResyncChunkTurn(o, w, metrics, left, t).world)
  {
  }

  lemma CleanupTimers(o: Options, w: World, summary: Summary, left: nat, t: Tick)
    requires w.ctl.job.CleanupTracked?
    ensures SamePending(w, CleanupChunkTurn(o, w, summary, left, t).world)
  {
  }

  lemma CollectTimers(o: Options, w: World, budget: nat, t: Tick)
    requires w.ctl.job.DumpCollect?
    ensures SamePending(w, CollectTurn(o, w, budget, t).world)
  {
  }

  /** No turn of the maintenance loop touches the pending map or its deadlines. */
  lemma TurnTimers(o: Options, w: World, budget: nat, t: Tick)
    ensures SamePending(w, JobTurn(o, w, budget, t).world)
  {
    var waiting := Waiting(w.ctl.job);
    if w.ctl.job.DumpCollect? {
      CollectTimers(o, w, budget, t);
    } else if CanProceed(w, waiting) {
      var w1 := AfterCollect(w, waiting);
      var done := Collected(w, waiting);
      var left := BudgetAfter(w, waiting, budget);
      match w.ctl.job
      case DumpApply(_, _, summary, _, _) => DumpTimers(o, w1, AddUp(summary, done), left, t);
      case ResyncApply(_, _, _, metrics, _) => ResyncTimers(o, w1, AddMetrics(metrics, done), left, t);
      case CleanupTracked(_, _, summary, _) => CleanupTimers(o, w1, AddUp(summary, done), left, t);
      case _ =>
    }
  }

  // -------------------------------------------------------------------
  // Every step, every run
  // -------------------------------------------------------------------

  lemma InitialInv(o: Options, w: World)
    requires Initial(w)
    ensures Inv(o, w)
  {
  }

  lemma TurnKeeps(o: Options, w: World, budget: nat, t: Tick)
    requires GoodOptions(o) && Inv(o, w) && w.flow.inflight.None?
    requires !JobTurn(o, w, budget, t).world.failed
    ensures Inv(o, JobTurn(o, w, budget, t).world)
  {
    TurnTimers(o, w, budget, t);
    match w.ctl.job
    case Idle => IdleFlow(w, budget, t); IdleJob(w, budget, t);
    case DumpCollect(_, _, _, _) => CollectFlow(o, w, budget, t); CollectJob(o, w, budget, t);
    case DumpApply(_, _, _, _, _) => ApplyFlow(o, w, budget, t); DumpApplyJob(o, w, budget, t);
    case ResyncBuild(_) => BuildFlow(o, w, budget, t); BuildJob(o, w, budget, t);
    case ResyncApply(_, _, _, _, _) => ApplyFlow(o, w, budget, t); ResyncJob(o, w, budget, t);
    case CleanupTracked(_, _, _, _) => ApplyFlow(o, w, budget, t); CleanupJob(o, w, budget, t);
  }

  lemma ForeignKeeps(o: Options, w: World, key: IpKey, present: bool)
    requires Inv(o, w) && key !in w.kernel.mine
    ensures Inv(o, ForeignStep(w, key, present))
  {
  }

  lemma SignalKeeps(o: Options, w: World, resync: bool)
    requires Inv(o, w)
    ensures Inv(o, SignalStep(w, resync))
  {
    SignalJob(w, resync);
    FlowFrame(w, SignalStep(w, resync));
  }

  lemma AcksTimers(o: Options, w: World, msgs: seq<AckMsg>)
    requires TimerInv(o, w)
    ensures TimerInv(o, AcksStep(w, msgs, false))
  {
  }

  /** Each step of a run keeps the whole invariant, as long as the loop has not failed. */
  lemma StepKeeps(o: Options, w: World, a: Action)
    requires GoodOptions(o) && Inv(o, w) && Enabled(o, w, a) && !Step(o, w, a).failed
    ensures Inv(o, Step(o, w, a))
  {
    match a
    case Route(events, parseFailed, fatal, now) =>
      RouteKeeps(o, w, events, parseFailed, now);
      RouteJob(o, w, events, parseFailed, now);
      RouteTimers(o, w, events, parseFailed, now);
    case Acks(msgs, fatal) =>
      if !fatal || w.flow.inflight.None? {
        AcksKeep(w, msgs);
        AcksJob(w, msgs);
        AcksTimers(o, w, msgs);
      }
    case Signal(resync) => SignalKeeps(o, w, resync);
    case Foreign(key, present) => ForeignKeeps(o, w, key, present);
    case Expire(_) => TimeoutKeeps(w); TimeoutJob(w);
    case Flush(_, pick, flushNow, s) =>
      FlushKeeps(o, w, pick, flushNow, s);
      FlushJob(o, w, pick, flushNow, s);
      FlushTimers(o, w, pick, flushNow, s);
    case Maintain(budget, t) => TurnKeeps(o, w, budget, t);
  }

  lemma {:induction false} RunKeeps(o: Options, start: World, actions: seq<Action>, w: World)
    requires GoodOptions(o) && Initial(start) && Runs(o, start, actions, w) && !w.failed
    ensures Inv(o, w)
    decreases |actions|
  {
    if actions == [] {
      InitialInv(o, w);
    } else {
      var n := |actions| - 1;
      var mid :| Runs(o, start, actions[..n], mid) && Enabled(o, mid, actions[n]) && w == Step(o, mid, actions[n]);
      RunKeeps(o, start, actions[..n], mid);
      StepKeeps(o, mid, actions[n]);
    }
  }

  lemma ReachableInv(o: Options, w: World)
    requires GoodOptions(o) && Reachable(o, w) && !w.failed
    ensures Inv(o, w)
  {
    var start, actions :| Initial(start) && Runs(o, start, actions, w);
    RunKeeps(o, start, actions, w);
  }
}
