/**
 Rules the daemon added and lost track of.

 A batch that times out commits nothing, so an add that the kernel did carry out
 leaves a rule the daemon does not own.  Nothing it does later brings the two
 together again, short of a startup cleanup that lists the rule.
 */
module Orphans {
  import opened IpKeys
  import opened AckTracking
  import opened ResyncDiff
  import opened Reactor
  import opened Ownership
  import opened Jobs
  import opened Invariants
  import opened Theorems

  ghost predicate NoDelete(ops: seq<RuleOp>, k: IpKey) {
    forall i :: 0 <= i < |ops| && ops[i].key == k ==> ops[i].action.Add?
  }

  /** The answers to the operations on k, from message `first` on, are all refusals. */
  ghost predicate AllBounced(ops: seq<RuleOp>, replies: map<nat, AckStatus>, first: nat, n: nat, k: IpKey)
    requires n <= |ops|
  {
    forall i: nat :: i < n && ops[i].key == k ==> first + i in replies && replies[first + i].Some?
  }

  /** No list the current job works off has k down for deletion. */
  ghost predicate Unlisted(c: Control, k: IpKey) {
    && (c.job.ResyncApply? ==> k !in KeySet(c.plan.current))
    && (c.job.CleanupTracked? ==> k !in KeySet(c.close.tracked))
    && k !in KeySet(c.startup.keys)
  }

  /** A rule of the daemon's for k is installed, the daemon does not own it, and nothing under way will delete it. */
  ghost predicate Orphan(w: World, k: IpKey) {
    && k in w.kernel.mine && k in w.kernel.installed && k !in w.flow.owned && Unlisted(w.ctl, k)
    && (w.flow.inflight.Some? ==>
          var ops := w.flow.inflight.value.ops;
          NoDelete(ops, k) && AllBounced(ops, w.kernel.replies, w.hist.mark.first, |ops|, k))
  }

  // -------------------------------------------------------------------
  // Sending
  // -------------------------------------------------------------------

  /** Adds of an installed key bounce, and without a delete its rule stays. */
  lemma {:induction false} AddsBounce(kernel: Kernel, ops: seq<RuleOp>, refuse: nat -> Option<int>, first: nat, n: nat,
                                      k: IpKey)
    requires n <= |ops| && NoDelete(ops, k) && k in kernel.mine && k in kernel.installed
    ensures var after := KernelRun(kernel, ops, refuse, first, n);
            k in after.mine && k in after.installed && AllBounced(ops, after.replies, first, n, k)
  {
    if n > 0 {
      AddsBounce(kernel, ops, refuse, first, n - 1, k);
    }
  }

  lemma SendKeepsOrphan(w: World, id: nat, owner: Owner, input: nat, noop: nat, ops: seq<RuleOp>, s: Send, k: IpKey)
    requires Orphan(w, k) && NoDelete(ops, k)
    ensures Orphan(SendBatch(w, id, owner, input, noop, ops, s), k)
    ensures w.flow.inflight.None? ==> Orphan(BreakSend(w, ops, s), k)
  {
    AddsBounce(w.kernel, ops, s.refuse, w.seqs.issued, |ops|, k);
    AddsBounce(w.kernel, ops, s.refuse, w.seqs.issued, Delivered(s, |ops|), k);
  }

  /** The delete of a key that is not owned is dropped before it is sent. */
  lemma {:induction false} DeleteIsDropped(owned: set<IpKey>, ops: seq<RuleOp>, k: IpKey)
    requires k !in owned
    ensures NoDelete(Prefilter(owned, ops), k)
  {
    if ops != [] {
      DeleteIsDropped(owned, ops[..|ops| - 1], k);
    }
  }

  lemma DeletesOfOthers(keys: seq<IpKey>, from: nat, to: nat, k: IpKey)
    requires from <= to <= |keys| && k !in KeySet(keys)
    ensures NoDelete(Deletes(keys[from..to]), k)
  {
    forall i | 0 <= i < to - from ensures Deletes(keys[from..to])[i].key != k {
      assert keys[from + i] in KeySet(keys);
    }
  }

  /** A resync plans deletes of keys that were owned only. */
  lemma PlannedWithoutDelete(plan: Plan, i: nat, j: nat, room: nat, k: IpKey)
    requires Sorted(plan.target) && Sorted(plan.current) && k !in KeySet(plan.current)
    ensures NoDelete(NextChunk(plan.target, plan.current, i, j, room).ops, k)
  {
    var c := NextChunk(plan.target, plan.current, i, j, room);
    ChunkIsPrefix(plan.target, plan.current, i, j, room);
    var rest := Rest(plan.target, plan.current, i, j);
    RestIsDifference(plan.target, plan.current, i, j, RuleOp(k, Delete));
    assert !InTail(plan.current, j, k);
    forall m | 0 <= m < |c.ops| && c.ops[m].key == k ensures c.ops[m].action.Add? {
      assert rest[m] == c.ops[m] && rest[m] in rest;
    }
  }

  // -------------------------------------------------------------------
  // Steps
  // -------------------------------------------------------------------

  lemma FinishKeepsOrphan(w: World, k: IpKey)
    requires Orphan(w, k) && w.flow.inflight.Some?
    requires var b := w.flow.inflight.value;
             OkFlags(b.tracker, |b.ops|) == ReplyFlags(w.kernel.replies, w.hist.mark.first, |b.ops|)
    ensures Orphan(Finish(w), k)
  {
    var b := w.flow.inflight.value;
    EffectsElsewhere(w.flow.owned, b.ops, OkFlags(b.tracker, |b.ops|), |b.ops|, k);
  }

  lemma AcksKeepOrphan(o: Options, w: World, msgs: seq<AckMsg>, k: IpKey)
    requires Orphan(w, k) && BatchInv(w) && Enabled(o, w, Acks(msgs, false))
    ensures Orphan(AcksStep(w, msgs, false), k)
  {
    if w.flow.inflight.Some? {
      var b := w.flow.inflight.value;
      var t := ReceiveAll(b.tracker, b.firstSeq, |b.ops|, msgs);
      var w1 := w.(flow := w.flow.(inflight := Some(b.(tracker := t))));
      if t.pending == 0 {
        DrainKeepsGenuine(w, b, msgs);
        PendingCountsUnseen(b.tracker, b.firstSeq, |b.ops|, msgs);
        FinishedFlags(w, b.(tracker := t));
        FinishKeepsOrphan(w1, k);
      }
    }
  }

  lemma FlushKeepsOrphan(o: Options, w: World, pick: seq<IpKey>, now: nat, s: Send, k: IpKey)
    requires Orphan(w, k) && ValidPick(o, w.flow.pending, pick) && w.flow.inflight.None?
    requires !FlushStep(o, w, pick, now, s).failed
    ensures Orphan(FlushStep(o, w, pick, now, s), k)
  {
    if w.flow.pending != map[] {
      var kept := Prefilter(w.flow.owned, TakeOps(w.flow.pending, pick));
      DeleteIsDropped(w.flow.owned, TakeOps(w.flow.pending, pick), k);
      var w1 := TakePending(o, w, pick, now);
      assert Orphan(w1, k);
      if kept != [] {
        var id := NextId(w.ctl.batchId);
        var w2 := w1.(ctl := w1.ctl.(batchId := id));
        assert Orphan(w2, k);
        SendKeepsOrphan(w2, id, PendingOwner, |pick|, |pick| - |kept|, kept, s, k);
      }
    }
  }

  /** Only the parts that `Orphan` reads. */
  lemma OrphanFrame(w: World, w': World, k: IpKey)
    requires Orphan(w, k) && w'.flow.owned == w.flow.owned && w'.flow.inflight == w.flow.inflight
    requires w'.kernel == w.kernel && w'.hist.mark == w.hist.mark && Unlisted(w'.ctl, k)
    ensures Orphan(w', k)
  {
  }

  lemma IdleKeepsOrphan(o: Options, w: World, budget: nat, t: Tick, k: IpKey)
    requires Orphan(w, k) && w.ctl.job.Idle? && w.flow.inflight.None?
    ensures Orphan(IdleTurn(w, budget, t).world, k)
  {
    if ShutdownDue(w) {
      SortKeysLists(w.flow.owned);
      var w' := PrepareWith(w, SortKeys(w.flow.owned));
      assert Unlisted(w'.ctl, k);
    }
  }

  lemma BuildKeepsOrphan(o: Options, w: World, budget: nat, t: Tick, k: IpKey)
    requires Orphan(w, k) && w.ctl.job.ResyncBuild? && w.flow.inflight.None?
    ensures Orphan(BuildTurn(o, w, budget, t).world, k)
  {
    SortKeysLists(w.flow.owned);
    OrphanFrame(w, BuildTurn(o, w, budget, t).world, k);
  }

  lemma CollectKeepsOrphan(o: Options, w: World, budget: nat, t: Tick, k: IpKey)
    requires Orphan(w, k) && w.ctl.job.DumpCollect?
    requires k !in KeySet(CollectTurn(o, w, budget, t).world.ctl.startup.keys)
    ensures Orphan(CollectTurn(o, w, budget, t).world, k)
  {
    OrphanFrame(w, CollectTurn(o, w, budget, t).world, k);
  }

  lemma DumpKeepsOrphan(o: Options, w: World, summary: Summary, left: nat, t: Tick, k: IpKey)
    requires Orphan(w, k) && w.ctl.job.DumpApply? && w.flow.inflight.None?
    ensures Orphan(DumpChunkTurn(o, w, summary, left, t).world, k)
  {
    var j, keys := w.ctl.job, w.ctl.startup.keys;
    var room := ChunkRoom(o, left);
    var chunk := CleanupChunk(keys, j.offset, room);
    var w' := DumpChunkTurn(o, w, summary, left, t).world;
    if chunk == [] {
      OrphanFrame(w, w', k);
    } else {
      DeletesOfOthers(keys, j.offset, CleanupEnd(keys, j.offset, room), k);
      SendKeepsOrphan(w, NextId(j.batchId), MaintenanceOwner, |chunk|, 0, chunk, t.send, k);
      var s := if t.send.ok then SendBatch(w, NextId(j.batchId), MaintenanceOwner, |chunk|, 0, chunk, t.send)
               else BreakSend(w, chunk, t.send);
      OrphanFrame(s, w', k);
    }
  }

  lemma ResyncKeepsOrphan(o: Options, w: World, metrics: ResyncResult, left: nat, t: Tick, k: IpKey)
    requires Orphan(w, k) && w.ctl.job.ResyncApply? && w.flow.inflight.None?
    requires Sorted(w.ctl.plan.target) && Sorted(w.ctl.plan.current)
    requires !ResyncChunkTurn(o, w, metrics, left, t).world.failed
    ensures Orphan(ResyncChunkTurn(o, w, metrics, left, t).world, k)
  {
    var j, plan := w.ctl.job, w.ctl.plan;
    var c := NextChunk(plan.target, plan.current, j.targetIdx, j.currentIdx, ChunkRoom(o, left));
    var w' := ResyncChunkTurn(o, w, metrics, left, t).world;
    if c.ops == [] {
      OrphanFrame(w, w', k);
    } else {
      PlannedWithoutDelete(plan, j.targetIdx, j.currentIdx, ChunkRoom(o, left), k);
      SendKeepsOrphan(w, NextId(j.batchId), MaintenanceOwner, |c.ops|, 0, c.ops, t.send, k);
      OrphanFrame(SendBatch(w, NextId(j.batchId), MaintenanceOwner, |c.ops|, 0, c.ops, t.send), w', k);
    }
  }

  lemma CleanupKeepsOrphan(o: Options, w: World, summary: Summary, left: nat, t: Tick, k: IpKey)
    requires Orphan(w, k) && w.ctl.job.CleanupTracked? && w.flow.inflight.None?
    requires !CleanupChunkTurn(o, w, summary, left, t).world.failed
    ensures Orphan(CleanupChunkTurn(o, w, summary, left, t).world, k)
  {
    var j, keys := w.ctl.job, w.ctl.close.tracked;
    var room := ChunkRoom(o, left);
    var chunk := CleanupChunk(keys, j.offset, room);
    var w' := CleanupChunkTurn(o, w, summary, left, t).world;
    if chunk == [] {
      OrphanFrame(w, w', k);
    } else {
      DeletesOfOthers(keys, j.offset, CleanupEnd(keys, j.offset, room), k);
      SendKeepsOrphan(w, NextId(j.batchId), MaintenanceOwner, |chunk|, 0, chunk, t.send, k);
      OrphanFrame(SendBatch(w, NextId(j.batchId), MaintenanceOwner, |chunk|, 0, chunk, t.send), w', k);
    }
  }

  lemma TurnKeepsOrphan(o: Options, w: World, budget: nat, t: Tick, k: IpKey)
    requires Orphan(w, k) && JobInv(w) && w.flow.inflight.None?
    requires var w' := JobTurn(o, w, budget, t).world; !w'.failed && k !in KeySet(w'.ctl.startup.keys)
    ensures Orphan(JobTurn(o, w, budget, t).world, k)
  {
    var waiting := Waiting(w.ctl.job);
    match w.ctl.job {
      case Idle => IdleKeepsOrphan(o, w, budget, t, k);
      case DumpCollect(_, _, _, _) => CollectKeepsOrphan(o, w, budget, t, k);
      case ResyncBuild(_) => BuildKeepsOrphan(o, w, budget, t, k);
      case _ =>
        if CanProceed(w, waiting) {
          var w1, done := AfterCollect(w, waiting), Collected(w, waiting);
          var left := BudgetAfter(w, waiting, budget);
          OrphanFrame(w, w1, k);
          match w.ctl.job
          case DumpApply(_, _, summary, _, _) => DumpKeepsOrphan(o, w1, AddUp(summary, done), left, t, k);
          case ResyncApply(_, _, _, metrics, _) => ResyncKeepsOrphan(o, w1, AddMetrics(metrics, done), left, t, k);
          case CleanupTracked(_, _, summary, _) => CleanupKeepsOrphan(o, w1, AddUp(summary, done), left, t, k);
        }
    }
  }

  /** No step of the daemon takes an orphan in or away, unless a dump lists it. */
  lemma StepKeepsOrphan(o: Options, w: World, a: Action, k: IpKey)
    requires Orphan(w, k) && Inv(o, w) && Enabled(o, w, a)
    requires var w' := Step(o, w, a); !w'.failed && k !in KeySet(w'.ctl.startup.keys)
    ensures Orphan(Step(o, w, a), k)
  {
    match a
    case Acks(msgs, fatal) =>
      if !fatal || w.flow.inflight.None? {
        AcksKeepOrphan(o, w, msgs, k);
      }
    case Flush(_, pick, flushNow, s) => FlushKeepsOrphan(o, w, pick, flushNow, s, k);
    case Maintain(budget, t) => TurnKeepsOrphan(o, w, budget, t, k);
    case _ =>
  }

  // -------------------------------------------------------------------
  // Runs
  // -------------------------------------------------------------------

  /** A run in which no dump lists k. */
  ghost predicate RunsUnlisted(o: Options, w: World, actions: seq<Action>, e: World, k: IpKey)
    decreases |actions|
  {
    && k !in KeySet(e.ctl.startup.keys)
    && if actions == [] then w == e
       else
         var n := |actions| - 1;
         exists mid :: RunsUnlisted(o, w, actions[..n], mid, k) && Enabled(o, mid, actions[n])
                       && e == Step(o, mid, actions[n])
  }

  /**
   From a timeout on, whatever follows (compensating resyncs, further add and
   delete events, shutdown cleanup) and as long as no startup dump lists it, an
   orphan stays installed and unowned: also when the loop leaves.
   */
  lemma {:induction false} OrphanStays(o: Options, w: World, actions: seq<Action>, e: World, k: IpKey)
    requires GoodOptions(o) && Inv(o, w) && Orphan(w, k) && RunsUnlisted(o, w, actions, e, k) && !e.failed
    ensures Inv(o, e) && Orphan(e, k)
    decreases |actions|
  {
    if actions != [] {
      var n := |actions| - 1;
      var mid :| RunsUnlisted(o, w, actions[..n], mid, k) && Enabled(o, mid, actions[n])
                 && e == Step(o, mid, actions[n]);
      OrphanStays(o, w, actions[..n], mid, k);
      StepKeepsOrphan(o, mid, actions[n], k);
      StepKeeps(o, mid, actions[n]);
    }
  }

  // -------------------------------------------------------------------
  // How they arise
  // -------------------------------------------------------------------

  /** Operations on the same key have the same action. */
  ghost predicate OneAction(ops: seq<RuleOp>) {
    forall i, j :: 0 <= i < |ops| && 0 <= j < |ops| && ops[i].key == ops[j].key ==> ops[i].action == ops[j].action
  }

  ghost predicate OneActionInFlight(f: Flow) {
    f.inflight.Some? ==> OneAction(f.inflight.value.ops)
  }

  ghost predicate DistinctKeys(ops: seq<RuleOp>) {
    forall i, j :: 0 <= i < j < |ops| ==> ops[i].key != ops[j].key
  }

  lemma {:induction false} KeptAreDistinct(owned: set<IpKey>, ops: seq<RuleOp>)
    requires DistinctKeys(ops)
    ensures DistinctKeys(Prefilter(owned, ops)) && forall op :: op in Prefilter(owned, ops) ==> op in ops
  {
    if ops != [] {
      var n := |ops| - 1;
      KeptAreDistinct(owned, ops[..n]);
      var kept := Prefilter(owned, ops[..n]);
      forall i | 0 <= i < |kept| ensures kept[i].key != ops[n].key {
        assert kept[i] in kept;
        var j :| 0 <= j < n && ops[..n][j] == kept[i];
        assert ops[j].key != ops[n].key;
      }
    }
  }

  lemma FlushOneAction(o: Options, w: World, pick: seq<IpKey>, now: nat, s: Send)
    requires ValidPick(o, w.flow.pending, pick) && OneActionInFlight(w.flow)
    ensures OneActionInFlight(FlushStep(o, w, pick, now, s).flow)
  {
    KeptAreDistinct(w.flow.owned, TakeOps(w.flow.pending, pick));
  }

  lemma DumpOneAction(o: Options, w: World, summary: Summary, left: nat, t: Tick)
    requires w.ctl.job.DumpApply? && w.flow.inflight.None?
    ensures OneActionInFlight(DumpChunkTurn(o, w, summary, left, t).world.flow)
  {
  }

  lemma CleanupOneAction(o: Options, w: World, summary: Summary, left: nat, t: Tick)
    requires w.ctl.job.CleanupTracked? && w.flow.inflight.None?
    ensures OneActionInFlight(CleanupChunkTurn(o, w, summary, left, t).world.flow)
  {
  }

  lemma PrefixOneAction(ops: seq<RuleOp>, rest: seq<RuleOp>)
    requires Increasing(ops + rest)
    ensures OneAction(ops)
  {
    forall i, j | 0 <= i < j < |ops| ensures ops[i].key != ops[j].key {
      assert KeyLess((ops + rest)[i].key, (ops + rest)[j].key);
    }
  }

  lemma ResyncOneAction(o: Options, w: World, metrics: ResyncResult, left: nat, t: Tick)
    requires w.ctl.job.ResyncApply? && w.flow.inflight.None?
    requires Sorted(w.ctl.plan.target) && Sorted(w.ctl.plan.current)
    ensures OneActionInFlight(ResyncChunkTurn(o, w, metrics, left, t).world.flow)
  {
    var j, plan := w.ctl.job, w.ctl.plan;
    var c := NextChunk(plan.target, plan.current, j.targetIdx, j.currentIdx, ChunkRoom(o, left));
    ChunkIsPrefix(plan.target, plan.current, j.targetIdx, j.currentIdx, ChunkRoom(o, left));
    RestIncreases(plan.target, plan.current, j.targetIdx, j.currentIdx);
    PrefixOneAction(c.ops, Rest(plan.target, plan.current, c.targetIdx, c.currentIdx));
  }

  lemma TurnOneAction(o: Options, w: World, budget: nat, t: Tick)
    requires JobInv(w) && w.flow.inflight.None?
    ensures OneActionInFlight(JobTurn(o, w, budget, t).world.flow)
  {
    var waiting := Waiting(w.ctl.job);
    if CanProceed(w, waiting) {
      var w1, done := AfterCollect(w, waiting), Collected(w, waiting);
      var left := BudgetAfter(w, waiting, budget);
      match w.ctl.job
      case DumpApply(_, _, summary, _, _) => DumpOneAction(o, w1, AddUp(summary, done), left, t);
      case ResyncApply(_, _, _, metrics, _) => ResyncOneAction(o, w1, AddMetrics(metrics, done), left, t);
      case CleanupTracked(_, _, summary, _) => CleanupOneAction(o, w1, AddUp(summary, done), left, t);
      case _ =>
    }
  }

  lemma StepOneAction(o: Options, w: World, a: Action)
    requires OneActionInFlight(w.flow) && Inv(o, w) && Enabled(o, w, a)
    ensures OneActionInFlight(Step(o, w, a).flow)
  {
    match a
    case Flush(_, pick, flushNow, s) => FlushOneAction(o, w, pick, flushNow, s);
    case Maintain(budget, t) => TurnOneAction(o, w, budget, t);
    case _ =>
  }

  /** In every run the batch in flight has one action per key. */
  lemma {:induction false} RunOneAction(o: Options, start: World, actions: seq<Action>, w: World)
    requires GoodOptions(o) && Initial(start) && Runs(o, start, actions, w)
    ensures OneActionInFlight(w.flow)
    decreases |actions|
  {
    if actions != [] {
      var n := |actions| - 1;
      var mid :| Runs(o, start, actions[..n], mid) && Enabled(o, mid, actions[n]) && w == Step(o, mid, actions[n]);
      RunOneAction(o, start, actions[..n], mid);
      RunKeeps(o, start, actions[..n], mid);
      StepOneAction(o, mid, actions[n]);
    }
  }

  /** Among the first n operations one of this kind took effect. */
  ghost predicate TookEffect(ops: seq<RuleOp>, ok: seq<bool>, n: nat, op: RuleOp)
    requires n <= |ops| && n <= |ok|
  {
    exists i :: 0 <= i < n && ops[i] == op && ok[i]
  }

  /** With one action per key a batch leaves a key in exactly if it added it, or it was in and not deleted. */
  lemma {:induction false} EffectOn(s: set<IpKey>, ops: seq<RuleOp>, ok: seq<bool>, n: nat, k: IpKey)
    requires n <= |ops| == |ok| && OneAction(ops)
    ensures k in Effects(s, ops, ok, n) <==>
            TookEffect(ops, ok, n, RuleOp(k, Add)) || (k in s && !TookEffect(ops, ok, n, RuleOp(k, Delete)))
  {
    if n > 0 {
      EffectOn(s, ops, ok, n - 1, k);
      TookEffectStep(ops, ok, n, RuleOp(k, Add));
      TookEffectStep(ops, ok, n, RuleOp(k, Delete));
    }
  }

  lemma TookEffectStep(ops: seq<RuleOp>, ok: seq<bool>, n: nat, op: RuleOp)
    requires 0 < n <= |ops| == |ok|
    ensures TookEffect(ops, ok, n, op) <==> TookEffect(ops, ok, n - 1, op) || (ops[n - 1] == op && ok[n - 1])
  {
  }

  /** The kernel carried out an operation of this kind from the batch in flight. */
  ghost predicate CarriedOut(w: World, op: RuleOp)
    requires w.flow.inflight.Some?
  {
    var ops := w.flow.inflight.value.ops;
    TookEffect(ops, ReplyFlags(w.kernel.replies, w.hist.mark.first, |ops|), |ops|, op)
  }

  /**
   How orphans arise.  When a deadline passes, a key that is not owned becomes an
   orphan if and only if the kernel carried out an add of it from the batch, or
   held the daemon's rule for it before and carried out no delete.  The latter is
   for keys that were loose already, so for settled keys the add is the one cause.
   */
  lemma TimeoutOrphansIff(o: Options, w: World, k: IpKey)
    requires Running(o, w) && w.flow.inflight.Some? && k !in w.flow.owned && Unlisted(w.ctl, k)
    ensures Orphan(Timeout(w), k) <==>
            || CarriedOut(w, RuleOp(k, Add))
            || (k in w.hist.mark.mine0 && !CarriedOut(w, RuleOp(k, Delete)))
    ensures k !in w.hist.loose ==> (Orphan(Timeout(w), k) <==> CarriedOut(w, RuleOp(k, Add)))
  {
    var start, actions :| Initial(start) && Runs(o, start, actions, w);
    RunOneAction(o, start, actions, w);
    RunKeeps(o, start, actions, w);
    MineAfterBatch(w, k);
  }

  lemma MineAfterBatch(w: World, k: IpKey)
    requires OwnInv(w) && w.flow.inflight.Some? && OneActionInFlight(w.flow)
    ensures k in w.kernel.mine <==>
            || CarriedOut(w, RuleOp(k, Add))
            || (k in w.hist.mark.mine0 && !CarriedOut(w, RuleOp(k, Delete)))
  {
    var ops := w.flow.inflight.value.ops;
    EffectOn(w.hist.mark.mine0, ops, ReplyFlags(w.kernel.replies, w.hist.mark.first, |ops|), |ops|, k);
  }
}
