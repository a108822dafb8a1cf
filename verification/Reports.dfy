/**
 The reports of finished cleanups, put together: which deletes they are about and
 what they say of them.
 */
module Reports {
  import opened IpKeys
  import opened AckTracking
  import opened ResyncDiff
  import opened Reactor
  import opened Jobs
  import opened Invariants
  import opened Theorems
  import opened Ledger
  import opened StartupRuns
  import opened Accounting

  // -------------------------------------------------------------------
  // Startup
  // -------------------------------------------------------------------

  lemma DeletesOnly(log: seq<Sent>, keys: seq<IpKey>, replies: map<nat, AckStatus>, lost: set<nat>)
    requires Ops(log) == Deletes(keys)
    ensures HowMany(log, Deleted, replies, lost) + HowMany(log, Noop, replies, lost)
            + HowMany(log, Failed, replies, lost) == |keys|
  {
    CountIsComplete(log, replies, lost);
    forall i | 0 <= i < |log| ensures log[i].op.action.Delete? {
      assert Ops(log)[i] == Deletes(keys)[i];
    }
  }

  /** The summary of a startup cleanup totals the number of targets its dumps listed. */
  lemma StartupTotalsTargets(o: Options, start: World, actions: seq<Action>, w: World, b: Books)
    requires GoodOptions(o) && Initial(start) && Traces(o, start, actions, w, b) && !w.failed && b.startup.last.Some?
    ensures Total(w.ctl.report.startup) == |b.startup.last.value.listed|
  {
    StartupReportIsTrue(o, start, actions, w, b);
    StartupIsExact(o, start, actions, w, b);
    DeletesOnly(b.startup.last.value.sent, b.startup.last.value.listed, w.kernel.replies, b.lost);
  }

  // -------------------------------------------------------------------
  // Shutdown
  // -------------------------------------------------------------------

  /** What shutdown cleanup is seen to send is what the deletes of `ShutdownIsExact` are about. */
  ghost predicate CloseSeen(w: World, b: Books) {
    && (w.ctl.job.CleanupTracked? ==> Ops(b.job) == w.hist.close.sent)
    && (w.ctl.close.done ==> Ops(b.closed) == w.hist.close.sent)
  }

  /** Neither cleanup nor its record is touched. */
  ghost predicate CloseLeft(w: World, w': World) {
    && !w'.ctl.job.CleanupTracked? && w'.ctl.close.done == w.ctl.close.done && w'.hist.close.sent == w.hist.close.sent
  }

  lemma LeftSeen(o: Options, w: World, a: Action, w': World, b: Books)
    requires CloseSeen(w, b) && CloseLeft(w, w')
    ensures CloseSeen(w', Note(o, w, a, w', b))
  {
  }

  lemma OtherSeen(o: Options, w: World, a: Action, b: Books)
    requires CloseSeen(w, b) && Enabled(o, w, a) && !a.Maintain?
    ensures var w' := Step(o, w, a); CloseSeen(w', Note(o, w, a, w', b))
  {
    StepLeavesJob(o, w, a);
    StepLeavesClose(o, w, a);
    assert b.job + [] == b.job;
  }

  lemma StepLeavesClose(o: Options, w: World, a: Action)
    requires Enabled(o, w, a) && !a.Maintain?
    ensures var w' := Step(o, w, a); w'.ctl.close == w.ctl.close && w'.hist.close.sent == w.hist.close.sent
  {
  }

  lemma IdleCloseSeen(o: Options, w: World, budget: nat, t: Tick, b: Books)
    requires CloseSeen(w, b) && w.ctl.job.Idle?
    ensures var w' := IdleTurn(w, budget, t).world; CloseSeen(w', Note(o, w, Maintain(budget, t), w', b))
  {
    assert Ops([]) == [];
  }

  lemma CollectLeft(o: Options, w: World, budget: nat, t: Tick)
    requires w.ctl.job.DumpCollect?
    ensures CloseLeft(w, CollectTurn(o, w, budget, t).world)
  {
  }

  lemma DumpLeft(o: Options, w: World, budget: nat, t: Tick)
    requires w.ctl.job.DumpApply?
    ensures CloseLeft(w, DumpApplyTurn(o, w, budget, t).world)
  {
  }

  lemma BuildLeft(o: Options, w: World, budget: nat, t: Tick)
    requires w.ctl.job.ResyncBuild?
    ensures CloseLeft(w, BuildTurn(o, w, budget, t).world)
  {
  }

  lemma ResyncLeft(o: Options, w: World, budget: nat, t: Tick)
    requires w.ctl.job.ResyncApply?
    ensures CloseLeft(w, ResyncTurn(o, w, budget, t).world)
  {
  }

  lemma CleanupChunkSeen(o: Options, w: World, summary: Summary, left: nat, t: Tick, a: Action, b: Books)
    requires a.Maintain? && a.tick == t && CloseSeen(w, b) && w.ctl.job.CleanupTracked? && !w.ctl.close.done
    requires w.flow.inflight.None? && !CleanupChunkTurn(o, w, summary, left, t).world.failed
    ensures var w' := CleanupChunkTurn(o, w, summary, left, t).world; CloseSeen(w', Note(o, w, a, w', b))
  {
    var chunk := CleanupChunk(w.ctl.close.tracked, w.ctl.job.offset, ChunkRoom(o, left));
    OpsConcat(b.job, Numbered(chunk, w.seqs.issued));
    OpsNumbered(chunk, w.seqs.issued);
    assert b.job + [] == b.job;
  }

  lemma CleanupTurnSeen(o: Options, w: World, budget: nat, t: Tick, b: Books)
    requires CloseSeen(w, b) && w.ctl.job.CleanupTracked? && !w.ctl.close.done && w.flow.inflight.None?
    requires !CleanupTurn(o, w, budget, t).world.failed
    ensures var w' := CleanupTurn(o, w, budget, t).world; CloseSeen(w', Note(o, w, Maintain(budget, t), w', b))
  {
    var a, j, w' := Maintain(budget, t), w.ctl.job, CleanupTurn(o, w, budget, t).world;
    if CanProceed(w, j.waiting) {
      NoteAfterCollect(o, w, j.waiting, a, w', b);
      CleanupChunkSeen(o, AfterCollect(w, j.waiting), AddUp(j.summary, Collected(w, j.waiting)),
                       BudgetAfter(w, j.waiting, budget), t, a, b);
    } else {
      assert b.job + [] == b.job;
    }
  }

  lemma TurnSeen(o: Options, w: World, budget: nat, t: Tick, b: Books)
    requires CloseSeen(w, b) && JobInv(w) && w.flow.inflight.None? && !JobTurn(o, w, budget, t).world.failed
    ensures var w' := JobTurn(o, w, budget, t).world; CloseSeen(w', Note(o, w, Maintain(budget, t), w', b))
  {
    var a, w' := Maintain(budget, t), JobTurn(o, w, budget, t).world;
    match w.ctl.job
    case Idle => IdleCloseSeen(o, w, budget, t, b);
    case DumpCollect(_, _, _, _) => CollectLeft(o, w, budget, t); LeftSeen(o, w, a, w', b);
    case DumpApply(_, _, _, _, _) => DumpLeft(o, w, budget, t); LeftSeen(o, w, a, w', b);
    case ResyncBuild(_) => BuildLeft(o, w, budget, t); LeftSeen(o, w, a, w', b);
    case ResyncApply(_, _, _, _, _) => ResyncLeft(o, w, budget, t); LeftSeen(o, w, a, w', b);
    case CleanupTracked(_, _, _, _) => CleanupTurnSeen(o, w, budget, t, b);
  }

  lemma {:induction false} RunSeen(o: Options, start: World, actions: seq<Action>, w: World, b: Books)
    requires GoodOptions(o) && Initial(start) && Traces(o, start, actions, w, b) && !w.failed
    ensures Inv(o, w) && CloseSeen(w, b)
    decreases |actions|
  {
    if actions == [] {
      InitialInv(o, w);
    } else {
      var n := |actions| - 1;
      var mid, b0 :| Traces(o, start, actions[..n], mid, b0) && Continues(o, mid, actions[n], w)
                     && b == Note(o, mid, actions[n], w, b0);
      RunSeen(o, start, actions[..n], mid, b0);
      StepKeeps(o, mid, actions[n]);
      match actions[n]
      case Maintain(budget, t) => TurnSeen(o, mid, budget, t, b0);
      case _ => OtherSeen(o, mid, actions[n], b0);
    }
  }

  /**
   When the loop leaves, shutdown cleanup is seen to have sent one delete for each
   key owned when it began, in key order, and its three counters say what became of
   them by the kernel's answers and the deadlines missed.
   */
  lemma ShutdownReport(o: Options, start: World, actions: seq<Action>, w: World, b: Books)
    requires GoodOptions(o) && Initial(start) && Traces(o, start, actions, w, b) && !w.failed && Exits(w)
    ensures Ops(b.closed) == Deletes(SortKeys(w.hist.close.given))
    ensures w.ctl.close.summary == Summary(HowMany(b.closed, Deleted, w.kernel.replies, b.lost),
                                           HowMany(b.closed, Noop, w.kernel.replies, b.lost),
                                           HowMany(b.closed, Failed, w.kernel.replies, b.lost))
    ensures Total(w.ctl.close.summary) == |w.hist.close.given|
  {
    RunSeen(o, start, actions, w, b);
    ShutdownReportIsTrue(o, start, actions, w, b);
    GivenIsListed(w);
  }

  lemma GivenIsListed(w: World)
    requires JobInv(w) && w.hist.close.begun && !w.ctl.job.CleanupTracked?
    ensures w.hist.close.sent == Deletes(SortKeys(w.hist.close.given))
    ensures Total(w.ctl.close.summary) == |w.hist.close.given|
  {
    SortKeysLists(w.hist.close.given);
    SortedListingUnique(w.ctl.close.tracked, SortKeys(w.hist.close.given));
    SortedSize(w.ctl.close.tracked);
  }

  // -------------------------------------------------------------------
  // Resync
  // -------------------------------------------------------------------

  /** The sizes in the totals of a resync are those of its plan. */
  predicate SizesFit(c: Control) {
    c.job.ResyncApply? ==> c.job.metrics.target == |c.plan.target| && c.job.metrics.current == |c.plan.current|
  }

  lemma OtherSizes(o: Options, w: World, a: Action)
    requires SizesFit(w.ctl) && Enabled(o, w, a) && !a.Maintain?
    ensures SizesFit(Step(o, w, a).ctl)
  {
  }

  lemma ResyncSizes(o: Options, w: World, metrics: ResyncResult, left: nat, t: Tick)
    requires w.ctl.job.ResyncApply?
    ensures var c := ResyncChunkTurn(o, w, metrics, left, t).world.ctl;
            && c.plan == w.ctl.plan
            && (c.job.ResyncApply? ==> c.job.metrics == metrics)
            && (c.job.Idle? && !ResyncChunkTurn(o, w, metrics, left, t).world.failed ==> c.report.resync == metrics)
  {
  }

  lemma NoResync(o: Options, w: World, budget: nat, t: Tick)
    requires w.ctl.job.Idle? || w.ctl.job.DumpCollect? || w.ctl.job.CleanupTracked?
    ensures !JobTurn(o, w, budget, t).world.ctl.job.ResyncApply?
  {
  }

  lemma TurnSizes(o: Options, w: World, budget: nat, t: Tick)
    requires SizesFit(w.ctl)
    ensures SizesFit(JobTurn(o, w, budget, t).world.ctl)
  {
    match w.ctl.job
    case DumpApply(_, _, _, _, _) => DumpLeavesResync(o, w, budget, t);
    case ResyncBuild(_) =>
    case ResyncApply(_, _, _, metrics, waiting) =>
      if CanProceed(w, waiting) {
        ResyncSizes(o, AfterCollect(w, waiting), AddMetrics(metrics, Collected(w, waiting)),
                    BudgetAfter(w, waiting, budget), t);
      }
    case _ => NoResync(o, w, budget, t);
  }

  lemma DumpLeavesResync(o: Options, w: World, budget: nat, t: Tick)
    requires w.ctl.job.DumpApply?
    ensures !DumpApplyTurn(o, w, budget, t).world.ctl.job.ResyncApply?
  {
  }

  lemma {:induction false} RunSizes(o: Options, start: World, actions: seq<Action>, w: World)
    requires Initial(start) && Runs(o, start, actions, w)
    ensures SizesFit(w.ctl)
    decreases |actions|
  {
    if actions != [] {
      var n := |actions| - 1;
      var mid :| Runs(o, start, actions[..n], mid) && Enabled(o, mid, actions[n]) && w == Step(o, mid, actions[n]);
      RunSizes(o, start, actions[..n], mid);
      match actions[n]
      case Maintain(budget, t) => TurnSizes(o, mid, budget, t);
      case _ => OtherSizes(o, mid, actions[n]);
    }
  }

  /** A resync that finishes reports how many addresses its snapshot had and how many were owned when it was taken. */
  lemma ResyncReportsSizes(o: Options, w: World, budget: nat, t: Tick)
    requires Running(o, w) && w.ctl.job.ResyncApply?
    requires var w' := ResyncTurn(o, w, budget, t).world; w'.ctl.job.Idle? && !w'.failed
    ensures var r := ResyncTurn(o, w, budget, t).world.ctl.report.resync;
            r.target == |KeySet(w.ctl.plan.target)| && r.current == |KeySet(w.ctl.plan.current)|
  {
    ReachableInv(o, w);
    var start, actions :| Initial(start) && Runs(o, start, actions, w);
    RunSizes(o, start, actions, w);
    var j := w.ctl.job;
    ResyncSizes(o, AfterCollect(w, j.waiting), AddMetrics(j.metrics, Collected(w, j.waiting)),
                BudgetAfter(w, j.waiting, budget), t);
    SortedSize(w.ctl.plan.target);
    SortedSize(w.ctl.plan.current);
  }
}
