/**
 Requests for a resync: none is forgotten, none is made up, and each is served.
 */
module RequestRuns {
  import opened IpKeys
  import opened Reactor
  import opened Jobs
  import opened Invariants
  import opened Theorems
  import opened Ledger

  function Flags(w: World): Asked {
    Asked(w.ctl.req.resync, w.ctl.req.compensate, w.ctl.req.shutdown)
  }

  ghost predicate NotedFlags(w: World, a: Action, w': World) {
    var noted := NoteAsked(w, a, w', Flags(w));
    noted.resync == w'.ctl.req.resync && noted.compensate == w'.ctl.req.compensate
  }

  lemma IdleFlags(w: World, budget: nat, t: Tick)
    requires w.ctl.job.Idle?
    ensures NotedFlags(w, Maintain(budget, t), IdleTurn(w, budget, t).world)
  {
  }

  lemma CollectFlags(o: Options, w: World, budget: nat, t: Tick)
    requires w.ctl.job.DumpCollect?
    ensures NotedFlags(w, Maintain(budget, t), CollectTurn(o, w, budget, t).world)
  {
  }

  lemma DumpFlags(o: Options, w: World, budget: nat, t: Tick)
    requires w.ctl.job.DumpApply?
    ensures NotedFlags(w, Maintain(budget, t), DumpApplyTurn(o, w, budget, t).world)
  {
  }

  lemma BuildFlags(o: Options, w: World, budget: nat, t: Tick)
    requires w.ctl.job.ResyncBuild?
    ensures NotedFlags(w, Maintain(budget, t), BuildTurn(o, w, budget, t).world)
  {
  }

  lemma ResyncFlags(o: Options, w: World, budget: nat, t: Tick)
    requires w.ctl.job.ResyncApply? && !ResyncTurn(o, w, budget, t).world.failed
    ensures NotedFlags(w, Maintain(budget, t), ResyncTurn(o, w, budget, t).world)
  {
  }

  lemma CleanupFlags(o: Options, w: World, budget: nat, t: Tick)
    requires w.ctl.job.CleanupTracked?
    ensures NotedFlags(w, Maintain(budget, t), CleanupTurn(o, w, budget, t).world)
  {
  }

  lemma TurnFlags(o: Options, w: World, budget: nat, t: Tick)
    requires !JobTurn(o, w, budget, t).world.failed
    ensures NotedFlags(w, Maintain(budget, t), JobTurn(o, w, budget, t).world)
  {
    match w.ctl.job
    case Idle => IdleFlags(w, budget, t);
    case DumpCollect(_, _, _, _) => CollectFlags(o, w, budget, t);
    case DumpApply(_, _, _, _, _) => DumpFlags(o, w, budget, t);
    case ResyncBuild(_) => BuildFlags(o, w, budget, t);
    case ResyncApply(_, _, _, _, _) => ResyncFlags(o, w, budget, t);
    case CleanupTracked(_, _, _, _) => CleanupFlags(o, w, budget, t);
  }

  lemma DumpKeepsStop(o: Options, w: World, summary: Summary, left: nat, t: Tick)
    requires w.ctl.job.DumpApply?
    ensures DumpChunkTurn(o, w, summary, left, t).world.ctl.req.shutdown == w.ctl.req.shutdown
  {
  }

  lemma DumpsKeepStop(o: Options, w: World, budget: nat, t: Tick)
    requires w.ctl.job.DumpApply?
    ensures DumpApplyTurn(o, w, budget, t).world.ctl.req.shutdown == w.ctl.req.shutdown
  {
    var waiting := w.ctl.job.waiting;
    if CanProceed(w, waiting) {
      DumpKeepsStop(o, AfterCollect(w, waiting), AddUp(w.ctl.job.summary, Collected(w, waiting)),
                    BudgetAfter(w, waiting, budget), t);
    }
  }

  lemma CollectKeepsStop(o: Options, w: World, budget: nat, t: Tick)
    requires w.ctl.job.DumpCollect?
    ensures CollectTurn(o, w, budget, t).world.ctl.req.shutdown == w.ctl.req.shutdown
  {
  }

  lemma ResyncKeepsStop(o: Options, w: World, budget: nat, t: Tick)
    requires w.ctl.job.ResyncApply?
    ensures ResyncTurn(o, w, budget, t).world.ctl.req.shutdown == w.ctl.req.shutdown
  {
  }

  lemma CleanupKeepsStop(o: Options, w: World, budget: nat, t: Tick)
    requires w.ctl.job.CleanupTracked?
    ensures CleanupTurn(o, w, budget, t).world.ctl.req.shutdown == w.ctl.req.shutdown
  {
  }

  lemma TurnKeepsStop(o: Options, w: World, budget: nat, t: Tick)
    ensures JobTurn(o, w, budget, t).world.ctl.req.shutdown == w.ctl.req.shutdown
  {
    match w.ctl.job
    case DumpCollect(_, _, _, _) => CollectKeepsStop(o, w, budget, t);
    case DumpApply(_, _, _, _, _) => DumpsKeepStop(o, w, budget, t);
    case ResyncApply(_, _, _, _, _) => ResyncKeepsStop(o, w, budget, t);
    case CleanupTracked(_, _, _, _) => CleanupKeepsStop(o, w, budget, t);
    case _ =>
  }

  lemma StepStop(o: Options, w: World, a: Action)
    requires Enabled(o, w, a)
    ensures Step(o, w, a).ctl.req.shutdown == ((a.Signal? && !a.resync) || w.ctl.req.shutdown)
  {
    match a
    case Maintain(budget, t) => TurnKeepsStop(o, w, budget, t);
    case _ =>
  }

  lemma StepFlags(o: Options, w: World, a: Action)
    requires Enabled(o, w, a) && !Step(o, w, a).failed
    ensures NotedFlags(w, a, Step(o, w, a))
  {
    match a
    case Maintain(budget, t) => TurnFlags(o, w, budget, t);
    case _ =>
  }

  /**
   The law of requests.  After a resync signal, a message that could not be
   parsed, a timed-out batch of events, a failed snapshot, or the end or failure of
   a startup cleanup, a resync stands requested until a turn takes it up; and at no
   other time.  A loss of events stands to be made good until a resync finishes,
   and a stop once asked for is never taken back.
   */
  lemma {:induction false} RequestsAreKept(o: Options, start: World, actions: seq<Action>, w: World, b: Books)
    requires Initial(start) && Traces(o, start, actions, w, b) && !w.failed
    ensures Flags(w) == b.asked
    decreases |actions|
  {
    if actions != [] {
      var n := |actions| - 1;
      var mid, b0 :| Traces(o, start, actions[..n], mid, b0) && Continues(o, mid, actions[n], w)
                     && b == Note(o, mid, actions[n], w, b0);
      RequestsAreKept(o, start, actions[..n], mid, b0);
      StepFlags(o, mid, actions[n]);
      StepStop(o, mid, actions[n]);
    }
  }

  /** What a turn does with a request once nothing of higher rank is due: it plans a resync to the snapshot it takes. */
  lemma RequestIsServed(o: Options, w: World, budget: nat, t: Tick, t1: Tick)
    requires Running(o, w) && w.ctl.req.resync && w.ctl.job.Idle? && w.flow.inflight.None? && budget > 0
    requires !ShutdownDue(w) && !w.ctl.startup.due
    ensures var r := JobTurn(o, w, budget, t);
            && r.verdict.Continue? && r.budget == budget && r.world.ctl.job.ResyncBuild? && r.world.flow == w.flow
            && var w2 := JobTurn(o, r.world, budget, t1).world;
            && (t1.snapshot.Addresses? ==>
                  && w2.ctl.job.ResyncApply? && w2.ctl.job.targetIdx == 0 && w2.ctl.job.currentIdx == 0
                  && KeySet(w2.ctl.plan.target) == KeySet(t1.snapshot.keys) && KeySet(w2.ctl.plan.current) == w.flow.owned)
            && (t1.snapshot.SnapshotError? ==> w2.ctl.job.Idle? && w2.ctl.req.resync)
  {
    SortKeysLists(w.flow.owned);
    if t1.snapshot.Addresses? {
      SortKeysLists(KeySet(t1.snapshot.keys));
    }
  }

  /** A snapshot that fails ends the slice, with the request standing: it is tried again in a later pass, not at once. */
  lemma FailedSnapshotEndsSlice(o: Options, w: World, budget: nat, ticks: nat -> Tick, n: nat)
    requires w.ctl.job.ResyncBuild? && budget > 0 && ticks(n).timeLeft && ticks(n).snapshot.SnapshotError?
    ensures SliceTurns(o, w, budget, ticks, n) == 1
    ensures var e := Slice(o, w, budget, ticks, n); e.ctl.job.Idle? && e.ctl.req.resync && e.flow == w.flow
  {
    TurnUsesUp(o, w, budget, ticks(n));
  }
}
