/**
 Times and sizes seen from outside: when a flush is due, how long a batch may wait
 for its acknowledgements, and how large it is.
 */
module Timing {
  import opened IpKeys
  import opened AckTracking
  import opened ResyncDiff
  import opened Reactor
  import opened Jobs
  import opened Invariants
  import opened Theorems
  import opened Ledger

  /** A batch in flight, if any, is no larger than allowed and has five seconds from the moment it was sent. */
  predicate FlightFits(o: Options, f: Flow, sentAt: nat) {
    f.inflight.Some? ==> |f.inflight.value.ops| <= o.batchMax && f.inflight.value.ackDeadline == sentAt + 5000
  }

  ghost predicate TimedAsSeen(o: Options, w: World, b: Books) {
    w.hist.touches == b.touches && FlightFits(o, w.flow, b.sentAt)
  }

  lemma FlushSeen(o: Options, w: World, pick: seq<IpKey>, now: nat, s: Send)
    requires ValidPick(o, w.flow.pending, pick) && w.flow.inflight.None? && w.flow.pending != map[]
    ensures var w' := FlushStep(o, w, pick, now, s);
            && FlightFits(o, w'.flow, s.at)
            && w'.hist.touches == w.hist.touches + [Cut(now, w'.flow.pending == map[])]
  {
  }

  lemma DumpFits(o: Options, w: World, summary: Summary, left: nat, t: Tick)
    requires GoodOptions(o) && w.ctl.job.DumpApply? && w.flow.inflight.None?
    ensures FlightFits(o, DumpChunkTurn(o, w, summary, left, t).world.flow, t.send.at)
  {
  }

  lemma CleanupFits(o: Options, w: World, summary: Summary, left: nat, t: Tick)
    requires GoodOptions(o) && w.ctl.job.CleanupTracked? && w.flow.inflight.None?
    ensures FlightFits(o, CleanupChunkTurn(o, w, summary, left, t).world.flow, t.send.at)
  {
  }

  lemma ResyncFits(o: Options, w: World, metrics: ResyncResult, left: nat, t: Tick)
    requires GoodOptions(o) && w.ctl.job.ResyncApply? && w.flow.inflight.None?
    ensures FlightFits(o, ResyncChunkTurn(o, w, metrics, left, t).world.flow, t.send.at)
  {
    var j := w.ctl.job;
    ChunkIsPrefix(w.ctl.plan.target, w.ctl.plan.current, j.targetIdx, j.currentIdx, ChunkRoom(o, left));
  }

  lemma TurnFits(o: Options, w: World, budget: nat, t: Tick)
    requires GoodOptions(o) && w.flow.inflight.None?
    ensures FlightFits(o, JobTurn(o, w, budget, t).world.flow, t.send.at)
  {
    var waiting := Waiting(w.ctl.job);
    if CanProceed(w, waiting) {
      var w1, done := AfterCollect(w, waiting), Collected(w, waiting);
      var left := BudgetAfter(w, waiting, budget);
      match w.ctl.job
      case DumpApply(_, _, summary, _, _) => DumpFits(o, w1, AddUp(summary, done), left, t);
      case ResyncApply(_, _, _, metrics, _) => ResyncFits(o, w1, AddMetrics(metrics, done), left, t);
      case CleanupTracked(_, _, summary, _) => CleanupFits(o, w1, AddUp(summary, done), left, t);
      case _ =>
    }
  }

  lemma OtherTimes(o: Options, w: World, a: Action, b: Books)
    requires TimedAsSeen(o, w, b) && Enabled(o, w, a) && !a.Maintain? && !a.Flush? && !Step(o, w, a).failed
    ensures var w' := Step(o, w, a); TimedAsSeen(o, w', Note(o, w, a, w', b))
  {
  }

  lemma StepTimes(o: Options, w: World, a: Action, b: Books)
    requires GoodOptions(o) && TimedAsSeen(o, w, b) && Enabled(o, w, a) && !Step(o, w, a).failed
    ensures var w' := Step(o, w, a); TimedAsSeen(o, w', Note(o, w, a, w', b))
  {
    match a
    case Maintain(budget, t) =>
      TurnTimers(o, w, budget, t);
      TurnFits(o, w, budget, t);
    case Flush(_, pick, flushNow, s) => FlushSeen(o, w, pick, flushNow, s);
    case _ => OtherTimes(o, w, a, b);
  }

  lemma {:induction false} RunTimes(o: Options, start: World, actions: seq<Action>, w: World, b: Books)
    requires GoodOptions(o) && Initial(start) && Traces(o, start, actions, w, b) && !w.failed
    ensures TimedAsSeen(o, w, b)
    decreases |actions|
  {
    if actions != [] {
      var n := |actions| - 1;
      var mid, b0 :| Traces(o, start, actions[..n], mid, b0) && Continues(o, mid, actions[n], w)
                     && b == Note(o, mid, actions[n], w, b0);
      RunTimes(o, start, actions[..n], mid, b0);
      StepTimes(o, mid, actions[n], b0);
    }
  }

  /**
   An unforced flush is due exactly when events have come in since the map was last
   empty, from the earlier of (last arrival or cut) + debounce and (first arrival
   since then, or last cut) + debounce_max on, by the arrivals and cuts of the run.
   */
  lemma FlushIsDueByArrivals(o: Options, start: World, actions: seq<Action>, w: World, b: Books, now: nat)
    requires GoodOptions(o) && Initial(start) && Traces(o, start, actions, w, b) && !w.failed
    ensures ShouldFlush(w.flow, now, false) <==>
              && Live(b.touches)
              && (now >= LastTouch(b.touches) + o.debounce || now >= Epoch(b.touches) + o.debounceMax)
  {
    RunTimes(o, start, actions, w, b);
    BooksAreOfRuns(o, start, actions, w, b);
    assert Reachable(o, w);
    DebounceIsExact(o, w, now);
  }

  /** A batch is never larger than batch_max, and is given up no earlier than five seconds after it was sent. */
  lemma BatchesGetTheirTime(o: Options, start: World, actions: seq<Action>, w: World, b: Books, now: nat)
    requires GoodOptions(o) && Initial(start) && Traces(o, start, actions, w, b) && !w.failed && w.flow.inflight.Some?
    ensures |w.flow.inflight.value.ops| <= o.batchMax
    ensures Enabled(o, w, Expire(now)) <==> now >= b.sentAt + 5000
  {
    RunTimes(o, start, actions, w, b);
  }
}
