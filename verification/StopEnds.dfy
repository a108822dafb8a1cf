/**
 A stop comes to an end: with nothing queued, and provided that every batch is
 acknowledged or runs into its deadline before the next slice and every slice has
 time, the loop leaves after at most as many passes as keys were owned.
 */
module StopEnds {
  import opened IpKeys
  import opened Reactor
  import opened Jobs
  import opened Theorems
  import opened LoopRuns
  import opened Stopping

  ghost predicate Timely(ticks: nat -> Tick) {
    forall n :: ticks(n).timeLeft
  }

  /** A pass without events in which the batch in flight is settled one way or the other, and the slice has time. */
  ghost predicate PromptPass(o: Options, x: World, p: Pass, y: World) {
    && AllLull(p) && Timely(p.ticks)
    && exists mid :: Runs(o, x, p.inputs, mid) && Drives(o, mid, p, y) && AfterDeadline(mid, p.now).flow.inflight.None?
  }

  ghost predicate PromptLoops(o: Options, x: World, passes: seq<Pass>, e: World)
    decreases |passes|
  {
    if passes == [] then e == x
    else
      var n := |passes| - 1;
      exists mid :: PromptLoops(o, x, passes[..n], mid) && !Exits(mid) && PromptPass(o, mid, passes[n], e)
  }

  lemma PromptIsOnePass(o: Options, x: World, p: Pass, y: World)
    requires PromptPass(o, x, p, y)
    ensures OnePass(o, x, p, y) && AllLull(p)
  {
    assert forall i :: 0 <= i < |p.inputs| ==> Lull(p.inputs[i]);
  }

  lemma LastPass(o: Options, x: World, passes: seq<Pass>, mid: World, e: World)
    requires passes != [] && !Exits(mid)
    requires var n := |passes| - 1; Loops(o, x, passes[..n], mid) && OnePass(o, mid, passes[n], e)
    ensures Loops(o, x, passes, e)
  {
  }

  /** They are passes of the loop like any others. */
  lemma {:induction false} PromptIsLoops(o: Options, x: World, passes: seq<Pass>, e: World)
    requires PromptLoops(o, x, passes, e)
    ensures Loops(o, x, passes, e)
    decreases |passes|
  {
    if passes != [] {
      var n := |passes| - 1;
      var mid :| PromptLoops(o, x, passes[..n], mid) && !Exits(mid) && PromptPass(o, mid, passes[n], e);
      PromptIsLoops(o, x, passes[..n], mid);
      PromptIsOnePass(o, mid, passes[n], e);
      LastPass(o, x, passes, mid, e);
    }
  }

  // -------------------------------------------------------------------
  // A slice makes progress
  // -------------------------------------------------------------------

  /** Cleanup of `total` keys has sent at least n of its deletes. */
  predicate Sending(c: Control, total: nat, n: nat) {
    c.req.shutdown && c.job.CleanupTracked? && |c.close.tracked| == total && c.job.offset >= n
  }

  /** A turn of cleanup sends at least one more delete, or finds that all are sent and counted. */
  lemma CleanupMoves(o: Options, before: set<IpKey>, x: World, budget: nat, t: Tick, total: nat, n: nat)
    requires QuietClose(o, before, x) && x.flow.inflight.None? && Sending(x.ctl, total, n)
    requires !CleanupTurn(o, x, budget, t).world.failed
    ensures var r := CleanupTurn(o, x, budget, t);
            || (r.verdict.Break? && Sending(r.world.ctl, total, n + 1) && r.world.flow.inflight.Some?)
            || (r.verdict.Continue? && Exits(r.world))
  {
    assert HandoffInv(x.flow, x.ctl.job) && CloseInv(x.flow, x.ctl, x.hist) && QuietInv(x);
    assert CanProceed(x, x.ctl.job.waiting);
  }

  /** When all is done and nothing is queued, the rest of a slice changes nothing. */
  lemma RestOfSlice(o: Options, before: set<IpKey>, x: World, budget: nat, ticks: nat -> Tick, n: nat)
    requires QuietClose(o, before, x) && Exits(x)
    ensures Slice(o, x, budget, ticks, n) == x
  {
    assert QuietInv(x);
    assert JobTurn(o, x, budget, ticks(n)) == Turn(x, budget, Break(NothingToDo));
  }

  lemma SliceMoves(o: Options, before: set<IpKey>, x: World, budget: nat, ticks: nat -> Tick, n: nat,
                   total: nat, sent: nat)
    requires GoodOptions(o) && QuietClose(o, before, x) && x.flow.inflight.None? && Sending(x.ctl, total, sent)
    requires budget > 0 && ticks(n).timeLeft && !Slice(o, x, budget, ticks, n).failed
    ensures var y := Slice(o, x, budget, ticks, n);
            Exits(y) || (Sending(y.ctl, total, sent + 1) && y.flow.inflight.Some?)
  {
    var t := ticks(n);
    var r := CleanupTurn(o, x, budget, t);
    TurnUsesUp(o, x, budget, t);
    assert JobTurn(o, x, budget, t) == r;
    SliceFirst(o, x, budget, ticks, n, r);
    CleanupMoves(o, before, x, budget, t, total, sent);
    if r.verdict.Continue? {
      QuietStep(o, before, x, Maintain(budget, t));
      RestOfSlice(o, before, r.world, r.budget, ticks, n + 1);
    }
  }

  /** The first turn of a slice; a turn that goes on has not failed. */
  lemma SliceFirst(o: Options, x: World, budget: nat, ticks: nat -> Tick, n: nat, r: Turn)
    requires budget > 0 && ticks(n).timeLeft && JobTurn(o, x, budget, ticks(n)) == r && !x.failed
    requires !Slice(o, x, budget, ticks, n).failed
    ensures Slice(o, x, budget, ticks, n)
            == if r.verdict.Continue? then Slice(o, r.world, r.budget, ticks, n + 1) else r.world
    ensures !r.world.failed
  {
    ContinueKeepsGoing(o, x, budget, ticks(n));
  }

  lemma ContinueKeepsGoing(o: Options, x: World, budget: nat, t: Tick)
    requires !x.failed
    ensures var r := JobTurn(o, x, budget, t); r.verdict.Continue? ==> !r.world.failed
  {
    ContinueIsFree(o, x, budget, t);
  }

  // -------------------------------------------------------------------
  // Passes
  // -------------------------------------------------------------------


  lemma InputKeepsSending(o: Options, x: World, a: Action, total: nat, n: nat)
    requires Enabled(o, x, a) && (Lull(a) || a.Expire?) && Sending(x.ctl, total, n)
    ensures Sending(Step(o, x, a).ctl, total, n)
  {
  }

  lemma {:induction false} InputsKeepSending(o: Options, x: World, inputs: seq<Action>, y: World, total: nat, n: nat)
    requires Runs(o, x, inputs, y) && Sending(x.ctl, total, n)
    requires forall i :: 0 <= i < |inputs| ==> Lull(inputs[i])
    ensures Sending(y.ctl, total, n)
    decreases |inputs|
  {
    if inputs != [] {
      var m := |inputs| - 1;
      var mid :| Runs(o, x, inputs[..m], mid) && Enabled(o, mid, inputs[m]) && y == Step(o, mid, inputs[m]);
      InputsKeepSending(o, x, inputs[..m], mid, total, n);
      InputKeepsSending(o, mid, inputs[m], total, n);
    }
  }

  /** Where a prompt stop stands between passes: over, or with more than n deletes sent. */
  ghost predicate Stands(o: Options, before: set<IpKey>, x: World, total: nat, n: nat) {
    QuietClose(o, before, x) && (Exits(x) || Sending(x.ctl, total, n + 1))
  }

  lemma DriveMoves(o: Options, before: set<IpKey>, x: World, p: Pass, y: World, total: nat, n: nat)
    requires GoodOptions(o) && QuietClose(o, before, x) && Sending(x.ctl, total, n + 1)
    requires Drives(o, x, p, y) && !y.failed && Timely(p.ticks) && AfterDeadline(x, p.now).flow.inflight.None?
    ensures Stands(o, before, y, total, n + 1)
  {
    var x1 := AfterDeadline(x, p.now);
    if x.flow.inflight.Some? {
      QuietStep(o, before, x, Expire(p.now));
      InputKeepsSending(o, x, Expire(p.now), total, n + 1);
    }
    assert QuietClose(o, before, x1) && x1.flow.pending == map[];
    assert y == Slice(o, x1, MAINTENANCE_OP_BUDGET, p.ticks, 0);
    SliceMoves(o, before, x1, MAINTENANCE_OP_BUDGET, p.ticks, 0, total, n + 1);
    QuietSlice(o, before, x1, MAINTENANCE_OP_BUDGET, p.ticks, 0);
  }

  lemma PassMoves(o: Options, before: set<IpKey>, x: World, p: Pass, y: World, total: nat, n: nat)
    requires GoodOptions(o) && Stands(o, before, x, total, n) && !Exits(x) && PromptPass(o, x, p, y) && !y.failed
    ensures Stands(o, before, y, total, n + 1)
  {
    var mid :| Runs(o, x, p.inputs, mid) && Drives(o, mid, p, y) && AfterDeadline(mid, p.now).flow.inflight.None?;
    QuietInputs(o, before, x, p.inputs, mid);
    InputsKeepSending(o, x, p.inputs, mid, total, n + 1);
    DriveMoves(o, before, mid, p, y, total, n);
  }

  lemma PassNotFailed(o: Options, x: World, p: Pass, y: World)
    requires PromptPass(o, x, p, y)
    ensures !x.failed
  {
    var mid :| Runs(o, x, p.inputs, mid) && Drives(o, mid, p, y) && AfterDeadline(mid, p.now).flow.inflight.None?;
    RunNotFailed(o, x, p.inputs, mid);
  }

  lemma SentIsBounded(o: Options, before: set<IpKey>, x: World, total: nat, n: nat)
    requires QuietClose(o, before, x) && Sending(x.ctl, total, n)
    ensures n <= total
  {
    assert CloseInv(x.flow, x.ctl, x.hist);
  }

  lemma {:induction false} PassesAreFew(o: Options, before: set<IpKey>, x: World, passes: seq<Pass>, e: World, total: nat)
    requires GoodOptions(o) && Stands(o, before, x, total, 0) && PromptLoops(o, x, passes, e) && !e.failed
    ensures |passes| <= total && Stands(o, before, e, total, |passes|)
    decreases |passes|
  {
    if passes != [] {
      var n := |passes| - 1;
      var mid :| PromptLoops(o, x, passes[..n], mid) && !Exits(mid) && PromptPass(o, mid, passes[n], e);
      PassNotFailed(o, mid, passes[n], e);
      PassesAreFew(o, before, x, passes[..n], mid, total);
      SentIsBounded(o, before, mid, total, n + 1);
      PassMoves(o, before, mid, passes[n], e, total, n);
    }
  }

  // -------------------------------------------------------------------
  // The beginning
  // -------------------------------------------------------------------

  /** What cleanup has begun with. */
  ghost predicate Fresh(x: World, total: nat) {
    (total == 0 && Exits(x)) || (total > 0 && Sending(x.ctl, total, 0))
  }

  ghost predicate Starts(o: Options, before: set<IpKey>, x: World, total: nat) {
    GoodOptions(o) && QuietClose(o, before, x) && x.flow.inflight.None? && Fresh(x, total)
  }

  lemma BeginsStart(o: Options, w: World, t: Tick)
    requires Begins(o, w) && !Queued(w)
    ensures Starts(o, w.hist.loose, PrepareShutdown(w), |w.flow.owned|)
  {
    BeginsReady(o, w, t);
    QuietBegins(w);
    BeginsFresh(w);
  }

  lemma BeginsFresh(w: World)
    requires !w.failed && Due(w) && !Queued(w)
    ensures Fresh(PrepareShutdown(w), |w.flow.owned|)
  {
    Listing(w.flow.owned);
    PreparedWorld(w, SortKeys(w.flow.owned));
  }

  lemma FirstSliceMoves(o: Options, before: set<IpKey>, x: World, budget: nat, ticks: nat -> Tick, total: nat)
    requires GoodOptions(o) && QuietClose(o, before, x) && x.flow.inflight.None? && Fresh(x, total)
    requires budget > 0 && Timely(ticks) && !Slice(o, x, budget, ticks, 0).failed
    ensures Stands(o, before, Slice(o, x, budget, ticks, 0), total, 0)
  {
    QuietSlice(o, before, x, budget, ticks, 0);
    if total == 0 {
      RestOfSlice(o, before, x, budget, ticks, 0);
    } else {
      SliceMoves(o, before, x, budget, ticks, 0, total, 0);
    }
  }

  lemma PromptStopFrom(o: Options, before: set<IpKey>, x: World, budget: nat, ticks: nat -> Tick,
                       passes: seq<Pass>, e: World, total: nat)
    requires Starts(o, before, x, total) && budget > 0 && Timely(ticks) && !e.failed
    requires PromptLoops(o, Slice(o, x, budget, ticks, 0), passes, e)
    ensures |passes| <= total && (|passes| == total ==> Exits(e)) && (Exits(e) ==> Clean(before, e))
  {
    var y := Slice(o, x, budget, ticks, 0);
    PromptIsLoops(o, y, passes, e);
    LoopNotFailed(o, y, passes, e);
    FirstSliceMoves(o, before, x, budget, ticks, total);
    PassesAreFew(o, before, y, passes, e, total);
    PromptEnd(o, before, e, total, |passes|);
  }

  lemma PromptEnd(o: Options, before: set<IpKey>, e: World, total: nat, n: nat)
    requires Stands(o, before, e, total, n)
    ensures n == total ==> Exits(e)
    ensures Exits(e) ==> Clean(before, e)
  {
    assert QuietInv(e);
    if !Exits(e) {
      SentIsBounded(o, before, e, total, n + 1);
    }
  }

  /**
   A stop ends.  Shutdown cleanup begins with nothing queued, and from then on no
   event or resync request comes in, every batch is settled before the next slice
   and every slice has time.  Then the loop makes at most as many passes as keys
   were owned, and has left, clean, when it has made that many.
   */
  lemma StopComesToAnEnd(o: Options, w: World, budget: nat, ticks: nat -> Tick, passes: seq<Pass>, e: World)
    requires Begins(o, w) && budget > 0 && !Queued(w) && Timely(ticks) && !e.failed
    requires PromptLoops(o, Slice(o, PrepareShutdown(w), budget, ticks, 0), passes, e)
    ensures |passes| <= |w.flow.owned| && (|passes| == |w.flow.owned| ==> Exits(e))
    ensures Exits(e) ==> Clean(w.hist.loose, e)
  {
    BeginsStart(o, w, ticks(0));
    PromptStopFrom(o, w.hist.loose, PrepareShutdown(w), budget, ticks, passes, e, |w.flow.owned|);
  }
}
