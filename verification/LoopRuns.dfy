/**
 The event loop: handle what is readable, drive the reactor, leave if the exit
 condition holds.  Unlike a run of single steps, the condition is looked at only
 between passes.
 */
module LoopRuns {
  import opened IpKeys
  import opened Reactor
  import opened Invariants
  import opened Theorems

  /** One pass: the inputs handled, and what driving the reactor meets. */
  datatype Pass = Pass(inputs: seq<Action>, now: nat, pick: seq<IpKey>, flushNow: nat, send: Send, ticks: nat -> Tick)

  predicate IsInput(a: Action) {
    a.Route? || a.Acks? || a.Signal? || a.Foreign?
  }

  /** An input that brings no event and asks for no resync. */
  predicate Lull(a: Action) {
    a.Acks? || a.Foreign? || (a.Signal? && !a.resync)
  }

  predicate AllLull(p: Pass) {
    forall i :: 0 <= i < |p.inputs| ==> Lull(p.inputs[i])
  }

  ghost predicate Drives(o: Options, w: World, p: Pass, e: World) {
    && !w.failed && ValidPick(o, w.flow.pending, p.pick)
    && e == ReactStep(o, w, p.now, p.pick, p.flushNow, p.send, p.ticks)
  }

  ghost predicate OnePass(o: Options, w: World, p: Pass, e: World) {
    && (forall i :: 0 <= i < |p.inputs| ==> IsInput(p.inputs[i]))
    && exists mid :: Runs(o, w, p.inputs, mid) && Drives(o, mid, p, e)
  }

  /** Passes follow one another as long as the exit condition does not hold. */
  ghost predicate Loops(o: Options, w: World, passes: seq<Pass>, e: World)
    decreases |passes|
  {
    if passes == [] then e == w
    else
      var n := |passes| - 1;
      exists mid :: Loops(o, w, passes[..n], mid) && !Exits(mid) && OnePass(o, mid, passes[n], e)
  }

  lemma {:induction false} RunStaysReachable(o: Options, w: World, actions: seq<Action>, e: World)
    requires Reachable(o, w) && Runs(o, w, actions, e)
    ensures Reachable(o, e)
    decreases |actions|
  {
    if actions != [] {
      var n := |actions| - 1;
      var mid :| Runs(o, w, actions[..n], mid) && Enabled(o, mid, actions[n]) && e == Step(o, mid, actions[n]);
      RunStaysReachable(o, w, actions[..n], mid);
      Extend(o, mid, actions[n]);
    }
  }

  /** The loop stays within the reachable worlds, so every theorem about them holds between its passes. */
  lemma {:induction false} LoopStaysReachable(o: Options, w: World, passes: seq<Pass>, e: World)
    requires Reachable(o, w) && Loops(o, w, passes, e)
    ensures Reachable(o, e)
    decreases |passes|
  {
    if passes != [] {
      var n := |passes| - 1;
      var p := passes[n];
      var mid :| Loops(o, w, passes[..n], mid) && !Exits(mid) && OnePass(o, mid, p, e);
      LoopStaysReachable(o, w, passes[..n], mid);
      var fed :| Runs(o, mid, p.inputs, fed) && Drives(o, fed, p, e);
      RunStaysReachable(o, mid, p.inputs, fed);
      ReactorStaysReachable(o, fed, p.now, p.pick, p.flushNow, p.send, p.ticks);
    }
  }

  // -------------------------------------------------------------------
  // Flushing on the way out
  // -------------------------------------------------------------------

  lemma {:induction false} SliceKeepsPending(o: Options, w: World, budget: nat, ticks: nat -> Tick, n: nat)
    ensures Slice(o, w, budget, ticks, n).flow.pending == w.flow.pending
    decreases TurnsLeft(w, budget)
  {
    if budget > 0 && ticks(n).timeLeft {
      var r := JobTurn(o, w, budget, ticks(n));
      TurnUsesUp(o, w, budget, ticks(n));
      TurnTimers(o, w, budget, ticks(n));
      if r.verdict.Continue? {
        SliceKeepsPending(o, r.world, r.budget, ticks, n + 1);
      }
    }
  }

  /** What is in flight at a pass at time `now` still has time. */
  predicate InTime(w: World, now: nat) {
    w.flow.inflight.Some? && now < w.flow.inflight.value.ackDeadline
  }

  /** A pass waits for a batch that still has time, and goes on without one that is overdue. */
  lemma OverdueBatchIsGivenUp(o: Options, w: World, p: Pass, e: World)
    requires Drives(o, w, p, e) && w.flow.inflight.Some?
    ensures InTime(w, p.now) ==> e == w
    ensures !InTime(w, p.now) ==> Timeout(w).flow.inflight.None? && Drives(o, Timeout(w), p, e)
  {
  }

  /**
   With nothing in flight that still has time, a pass cuts a batch from the pending
   map exactly if a flush is due or a shutdown is requested: the picked entries
   leave the map, batch_max of them or all there are.  Otherwise the map stays.
   */
  lemma PassCutsIff(o: Options, w: World, p: Pass, e: World)
    requires Drives(o, w, p, e) && !InTime(w, p.now)
    ensures ShouldFlush(w.flow, p.now, w.ctl.req.shutdown) ==>
              e.flow.pending == w.flow.pending - KeySet(p.pick) && |p.pick| == Min(o.batchMax, |w.flow.pending|)
    ensures !ShouldFlush(w.flow, p.now, w.ctl.req.shutdown) ==> e.flow.pending == w.flow.pending
  {
    var w1 := AfterFlush(o, AfterDeadline(w, p.now), p.now, p.pick, p.flushNow, p.send);
    if ShouldFlush(w.flow, p.now, w.ctl.req.shutdown) {
      assert w1.flow.pending == w.flow.pending - KeySet(p.pick);
    }
    SliceKeepsPending(o, w1, MAINTENANCE_OP_BUDGET, p.ticks, 0);
  }

  /** Once a shutdown is requested that is at once, whatever the debounce limits say. */
  lemma ShutdownFlushesAtOnce(o: Options, w: World, p: Pass, e: World)
    requires Drives(o, w, p, e) && w.ctl.req.shutdown && w.flow.pending != map[] && !InTime(w, p.now)
    ensures e.flow.pending == w.flow.pending - KeySet(p.pick) && |p.pick| == Min(o.batchMax, |w.flow.pending|)
  {
    PassCutsIff(o, w, p, e);
  }

  // -------------------------------------------------------------------
  // Building runs of the loop
  // -------------------------------------------------------------------

  /** The kernel turns nothing down. */
  function NoRefusal(i: nat): Option<int> {
    None
  }

  ghost predicate Lulls(passes: seq<Pass>) {
    forall i :: 0 <= i < |passes| ==> AllLull(passes[i])
  }

  /** Reached by passes without events and resync requests. */
  ghost predicate Arrives(o: Options, w: World, e: World) {
    exists passes :: Loops(o, w, passes, e) && Lulls(passes)
  }

  lemma ArrivesAtOnce(o: Options, w: World)
    ensures Arrives(o, w, w)
  {
    assert Loops(o, w, [], w) && Lulls([]);
  }

  lemma LoopsOnceMore(o: Options, w: World, passes: seq<Pass>, x: World, p: Pass, y: World)
    requires Loops(o, w, passes, x) && !Exits(x) && OnePass(o, x, p, y)
    ensures Loops(o, w, passes + [p], y)
  {
    var more := passes + [p];
    assert more[..|more| - 1] == passes && more[|more| - 1] == p;
  }

  lemma ThenPass(o: Options, w: World, x: World, p: Pass, y: World)
    requires Arrives(o, w, x) && !Exits(x) && OnePass(o, x, p, y) && AllLull(p)
    ensures Arrives(o, w, y)
  {
    var passes :| Loops(o, w, passes, x) && Lulls(passes);
    LoopsOnceMore(o, w, passes, x, p, y);
    LullsOnceMore(passes, p);
  }

  lemma LullsOnceMore(passes: seq<Pass>, p: Pass)
    requires Lulls(passes) && AllLull(p)
    ensures Lulls(passes + [p])
  {
  }

  /** Time for the first ticks only. */
  function FirstTicks(t: Tick, u: Tick, n: nat): nat -> Tick {
    (i: nat) => if i < n then (if i == 0 then t else u) else t.(timeLeft := false)
  }

  /** Nothing is pending and nothing in flight, so a pass is its slice. */
  lemma SlicePass(o: Options, w: World, x: World, inputs: seq<Action>, mid: World, ticks: nat -> Tick)
    requires Arrives(o, w, x) && !Exits(x) && Runs(o, x, inputs, mid) && !mid.failed
    requires forall i :: 0 <= i < |inputs| ==> Lull(inputs[i])
    requires mid.flow.pending == map[] && mid.flow.inflight.None?
    ensures Arrives(o, w, Slice(o, mid, MAINTENANCE_OP_BUDGET, ticks, 0))
  {
    var p := Pass(inputs, 0, [], 0, ticks(0).send, ticks);
    var y := Slice(o, mid, MAINTENANCE_OP_BUDGET, ticks, 0);
    assert Drives(o, mid, p, y);
    assert OnePass(o, x, p, y);
    ThenPass(o, w, x, p, y);
  }

  lemma OneTurnSlice(o: Options, x: World, budget: nat, t: Tick)
    requires budget > 0 && t.timeLeft
    ensures Slice(o, x, budget, FirstTicks(t, t, 1), 0) == JobTurn(o, x, budget, t).world
  {
    var ticks, r := FirstTicks(t, t, 1), JobTurn(o, x, budget, t);
    assert ticks(0) == t && !ticks(1).timeLeft;
    assert Slice(o, r.world, r.budget, ticks, 1) == r.world;
  }

  lemma TwoTurnSlice(o: Options, x: World, budget: nat, t: Tick, u: Tick)
    requires budget > 0 && t.timeLeft && u.timeLeft
    requires var r := JobTurn(o, x, budget, t); r.verdict.Continue? && r.budget > 0
    ensures var r := JobTurn(o, x, budget, t);
            Slice(o, x, budget, FirstTicks(t, u, 2), 0) == JobTurn(o, r.world, r.budget, u).world
  {
    var ticks, r := FirstTicks(t, u, 2), JobTurn(o, x, budget, t);
    assert ticks(0) == t && ticks(1) == u && !ticks(2).timeLeft;
    var r2 := JobTurn(o, r.world, r.budget, u);
    assert Slice(o, r2.world, r2.budget, ticks, 2) == r2.world;
    assert Slice(o, r.world, r.budget, ticks, 1) == r2.world;
  }

  ghost predicate Free(x: World) {
    !x.failed && x.flow.pending == map[] && x.flow.inflight.None?
  }

  /** A pass of one maintenance turn. */
  lemma TurnPass(o: Options, w: World, x: World, t: Tick)
    requires Arrives(o, w, x) && !Exits(x) && Free(x) && t.timeLeft
    ensures Arrives(o, w, JobTurn(o, x, MAINTENANCE_OP_BUDGET, t).world)
  {
    OneTurnSlice(o, x, MAINTENANCE_OP_BUDGET, t);
    assert Runs(o, x, [], x);
    SlicePass(o, w, x, [], x, FirstTicks(t, t, 1));
  }

  /** A pass of two maintenance turns, the exit condition not being looked at in between. */
  lemma TwoTurnPass(o: Options, w: World, x: World, t: Tick, u: Tick)
    requires Arrives(o, w, x) && !Exits(x) && Free(x) && t.timeLeft && u.timeLeft
    requires var r := JobTurn(o, x, MAINTENANCE_OP_BUDGET, t); r.verdict.Continue? && r.budget > 0
    ensures var r := JobTurn(o, x, MAINTENANCE_OP_BUDGET, t);
            Arrives(o, w, JobTurn(o, r.world, r.budget, u).world)
  {
    TwoTurnSlice(o, x, MAINTENANCE_OP_BUDGET, t, u);
    assert Runs(o, x, [], x);
    SlicePass(o, w, x, [], x, FirstTicks(t, u, 2));
  }

  lemma OneActionRuns(o: Options, x: World, a: Action)
    requires Enabled(o, x, a)
    ensures Runs(o, x, [a], Step(o, x, a))
  {
    var actions := [a];
    assert actions[..|actions| - 1] == [] && actions[|actions| - 1] == a;
    assert Runs(o, x, [], x);
    assert Runs(o, x, actions[..|actions| - 1], x) && Enabled(o, x, actions[|actions| - 1]);
  }

  /** A pass that handles one input and has no time for maintenance. */
  lemma InputPass(o: Options, w: World, x: World, a: Action, t: Tick)
    requires Arrives(o, w, x) && !Exits(x) && Lull(a) && Enabled(o, x, a) && Free(Step(o, x, a))
    ensures Arrives(o, w, Step(o, x, a))
  {
    var y, ticks := Step(o, x, a), FirstTicks(t, t, 0);
    OneActionRuns(o, x, a);
    assert !ticks(0).timeLeft;
    assert Slice(o, y, MAINTENANCE_OP_BUDGET, ticks, 0) == y;
    SlicePass(o, w, x, [a], y, ticks);
  }
}
