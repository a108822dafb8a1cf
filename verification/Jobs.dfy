/**
 What every step keeps about the maintenance jobs: the hand-off of completed
 batches, the progress of a resync, the accounting of shutdown cleanup, and the
 debounce deadlines.
 */
module Jobs {
  import opened IpKeys
  import opened AckTracking
  import opened ResyncDiff
  import opened Reactor
  import opened Ownership

  // -------------------------------------------------------------------
  // Accounting of one batch
  // -------------------------------------------------------------------

  predicate Balanced(r: ApplyResult) {
    r.input == r.noop + r.added + r.deleted + r.failed
  }

  /** Every operation of a committed batch is counted exactly once. */
  lemma {:induction false} TallyIsComplete(noop: nat, ops: seq<RuleOp>, t: Tracker, n: nat)
    requires n <= |ops|
    ensures var a := TallyUpTo(noop, ops, t, n);
            && a.noop + a.added + a.deleted + a.failed == noop + n
            && ((forall i :: 0 <= i < n ==> ops[i].action.Delete?) ==> a.added == 0)
  {
    if n > 0 {
      TallyIsComplete(noop, ops, t, n - 1);
    }
  }

  /** Slot i holds a success. */
  predicate Succeeded(t: Tracker, i: nat) {
    i < |t.seen| && t.seen[i] && (i < |t.status| ==> t.status[i].None?)
  }

  /** Slot i holds the answer that the rule was already as the operation wants it. */
  predicate WasAlready(op: RuleOp, t: Tracker, i: nat) {
    && i < |t.seen| && t.seen[i] && i < |t.status| && t.status[i].Some?
    && if op.action.Add? then t.status[i].value == EEXIST else t.status[i].value in {ENOENT, ESRCH}
  }

  ghost function Successes(ops: seq<RuleOp>, t: Tracker, n: nat, action: RuleAction): set<nat>
    requires n <= |ops|
  {
    set i: nat | i < n && Succeeded(t, i) && ops[i].action == action
  }

  ghost function Already(ops: seq<RuleOp>, t: Tracker, n: nat): set<nat>
    requires n <= |ops|
  {
    set i: nat | i < n && WasAlready(ops[i], t, i)
  }

  /** What each counter counts; all operations that neither succeeded nor were no-ops are failures. */
  lemma {:induction false} TallyCounts(noop: nat, ops: seq<RuleOp>, t: Tracker, n: nat)
    requires n <= |ops|
    ensures var a := TallyUpTo(noop, ops, t, n);
            && a.added == |Successes(ops, t, n, Add)| && a.deleted == |Successes(ops, t, n, Delete)|
            && a.noop == noop + |Already(ops, t, n)|
  {
    if n > 0 {
      TallyCounts(noop, ops, t, n - 1);
      SuccessesStep(ops, t, n, Add);
      SuccessesStep(ops, t, n, Delete);
      AlreadyStep(ops, t, n);
      TallyOpCounts(TallyUpTo(noop, ops, t, n - 1), ops[n - 1], t, n - 1);
    }
  }

  lemma SuccessesStep(ops: seq<RuleOp>, t: Tracker, n: nat, action: RuleAction)
    requires 0 < n <= |ops|
    ensures |Successes(ops, t, n, action)|
            == |Successes(ops, t, n - 1, action)| + if Succeeded(t, n - 1) && ops[n - 1].action == action then 1 else 0
  {
    var before := Successes(ops, t, n - 1, action);
    assert Successes(ops, t, n, action)
        == before + if Succeeded(t, n - 1) && ops[n - 1].action == action then {n - 1} else {};
    assert n - 1 !in before;
  }

  lemma AlreadyStep(ops: seq<RuleOp>, t: Tracker, n: nat)
    requires 0 < n <= |ops|
    ensures |Already(ops, t, n)| == |Already(ops, t, n - 1)| + if WasAlready(ops[n - 1], t, n - 1) then 1 else 0
  {
    var before := Already(ops, t, n - 1);
    assert Already(ops, t, n) == before + if WasAlready(ops[n - 1], t, n - 1) then {n - 1} else {};
    assert n - 1 !in before;
  }

  lemma TallyOpCounts(a: Tally, op: RuleOp, t: Tracker, i: nat)
    ensures var b := TallyOp(a, op, t, i);
            && b.added == a.added + (if Succeeded(t, i) && op.action == Add then 1 else 0)
            && b.deleted == a.deleted + (if Succeeded(t, i) && op.action == Delete then 1 else 0)
            && b.noop == a.noop + (if WasAlready(op, t, i) then 1 else 0)
  {
  }

  lemma CommitIsBalanced(b: Inflight)
    requires b.inputCount == b.noopPrefilter + |b.ops|
    ensures Balanced(CommitResult(b))
    ensures AllDeletes(b.ops) ==> CommitResult(b).added == 0
  {
    TallyIsComplete(b.noopPrefilter, b.ops, b.tracker, |b.ops|);
  }

  ghost predicate AllDeletes(ops: seq<RuleOp>) {
    forall i :: 0 <= i < |ops| ==> ops[i].action.Delete?
  }

  // -------------------------------------------------------------------
  // Hand-off
  // -------------------------------------------------------------------

  function Waiting(j: Job): Option<nat> {
    match j
    case DumpApply(_, _, _, waiting, _) => waiting
    case ResyncApply(_, _, _, _, waiting) => waiting
    case CleanupTracked(_, _, _, waiting) => waiting
    case _ => None
  }

  predicate Flies(f: Flow) {
    f.inflight.Some? && f.inflight.value.owner.MaintenanceOwner?
  }

  /** Operations of a maintenance batch in flight. */
  function Flying(f: Flow): seq<RuleOp> {
    if Flies(f) then f.inflight.value.ops else []
  }

  /**
   A job waits for a batch exactly when that batch is either in flight or
   completed and uncollected, and never both.
   */
  ghost predicate HandoffInv(f: Flow, j: Job) {
    && (Waiting(j).Some? <==> Flies(f) || f.completed.Some?)
    && !(Flies(f) && f.completed.Some?)
    && (Flies(f) ==> Waiting(j) == Some(f.inflight.value.batchId))
    && (f.completed.Some? ==>
          && f.completed.value.owner.MaintenanceOwner?
          && Waiting(j) == Some(f.completed.value.batchId)
          && Balanced(f.completed.value.result))
  }

  // -------------------------------------------------------------------
  // Resync
  // -------------------------------------------------------------------

  /** The operations of a resync plan that have not been committed yet. */
  function Undone(f: Flow, c: Control): seq<RuleOp>
    requires c.job.ResyncApply?
  {
    Flying(f) + Rest(c.plan.target, c.plan.current, c.job.targetIdx, c.job.currentIdx)
  }

  ghost predicate Aims(ops: seq<RuleOp>, target: set<IpKey>) {
    forall i :: 0 <= i < |ops| ==> (ops[i].action.Add? <==> ops[i].key in target)
  }

  /** Outside `missed`, ownership is already the target wherever no operation is left, and still the plan's start elsewhere. */
  ghost predicate ResyncInv(f: Flow, c: Control, missed: set<IpKey>) {
    c.job.ResyncApply? ==>
      && Sorted(c.plan.target) && Sorted(c.plan.current)
      && Increasing(Undone(f, c)) && Aims(Undone(f, c), KeySet(c.plan.target))
      && (f.inflight.Some? && f.inflight.value.owner.PendingOwner? ==> OpKeys(f.inflight.value.ops) <= missed)
      && (forall k :: k !in missed && k !in OpKeys(Undone(f, c)) ==> (k in f.owned <==> k in KeySet(c.plan.target)))
  }

  // -------------------------------------------------------------------
  // Shutdown
  // -------------------------------------------------------------------

  function Total(s: Summary): nat {
    s.removed + s.noop + s.failed
  }

  /** Deletes that shutdown cleanup has sent and not yet added to its summary. */
  function Outstanding(f: Flow): nat {
    if f.completed.Some? then f.completed.value.result.input
    else if Flies(f) then f.inflight.value.inputCount
    else 0
  }

  ghost predicate CloseInv(f: Flow, c: Control, h: History) {
    && (h.close.begun ==> Sorted(c.close.tracked) && KeySet(c.close.tracked) == h.close.given)
    && CloseCount(f, c, h)
  }

  ghost predicate CloseCount(f: Flow, c: Control, h: History) {
    if !h.close.begun then !c.close.done && !c.job.CleanupTracked?
    else if c.job.CleanupTracked? then
      && !c.close.done && c.job.offset <= |c.close.tracked|
      && h.close.sent == Deletes(c.close.tracked[..c.job.offset])
      && Total(c.job.summary) + Outstanding(f) == c.job.offset
      && AllDeletes(Flying(f))
      && (f.completed.Some? ==> f.completed.value.result.added == 0)
    else
      && c.close.done
      && h.close.sent == Deletes(c.close.tracked)
      && Total(c.close.summary) == |c.close.tracked|
  }

  /** Tracked keys whose delete has not been sent yet. */
  function Unsent(c: Control): set<IpKey> {
    if c.job.CleanupTracked? && c.job.offset <= |c.close.tracked| then KeySet(c.close.tracked[c.job.offset..]) else {}
  }

  /** A shutdown nothing interferes with: only cleanup deletes go out, and what they leave was refused or already loose. */
  ghost predicate QuietInv(w: World) {
    w.hist.close.begun && w.hist.close.quiet ==>
      && w.flow.owned == {} && w.flow.pending == map[]
      && !w.ctl.req.resync && !w.ctl.startup.due
      && (w.ctl.job.Idle? || w.ctl.job.CleanupTracked?)
      && (w.flow.inflight.Some? ==> Flies(w.flow) && AllDeletes(w.flow.inflight.value.ops))
      && w.kernel.mine <= w.hist.close.loose + w.hist.close.refused + Unsent(w.ctl)
  }

  ghost predicate JobInv(w: World) {
    && HandoffInv(w.flow, w.ctl.job)
    && ResyncInv(w.flow, w.ctl, w.hist.missed)
    && CloseInv(w.flow, w.ctl, w.hist)
    && QuietInv(w)
  }

  // -------------------------------------------------------------------
  // Debounce
  // -------------------------------------------------------------------

  predicate Live(touches: seq<Touch>) {
    touches != [] && !(touches[|touches| - 1].Cut? && touches[|touches| - 1].drained)
  }

  /** The latest event or batch cut. */
  function LastTouch(touches: seq<Touch>): nat
    requires Live(touches)
  {
    touches[|touches| - 1].at
  }

  /** The first event since the map was empty, or the last batch cut if that is later. */
  function Epoch(touches: seq<Touch>): nat
    requires Live(touches)
  {
    var n := |touches| - 1;
    if touches[n].Cut? || !Live(touches[..n]) then touches[n].at else Epoch(touches[..n])
  }

  ghost predicate TimerInv(o: Options, w: World) {
    && (w.flow.pending != map[] <==> Live(w.hist.touches))
    && w.flow.quiet == (if Live(w.hist.touches) then Some(LastTouch(w.hist.touches) + o.debounce) else None)
    && w.flow.maxDeadline == (if Live(w.hist.touches) then Some(Epoch(w.hist.touches) + o.debounceMax) else None)
  }

  // -------------------------------------------------------------------
  // Batches finishing or timing out
  // -------------------------------------------------------------------

  lemma KeyOf(ops: seq<RuleOp>, i: nat)
    requires i < |ops|
    ensures ops[i].key in OpKeys(ops)
  {
  }

  lemma OpKeysConcat(a: seq<RuleOp>, b: seq<RuleOp>)
    ensures OpKeys(a + b) == OpKeys(a) + OpKeys(b)
  {
    var all := a + b;
    forall k | k in OpKeys(a) + OpKeys(b) ensures k in OpKeys(all) {
      if k in OpKeys(a) {
        var i :| 0 <= i < |a| && a[i].key == k;
        assert all[i].key == k;
      } else {
        var i :| 0 <= i < |b| && b[i].key == k;
        assert all[|a| + i].key == k;
      }
    }
  }

  /** A successful operation of an increasing batch decides its key. */
  lemma {:induction false} EffectAtIncreasing(s: set<IpKey>, ops: seq<RuleOp>, ok: seq<bool>, n: nat, i: nat)
    requires i < n <= |ops| == |ok| && Increasing(ops) && ok[i]
    ensures ops[i].key in Effects(s, ops, ok, n) <==> ops[i].action.Add?
  {
    if i < n - 1 {
      assert KeyLess(ops[i].key, ops[n - 1].key);
      EffectAtIncreasing(s, ops, ok, n - 1, i);
    }
  }

  lemma IncreasingParts(a: seq<RuleOp>, b: seq<RuleOp>)
    requires Increasing(a + b)
    ensures Increasing(a) && Increasing(b) && OpKeys(a) !! OpKeys(b)
  {
    var all := a + b;
    assert forall i :: 0 <= i < |a| ==> all[i] == a[i];
    assert forall i :: 0 <= i < |b| ==> all[|a| + i] == b[i];
    forall i, j | 0 <= i < |a| && 0 <= j < |b| ensures a[i].key != b[j].key {
      assert KeyLess(all[i].key, all[|a| + j].key);
    }
  }

  lemma AimsParts(a: seq<RuleOp>, b: seq<RuleOp>, target: set<IpKey>)
    requires Aims(a + b, target)
    ensures Aims(a, target) && Aims(b, target)
  {
    var all := a + b;
    assert forall i :: 0 <= i < |a| ==> all[i] == a[i];
    assert forall i :: 0 <= i < |b| ==> all[|a| + i] == b[i];
  }

  /** Committing a batch of the resync settles its successful keys on the target. */
  lemma FinishResyncs(w: World)
    requires w.flow.inflight.Some? && ResyncInv(w.flow, w.ctl, w.hist.missed)
    ensures ResyncInv(Finish(w).flow, w.ctl, Finish(w).hist.missed)
  {
    if w.ctl.job.ResyncApply? {
      var b := w.flow.inflight.value;
      var ok := OkFlags(b.tracker, |b.ops|);
      var w' := Finish(w);
      var target := KeySet(w.ctl.plan.target);
      var rest := Rest(w.ctl.plan.target, w.ctl.plan.current, w.ctl.job.targetIdx, w.ctl.job.currentIdx);
      assert Undone(w'.flow, w.ctl) == rest;
      IncreasingParts(Flying(w.flow), rest);
      AimsParts(Flying(w.flow), rest, target);
      OpKeysConcat(Flying(w.flow), rest);
      forall k | k !in w'.hist.missed && k !in OpKeys(rest) ensures k in w'.flow.owned <==> k in target {
        if k in OpKeys(b.ops) {
          var i :| 0 <= i < |b.ops| && b.ops[i].key == k;
          assert !ok[i] ==> k in KeysWhere(b.ops, ok, false);
          EffectAtIncreasing(w.flow.owned, b.ops, ok, |b.ops|, i);
        } else {
          forall i | 0 <= i < |b.ops| ensures b.ops[i].key != k {
            KeyOf(b.ops, i);
          }
          EffectsElsewhere(w.flow.owned, b.ops, ok, |b.ops|, k);
        }
      }
    }
  }

  lemma {:induction false} DeletesOnNothing(ops: seq<RuleOp>, ok: seq<bool>, n: nat)
    requires n <= |ops| == |ok| && AllDeletes(ops)
    ensures Effects({}, ops, ok, n) == {}
  {
    if n > 0 {
      DeletesOnNothing(ops, ok, n - 1);
    }
  }

  lemma FinishJob(w: World)
    requires w.flow.inflight.Some? && JobInv(w)
    requires var b := w.flow.inflight.value; b.inputCount == b.noopPrefilter + |b.ops|
    ensures JobInv(Finish(w))
  {
    var b := w.flow.inflight.value;
    CommitIsBalanced(b);
    FinishResyncs(w);
    if AllDeletes(b.ops) {
      DeletesOnNothing(b.ops, OkFlags(b.tracker, |b.ops|), |b.ops|);
    }
  }

  lemma TimeoutJob(w: World)
    requires w.flow.inflight.Some? && JobInv(w) && BatchInv(w)
    ensures JobInv(Timeout(w))
  {
    if w.ctl.job.ResyncApply? {
      var rest := Rest(w.ctl.plan.target, w.ctl.plan.current, w.ctl.job.targetIdx, w.ctl.job.currentIdx);
      var w' := Timeout(w);
      assert Undone(w'.flow, w'.ctl) == rest;
      IncreasingParts(Flying(w.flow), rest);
      AimsParts(Flying(w.flow), rest, KeySet(w.ctl.plan.target));
      OpKeysConcat(Flying(w.flow), rest);
    }
  }

  // -------------------------------------------------------------------
  // Steps that touch no job
  // -------------------------------------------------------------------

  lemma AcksJob(w: World, msgs: seq<AckMsg>)
    requires JobInv(w) && BatchInv(w)
    ensures JobInv(AcksStep(w, msgs, false))
  {
    if w.flow.inflight.Some? {
      var b := w.flow.inflight.value;
      var t := ReceiveAll(b.tracker, b.firstSeq, |b.ops|, msgs);
      var w' := w.(flow := w.flow.(inflight := Some(b.(tracker := t))));
      assert Flying(w'.flow) == Flying(w.flow);
      if t.pending == 0 {
        FinishJob(w');
      }
    }
  }

  lemma RouteJob(o: Options, w: World, events: seq<RuleOp>, parseFailed: nat, now: nat)
    requires JobInv(w)
    ensures JobInv(RouteStep(o, w, events, parseFailed, false, now))
  {
    var w' := RouteStep(o, w, events, parseFailed, false, now);
    assert Flying(w'.flow) == Flying(w.flow);
    assert w.ctl.job.ResyncApply? ==> Undone(w'.flow, w'.ctl) == Undone(w.flow, w.ctl);
  }

  lemma SignalJob(w: World, resync: bool)
    requires JobInv(w)
    ensures JobInv(SignalStep(w, resync))
  {
    var w' := SignalStep(w, resync);
    assert w.ctl.job.ResyncApply? ==> Undone(w'.flow, w'.ctl) == Undone(w.flow, w.ctl);
  }

  /** A flush leaves the job alone; the keys it sends are no longer the resync's to decide. */
  lemma FlushJob(o: Options, w: World, pick: seq<IpKey>, now: nat, s: Send)
    requires JobInv(w) && ValidPick(o, w.flow.pending, pick)
    requires !FlushStep(o, w, pick, now, s).failed
    ensures JobInv(FlushStep(o, w, pick, now, s))
  {
    var w' := FlushStep(o, w, pick, now, s);
    assert Flying(w'.flow) == Flying(w.flow);
    assert w.ctl.job.ResyncApply? ==> Undone(w'.flow, w'.ctl) == Undone(w.flow, w.ctl);
  }

  // -------------------------------------------------------------------
  // Turns of the maintenance loop
  // -------------------------------------------------------------------

  /** Worlds that differ only in what the job invariants do not read, or in jobs they do not speak about. */
  ghost predicate PlainMove(w: World, w': World) {
    && !w.ctl.job.CleanupTracked? && !w'.ctl.job.CleanupTracked? && !w'.ctl.job.ResyncApply?
    && w'.ctl.close == w.ctl.close && w'.hist.close == w.hist.close
  }

  /** Outside Idle and tracked cleanup a shutdown is not quiet, so only the hand-off has to be kept. */
  lemma PlainJob(w: World, w': World)
    requires JobInv(w) && PlainMove(w, w') && !w.ctl.job.Idle?
    requires HandoffInv(w'.flow, w'.ctl.job)
    ensures JobInv(w')
  {
  }

  lemma NothingSent(tracked: seq<IpKey>)
    ensures Deletes(tracked[..0]) == [] && tracked[0..] == tracked
    ensures tracked == [] ==> Deletes(tracked) == []
  {
  }

  /** What holds when shutdown cleanup may begin. */
  ghost predicate CanPrepare(w: World) {
    && w.flow.inflight.None? && w.flow.completed.None? && w.flow.pending == map[] && !w.ctl.close.done
    && w.kernel.mine <= w.hist.loose + w.flow.owned
  }

  lemma PrepareHandoff(w: World, tracked: seq<IpKey>)
    requires CanPrepare(w)
    ensures var w' := PrepareWith(w, tracked);
            HandoffInv(w'.flow, w'.ctl.job) && ResyncInv(w'.flow, w'.ctl, w'.hist.missed)
  {
  }

  lemma PrepareQuiet(w: World, tracked: seq<IpKey>)
    requires CanPrepare(w) && KeySet(tracked) == w.flow.owned
    ensures QuietInv(PrepareWith(w, tracked))
  {
    var w' := PrepareWith(w, tracked);
    NothingSent(tracked);
    assert Unsent(w'.ctl) == w.flow.owned;
    assert w'.hist.close.loose == w.hist.loose && w'.kernel == w.kernel;
  }

  /** The parts of a prepared world that the accounting of deletes reads. */
  ghost predicate JustBegun(f: Flow, c: Control, h: History) {
    && f.inflight.None? && f.completed.None?
    && h.close.begun && h.close.sent == [] && KeySet(c.close.tracked) == h.close.given
    && if c.close.tracked == [] then c.job.Idle? && c.close.done && c.close.summary == NO_SUMMARY
       else c.job == CleanupTracked(0, c.batchId, NO_SUMMARY, None) && !c.close.done
  }

  lemma PrepareFields(w: World, tracked: seq<IpKey>)
    requires CanPrepare(w) && KeySet(tracked) == w.flow.owned
    ensures var w' := PrepareWith(w, tracked);
            JustBegun(w'.flow, w'.ctl, w'.hist) && w'.ctl.close.tracked == tracked
  {
  }

  lemma PreparedCloses(f: Flow, c: Control, h: History)
    requires JustBegun(f, c, h) && Sorted(c.close.tracked)
    ensures CloseInv(f, c, h)
  {
    NothingSent(c.close.tracked);
    if c.close.tracked != [] {
      assert c.close.tracked[..c.job.offset] == c.close.tracked[..0];
      assert Flying(f) == [] && Outstanding(f) == 0;
    }
  }

  lemma PrepareClose(w: World, tracked: seq<IpKey>)
    requires CanPrepare(w) && Sorted(tracked) && KeySet(tracked) == w.flow.owned
    ensures var w' := PrepareWith(w, tracked); CloseInv(w'.flow, w'.ctl, w'.hist)
  {
    var w' := PrepareWith(w, tracked);
    PrepareFields(w, tracked);
    PreparedCloses(w'.flow, w'.ctl, w'.hist);
  }

  lemma PrepareJob(w: World, tracked: seq<IpKey>)
    requires CanPrepare(w) && Sorted(tracked) && KeySet(tracked) == w.flow.owned
    ensures JobInv(PrepareWith(w, tracked))
  {
    PrepareHandoff(w, tracked);
    PrepareQuiet(w, tracked);
    PrepareClose(w, tracked);
  }

  lemma IdleJob(w: World, budget: nat, t: Tick)
    requires JobInv(w) && OwnInv(w) && w.ctl.job.Idle? && w.flow.inflight.None?
    ensures JobInv(IdleTurn(w, budget, t).world)
  {
    if ShutdownDue(w) {
      var tracked := SortKeys(w.flow.owned);
      assert CanPrepare(w);
      SortKeysLists(w.flow.owned);
      PrepareJob(w, tracked);
    } else {
      var w' := IdleTurn(w, budget, t).world;
      assert HandoffInv(w'.flow, w'.ctl.job);
      assert CloseInv(w'.flow, w'.ctl, w'.hist);
    }
  }

  lemma CollectMove(o: Options, w: World, budget: nat, t: Tick)
    requires w.ctl.job.DumpCollect?
    ensures var w' := CollectTurn(o, w, budget, t).world;
            PlainMove(w, w') && w'.flow == w.flow && Waiting(w'.ctl.job).None?
  {
  }

  lemma CollectJob(o: Options, w: World, budget: nat, t: Tick)
    requires JobInv(w) && w.ctl.job.DumpCollect?
    ensures JobInv(CollectTurn(o, w, budget, t).world)
  {
    var w' := CollectTurn(o, w, budget, t).world;
    CollectMove(o, w, budget, t);
    PlainJob(w, w');
  }

  lemma DumpApplyMove(o: Options, w: World, budget: nat, t: Tick)
    requires HandoffInv(w.flow, w.ctl.job) && w.ctl.job.DumpApply? && w.flow.inflight.None?
    ensures var w' := DumpApplyTurn(o, w, budget, t).world;
            PlainMove(w, w') && HandoffInv(w'.flow, w'.ctl.job)
  {
  }

  lemma DumpApplyJob(o: Options, w: World, budget: nat, t: Tick)
    requires JobInv(w) && w.ctl.job.DumpApply? && w.flow.inflight.None?
    ensures JobInv(DumpApplyTurn(o, w, budget, t).world)
  {
    DumpApplyMove(o, w, budget, t);
    PlainJob(w, DumpApplyTurn(o, w, budget, t).world);
  }

  /** A fresh plan: its operations are the difference, and ownership is already right elsewhere. */
  lemma FreshPlan(owned: set<IpKey>, target: seq<IpKey>, current: seq<IpKey>)
    requires Sorted(target) && Sorted(current) && KeySet(current) == owned
    ensures var rest := Rest(target, current, 0, 0);
            && Increasing(rest) && Aims(rest, KeySet(target))
            && forall k :: k !in OpKeys(rest) ==> (k in owned <==> k in KeySet(target))
  {
    var rest := Rest(target, current, 0, 0);
    RestIncreases(target, current, 0, 0);
    forall i | 0 <= i < |rest| ensures rest[i].action.Add? <==> rest[i].key in KeySet(target) {
      RestIsDifference(target, current, 0, 0, rest[i]);
      TailOfAll(target, rest[i].key);
    }
    forall k | k !in OpKeys(rest) ensures k in owned <==> k in KeySet(target) {
      RestIsDifference(target, current, 0, 0, RuleOp(k, Add));
      RestIsDifference(target, current, 0, 0, RuleOp(k, Delete));
      TailOfAll(target, k);
      TailOfAll(current, k);
      assert forall i :: 0 <= i < |rest| ==> rest[i].key in OpKeys(rest);
    }
  }

  lemma PlanJob(w: World, target: seq<IpKey>, current: seq<IpKey>, batchId: nat)
    requires JobInv(w) && w.ctl.job.ResyncBuild? && w.flow.inflight.None?
    requires Sorted(target) && Sorted(current) && KeySet(current) == w.flow.owned
    ensures JobInv(Planned(w, target, current, batchId))
  {
    var w' := Planned(w, target, current, batchId);
    FreshPlan(w.flow.owned, target, current);
    assert Undone(w'.flow, w'.ctl) == Rest(target, current, 0, 0);
  }

  lemma DumpSeqsJob(w: World, second: bool)
    requires JobInv(w)
    ensures var w' := DumpSeqs(w, second);
            w'.flow == w.flow && w'.ctl == w.ctl && w'.kernel == w.kernel && w'.hist == w.hist && w'.failed == w.failed
            && JobInv(w')
  {
  }

  lemma BuildJob(o: Options, w: World, budget: nat, t: Tick)
    requires JobInv(w) && w.ctl.job.ResyncBuild? && w.flow.inflight.None?
    ensures JobInv(BuildTurn(o, w, budget, t).world)
  {
    match t.snapshot {
      case Addresses(keys) =>
        DumpSeqsJob(w, o.ipv6);
        SortKeysLists(KeySet(keys));
        SortKeysLists(w.flow.owned);
        PlanJob(DumpSeqs(w, o.ipv6), SortKeys(KeySet(keys)), SortKeys(w.flow.owned), w.ctl.job.batchId);
      case SnapshotError(afterSecond) =>
        DumpSeqsJob(w, afterSecond && o.ipv6);
        PlainJob(w, BuildTurn(o, w, budget, t).world);
    }
  }

  /** The next chunk moves from the cursors into flight; what is undone stays the same list. */
  lemma ResyncChunkJob(o: Options, w: World, metrics: ResyncResult, left: nat, t: Tick)
    requires ResyncInv(w.flow, w.ctl, w.hist.missed) && w.ctl.job.ResyncApply? && w.flow.inflight.None?
    requires !ResyncChunkTurn(o, w, metrics, left, t).world.failed
    ensures var w' := ResyncChunkTurn(o, w, metrics, left, t).world; ResyncInv(w'.flow, w'.ctl, w'.hist.missed)
  {
    var j := w.ctl.job;
    var room := ChunkRoom(o, left);
    var c := NextChunk(w.ctl.plan.target, w.ctl.plan.current, j.targetIdx, j.currentIdx, room);
    var w' := ResyncChunkTurn(o, w, metrics, left, t).world;
    ChunkIsPrefix(w.ctl.plan.target, w.ctl.plan.current, j.targetIdx, j.currentIdx, room);
    if c.ops != [] {
      assert Undone(w.flow, w.ctl) == Rest(w.ctl.plan.target, w.ctl.plan.current, j.targetIdx, j.currentIdx);
      assert Undone(w'.flow, w'.ctl) == Undone(w.flow, w.ctl);
    }
  }

  lemma ResyncChunkHandoff(o: Options, w: World, metrics: ResyncResult, left: nat, t: Tick)
    requires w.ctl.job.ResyncApply? && w.flow.inflight.None? && w.flow.completed.None?
    requires !ResyncChunkTurn(o, w, metrics, left, t).world.failed
    ensures var w' := ResyncChunkTurn(o, w, metrics, left, t).world;
            && HandoffInv(w'.flow, w'.ctl.job)
            && !w'.ctl.job.CleanupTracked? && w'.ctl.close == w.ctl.close && w'.hist.close == w.hist.close
  {
  }

  lemma ResyncJob(o: Options, w: World, budget: nat, t: Tick)
    requires JobInv(w) && w.ctl.job.ResyncApply? && w.flow.inflight.None?
    requires !ResyncTurn(o, w, budget, t).world.failed
    ensures JobInv(ResyncTurn(o, w, budget, t).world)
  {
    var j := w.ctl.job;
    var w1 := AfterCollect(w, j.waiting);
    var metrics := AddMetrics(j.metrics, Collected(w, j.waiting));
    var left := BudgetAfter(w, j.waiting, budget);
    assert Undone(w1.flow, w1.ctl) == Undone(w.flow, w.ctl);
    ResyncChunkJob(o, w1, metrics, left, t);
    ResyncChunkHandoff(o, w1, metrics, left, t);
  }

  lemma DeletesAre(keys: seq<IpKey>)
    ensures AllDeletes(Deletes(keys)) && OpKeys(Deletes(keys)) == KeySet(keys)
  {
    forall k | k in KeySet(keys) ensures k in OpKeys(Deletes(keys)) {
      var i :| 0 <= i < |keys| && keys[i] == k;
      assert Deletes(keys)[i].key == k;
    }
  }

  /** Nothing is in flight while tracked cleanup takes a turn, and sending does not break off. */
  ghost predicate CleanupRuns(o: Options, w: World, budget: nat, t: Tick) {
    && w.ctl.job.CleanupTracked? && w.flow.inflight.None?
    && HandoffInv(w.flow, w.ctl.job)
    && !CleanupTurn(o, w, budget, t).world.failed
  }

  lemma CleanupHandoff(o: Options, w: World, budget: nat, t: Tick)
    requires CleanupRuns(o, w, budget, t)
    ensures var w' := CleanupTurn(o, w, budget, t).world;
            HandoffInv(w'.flow, w'.ctl.job) && ResyncInv(w'.flow, w'.ctl, w'.hist.missed)
  {
  }

  /** The chunk sent extends the list of deletes sent, and the result collected enters the summary. */
  lemma CleanupClose(o: Options, w: World, budget: nat, t: Tick)
    requires CleanupRuns(o, w, budget, t) && CloseInv(w.flow, w.ctl, w.hist)
    ensures var w' := CleanupTurn(o, w, budget, t).world; CloseInv(w'.flow, w'.ctl, w'.hist)
  {
    var j := w.ctl.job;
    var tracked := w.ctl.close.tracked;
    var room := ChunkRoom(o, BudgetAfter(w, j.waiting, budget));
    var next := CleanupEnd(tracked, j.offset, room);
    var chunk := CleanupChunk(tracked, j.offset, room);
    DeletesAre(tracked[j.offset..next]);
    if chunk == [] {
      assert j.offset == |tracked|;
      assert tracked[..j.offset] == tracked;
    } else {
      assert Deletes(tracked[..j.offset]) + chunk == Deletes(tracked[..next]);
    }
  }

  lemma CleanupQuiet(o: Options, w: World, budget: nat, t: Tick)
    requires CleanupRuns(o, w, budget, t) && QuietInv(w) && w.ctl.job.offset <= |w.ctl.close.tracked|
    requires w.kernel.mine <= w.kernel.installed
    ensures QuietInv(CleanupTurn(o, w, budget, t).world)
  {
    var j := w.ctl.job;
    var tracked := w.ctl.close.tracked;
    var room := ChunkRoom(o, BudgetAfter(w, j.waiting, budget));
    var next := CleanupEnd(tracked, j.offset, room);
    var chunk := CleanupChunk(tracked, j.offset, room);
    DeletesAre(tracked[j.offset..next]);
    if chunk == [] {
      assert tracked[j.offset..] == [];
    } else {
      CleanupSendQuiet(w, chunk, j.offset, next, t.send);
    }
  }

  lemma CleanupJob(o: Options, w: World, budget: nat, t: Tick)
    requires JobInv(w) && w.ctl.job.CleanupTracked? && w.flow.inflight.None?
    requires w.kernel.mine <= w.kernel.installed
    requires !CleanupTurn(o, w, budget, t).world.failed
    ensures JobInv(CleanupTurn(o, w, budget, t).world)
  {
    CleanupHandoff(o, w, budget, t);
    CleanupClose(o, w, budget, t);
    CleanupQuiet(o, w, budget, t);
  }

  /** Sending a chunk of cleanup deletes moves its keys from `Unsent` to refused or gone. */
  lemma CleanupSendQuiet(w: World, chunk: seq<RuleOp>, offset: nat, next: nat, s: Send)
    requires w.kernel.mine <= w.kernel.installed
    requires offset <= next <= |w.ctl.close.tracked|
    requires chunk == Deletes(w.ctl.close.tracked[offset..next])
    ensures var after := KernelRun(w.kernel, chunk, s.refuse, w.seqs.issued, |chunk|);
            forall keep: set<IpKey> :: w.kernel.mine <= keep + KeySet(w.ctl.close.tracked[offset..]) ==>
              after.mine <= keep + RefusedKeys(chunk, s.refuse) + KeySet(w.ctl.close.tracked[next..])
  {
    var tracked := w.ctl.close.tracked;
    var after := KernelRun(w.kernel, chunk, s.refuse, w.seqs.issued, |chunk|);
    assert tracked[offset..] == tracked[offset..next] + tracked[next..];
    forall k | k in after.mine
      ensures k in w.kernel.mine
      ensures k in KeySet(tracked[offset..]) ==> k in RefusedKeys(chunk, s.refuse) || k in KeySet(tracked[next..])
    {
      DeletesRemove(w.kernel, chunk, s.refuse, w.seqs.issued, |chunk|, k);
      if k in tracked[offset..next] {
        var i :| 0 <= i < next - offset && tracked[offset..next][i] == k;
        assert chunk[i].key == k;
      }
    }
  }
}
