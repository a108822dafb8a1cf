/**
 The statements about whole runs, in the terms a maintainer would use.
 */
module Theorems {
  import opened IpKeys
  import opened AckTracking
  import opened ResyncDiff
  import opened Reactor
  import opened Ownership
  import opened Jobs
  import opened Invariants

  /** A world the daemon can be in while its loop runs. */
  ghost predicate Running(o: Options, w: World) {
    GoodOptions(o) && Reachable(o, w) && !w.failed
  }

  lemma Extend(o: Options, w: World, a: Action)
    requires Reachable(o, w) && Enabled(o, w, a)
    ensures Reachable(o, Step(o, w, a))
  {
    var start, actions :| Initial(start) && Runs(o, start, actions, w);
    var more := actions + [a];
    assert more[..|more| - 1] == actions;
    assert Runs(o, start, more, Step(o, w, a));
  }

  // -------------------------------------------------------------------
  // Ownership
  // -------------------------------------------------------------------

  predicate InFlight(w: World, k: IpKey) {
    w.flow.inflight.Some? && k in OpKeys(w.flow.inflight.value.ops)
  }

  /**
   In every reachable world, whatever the interleaving of events, resyncs,
   startup cleanup, late or repeated acknowledgements and kernel errors, a key
   that is neither in flight nor loose is owned exactly when a rule this process
   added for it is installed.
   */
  lemma OwnershipIsExact(o: Options, w: World, k: IpKey)
    requires Running(o, w) && k !in w.hist.loose && !InFlight(w, k)
    ensures k in w.flow.owned <==> k in w.kernel.mine
    ensures k in w.flow.owned ==> k in w.kernel.installed
  {
    ReachableInv(o, w);
    if w.flow.inflight.Some? {
      var b := w.flow.inflight.value;
      forall i | 0 <= i < |b.ops| ensures b.ops[i].key != k {
        KeyOf(b.ops, i);
      }
      EffectsElsewhere(w.hist.mark.mine0, b.ops, ReplyFlags(w.kernel.replies, w.hist.mark.first, |b.ops|), |b.ops|, k);
    }
  }

  /**
   When a send of deletes breaks off, ownership of a settled key goes stale exactly
   if the key is owned and a delete of it was delivered and not refused.  The last
   message is never delivered, so a key deleted by it alone stays settled.
   */
  lemma BrokenSendGoesStaleOn(o: Options, w: World, ops: seq<RuleOp>, s: Send, k: IpKey)
    requires Running(o, w) && w.flow.inflight.None? && AllDeletes(ops) && k !in w.hist.loose
    ensures var w' := BreakSend(w, ops, s);
            (k in w'.flow.owned <==> k in w'.kernel.mine) <==>
            !(k in w.flow.owned && DeleteDelivered(ops, s.refuse, Delivered(s, |ops|), k))
    ensures var w' := BreakSend(w, ops, s);
            (forall i :: 0 <= i < |ops| - 1 ==> ops[i].key != k) ==> (k in w'.flow.owned <==> k in w'.kernel.mine)
  {
    ReachableInv(o, w);
    DeletesRemove(w.kernel, ops, s.refuse, w.seqs.issued, Delivered(s, |ops|), k);
  }

  /** Without timeouts and broken sends, and until shutdown cleanup, no key is loose. */
  lemma LooseNeedsACause(o: Options, w: World, a: Action)
    requires Enabled(o, w, a) && w.hist.loose == {} && !a.Expire? && (a.Maintain? ==> a.tick.send.ok)
    requires !Step(o, w, a).failed && !Step(o, w, a).hist.close.begun
    ensures Step(o, w, a).hist.loose == {}
  {
    if a.Maintain? {
      TurnLoose(o, w, a.budget, a.tick);
    }
  }

  /** Shutdown cleanup that has begun is never forgotten. */
  lemma BegunStays(o: Options, w: World, a: Action)
    requires Enabled(o, w, a) && w.hist.close.begun
    ensures Step(o, w, a).hist.close.begun
  {
    if a.Maintain? {
      TurnBegun(o, w, a.budget, a.tick);
    }
  }

  lemma DumpBegun(o: Options, w: World, budget: nat, t: Tick)
    requires w.ctl.job.DumpApply? && w.hist.close.begun
    ensures DumpApplyTurn(o, w, budget, t).world.hist.close.begun
  {
  }

  lemma ResyncBegun(o: Options, w: World, budget: nat, t: Tick)
    requires w.ctl.job.ResyncApply? && w.hist.close.begun
    ensures ResyncTurn(o, w, budget, t).world.hist.close.begun
  {
  }

  lemma CleanupBegun(o: Options, w: World, budget: nat, t: Tick)
    requires w.ctl.job.CleanupTracked? && w.hist.close.begun
    ensures CleanupTurn(o, w, budget, t).world.hist.close.begun
  {
  }

  lemma TurnBegun(o: Options, w: World, budget: nat, t: Tick)
    requires w.hist.close.begun
    ensures JobTurn(o, w, budget, t).world.hist.close.begun
  {
    match w.ctl.job
    case DumpApply(_, _, _, _, _) => DumpBegun(o, w, budget, t);
    case ResyncApply(_, _, _, _, _) => ResyncBegun(o, w, budget, t);
    case CleanupTracked(_, _, _, _) => CleanupBegun(o, w, budget, t);
    case _ =>
  }

  /** No acknowledgement deadline passes and no maintenance send breaks off. */
  predicate Healthy(a: Action) {
    !a.Expire? && (a.Maintain? ==> a.tick.send.ok)
  }

  /** So over whole runs: without timeouts and broken sends, ownership is exact on every key until shutdown cleanup. */
  lemma {:induction false} HealthyRunIsExact(o: Options, start: World, actions: seq<Action>, w: World, k: IpKey)
    requires GoodOptions(o) && Initial(start) && Runs(o, start, actions, w) && !w.failed && !w.hist.close.begun
    requires forall i :: 0 <= i < |actions| ==> Healthy(actions[i])
    ensures w.hist.loose == {}
    ensures !InFlight(w, k) ==> (k in w.flow.owned <==> k in w.kernel.mine)
    decreases |actions|
  {
    if actions != [] {
      var n := |actions| - 1;
      var mid :| Runs(o, start, actions[..n], mid) && Enabled(o, mid, actions[n]) && w == Step(o, mid, actions[n]);
      if mid.hist.close.begun {
        BegunStays(o, mid, actions[n]);
      }
      HealthyRunIsExact(o, start, actions[..n], mid, k);
      LooseNeedsACause(o, mid, actions[n]);
    }
    assert Running(o, w);
    if !InFlight(w, k) {
      OwnershipIsExact(o, w, k);
    }
  }

  /** When acknowledgements complete a batch, every operation was answered and is counted once. */
  lemma CommittedBatchIsComplete(o: Options, w: World, msgs: seq<AckMsg>)
    requires Running(o, w) && Enabled(o, w, Acks(msgs, false))
    requires w.flow.inflight.Some? && AcksStep(w, msgs, false).flow.inflight.None?
    ensures var b := w.flow.inflight.value;
            var t := ReceiveAll(b.tracker, b.firstSeq, |b.ops|, msgs);
            && (forall i :: 0 <= i < |b.ops| ==> i < |t.seen| && t.seen[i])
            && Balanced(CommitResult(b.(tracker := t)))
  {
    ReachableInv(o, w);
    var b := w.flow.inflight.value;
    var t := ReceiveAll(b.tracker, b.firstSeq, |b.ops|, msgs);
    PendingCountsUnseen(b.tracker, b.firstSeq, |b.ops|, msgs);
    UnseenZero(t.seen);
    CommitIsBalanced(b.(tracker := t));
  }

  // -------------------------------------------------------------------
  // Coalescing
  // -------------------------------------------------------------------

  /** The events a run accepted, in order. */
  function EventsOf(actions: seq<Action>): seq<RuleOp> {
    if actions == [] then []
    else
      var n := |actions| - 1;
      EventsOf(actions[..n]) + if actions[n].Route? then actions[n].events else []
  }

  lemma {:induction false} ApplyAllConcat(s: set<IpKey>, a: seq<RuleOp>, b: seq<RuleOp>)
    ensures ApplyAll(s, a + b) == ApplyAll(ApplyAll(s, a), b)
  {
    if b == [] {
      assert a + b == a;
    } else {
      var n := |b| - 1;
      assert (a + b)[..|a + b| - 1] == a + b[..n];
      ApplyAllConcat(s, a, b[..n]);
    }
  }

  lemma OtherStepsWant(o: Options, w: World, a: Action)
    requires Enabled(o, w, a) && !a.Route?
    ensures Step(o, w, a).hist.want == w.hist.want
  {
    if a.Maintain? {
      TurnTimers(o, w, a.budget, a.tick);
    }
  }

  lemma {:induction false} WantIsFold(o: Options, start: World, actions: seq<Action>, w: World)
    requires Initial(start) && Runs(o, start, actions, w)
    ensures w.hist.want == ApplyAll({}, EventsOf(actions))
    decreases |actions|
  {
    if actions != [] {
      var n := |actions| - 1;
      var mid :| Runs(o, start, actions[..n], mid) && Enabled(o, mid, actions[n]) && w == Step(o, mid, actions[n]);
      WantIsFold(o, start, actions[..n], mid);
      if actions[n].Route? {
        ApplyAllConcat({}, EventsOf(actions[..n]), actions[n].events);
      } else {
        OtherStepsWant(o, mid, actions[n]);
        assert EventsOf(actions) == EventsOf(actions[..n]);
      }
    }
  }

  /**
   Coalescing, batching and prefiltering preserve meaning, key by key: unless a
   key's latest event has since met a maintenance operation, a refusal or a
   timeout, applying what is in flight and then what is pending gives what the
   accepted events give one by one.
   */
  lemma CoalescingPreservesMeaning(o: Options, start: World, actions: seq<Action>, w: World, k: IpKey)
    requires GoodOptions(o) && Initial(start) && Runs(o, start, actions, w) && !w.failed
    requires k !in w.hist.strayed
    ensures Outlook(w.flow, k) <==> k in ApplyAll({}, EventsOf(actions))
  {
    RunKeeps(o, start, actions, w);
    WantIsFold(o, start, actions, w);
  }

  /** No maintenance batch is in flight, shutdown cleanup has not begun, and the kernel has carried out all it was sent. */
  ghost predicate Calm(w: World) {
    && !w.failed && !Flies(w.flow) && !w.hist.close.begun
    && forall n :: n in w.kernel.replies ==> w.kernel.replies[n].None?
  }

  /** A run all of whose worlds are calm and in which no batch times out. */
  ghost predicate CalmRun(o: Options, w: World, actions: seq<Action>, end: World)
    decreases |actions|
  {
    && Calm(end)
    && if actions == [] then w == end
       else
         var n := |actions| - 1;
         exists mid :: CalmRun(o, w, actions[..n], mid) && Enabled(o, mid, actions[n]) && !actions[n].Expire?
                       && end == Step(o, mid, actions[n])
  }

  lemma DumpLoose(o: Options, w: World, budget: nat, t: Tick)
    requires w.ctl.job.DumpApply? && t.send.ok
    ensures DumpApplyTurn(o, w, budget, t).world.hist.loose == w.hist.loose
  {
  }

  lemma TurnLoose(o: Options, w: World, budget: nat, t: Tick)
    requires t.send.ok
    ensures var w' := JobTurn(o, w, budget, t).world; w'.hist.close.begun || w'.hist.loose == w.hist.loose
  {
    match w.ctl.job
    case DumpApply(_, _, _, _, _) => DumpLoose(o, w, budget, t);
    case _ =>
  }

  ghost predicate StraysOnlyLoudly(w: World, w': World) {
    Flies(w'.flow) || w'.hist.close.begun || w'.hist.strayed == w.hist.strayed
  }

  lemma DumpStrays(o: Options, w: World, budget: nat, t: Tick)
    requires w.ctl.job.DumpApply?
    ensures StraysOnlyLoudly(w, DumpApplyTurn(o, w, budget, t).world)
  {
  }

  lemma ResyncStrays(o: Options, w: World, budget: nat, t: Tick)
    requires w.ctl.job.ResyncApply?
    ensures StraysOnlyLoudly(w, ResyncTurn(o, w, budget, t).world)
  {
  }

  lemma CleanupStrays(o: Options, w: World, budget: nat, t: Tick)
    requires w.ctl.job.CleanupTracked?
    ensures StraysOnlyLoudly(w, CleanupTurn(o, w, budget, t).world)
  {
  }

  lemma TurnStrays(o: Options, w: World, budget: nat, t: Tick)
    ensures StraysOnlyLoudly(w, JobTurn(o, w, budget, t).world)
  {
    match w.ctl.job
    case DumpApply(_, _, _, _, _) => DumpStrays(o, w, budget, t);
    case ResyncApply(_, _, _, _, _) => ResyncStrays(o, w, budget, t);
    case CleanupTracked(_, _, _, _) => CleanupStrays(o, w, budget, t);
    case _ =>
  }

  /** With the kernel's answers all successes, completing a batch strays nothing. */
  lemma CalmAcks(o: Options, w: World, msgs: seq<AckMsg>)
    requires GoodOptions(o) && Inv(o, w) && Enabled(o, w, Acks(msgs, false)) && Calm(w)
    ensures AcksStep(w, msgs, false).hist.strayed == w.hist.strayed
  {
    if w.flow.inflight.Some? {
      var b := w.flow.inflight.value;
      var t := ReceiveAll(b.tracker, b.firstSeq, |b.ops|, msgs);
      if t.pending == 0 {
        var b' := b.(tracker := t);
        DrainKeepsGenuine(w, b, msgs);
        PendingCountsUnseen(b.tracker, b.firstSeq, |b.ops|, msgs);
        FinishedFlags(w, b');
        var ok := OkFlags(t, |b.ops|);
        assert forall i :: 0 <= i < |ok| ==> ok[i];
        assert KeysWhere(b.ops, ok, false) == {};
      }
    }
  }

  lemma CalmStep(o: Options, w: World, a: Action)
    requires GoodOptions(o) && Inv(o, w) && Calm(w) && Enabled(o, w, a) && !a.Expire?
    requires Calm(Step(o, w, a)) && w.hist.strayed == {}
    ensures Step(o, w, a).hist.strayed == {}
  {
    match a
    case Maintain(budget, t) => TurnStrays(o, w, budget, t);
    case Acks(msgs, fatal) =>
      if !fatal || w.flow.inflight.None? {
        CalmAcks(o, w, msgs);
      }
    case _ =>
  }

  lemma {:induction false} CalmRunStraysNothing(o: Options, start: World, actions: seq<Action>, w: World)
    requires GoodOptions(o) && Initial(start) && CalmRun(o, start, actions, w)
    ensures Runs(o, start, actions, w) && w.hist.strayed == {}
    decreases |actions|
  {
    if actions != [] {
      var n := |actions| - 1;
      var mid :| CalmRun(o, start, actions[..n], mid) && Enabled(o, mid, actions[n]) && !actions[n].Expire?
                 && w == Step(o, mid, actions[n]);
      CalmRunStraysNothing(o, start, actions[..n], mid);
      RunKeeps(o, start, actions[..n], mid);
      CalmStep(o, mid, actions[n]);
    }
  }

  /**
   With all acknowledgements successful and no maintenance operation, for every
   flush schedule, batch size and extraction order: once nothing is pending or
   in flight, the owned addresses are exactly the accepted events folded one by one.
   */
  lemma CalmRunOwnsSequentialResult(o: Options, start: World, actions: seq<Action>, w: World)
    requires GoodOptions(o) && Initial(start) && CalmRun(o, start, actions, w)
    requires w.flow.pending == map[] && w.flow.inflight.None?
    ensures w.flow.owned == ApplyAll({}, EventsOf(actions))
  {
    CalmRunStraysNothing(o, start, actions, w);
    forall k ensures k in w.flow.owned <==> k in ApplyAll({}, EventsOf(actions)) {
      CoalescingPreservesMeaning(o, start, actions, w, k);
    }
  }

  // -------------------------------------------------------------------
  // Hand-off
  // -------------------------------------------------------------------

  /** A job waits for batch id exactly when one of the two places holds that batch, and never both do. */
  lemma HandOffIsExact(o: Options, w: World, id: nat)
    requires Running(o, w)
    ensures var flying := Flies(w.flow) && w.flow.inflight.value.batchId == id;
            var done := w.flow.completed.Some? && w.flow.completed.value.batchId == id;
            (Waiting(w.ctl.job) == Some(id) <==> flying || done) && !(flying && done)
    ensures Waiting(w.ctl.job).None? ==> !Flies(w.flow) && w.flow.completed.None?
  {
    ReachableInv(o, w);
  }

  predicate Stalls(v: Verdict) {
    v.Break? && (v.why.AwaitingBatch? || v.why.OtherCompletion? || v.why.BatchNotStarted?)
  }

  lemma StallNeedsBlock(o: Options, w: World, budget: nat, t: Tick)
    requires w.flow.inflight.None? && CanProceed(w, Waiting(w.ctl.job))
    ensures !Stalls(JobTurn(o, w, budget, t).verdict)
  {
    assert AfterCollect(w, Waiting(w.ctl.job)).flow.inflight.None?;
  }

  /** The branches that would stall a job or skip operations after its cursor moved are never taken. */
  lemma NoTurnStalls(o: Options, w: World, budget: nat, t: Tick)
    requires Running(o, w) && w.flow.inflight.None? && budget > 0
    ensures !Stalls(JobTurn(o, w, budget, t).verdict)
  {
    ReachableInv(o, w);
    StallNeedsBlock(o, w, budget, t);
  }

  // -------------------------------------------------------------------
  // Resync
  // -------------------------------------------------------------------

  /**
   When a resync finishes, ownership and its snapshot agree on every key whose
   operation succeeded or needed none and that no pending batch touched meanwhile.
   */
  lemma ResyncConverges(o: Options, w: World, budget: nat, t: Tick)
    requires Running(o, w) && w.ctl.job.ResyncApply? && w.flow.inflight.None?
    requires var w' := ResyncTurn(o, w, budget, t).world; w'.ctl.job.Idle? && !w'.failed
    ensures Agree(ResyncTurn(o, w, budget, t).world.flow.owned, KeySet(w.ctl.plan.target), w.hist.missed)
  {
    ReachableInv(o, w);
    var j := w.ctl.job;
    var room := ChunkRoom(o, BudgetAfter(w, j.waiting, budget));
    EmptyChunkMeansDone(w.ctl.plan.target, w.ctl.plan.current, j.targetIdx, j.currentIdx, room);
    assert Undone(w.flow, w.ctl) == [];
  }

  // -------------------------------------------------------------------
  // Shutdown
  // -------------------------------------------------------------------

  /**
   The loop leaves only after shutdown cleanup has sent exactly one delete for
   each key owned when it began, and its summary accounts for every one of them,
   batches that timed out included.
   */
  lemma ShutdownIsExact(o: Options, w: World)
    requires Running(o, w) && Exits(w)
    ensures var log := w.hist.close;
            && log.begun
            && (forall k :: RuleOp(k, Delete) in log.sent <==> k in log.given)
            && (forall i, j :: 0 <= i < j < |log.sent| ==> log.sent[i].key != log.sent[j].key)
            && |log.sent| == |log.given| == Total(w.ctl.close.summary)
  {
    ReachableInv(o, w);
    var tracked := w.ctl.close.tracked;
    var sent := w.hist.close.sent;
    assert sent == Deletes(tracked);
    SortedSize(tracked);
    forall k | k in w.hist.close.given ensures RuleOp(k, Delete) in sent {
      var i :| 0 <= i < |tracked| && tracked[i] == k;
      assert sent[i] == RuleOp(k, Delete);
    }
    forall i, j | 0 <= i < j < |sent| ensures sent[i].key != sent[j].key {
      assert KeyLess(tracked[i], tracked[j]);
    }
  }

  lemma {:induction false} SortedSize(s: seq<IpKey>)
    requires Sorted(s)
    ensures |KeySet(s)| == |s|
  {
    if s != [] {
      TailSet(s);
      SortedSize(s[1..]);
      assert s[0] in KeySet(s);
    }
  }

  /** After a shutdown nothing interfered with, only rules the kernel refused to delete or that were loose before remain. */
  lemma QuietExitLeavesNothing(o: Options, w: World)
    requires Running(o, w) && Exits(w) && w.hist.close.quiet
    ensures w.kernel.mine <= w.hist.close.loose + w.hist.close.refused
    ensures w.flow.owned == {}
  {
    ReachableInv(o, w);
  }

  /** At any exit the rules left behind, apart from loose keys, are those still owned: it is clean iff none are. */
  lemma ExitLeavesWhatIsOwned(o: Options, w: World)
    requires Running(o, w) && Exits(w)
    ensures w.kernel.mine - w.hist.loose == w.flow.owned - w.hist.loose
    ensures w.kernel.mine <= w.hist.loose <==> w.flow.owned <= w.hist.loose
  {
    forall k | k !in w.hist.loose ensures k in w.kernel.mine <==> k in w.flow.owned {
      OwnershipIsExact(o, w, k);
    }
  }

  // -------------------------------------------------------------------
  // Deadlines
  // -------------------------------------------------------------------

  /** An unforced flush is due exactly from the earlier of the two debounce limits on. */
  lemma DebounceIsExact(o: Options, w: World, now: nat)
    requires Running(o, w)
    ensures w.flow.pending != map[] <==> Live(w.hist.touches)
    ensures ShouldFlush(w.flow, now, false) <==>
              && Live(w.hist.touches)
              && (now >= LastTouch(w.hist.touches) + o.debounce || now >= Epoch(w.hist.touches) + o.debounceMax)
  {
    ReachableInv(o, w);
  }

  /** Arrivals alone never move the later limit, so a continuous stream cannot postpone a flush past it. */
  lemma {:induction false} BurstCannotPostpone(touches: seq<Touch>, burst: seq<Touch>)
    requires Live(touches) && forall i :: 0 <= i < |burst| ==> burst[i].Arrival?
    ensures Live(touches + burst) && Epoch(touches + burst) == Epoch(touches)
  {
    if burst == [] {
      assert touches + burst == touches;
    } else {
      var n := |burst| - 1;
      BurstCannotPostpone(touches, burst[..n]);
      assert touches + burst == (touches + burst[..n]) + [burst[n]];
      LiveAfter(touches + burst[..n], burst[n]);
    }
  }

  /** Only a flush moves the later limit of a non-empty map, or empties it. */
  lemma LimitStays(o: Options, w: World, a: Action)
    requires Enabled(o, w, a) && !a.Flush? && !Step(o, w, a).failed
    requires w.flow.pending != map[] && w.flow.maxDeadline.Some?
    ensures var f := Step(o, w, a).flow; f.pending != map[] && f.maxDeadline == w.flow.maxDeadline
  {
    match a
    case Maintain(budget, t) => TurnTimers(o, w, budget, t);
    case Route(events, _, _, _) => InsertedStay(w.flow.pending, events);
    case _ =>
  }

  lemma {:induction false} InsertedStay(pending: map<IpKey, RuleAction>, events: seq<RuleOp>)
    ensures pending.Keys <= InsertAll(pending, events).Keys
    ensures pending != map[] ==> InsertAll(pending, events) != map[]
  {
    if events != [] {
      InsertedStay(pending, events[..|events| - 1]);
    }
    if pending != map[] {
      var k :| k in pending;
      assert k in InsertAll(pending, events);
    }
  }

  /**
   However events stream in, and whatever acknowledgements, timeouts, signals and
   maintenance come between: a flush is due from debounce_max after the epoch on.
   */
  lemma {:induction false} StreamCannotPostpone(o: Options, w: World, actions: seq<Action>, e: World, now: nat)
    requires Running(o, w) && w.flow.pending != map[] && Runs(o, w, actions, e) && !e.failed
    requires forall i :: 0 <= i < |actions| ==> !actions[i].Flush?
    ensures Live(w.hist.touches)
    ensures e.flow.pending != map[] && e.flow.maxDeadline == Some(Epoch(w.hist.touches) + o.debounceMax)
    ensures now >= Epoch(w.hist.touches) + o.debounceMax ==> ShouldFlush(e.flow, now, false)
    decreases |actions|
  {
    ReachableInv(o, w);
    if actions != [] {
      var n := |actions| - 1;
      var mid :| Runs(o, w, actions[..n], mid) && Enabled(o, mid, actions[n]) && e == Step(o, mid, actions[n]);
      StreamCannotPostpone(o, w, actions[..n], mid, now);
      LimitStays(o, mid, actions[n]);
    }
  }

  /** The timer is disarmed exactly when nothing is pending, in flight, under maintenance, requested or awaited. */
  lemma NoLostWakeUp(o: Options, w: World, now: nat)
    requires Running(o, w)
    ensures (w.flow.pending != map[] <==> w.flow.quiet.Some?) && (w.flow.pending != map[] <==> w.flow.maxDeadline.Some?)
    ensures NextDeadline(w, now).None? <==>
              && w.flow.pending == map[] && w.flow.inflight.None? && w.ctl.job.Idle?
              && !w.ctl.req.resync && !w.ctl.startup.due && !(w.ctl.req.shutdown && !w.ctl.close.done)
  {
    ReachableInv(o, w);
  }

  /** Something the reactor would do at time t without any further input. */
  predicate HasWork(w: World, t: nat) {
    if w.flow.inflight.Some? then t >= w.flow.inflight.value.ackDeadline
    else
      || ShouldFlush(w.flow, t, false)
      || !w.ctl.job.Idle? || w.ctl.req.resync
      || (w.ctl.req.shutdown && !w.ctl.close.done)
      || (w.ctl.startup.due && (w.ctl.startup.retryDeadline.Some? ==> t >= w.ctl.startup.retryDeadline.value))
  }

  /** Work that falls due at t is met by a wake-up no later than t, or one tick from now. */
  lemma WakesInTime(w: World, now: nat, t: nat)
    requires HasWork(w, t)
    ensures var d := NextDeadline(w, now); d.Some? && d.value <= Max(t, now + 1)
  {
  }

  /** Something falls due at time t: a debounce limit, an acknowledgement deadline, a retry, or work for the next tick. */
  predicate FallsDue(w: World, now: nat, t: nat) {
    var free := w.flow.inflight.None?;
    || w.flow.quiet == Some(t) || w.flow.maxDeadline == Some(t)
    || (!free && t == w.flow.inflight.value.ackDeadline)
    || (t == now + 1
        && (!w.ctl.job.Idle?
            || (free && (w.ctl.req.resync || (w.ctl.req.shutdown && !w.ctl.close.done)
                         || (w.ctl.startup.due && w.ctl.startup.retryDeadline.None?)))))
    || (free && w.ctl.startup.due && w.ctl.startup.retryDeadline == Some(t))
  }

  /** The timer is armed for the first of these times: never later, so nothing is missed, and never for nothing. */
  lemma TimerIsLeast(w: World, now: nat)
    ensures NextDeadline(w, now).None? <==> forall t: nat :: !FallsDue(w, now, t)
    ensures var d := NextDeadline(w, now);
            d.Some? ==> FallsDue(w, now, d.value) && forall t: nat :: FallsDue(w, now, t) ==> d.value <= t
  {
    var d := NextDeadline(w, now);
    if d.Some? {
      assert FallsDue(w, now, d.value);
    }
  }

  // -------------------------------------------------------------------
  // Driving the reactor
  // -------------------------------------------------------------------

  /** A slice takes a bounded number of turns even if its clock never advances. */
  lemma {:induction false} SliceIsBounded(o: Options, w: World, budget: nat, ticks: nat -> Tick, n: nat)
    ensures SliceTurns(o, w, budget, ticks, n) <= TurnsLeft(w, budget) + 1
    ensures budget == MAINTENANCE_OP_BUDGET ==> SliceTurns(o, w, budget, ticks, n) <= 1285
    decreases TurnsLeft(w, budget)
  {
    if budget > 0 && ticks(n).timeLeft {
      var r := JobTurn(o, w, budget, ticks(n));
      TurnUsesUp(o, w, budget, ticks(n));
      if r.verdict.Continue? {
        SliceIsBounded(o, r.world, r.budget, ticks, n + 1);
      }
    }
  }

  ghost predicate LeavesFree(w: World, r: Turn) {
    r.verdict.Continue? ==> r.world.flow.inflight == w.flow.inflight && r.world.failed == w.failed
  }

  lemma DumpIsFree(o: Options, w: World, budget: nat, t: Tick)
    requires w.ctl.job.DumpApply?
    ensures LeavesFree(w, DumpApplyTurn(o, w, budget, t))
  {
  }

  lemma ResyncIsFree(o: Options, w: World, budget: nat, t: Tick)
    requires w.ctl.job.ResyncApply?
    ensures LeavesFree(w, ResyncTurn(o, w, budget, t))
  {
  }

  lemma CleanupIsFree(o: Options, w: World, budget: nat, t: Tick)
    requires w.ctl.job.CleanupTracked?
    ensures LeavesFree(w, CleanupTurn(o, w, budget, t))
  {
  }

  lemma ContinueIsFree(o: Options, w: World, budget: nat, t: Tick)
    ensures LeavesFree(w, JobTurn(o, w, budget, t))
  {
    match w.ctl.job
    case DumpApply(_, _, _, _, _) => DumpIsFree(o, w, budget, t);
    case ResyncApply(_, _, _, _, _) => ResyncIsFree(o, w, budget, t);
    case CleanupTracked(_, _, _, _) => CleanupIsFree(o, w, budget, t);
    case _ =>
  }

  lemma {:induction false} SliceStaysReachable(o: Options, w: World, budget: nat, ticks: nat -> Tick, n: nat)
    requires Reachable(o, w) && !w.failed && w.flow.inflight.None?
    ensures Reachable(o, Slice(o, w, budget, ticks, n))
    decreases TurnsLeft(w, budget)
  {
    if budget > 0 && ticks(n).timeLeft {
      var r := JobTurn(o, w, budget, ticks(n));
      TurnUsesUp(o, w, budget, ticks(n));
      Extend(o, w, Maintain(budget, ticks(n)));
      ContinueIsFree(o, w, budget, ticks(n));
      if r.verdict.Continue? {
        SliceStaysReachable(o, r.world, r.budget, ticks, n + 1);
      }
    }
  }

  /** Driving the reactor as a whole leads from reachable worlds to reachable worlds. */
  lemma ReactorStaysReachable(o: Options, w: World, now: nat, pick: seq<IpKey>, flushNow: nat, s: Send, ticks: nat -> Tick)
    requires Reachable(o, w) && !w.failed && ValidPick(o, w.flow.pending, pick)
    ensures Reachable(o, ReactStep(o, w, now, pick, flushNow, s, ticks))
  {
    if w.flow.inflight.Some? && now >= w.flow.inflight.value.ackDeadline {
      Extend(o, w, Expire(now));
    }
    var w1 := AfterDeadline(w, now);
    if w1.flow.inflight.None? && ShouldFlush(w1.flow, now, w1.ctl.req.shutdown) {
      Extend(o, w1, Flush(now, pick, flushNow, s));
    }
    var w2 := AfterFlush(o, w1, now, pick, flushNow, s);
    if !w2.failed && w2.flow.inflight.None? {
      SliceStaysReachable(o, w2, MAINTENANCE_OP_BUDGET, ticks, 0);
    }
  }
}
