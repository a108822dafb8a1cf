/**
 The daemon object: its fields, and the methods that change them in place.

 Each method is proved to do to the object's view what the corresponding step
 of the reactor does to a world.  Clock readings, socket outcomes, dump contents
 and hash-map orders are parameters; the kernel and the history are ghost.
 */
module DaemonObject {
  import opened IpKeys
  import opened SeqRing
  import opened AckTracking
  import opened ResyncDiff
  import opened Reactor
  import opened Theorems

  /** The in-flight record; its acknowledgement table is the daemon's reusable tracker. */
  datatype Batch = Batch(batchId: nat, ackDeadline: nat, inputCount: nat, noopPrefilter: nat,
                         firstSeq: Word, owner: Owner, ops: seq<RuleOp>)

  class Daemon {
    const opts: Options
    const tracker: AckTracker
    const seqs: SeqCounter

    var owned: set<IpKey>
    var pending: map<IpKey, RuleAction>
    var quiet: Option<nat>
    var maxDeadline: Option<nat>
    var inflight: Option<Batch>
    var completed: Option<Completed>

    var batchId: nat
    var req: Requests
    var job: Job
    var close: Close
    var startup: Startup
    var plan: Plan
    var report: Report

    var failed: bool
    ghost var kernel: Kernel
    ghost var hist: History

    ghost predicate Valid()
      reads this, tracker
    {
      tracker.Fits()
    }

    ghost function FlightView(): Option<Inflight>
      reads this, tracker
    {
      if inflight.None? then None
      else
        var b := inflight.value;
        Some(Inflight(b.batchId, b.ackDeadline, b.inputCount, b.noopPrefilter, b.firstSeq, tracker.View(), b.owner, b.ops))
    }

    ghost function FlowView(): Flow
      reads this, tracker
    {
      Flow(owned, pending, quiet, maxDeadline, FlightView(), completed)
    }

    ghost function ControlView(): Control
      reads this
    {
      Control(batchId, req, job, close, startup, plan, report)
    }

    ghost function View(): World
      reads this, tracker, seqs
    {
      World(FlowView(), ControlView(), Seqs(seqs.next, seqs.issued), kernel, hist, failed)
    }

    constructor (o: Options, ghost installed: set<IpKey>)
      ensures Valid() && opts == o && fresh(tracker) && fresh(seqs)
      ensures Initial(View()) && View().kernel.installed == installed
    {
      opts := o;
      tracker := new AckTracker();
      seqs := new SeqCounter();
      owned, pending, quiet, maxDeadline, inflight, completed := {}, map[], None, None, None, None;
      batchId, req, job := 0, Requests(false, false, false), Idle;
      close, startup, plan := Close(false, NO_SUMMARY, []), Startup(true, None, 0, []), Plan([], []);
      report, failed := NO_REPORT, false;
      kernel := Kernel(installed, {}, map[]);
      hist := History(SentMark(0, {}), {}, {}, {}, {}, CloseLog(false, {}, [], {}, {}, false), []);
    }

    // -----------------------------------------------------------------
    // Sending
    // -----------------------------------------------------------------

    /** Sends n messages by one call after the other; it fails only while messages are left. */
    static method SendManyRaw(n: nat, rc: nat -> int) returns (ok: bool, sent: nat)
      ensures sent == TotalSent(rc, n, 0, 0)
      ensures ok ==> sent == n
      ensures !ok ==> sent < n
    {
      var c := 0;
      sent := 0;
      while sent < n
        invariant sent <= n && TotalSent(rc, n, c, sent) == TotalSent(rc, n, 0, 0)
        decreases n - sent
      {
        if rc(c) <= 0 {
          return false, sent;
        }
        sent, c := sent + Min(rc(c), n - sent), c + 1;
      }
      ok := true;
    }

    /** Numbers and sends the messages of a batch. */
    method SendOps(ops: seq<RuleOp>, s: Send) returns (ok: bool, sent: nat, firstSeq: Word)
      requires ops != []
      modifies seqs
      ensures firstSeq == NormalizeSeq(old(seqs.next))
      ensures seqs.next == SeqAdvance(firstSeq, |ops|) && seqs.issued == old(seqs.issued) + |ops|
      ensures ok == s.ok && (!ok ==> sent == Delivered(s, |ops|))
    {
      firstSeq := seqs.ReserveBlock(|ops|);
      ok, sent := SendManyRaw(|ops|, Calls(s, |ops|));
      OutcomesAreCalls(s, Calls(s, |ops|), |ops|);
    }

    method StartBatch(id: nat, owner: Owner, input: nat, noop: nat, ops: seq<RuleOp>, s: Send)
      requires Valid() && inflight.None? && ops != []
      modifies this, tracker, seqs
      ensures Valid()
      ensures View() == if s.ok then SendBatch(old(View()), id, owner, input, noop, ops, s)
                        else BreakSend(old(View()), ops, s)
    {
      ghost var w := View();
      var ok, sent, firstSeq := SendOps(ops, s);
      if ok {
        tracker.Prepare(|ops|);
        inflight := Some(Batch(id, s.at + ACK_WAIT_TIMEOUT, input, noop, firstSeq, owner, ops));
        kernel := KernelRun(w.kernel, ops, s.refuse, w.seqs.issued, |ops|);
        hist := SentHistory(w, ops, owner, s.refuse);
      } else {
        kernel := KernelRun(w.kernel, ops, s.refuse, w.seqs.issued, sent);
        hist := w.hist.(loose := w.hist.loose + OpKeys(ops[..sent]));
      }
    }

    /** Skips operations ownership already reflects, compacting the batch in place. */
    static method PrefilterInPlace(known: set<IpKey>, ops: array<RuleOp>) returns (kept: nat)
      modifies ops
      ensures kept <= ops.Length
      ensures ops[..kept] == Prefilter(known, old(ops[..]))
    {
      kept := 0;
      var idx := 0;
      ghost var was := ops[..];
      while idx < ops.Length
        invariant kept <= idx <= ops.Length
        invariant ops[..kept] == Prefilter(known, was[..idx])
        invariant ops[idx..] == was[idx..]
      {
        var op := ops[idx];
        assert op == was[idx];
        assert was[..idx + 1][..idx] == was[..idx];
        if !Redundant(known, op) {
          if kept != idx {
            ops[kept] := op;
          }
          kept := kept + 1;
        }
        idx := idx + 1;
      }
      assert was[..idx] == was;
    }

    /** Takes the picked entries out of the pending map, in walking order. */
    static method Extract(p: map<IpKey, RuleAction>, pick: seq<IpKey>)
      returns (ops: array<RuleOp>, left: map<IpKey, RuleAction>)
      requires forall i :: 0 <= i < |pick| ==> pick[i] in p
      requires forall i, j :: 0 <= i < j < |pick| ==> pick[i] != pick[j]
      ensures fresh(ops) && ops[..] == TakeOps(p, pick)
      ensures left == p - KeySet(pick)
    {
      ops := new RuleOp[|pick|](i => RuleOp(V4(0), Delete));
      left := p;
      var n := 0;
      while n < |pick|
        invariant n <= |pick| == ops.Length && fresh(ops)
        invariant forall i :: 0 <= i < n ==> ops[i] == RuleOp(pick[i], p[pick[i]])
        invariant forall k :: k in left <==> k in p && k !in pick[..n]
        invariant forall k :: k in left ==> left[k] == p[k]
      {
        var key := pick[n];
        ops[n] := RuleOp(key, left[key]);
        left := left - {key};
        n := n + 1;
      }
      assert pick[..n] == pick;
    }

    /** A batch cut from the pending map: what is worth sending, and what stays in the map. */
    static method CutBatch(p: map<IpKey, RuleAction>, pick: seq<IpKey>, known: set<IpKey>)
      returns (kept: seq<RuleOp>, left: map<IpKey, RuleAction>)
      requires forall i :: 0 <= i < |pick| ==> pick[i] in p
      requires forall i, j :: 0 <= i < j < |pick| ==> pick[i] != pick[j]
      ensures kept == Prefilter(known, TakeOps(p, pick)) && left == p - KeySet(pick)
    {
      var ops;
      ops, left := Extract(p, pick);
      var n := PrefilterInPlace(known, ops);
      kept := ops[..n];
    }

    /** Both deadlines restart while entries remain and clear otherwise. */
    method RestartDeadlines(left: map<IpKey, RuleAction>, now: nat)
      modifies this`pending, this`quiet, this`maxDeadline
      ensures FlowView() == Restarted(opts, old(FlowView()), left, now)
    {
      pending := left;
      if pending != map[] {
        quiet := Some(now + opts.debounce);
        maxDeadline := Some(now + opts.debounceMax);
      } else {
        quiet := None;
        maxDeadline := None;
      }
    }

    /** What remains of starting a pending batch after the cut. */
    method SendPending(input: nat, kept: seq<RuleOp>, s: Send) returns (started: bool)
      requires Valid() && inflight.None? && kept != [] && |kept| <= input
      modifies this, tracker, seqs
      ensures Valid() && started == s.ok
      ensures View() == SendKept(old(View()), input, kept, s)
    {
      batchId := NextId(batchId);
      StartBatch(batchId, PendingOwner, input, input - |kept|, kept, s);
      started := s.ok;
      failed := failed || !s.ok;
    }

    /** The batch leaves the pending map and the deadlines follow. */
    method CutPending(pick: seq<IpKey>, now: nat) returns (kept: seq<RuleOp>)
      requires ValidPick(opts, pending, pick)
      modifies this`pending, this`quiet, this`maxDeadline
      ensures FlowView() == CutFlow(opts, old(FlowView()), pick, now)
      ensures kept == Prefilter(owned, TakeOps(old(pending), pick))
    {
      var left;
      kept, left := CutBatch(pending, pick, owned);
      RestartDeadlines(left, now);
    }

    method TakeBatch(pick: seq<IpKey>, now: nat) returns (kept: seq<RuleOp>)
      requires Valid() && ValidPick(opts, pending, pick)
      modifies this`pending, this`quiet, this`maxDeadline, this`hist
      ensures View() == TakePending(opts, old(View()), pick, now)
      ensures kept == Prefilter(owned, TakeOps(old(pending), pick))
    {
      kept := CutPending(pick, now);
      hist := hist.(touches := hist.touches + [Cut(now, pending == map[])]);
    }

    method StartPendingBatch(pick: seq<IpKey>, now: nat, s: Send) returns (started: bool)
      requires Valid() && ValidPick(opts, pending, pick)
      modifies this, tracker, seqs
      ensures Valid() && View() == FlushStep(opts, old(View()), pick, now, s)
      ensures started ==> s.ok
    {
      if inflight.Some? || pending == map[] {
        return false;
      }
      var kept := TakeBatch(pick, now);
      if kept == [] {
        return false;
      }
      started := SendPending(|pick|, kept, s);
    }

    // -----------------------------------------------------------------
    // Acknowledgements
    // -----------------------------------------------------------------

    /** Commits the operations the tracker holds answers for and counts them. */
    method CommitAckOutcomes(b: Batch) returns (r: ApplyResult)
      requires Valid()
      modifies this`owned
      ensures owned == Effects(old(owned), b.ops, OkFlags(tracker.View(), |b.ops|), |b.ops|)
      ensures r == CommitResult(Inflight(b.batchId, b.ackDeadline, b.inputCount, b.noopPrefilter, b.firstSeq,
                                         tracker.View(), b.owner, b.ops))
    {
      var noop, added, deleted, lost := b.noopPrefilter, 0, 0, 0;
      ghost var t := tracker.View();
      ghost var ok := OkFlags(t, |b.ops|);
      var idx := 0;
      while idx < |b.ops|
        invariant idx <= |b.ops|
        invariant Tally(noop, added, deleted, lost) == TallyUpTo(b.noopPrefilter, b.ops, t, idx)
        invariant owned == Effects(old(owned), b.ops, ok, idx)
      {
        var op := b.ops[idx];
        if !(idx < |tracker.seen| && tracker.seen[idx]) {
          lost := lost + 1;
        } else {
          match ClassifyAck(op, tracker.status[idx])
          case Applied =>
            if op.action.Add? {
              owned := owned + {op.key};
              added := added + 1;
            } else {
              owned := owned - {op.key};
              deleted := deleted + 1;
            }
          case EexistNoop => noop := noop + 1;
          case EnoentNoop => noop := noop + 1;
          case KernelErr => lost := lost + 1;
        }
        idx := idx + 1;
      }
      r := ApplyResult(b.inputCount, noop, added, deleted, lost);
    }

    method FinishInflightBatch()
      requires Valid() && inflight.Some?
      modifies this
      ensures Valid() && View() == Finish(old(View()))
    {
      ghost var w := View();
      var b := inflight.value;
      var result := CommitAckOutcomes(b);
      inflight := None;
      if b.owner.MaintenanceOwner? {
        completed := Some(Completed(b.batchId, result, b.owner));
      }
      hist := Finish(w).hist;
    }

    method HandleAckTimeout()
      requires Valid() && inflight.Some?
      modifies this
      ensures Valid() && View() == Timeout(old(View()))
    {
      ghost var w := View();
      var b := inflight.value;
      inflight := None;
      if b.owner.PendingOwner? {
        req := req.(resync := true, compensate := true);
      } else {
        var lost := if b.noopPrefilter <= b.inputCount then b.inputCount - b.noopPrefilter else 0;
        completed := Some(Completed(b.batchId, ApplyResult(b.inputCount, b.noopPrefilter, 0, 0, lost), b.owner));
      }
      hist := Timeout(w).hist;
    }

    method DrainRuleAcksOnce(msgs: seq<AckMsg>, fatal: bool)
      requires Valid()
      modifies this, tracker
      ensures Valid() && View() == AcksStep(old(View()), msgs, fatal)
    {
      if inflight.None? {
        return;
      }
      var b := inflight.value;
      tracker.Drain(b.firstSeq, |b.ops|, msgs);
      if fatal {
        failed := true;
        return;
      }
      if tracker.pending == 0 {
        FinishInflightBatch();
      }
    }

    // -----------------------------------------------------------------
    // Events, signals and deadlines
    // -----------------------------------------------------------------

    method InsertEvents(events: seq<RuleOp>)
      modifies this`pending
      ensures pending == InsertAll(old(pending), events)
    {
      var n := 0;
      while n < |events|
        invariant n <= |events|
        invariant pending == InsertAll(old(pending), events[..n])
      {
        pending := pending[events[n].key := events[n].action];
        assert events[..n + 1][..n] == events[..n];
        n := n + 1;
      }
      assert events[..n] == events;
    }

    /** Events have come in: the quiet deadline restarts, the other one is armed if it is not. */
    method ArmDeadlines(now: nat)
      modifies this`quiet, this`maxDeadline
      ensures quiet == Some(now + opts.debounce)
      ensures maxDeadline == if old(maxDeadline).None? then Some(now + opts.debounceMax) else old(maxDeadline)
    {
      quiet := Some(now + opts.debounce);
      if maxDeadline.None? {
        maxDeadline := Some(now + opts.debounceMax);
      }
    }

    method HandleRouteEvents(events: seq<RuleOp>, parseFailed: nat, fatal: bool, now: nat)
      requires Valid()
      modifies this
      ensures Valid() && View() == RouteStep(opts, old(View()), events, parseFailed, fatal, now)
    {
      ghost var w := View();
      InsertEvents(events);
      if fatal {
        failed := true;
      } else {
        if events != [] {
          ArmDeadlines(now);
        }
        if parseFailed > 0 {
          req := req.(resync := true, compensate := true);
        }
      }
      hist := RouteStep(opts, w, events, parseFailed, fatal, now).hist;
    }

    method HandleSignal(resync: bool)
      requires Valid()
      modifies this
      ensures Valid() && View() == SignalStep(old(View()), resync)
    {
      if resync {
        req := req.(resync := true);
        hist := NotQuiet(hist);
      } else {
        req := req.(shutdown := true);
      }
    }

    method ShouldFlushPending(now: nat, force: bool) returns (yes: bool)
      ensures yes == ShouldFlush(FlowView(), now, force)
    {
      if pending == map[] {
        return false;
      }
      if force {
        return true;
      }
      if quiet.Some? && now >= quiet.value {
        return true;
      }
      yes := maxDeadline.Some? && now >= maxDeadline.value;
    }

    method NextWakeUp(now: nat) returns (deadline: Option<nat>)
      ensures deadline == NextDeadline(View(), now)
    {
      deadline := EarlierOpt(None, quiet);
      deadline := EarlierOpt(deadline, maxDeadline);
      if inflight.Some? {
        deadline := Earlier(deadline, inflight.value.ackDeadline);
      }
      var soon := now + 1;
      if !job.Idle? {
        deadline := Earlier(deadline, soon);
      }
      if req.resync && inflight.None? {
        deadline := Earlier(deadline, soon);
      }
      if req.shutdown && !close.done && inflight.None? {
        deadline := Earlier(deadline, soon);
      }
      if startup.due && inflight.None? {
        deadline := Earlier(deadline, if startup.retryDeadline.Some? then startup.retryDeadline.value else soon);
      }
    }

    // -----------------------------------------------------------------
    // Maintenance
    // -----------------------------------------------------------------

    method PrepareShutdownCleanupJob()
      requires Valid()
      modifies this
      ensures Valid() && View() == PrepareShutdown(old(View()))
    {
      ghost var w := View();
      var tracked := SortedListing(owned);
      close := close.(tracked := tracked);
      owned := {};
      hist := GiveUpOwned(w, tracked).hist;
      if tracked == [] {
        close, job := close.(done := true, summary := NO_SUMMARY), Idle;
      } else {
        job := CleanupTracked(0, batchId, NO_SUMMARY, None);
      }
    }

    method ScheduleStartupCleanupRetry(now: nat)
      requires Valid()
      modifies this
      ensures Valid() && View() == ScheduleRetry(old(View()), now)
    {
      var count := Min(startup.retryCount + 1, 255);
      job := Idle;
      req := req.(resync := true);
      if count <= STARTUP_CLEANUP_RETRY_LIMIT {
        startup := Startup(true, Some(now + STARTUP_CLEANUP_RETRY_DELAY), count, []);
      } else {
        startup := Startup(false, None, count, []);
      }
    }

    method TakeIdleTurn(budget: nat, t: Tick) returns (left: nat, verdict: Verdict)
      requires Valid() && job.Idle?
      modifies this
      ensures Valid() && Turn(View(), left, verdict) == IdleTurn(old(View()), budget, t)
    {
      left := budget;
      if req.shutdown && pending == map[] && !close.done {
        PrepareShutdownCleanupJob();
        return left, Continue;
      }
      if startup.due {
        if startup.retryDeadline.Some? && t.now < startup.retryDeadline.value {
          return left, Break(RetryLater);
        }
        startup := Startup(false, None, startup.retryCount, []);
        job := DumpCollect(0, None, batchId, NO_SUMMARY);
        return left, Continue;
      }
      if req.resync {
        req := req.(resync := false);
        job := ResyncBuild(batchId);
        return left, Continue;
      }
      verdict := Break(NothingToDo);
    }

    method PollDump(idx: nat, dumpSeq: Word, t: Tick) returns (verdict: Verdict)
      requires Valid() && job.DumpCollect?
      modifies this
      ensures Valid()
      ensures forall left: nat :: Turn(View(), left, verdict) == PollTurn(old(View()), idx, dumpSeq, left, t)
    {
      var j := job;
      startup := startup.(keys := startup.keys + t.targets);
      match t.poll
      case DumpMore =>
        job := DumpCollect(idx, Some(dumpSeq), j.batchId, j.summary);
        verdict := Break(DumpPending);
      case DumpDone =>
        job := if startup.keys == [] then DumpCollect(idx + 1, None, j.batchId, j.summary)
               else DumpApply(0, j.batchId, j.summary, None, idx + 1);
        verdict := Continue;
      case DumpFailed =>
        ScheduleStartupCleanupRetry(t.now);
        verdict := Continue;
    }

    method CompleteStartupCleanup(summary: Summary, id: nat)
      requires Valid()
      modifies this`startup, this`req, this`batchId, this`job, this`report
      ensures Valid() && View() == StartupDone(old(View()), summary, id)
    {
      startup, req := startup.(retryCount := 0), req.(resync := true);
      batchId, job, report := id, Idle, report.(startup := summary);
    }

    method TakeCollectTurn(budget: nat, t: Tick) returns (left: nat, verdict: Verdict)
      requires Valid() && job.DumpCollect?
      modifies this, seqs
      ensures Valid() && Turn(View(), left, verdict) == CollectTurn(opts, old(View()), budget, t)
    {
      var j := job;
      left := Spend(budget, 1);
      var family := NextFamily(j.familyIdx, opts.ipv6);
      if family.None? {
        if startup.keys == [] {
          CompleteStartupCleanup(j.summary, j.batchId);
        } else {
          job := DumpApply(0, j.batchId, j.summary, None, j.familyIdx + 1);
        }
        return left, Continue;
      }
      if j.dumpSeq.Some? {
        verdict := PollDump(family.value, j.dumpSeq.value, t);
        return;
      }
      var dumpSeq := seqs.ReserveBlock(1);
      if !t.dumpStarts {
        ScheduleStartupCleanupRetry(t.now);
        return left, Continue;
      }
      verdict := PollDump(family.value, dumpSeq, t);
    }

    /** The completed batch a job waits for, taken out of its place. */
    method CollectCompleted(waiting: Option<nat>, budget: nat) returns (done: ApplyResult, left: nat)
      requires Valid() && CanProceed(View(), waiting)
      modifies this`completed
      ensures View() == AfterCollect(old(View()), waiting)
      ensures done == Collected(old(View()), waiting) && left == BudgetAfter(old(View()), waiting, budget)
    {
      done, left := ApplyResult(0, 0, 0, 0, 0), budget;
      if waiting.Some? {
        done := completed.value.result;
        completed := None;
        left := Spend(budget, Max(done.input, 1));
      }
    }

    method SendDumpChunk(summary: Summary, left: nat, t: Tick) returns (verdict: Verdict)
      requires Valid() && job.DumpApply?
      modifies this, tracker, seqs
      ensures Valid() && Turn(View(), left, verdict) == DumpChunkTurn(opts, old(View()), summary, left, t)
    {
      var j := job;
      var chunk, next := FillTrackedCleanupChunk(startup.keys, j.offset, ChunkRoom(opts, left));
      if chunk == [] {
        startup := startup.(keys := []);
        if NextFamily(j.nextFamilyIdx, opts.ipv6).Some? {
          batchId, job := j.batchId, DumpCollect(j.nextFamilyIdx, None, j.batchId, summary);
        } else {
          CompleteStartupCleanup(summary, j.batchId);
        }
        return Continue;
      }
      var id := NextId(j.batchId);
      if inflight.Some? {
        job := DumpApply(next, id, summary, None, j.nextFamilyIdx);
        return Break(BatchNotStarted);
      }
      StartBatch(id, MaintenanceOwner, |chunk|, 0, chunk, t.send);
      if !t.send.ok {
        ScheduleStartupCleanupRetry(t.now);
        return Continue;
      }
      job := DumpApply(next, id, summary, Some(id), j.nextFamilyIdx);
      verdict := Break(BatchStarted);
    }

    method TakeDumpApplyTurn(budget: nat, t: Tick) returns (left: nat, verdict: Verdict)
      requires Valid() && job.DumpApply?
      modifies this, tracker, seqs
      ensures Valid() && Turn(View(), left, verdict) == DumpApplyTurn(opts, old(View()), budget, t)
    {
      var j := job;
      if j.waiting.Some? && !Matches(completed, j.waiting.value) {
        return budget, Break(if completed.None? then AwaitingBatch else OtherCompletion);
      }
      var done;
      done, left := CollectCompleted(j.waiting, budget);
      verdict := SendDumpChunk(AddUp(j.summary, done), left, t);
    }

    method ReserveDumpSeqs(second: bool)
      requires Valid()
      modifies seqs
      ensures View() == DumpSeqs(old(View()), second)
    {
      var s := seqs.ReserveBlock(1);
      if second {
        s := seqs.ReserveBlock(1);
      }
    }

    method TakeBuildTurn(budget: nat, t: Tick) returns (left: nat, verdict: Verdict)
      requires Valid() && job.ResyncBuild?
      modifies this, seqs
      ensures Valid() && Turn(View(), left, verdict) == BuildTurn(opts, old(View()), budget, t)
    {
      verdict := Continue;
      var id := job.batchId;
      match t.snapshot
      case SnapshotError(afterSecond) =>
        ReserveDumpSeqs(afterSecond && opts.ipv6);
        req, job := req.(resync := true), Idle;
        left := 0;
      case Addresses(keys) =>
        ReserveDumpSeqs(opts.ipv6);
        var target := SortedListing(KeySet(keys));
        var current := SortedListing(owned);
        plan := Plan(target, current);
        job := ResyncApply(0, 0, id, ResyncResult(|target|, |current|, 0, 0, 0), None);
        hist := hist.(missed := {});
        left := Spend(budget, 1);
    }

    method SendResyncChunk(metrics: ResyncResult, left: nat, t: Tick) returns (verdict: Verdict)
      requires Valid() && job.ResyncApply?
      modifies this, tracker, seqs
      ensures Valid() && Turn(View(), left, verdict) == ResyncChunkTurn(opts, old(View()), metrics, left, t)
    {
      var j := job;
      var chunk, targetIdx, currentIdx :=
        FillResyncChunk(plan.target, plan.current, j.targetIdx, j.currentIdx, ChunkRoom(opts, left));
      if chunk == [] {
        req, batchId, job := req.(compensate := false), j.batchId, Idle;
        report := report.(resync := metrics);
        return Continue;
      }
      var id := NextId(j.batchId);
      if inflight.Some? {
        job := ResyncApply(targetIdx, currentIdx, id, metrics, None);
        return Break(BatchNotStarted);
      }
      StartBatch(id, MaintenanceOwner, |chunk|, 0, chunk, t.send);
      if !t.send.ok {
        job, failed := Idle, true;
        return Abort;
      }
      job := ResyncApply(targetIdx, currentIdx, id, metrics, Some(id));
      verdict := Break(BatchStarted);
    }

    method TakeResyncTurn(budget: nat, t: Tick) returns (left: nat, verdict: Verdict)
      requires Valid() && job.ResyncApply?
      modifies this, tracker, seqs
      ensures Valid() && Turn(View(), left, verdict) == ResyncTurn(opts, old(View()), budget, t)
    {
      var j := job;
      if j.waiting.Some? && !Matches(completed, j.waiting.value) {
        return budget, Break(if completed.None? then AwaitingBatch else OtherCompletion);
      }
      var done;
      done, left := CollectCompleted(j.waiting, budget);
      verdict := SendResyncChunk(AddMetrics(j.metrics, done), left, t);
    }

    method SendCleanupChunk(summary: Summary, left: nat, t: Tick) returns (verdict: Verdict)
      requires Valid() && job.CleanupTracked?
      modifies this, tracker, seqs
      ensures Valid() && Turn(View(), left, verdict) == CleanupChunkTurn(opts, old(View()), summary, left, t)
    {
      var j := job;
      var chunk, next := FillTrackedCleanupChunk(close.tracked, j.offset, ChunkRoom(opts, left));
      if chunk == [] {
        close, batchId, job := close.(done := true, summary := summary), j.batchId, Idle;
        return Continue;
      }
      var id := NextId(j.batchId);
      if inflight.Some? {
        job := CleanupTracked(next, id, summary, None);
        return Break(BatchNotStarted);
      }
      StartBatch(id, MaintenanceOwner, |chunk|, 0, chunk, t.send);
      if !t.send.ok {
        job, failed := Idle, true;
        return Abort;
      }
      job := CleanupTracked(next, id, summary, Some(id));
      verdict := Break(BatchStarted);
    }

    method TakeCleanupTurn(budget: nat, t: Tick) returns (left: nat, verdict: Verdict)
      requires Valid() && job.CleanupTracked?
      modifies this, tracker, seqs
      ensures Valid() && Turn(View(), left, verdict) == CleanupTurn(opts, old(View()), budget, t)
    {
      var j := job;
      if j.waiting.Some? && !Matches(completed, j.waiting.value) {
        return budget, Break(if completed.None? then AwaitingBatch else OtherCompletion);
      }
      var done;
      done, left := CollectCompleted(j.waiting, budget);
      verdict := SendCleanupChunk(AddUp(j.summary, done), left, t);
    }

    method TakeTurn(budget: nat, t: Tick) returns (left: nat, verdict: Verdict)
      requires Valid()
      modifies this, tracker, seqs
      ensures Valid() && Turn(View(), left, verdict) == JobTurn(opts, old(View()), budget, t)
    {
      match job
      case Idle => left, verdict := TakeIdleTurn(budget, t);
      case DumpCollect(_, _, _, _) => left, verdict := TakeCollectTurn(budget, t);
      case DumpApply(_, _, _, _, _) => left, verdict := TakeDumpApplyTurn(budget, t);
      case ResyncBuild(_) => left, verdict := TakeBuildTurn(budget, t);
      case ResyncApply(_, _, _, _, _) => left, verdict := TakeResyncTurn(budget, t);
      case CleanupTracked(_, _, _, _) => left, verdict := TakeCleanupTurn(budget, t);
    }

    /** One slice of maintenance; it ends although nothing is assumed about its clock. */
    method DriveMaintenanceSlice(ticks: nat -> Tick)
      requires Valid()
      modifies this, tracker, seqs
      ensures Valid() && View() == Slice(opts, old(View()), MAINTENANCE_OP_BUDGET, ticks, 0)
    {
      var budget := MAINTENANCE_OP_BUDGET;
      var n := 0;
      while budget > 0 && ticks(n).timeLeft
        invariant Valid()
        invariant Slice(opts, View(), budget, ticks, n) == Slice(opts, old(View()), MAINTENANCE_OP_BUDGET, ticks, 0)
        decreases TurnsLeft(View(), budget)
      {
        ghost var w := View();
        TurnUsesUp(opts, w, budget, ticks(n));
        var left, verdict := TakeTurn(budget, ticks(n));
        if !verdict.Continue? {
          return;
        }
        budget := left;
        n := n + 1;
      }
    }

    /** Deadline, flush and maintenance, in the order the loop drives them. */
    method DriveReactor(now: nat, pick: seq<IpKey>, flushNow: nat, s: Send, ticks: nat -> Tick)
      requires Valid() && ValidPick(opts, pending, pick)
      modifies this, tracker, seqs
      ensures Valid() && View() == ReactStep(opts, old(View()), now, pick, flushNow, s, ticks)
      ensures old(Reachable(opts, View()) && !failed) ==> Reachable(opts, View())
    {
      ghost var w := View();
      if inflight.Some? && now >= inflight.value.ackDeadline {
        HandleAckTimeout();
      }
      assert View() == AfterDeadline(w, now);
      if inflight.None? {
        var due := ShouldFlushPending(now, req.shutdown);
        if due {
          var started := StartPendingBatch(pick, flushNow, s);
        }
      }
      assert View() == AfterFlush(opts, AfterDeadline(w, now), now, pick, flushNow, s);
      if !failed && inflight.None? {
        DriveMaintenanceSlice(ticks);
      }
      if Reachable(opts, w) && !w.failed {
        ReactorStaysReachable(opts, w, now, pick, flushNow, s, ticks);
      }
    }
  }
}
