/**
 What the daemon reports about its maintenance jobs, against the kernel's answers.
 */
module Accounting {
  import opened IpKeys
  import opened AckTracking
  import opened ResyncDiff
  import opened Reactor
  import opened Ownership
  import opened Jobs
  import opened Invariants
  import opened Theorems
  import opened Ledger

  /** What became of an operation that was sent. */
  datatype Fate = Added | Deleted | Noop | Failed

  function FateOfAck(op: RuleOp, status: AckStatus): Fate {
    match status
    case None => if op.action.Add? then Added else Deleted
    case Some(errno) =>
      if (op.action.Add? && errno == 17) || (op.action.Delete? && (errno == 2 || errno == 3)) then Noop else Failed
  }

  /** An operation of a batch given up at its deadline failed; otherwise the kernel's answer decides. */
  function FateOf(s: Sent, replies: map<nat, AckStatus>, lost: set<nat>): Fate {
    if s.msg in lost || s.msg !in replies then Failed else FateOfAck(s.op, replies[s.msg])
  }

  function Fates(log: seq<Sent>, replies: map<nat, AckStatus>, lost: set<nat>): (fates: seq<Fate>)
    ensures |fates| == |log|
  {
    seq(|log|, i requires 0 <= i < |log| => FateOf(log[i], replies, lost))
  }

  /** The number of operations that met this fate. */
  function HowMany(log: seq<Sent>, fate: Fate, replies: map<nat, AckStatus>, lost: set<nat>): nat {
    multiset(Fates(log, replies, lost))[fate]
  }

  datatype Counts = Counts(added: nat, deleted: nat, noop: nat, failed: nat)

  function Tallied(m: multiset<Fate>): Counts {
    Counts(m[Added], m[Deleted], m[Noop], m[Failed])
  }

  function Count(log: seq<Sent>, replies: map<nat, AckStatus>, lost: set<nat>): Counts {
    Tallied(multiset(Fates(log, replies, lost)))
  }

  predicate Sum(c: Counts, a: Counts, b: Counts) {
    && c.added == a.added + b.added && c.deleted == a.deleted + b.deleted
    && c.noop == a.noop + b.noop && c.failed == a.failed + b.failed
  }

  lemma TalliedSum(m: multiset<Fate>, n: multiset<Fate>)
    ensures Sum(Tallied(m + n), Tallied(m), Tallied(n))
  {
  }

  lemma {:induction false} FatesConcat(a: seq<Sent>, b: seq<Sent>, replies: map<nat, AckStatus>, lost: set<nat>)
    ensures Fates(a + b, replies, lost) == Fates(a, replies, lost) + Fates(b, replies, lost)
  {
    forall i | 0 <= i < |a| + |b|
      ensures Fates(a + b, replies, lost)[i] == (Fates(a, replies, lost) + Fates(b, replies, lost))[i]
    {
      assert (a + b)[i] == if i < |a| then a[i] else b[i - |a|];
    }
  }

  lemma {:induction false} CountConcat(a: seq<Sent>, b: seq<Sent>, replies: map<nat, AckStatus>, lost: set<nat>)
    ensures Sum(Count(a + b, replies, lost), Count(a, replies, lost), Count(b, replies, lost))
  {
    FatesConcat(a, b, replies, lost);
    TalliedSum(multiset(Fates(a, replies, lost)), multiset(Fates(b, replies, lost)));
  }

  lemma OneFate(fate: Fate)
    ensures var c := Tallied(multiset{fate});
            && c.added == (if fate == Added then 1 else 0) && c.deleted == (if fate == Deleted then 1 else 0)
            && c.noop == (if fate == Noop then 1 else 0) && c.failed == (if fate == Failed then 1 else 0)
  {
  }

  lemma {:induction false} FatesAddUp(fates: seq<Fate>)
    ensures var c := Tallied(multiset(fates)); c.added + c.deleted + c.noop + c.failed == |fates|
  {
    if fates != [] {
      var n := |fates| - 1;
      FatesAddUp(fates[..n]);
      assert fates == fates[..n] + [fates[n]];
      TalliedSum(multiset(fates[..n]), multiset{fates[n]});
      OneFate(fates[n]);
    }
  }

  /** Every operation has one fate. */
  lemma CountIsComplete(log: seq<Sent>, replies: map<nat, AckStatus>, lost: set<nat>)
    ensures var c := Count(log, replies, lost); c.added + c.deleted + c.noop + c.failed == |log|
    ensures (forall i :: 0 <= i < |log| ==> log[i].op.action.Delete?) ==> Count(log, replies, lost).added == 0
  {
    var fates := Fates(log, replies, lost);
    FatesAddUp(fates);
    if forall i :: 0 <= i < |log| ==> log[i].op.action.Delete? {
      assert Added !in fates;
    }
  }

  ghost predicate Below(log: seq<Sent>, n: nat) {
    forall i :: 0 <= i < |log| ==> log[i].msg < n
  }

  /** Answers and losses of messages before n are the same. */
  ghost predicate SameBefore(n: nat, replies: map<nat, AckStatus>, lost: set<nat>, replies': map<nat, AckStatus>,
                             lost': set<nat>)
  {
    forall m: nat :: m < n ==>
      && (m in replies <==> m in replies') && (m in replies ==> replies'[m] == replies[m])
      && (m in lost <==> m in lost')
  }

  lemma CountSame(log: seq<Sent>, n: nat, replies: map<nat, AckStatus>, lost: set<nat>,
                  replies': map<nat, AckStatus>, lost': set<nat>)
    requires Below(log, n) && SameBefore(n, replies, lost, replies', lost')
    ensures Count(log, replies, lost) == Count(log, replies', lost')
  {
    forall i | 0 <= i < |log| ensures FateOf(log[i], replies, lost) == FateOf(log[i], replies', lost') {
      assert log[i].msg < n;
    }
    assert Fates(log, replies, lost) == Fates(log, replies', lost');
  }

  // -------------------------------------------------------------------
  // A batch and its result
  // -------------------------------------------------------------------

  predicate ResultIs(r: ApplyResult, c: Counts, n: nat) {
    r == ApplyResult(n, c.noop, c.added, c.deleted, c.failed)
  }

  predicate TallyIs(a: Tally, c: Counts) {
    a.noop == c.noop && a.added == c.added && a.deleted == c.deleted && a.failed == c.failed
  }

  lemma TallyOne(a: Tally, op: RuleOp, t: Tracker, i: nat, c: Counts, c': Counts)
    requires i < |t.seen| == |t.status| && t.seen[i] && TallyIs(a, c)
    requires Sum(c', c, Tallied(multiset{FateOfAck(op, t.status[i])}))
    ensures TallyIs(TallyOp(a, op, t, i), c')
  {
    OneFate(FateOfAck(op, t.status[i]));
  }

  /** The tracker of a finished batch holds the kernel's answers, so its tally is the count. */
  lemma {:induction false} TallyIsCount(ops: seq<RuleOp>, t: Tracker, fates: seq<Fate>, n: nat)
    requires n <= |ops| == |fates| == |t.seen| == |t.status|
    requires forall i: nat :: i < |ops| ==> t.seen[i] && fates[i] == FateOfAck(ops[i], t.status[i])
    ensures TallyIs(TallyUpTo(0, ops, t, n), Tallied(multiset(fates[..n])))
  {
    if n > 0 {
      var i := n - 1;
      TallyIsCount(ops, t, fates, i);
      assert fates[..n] == fates[..i] + [fates[i]];
      TalliedSum(multiset(fates[..i]), multiset{fates[i]});
      assert t.seen[i] && fates[i] == FateOfAck(ops[i], t.status[i]);
      TallyOne(TallyUpTo(0, ops, t, i), ops[i], t, i, Tallied(multiset(fates[..i])), Tallied(multiset(fates[..n])));
    }
  }

  lemma CommitCounts(w: World, b: Inflight, lost: set<nat>)
    requires TrackerFits(b.tracker, |b.ops|) && b.tracker.pending == 0 && b.noopPrefilter == 0 && b.inputCount == |b.ops|
    requires Answered(w.kernel.replies, w.hist.mark.first, |b.ops|) && TrackerGenuine(w, b)
    requires forall m :: m in lost ==> m < w.hist.mark.first
    ensures ResultIs(CommitResult(b), Count(Numbered(b.ops, w.hist.mark.first), w.kernel.replies, lost), |b.ops|)
  {
    FinishedFlags(w, b);
    var fates := Fates(Numbered(b.ops, w.hist.mark.first), w.kernel.replies, lost);
    forall i: nat | i < |b.ops|
      ensures b.tracker.seen[i] && fates[i] == FateOfAck(b.ops[i], b.tracker.status[i])
    {
      assert b.tracker.seen[i] && w.hist.mark.first + i in w.kernel.replies;
      assert b.tracker.status[i] == w.kernel.replies[w.hist.mark.first + i];
    }
    TallyIsCount(b.ops, b.tracker, fates, |b.ops|);
    assert fates[..|b.ops|] == fates;
  }

  /** All operations of a batch whose messages are lost failed. */
  lemma LostCount(ops: seq<RuleOp>, first: nat, replies: map<nat, AckStatus>, lost: set<nat>)
    requires forall m: nat :: first <= m < first + |ops| ==> m in lost
    ensures Count(Numbered(ops, first), replies, lost) == Counts(0, 0, 0, |ops|)
  {
    var log := Numbered(ops, first);
    var fates := Fates(log, replies, lost);
    forall i | 0 <= i < |fates| ensures fates[i] == Failed {
      assert log[i].msg == first + i;
    }
    FatesAddUp(fates);
    assert Added !in fates && Deleted !in fates && Noop !in fates;
  }

  // -------------------------------------------------------------------
  // The books agree with the daemon's own counters
  // -------------------------------------------------------------------

  function SummaryOf(c: Counts): Summary {
    Summary(c.deleted, c.noop, c.failed)
  }

  predicate MetricsShow(m: ResyncResult, c: Counts) {
    m.add == c.added && m.del == c.deleted && m.failed == c.failed
  }

  /** The running totals of a job are those of the operations counted so far. */
  predicate JobShows(j: Job, c: Counts) {
    match j
    case DumpCollect(_, _, _, s) => s == SummaryOf(c)
    case DumpApply(_, _, s, _, _) => s == SummaryOf(c)
    case CleanupTracked(_, _, s, _) => s == SummaryOf(c)
    case ResyncApply(_, _, _, m, _) => MetricsShow(m, c)
    case _ => true
  }

  /** No message from here on belongs to a batch that is settled. */
  function Floor(f: Flow, first: nat, issued: nat): nat {
    if f.inflight.Some? then first else issued
  }

  predicate AtWork(j: Job) {
    !j.Idle? && !j.ResyncBuild?
  }

  /** What the job has sent is counted in its totals, or in the completed batch, or in flight. */
  ghost predicate JobBooked(f: Flow, j: Job, first: nat, issued: nat, replies: map<nat, AckStatus>, lost: set<nat>,
                            log: seq<Sent>)
  {
    AtWork(j) ==>
      if f.completed.Some? then
        var r := f.completed.value.result;
        && r.input <= |log| && Below(log, Floor(f, first, issued))
        && JobShows(j, Count(log[..|log| - r.input], replies, lost))
        && ResultIs(r, Count(log[|log| - r.input..], replies, lost), r.input)
      else if Flies(f) then
        var b := f.inflight.value;
        && b.noopPrefilter == 0 && b.inputCount == |b.ops| <= |log|
        && log[|log| - |b.ops|..] == Numbered(b.ops, first) && Below(log[..|log| - |b.ops|], first)
        && JobShows(j, Count(log[..|log| - |b.ops|], replies, lost))
      else Below(log, Floor(f, first, issued)) && JobShows(j, Count(log, replies, lost))
  }

  /** What was reported about finished jobs. */
  ghost predicate Reported(c: Control, floor: nat, replies: map<nat, AckStatus>, b: Books) {
    && (forall n :: n in b.lost ==> n < floor)
    && Below(b.closed, floor) && (c.close.done ==> c.close.summary == SummaryOf(Count(b.closed, replies, b.lost)))
    && Below(b.resync, floor) && MetricsShow(c.report.resync, Count(b.resync, replies, b.lost))
    && (b.startup.last.Some? ==>
          && Below(b.startup.last.value.sent, floor)
          && c.report.startup == SummaryOf(Count(b.startup.last.value.sent, replies, b.lost)))
  }

  ghost predicate Balances(w: World, b: Books) {
    && Reported(w.ctl, Floor(w.flow, w.hist.mark.first, w.seqs.issued), w.kernel.replies, b)
    && JobBooked(w.flow, w.ctl.job, w.hist.mark.first, w.seqs.issued, w.kernel.replies, b.lost, b.job)
  }

  lemma BelowMore(log: seq<Sent>, n: nat, m: nat)
    requires Below(log, n) && n <= m
    ensures Below(log, m)
  {
  }

  /** Later answers and losses do not touch what was reported. */
  lemma ReportedStays(c: Control, floor: nat, replies: map<nat, AckStatus>, b: Books,
                      c': Control, floor': nat, replies': map<nat, AckStatus>, b': Books)
    requires Reported(c, floor, replies, b) && floor <= floor' && SameBefore(floor, replies, b.lost, replies', b'.lost)
    requires c'.close.done == c.close.done && c'.close.summary == c.close.summary && c'.report == c.report
    requires b'.closed == b.closed && b'.resync == b.resync && b'.startup.last == b.startup.last
    requires forall n :: n in b'.lost ==> n < floor'
    ensures Reported(c', floor', replies', b')
  {
    CountSame(b.closed, floor, replies, b.lost, replies', b'.lost);
    CountSame(b.resync, floor, replies, b.lost, replies', b'.lost);
    if b.startup.last.Some? {
      CountSame(b.startup.last.value.sent, floor, replies, b.lost, replies', b'.lost);
    }
  }

  lemma SameItself(n: nat, replies: map<nat, AckStatus>, lost: set<nat>)
    ensures SameBefore(n, replies, lost, replies, lost)
  {
  }

  // -------------------------------------------------------------------
  // Steps that leave the job alone
  // -------------------------------------------------------------------

  /** What an observer notes of a step that leaves the job alone and sends nothing for it. */
  lemma PlainNote(o: Options, w: World, a: Action, w': World, b: Books)
    requires !a.Maintain? && w'.ctl.job == w.ctl.job && w'.ctl.close == w.ctl.close && SentNow(w, w') == []
    ensures var n := Note(o, w, a, w', b);
            && n.job == b.job && n.closed == b.closed && n.resync == b.resync && n.startup.last == b.startup.last
            && (!a.Expire? ==> n.lost == b.lost)
  {
    assert b.job + [] == b.job;
  }

  /** The batches, the job and the kernel's answers are as before. */
  ghost predicate StillSeen(w: World, w': World) {
    && w'.ctl.job == w.ctl.job && w'.ctl.close == w.ctl.close && w'.ctl.report == w.ctl.report
    && w'.flow.inflight == w.flow.inflight && w'.flow.completed == w.flow.completed
    && w'.hist.mark == w.hist.mark && w'.seqs == w.seqs && w'.kernel.replies == w.kernel.replies
  }

  lemma StillIsSeen(o: Options, w: World, a: Action)
    requires Enabled(o, w, a) && (a.Route? || a.Signal? || a.Foreign?)
    ensures StillSeen(w, Step(o, w, a))
  {
  }

  lemma StillBalances(o: Options, w: World, a: Action, w': World, b: Books)
    requires Balances(w, b) && !a.Maintain? && !a.Expire? && StillSeen(w, w')
    ensures Balances(w', Note(o, w, a, w', b))
  {
    PlainNote(o, w, a, w', b);
    var floor := Floor(w.flow, w.hist.mark.first, w.seqs.issued);
    SameItself(floor, w.kernel.replies, b.lost);
    ReportedStays(w.ctl, floor, w.kernel.replies, b, w'.ctl, floor, w'.kernel.replies, Note(o, w, a, w', b));
  }

  /** A pending batch goes out, or nothing does. */
  ghost predicate FlushSeen(w: World, w': World) {
    && w'.ctl.job == w.ctl.job && w'.ctl.close == w.ctl.close && w'.ctl.report == w.ctl.report
    && w'.flow.completed == w.flow.completed && !Flies(w'.flow) && SentNow(w, w') == []
    && Floor(w'.flow, w'.hist.mark.first, w'.seqs.issued) == w.seqs.issued
    && forall m: nat :: m < w.seqs.issued ==>
         && (m in w.kernel.replies <==> m in w'.kernel.replies)
         && (m in w.kernel.replies ==> w'.kernel.replies[m] == w.kernel.replies[m])
  }

  lemma FlushIsSeen(o: Options, w: World, pick: seq<IpKey>, now: nat, s: Send)
    requires ValidPick(o, w.flow.pending, pick) && w.flow.inflight.None? && !FlushStep(o, w, pick, now, s).failed
    ensures FlushSeen(w, FlushStep(o, w, pick, now, s))
  {
    var kept := Prefilter(w.flow.owned, TakeOps(w.flow.pending, pick));
    RunAnswers(w.kernel, kept, s.refuse, w.seqs.issued, |kept|);
  }

  /** What the job has counted stays counted. */
  lemma BookedStays(f: Flow, j: Job, first: nat, issued: nat, replies: map<nat, AckStatus>, lost: set<nat>, log: seq<Sent>,
                    f': Flow, first': nat, issued': nat, replies': map<nat, AckStatus>, lost': set<nat>)
    requires JobBooked(f, j, first, issued, replies, lost, log) && !Flies(f) && !Flies(f') && f'.completed == f.completed
    requires Floor(f, first, issued) <= Floor(f', first', issued')
    requires SameBefore(Floor(f, first, issued), replies, lost, replies', lost')
    ensures JobBooked(f', j, first', issued', replies', lost', log)
  {
    if AtWork(j) && f.completed.Some? {
      CompletedStays(f, j, first, issued, replies, lost, log, f', first', issued', replies', lost');
    } else if AtWork(j) {
      CountSame(log, Floor(f, first, issued), replies, lost, replies', lost');
    }
  }

  lemma CompletedStays(f: Flow, j: Job, first: nat, issued: nat, replies: map<nat, AckStatus>, lost: set<nat>,
                       log: seq<Sent>, f': Flow, first': nat, issued': nat, replies': map<nat, AckStatus>, lost': set<nat>)
    requires JobBooked(f, j, first, issued, replies, lost, log) && !Flies(f) && !Flies(f') && f'.completed == f.completed
    requires Floor(f, first, issued) <= Floor(f', first', issued')
    requires SameBefore(Floor(f, first, issued), replies, lost, replies', lost')
    requires AtWork(j) && f.completed.Some?
    ensures JobBooked(f', j, first', issued', replies', lost', log)
  {
    var n, k := Floor(f, first, issued), |log| - f.completed.value.result.input;
    CountSame(log[..k], n, replies, lost, replies', lost');
    CountSame(log[k..], n, replies, lost, replies', lost');
  }

  lemma FlushBalances(o: Options, w: World, a: Action, w': World, b: Books)
    requires a.Flush? && Balances(w, b) && w.flow.inflight.None? && FlushSeen(w, w')
    ensures Balances(w', Note(o, w, a, w', b))
  {
    PlainNote(o, w, a, w', b);
    var n := Note(o, w, a, w', b);
    assert SameBefore(w.seqs.issued, w.kernel.replies, b.lost, w'.kernel.replies, n.lost);
    ReportedStays(w.ctl, w.seqs.issued, w.kernel.replies, b, w'.ctl, w.seqs.issued, w'.kernel.replies, n);
    BookedStays(w.flow, w.ctl.job, w.hist.mark.first, w.seqs.issued, w.kernel.replies, b.lost, b.job,
                w'.flow, w'.hist.mark.first, w'.seqs.issued, w'.kernel.replies, n.lost);
  }

  /** A batch is settled with result r: its part of the log moves from flight to the completed place. */
  lemma SettledIsBooked(f: Flow, j: Job, first: nat, issued: nat, replies: map<nat, AckStatus>, lost: set<nat>,
                        lost': set<nat>, log: seq<Sent>, f': Flow, r: ApplyResult)
    requires JobBooked(f, j, first, issued, replies, lost, log) && Flies(f) && f.completed.None?
    requires f'.inflight.None? && f'.completed.Some? && f'.completed.value.result == r
    requires var ops := f.inflight.value.ops;
             first + |ops| == issued && ResultIs(r, Count(Numbered(ops, first), replies, lost'), |ops|)
    requires SameBefore(first, replies, lost, replies, lost')
    ensures JobBooked(f', j, first, issued, replies, lost', log)
  {
    if AtWork(j) {
      var ops := f.inflight.value.ops;
      var k := |log| - |ops|;
      CountSame(log[..k], first, replies, lost, replies, lost');
      forall i | 0 <= i < |log| ensures log[i].msg < issued {
        if i >= k {
          assert log[k..][i - k] == Numbered(ops, first)[i - k];
        } else {
          assert log[..k][i].msg < first;
        }
      }
    }
  }

  // -------------------------------------------------------------------
  // Batches finishing or timing out
  // -------------------------------------------------------------------

  /** Everything but the flow is as before, as far as the books go. */
  ghost predicate OnlyFlow(w: World, w': World) {
    && w'.ctl.job == w.ctl.job && w'.ctl.close == w.ctl.close && w'.ctl.report == w.ctl.report
    && w'.hist.mark == w.hist.mark && w'.seqs == w.seqs && w'.kernel.replies == w.kernel.replies
  }

  /** The batch in flight is settled; if it was a maintenance batch its result waits to be collected. */
  lemma SettleBalances(o: Options, w: World, a: Action, w': World, b: Books, r: ApplyResult)
    requires Balances(w, b) && BatchInv(w) && HandoffInv(w.flow, w.ctl.job) && w.flow.inflight.Some? && !a.Maintain?
    requires OnlyFlow(w, w') && w'.flow.inflight.None?
    requires w'.flow.completed == if Flies(w.flow) then Some(Completed(w.flow.inflight.value.batchId, r, MaintenanceOwner))
                                  else w.flow.completed
    requires var n, ops := Note(o, w, a, w', b), w.flow.inflight.value.ops;
             && SameBefore(w.hist.mark.first, w.kernel.replies, b.lost, w.kernel.replies, n.lost)
             && (forall m :: m in n.lost ==> m < w.seqs.issued)
             && (Flies(w.flow) ==>
                   ResultIs(r, Count(Numbered(ops, w.hist.mark.first), w.kernel.replies, n.lost), |ops|))
    ensures Balances(w', Note(o, w, a, w', b))
  {
    PlainNote(o, w, a, w', b);
    var n, first, issued := Note(o, w, a, w', b), w.hist.mark.first, w.seqs.issued;
    ReportedStays(w.ctl, first, w.kernel.replies, b, w'.ctl, issued, w'.kernel.replies, n);
    if Flies(w.flow) {
      SettledIsBooked(w.flow, w.ctl.job, first, issued, w.kernel.replies, b.lost, n.lost, b.job, w'.flow, r);
    } else {
      BookedStays(w.flow, w.ctl.job, first, issued, w.kernel.replies, b.lost, b.job,
                  w'.flow, first, issued, w'.kernel.replies, n.lost);
    }
  }

  lemma DrainBalances(w: World, w': World, b: Books, a: Action, o: Options, t: Tracker)
    requires Balances(w, b) && w.flow.inflight.Some? && a.Acks?
    requires w' == w.(flow := w.flow.(inflight := Some(w.flow.inflight.value.(tracker := t))))
    ensures Balances(w', Note(o, w, a, w', b))
  {
    PlainNote(o, w, a, w', b);
    var floor := Floor(w.flow, w.hist.mark.first, w.seqs.issued);
    SameItself(floor, w.kernel.replies, b.lost);
    ReportedStays(w.ctl, floor, w.kernel.replies, b, w'.ctl, floor, w'.kernel.replies, Note(o, w, a, w', b));
  }

  lemma FinishResult(w: World, msgs: seq<AckMsg>, b: Books)
    requires Balances(w, b) && BatchInv(w) && Flies(w.flow) && AtWork(w.ctl.job) && w.flow.completed.None?
    requires forall i :: 0 <= i < |msgs| ==> Genuine(w, msgs[i])
    requires var f := w.flow.inflight.value; ReceiveAll(f.tracker, f.firstSeq, |f.ops|, msgs).pending == 0
    ensures var f := w.flow.inflight.value;
            var g := f.(tracker := ReceiveAll(f.tracker, f.firstSeq, |f.ops|, msgs));
            ResultIs(CommitResult(g), Count(Numbered(f.ops, w.hist.mark.first), w.kernel.replies, b.lost), |f.ops|)
  {
    var f := w.flow.inflight.value;
    DrainKeepsGenuine(w, f, msgs);
    PendingCountsUnseen(f.tracker, f.firstSeq, |f.ops|, msgs);
    CommitCounts(w, f.(tracker := ReceiveAll(f.tracker, f.firstSeq, |f.ops|, msgs)), b.lost);
  }

  lemma FlyingIsAtWork(f: Flow, j: Job)
    requires HandoffInv(f, j) && Flies(f)
    ensures AtWork(j) && f.completed.None?
  {
  }

  lemma AcksBalance(o: Options, w: World, msgs: seq<AckMsg>, b: Books)
    requires Balances(w, b) && BatchInv(w) && HandoffInv(w.flow, w.ctl.job) && Enabled(o, w, Acks(msgs, false))
    ensures var w' := AcksStep(w, msgs, false); Balances(w', Note(o, w, Acks(msgs, false), w', b))
  {
    var a, w' := Acks(msgs, false), AcksStep(w, msgs, false);
    if w.flow.inflight.None? {
      StillBalances(o, w, a, w', b);
    } else {
      var f := w.flow.inflight.value;
      var t := ReceiveAll(f.tracker, f.firstSeq, |f.ops|, msgs);
      if t.pending == 0 {
        SameItself(w.hist.mark.first, w.kernel.replies, b.lost);
        PlainNote(o, w, a, w', b);
        if Flies(w.flow) {
          FlyingIsAtWork(w.flow, w.ctl.job);
          FinishResult(w, msgs, b);
        }
        SettleBalances(o, w, a, w', b, CommitResult(f.(tracker := t)));
      } else {
        DrainBalances(w, w', b, a, o, t);
      }
    }
  }

  /** Every delete or add of a batch that times out has failed, whatever the kernel did. */
  lemma LostResult(w: World, lost: set<nat>)
    requires BatchInv(w) && Flies(w.flow) && w.flow.inflight.value.noopPrefilter == 0
    requires forall m: nat :: w.hist.mark.first <= m < w.seqs.issued ==> m in lost
    ensures var ops := w.flow.inflight.value.ops;
            ResultIs(ApplyResult(|ops|, 0, 0, 0, |ops|),
                     Count(Numbered(ops, w.hist.mark.first), w.kernel.replies, lost), |ops|)
  {
    var ops := w.flow.inflight.value.ops;
    LostCount(ops, w.hist.mark.first, w.kernel.replies, lost);
  }

  lemma ExpireNote(o: Options, w: World, a: Action, w': World, b: Books)
    requires a.Expire? && BatchInv(w) && w.flow.inflight.Some? && forall m :: m in b.lost ==> m < w.hist.mark.first
    ensures var n := Note(o, w, a, w', b);
            && (forall m: nat :: m in n.lost <==> m in b.lost || w.hist.mark.first <= m < w.seqs.issued)
            && SameBefore(w.hist.mark.first, w.kernel.replies, b.lost, w.kernel.replies, n.lost)
  {
  }

  lemma ExpireBalances(o: Options, w: World, now: nat, b: Books)
    requires Balances(w, b) && BatchInv(w) && HandoffInv(w.flow, w.ctl.job) && w.flow.inflight.Some?
    ensures var w' := Timeout(w); Balances(w', Note(o, w, Expire(now), w', b))
  {
    var a, w', n := Expire(now), Timeout(w), |w.flow.inflight.value.ops|;
    ExpireNote(o, w, a, w', b);
    if Flies(w.flow) {
      FlyingIsAtWork(w.flow, w.ctl.job);
      LostResult(w, Note(o, w, a, w', b).lost);
    }
    SettleBalances(o, w, a, w', b, ApplyResult(n, 0, 0, 0, n));
  }

  // -------------------------------------------------------------------
  // Turns of the maintenance loop
  // -------------------------------------------------------------------

  /** What every turn that sends nothing leaves as it was. */
  ghost predicate SendsNothing(w: World, w': World) {
    && w'.flow.inflight == w.flow.inflight && w'.flow.completed == w.flow.completed
    && w'.seqs.issued >= w.seqs.issued && w'.kernel.replies == w.kernel.replies
  }

  lemma QuietBooked(w: World, w': World, b: Books, n: Books)
    requires w.flow.inflight.None? && SendsNothing(w, w') && Balances(w, b) && n.lost == b.lost
    requires w'.ctl.close.done == w.ctl.close.done && w'.ctl.close.summary == w.ctl.close.summary
    requires w'.ctl.report == w.ctl.report && n.closed == b.closed && n.resync == b.resync
    requires n.startup.last == b.startup.last
    ensures Reported(w'.ctl, w'.seqs.issued, w'.kernel.replies, n)
  {
    SameItself(w.seqs.issued, w.kernel.replies, b.lost);
    ReportedStays(w.ctl, w.seqs.issued, w.kernel.replies, b, w'.ctl, w'.seqs.issued, w'.kernel.replies, n);
  }

  lemma FreshBooked(f: Flow, j: Job, first: nat, issued: nat, replies: map<nat, AckStatus>, lost: set<nat>)
    requires f.inflight.None? && f.completed.None? && JobShows(j, Counts(0, 0, 0, 0))
    ensures JobBooked(f, j, first, issued, replies, lost, [])
  {
  }

  lemma IdleSeen(o: Options, w: World, budget: nat, t: Tick, b: Books)
    requires w.ctl.job.Idle? && w.flow.inflight.None?
    ensures var w' := IdleTurn(w, budget, t).world;
            var n := Note(o, w, Maintain(budget, t), w', b);
            && SendsNothing(w, w') && w'.ctl.report == w.ctl.report && JobShows(w'.ctl.job, Counts(0, 0, 0, 0))
            && n.lost == b.lost && n.resync == b.resync && n.startup.last == b.startup.last
            && (!w'.ctl.job.Idle? ==> n.job == [])
            && if w'.ctl.close.done == w.ctl.close.done
               then w'.ctl.close.summary == w.ctl.close.summary && n.closed == b.closed
               else w'.ctl.close.done && w'.ctl.close.summary == NO_SUMMARY && n.closed == []
  {
  }

  lemma IdleBalances(o: Options, w: World, budget: nat, t: Tick, b: Books)
    requires Balances(w, b) && w.ctl.job.Idle? && w.flow.inflight.None? && w.flow.completed.None?
    ensures var w' := IdleTurn(w, budget, t).world; Balances(w', Note(o, w, Maintain(budget, t), w', b))
  {
    var w' := IdleTurn(w, budget, t).world;
    var n := Note(o, w, Maintain(budget, t), w', b);
    IdleSeen(o, w, budget, t, b);
    if !w'.ctl.job.Idle? {
      FreshBooked(w'.flow, w'.ctl.job, w'.hist.mark.first, w'.seqs.issued, w'.kernel.replies, n.lost);
    }
    if w'.ctl.close.done == w.ctl.close.done {
      QuietBooked(w, w', b, n);
    } else {
      IdleCloses(w, w', b, n);
    }
  }

  /** Nothing was owned, so nothing is sent and nothing reported. */
  lemma IdleCloses(w: World, w': World, b: Books, n: Books)
    requires w.flow.inflight.None? && SendsNothing(w, w') && Balances(w, b) && n.lost == b.lost
    requires w'.ctl.report == w.ctl.report && n.resync == b.resync && n.startup.last == b.startup.last
    requires w'.ctl.close.summary == NO_SUMMARY && n.closed == []
    ensures Reported(w'.ctl, w'.seqs.issued, w'.kernel.replies, n)
  {
    assert Count([], w.kernel.replies, b.lost) == Counts(0, 0, 0, 0);
  }

  lemma CollectSeen(o: Options, w: World, budget: nat, t: Tick, b: Books)
    requires w.ctl.job.DumpCollect? && w.flow.inflight.None?
    ensures var w' := CollectTurn(o, w, budget, t).world;
            var n := Note(o, w, Maintain(budget, t), w', b);
            && SendsNothing(w, w') && w'.ctl.close == w.ctl.close && w'.ctl.report.resync == w.ctl.report.resync
            && n.lost == b.lost && n.closed == b.closed && n.resync == b.resync && n.job == b.job
            && ((&& n.startup.last.Some? && n.startup.last.value.sent == b.job
                 && w'.ctl.report.startup == w.ctl.job.summary)
                || (n.startup.last == b.startup.last && w'.ctl.report == w.ctl.report))
            && (w'.ctl.job.Idle? || (w'.ctl.job.DumpCollect? && w'.ctl.job.summary == w.ctl.job.summary)
                || (w'.ctl.job.DumpApply? && w'.ctl.job.summary == w.ctl.job.summary))
  {
    assert b.job + [] == b.job;
  }

  /** The end of a startup cleanup reports the totals of what it sent. */
  lemma StartupReported(w: World, w': World, b: Books, n: Books, s: Summary)
    requires w.flow.inflight.None? && SendsNothing(w, w') && Balances(w, b) && n.lost == b.lost
    requires w'.ctl.close == w.ctl.close && w'.ctl.report.resync == w.ctl.report.resync
    requires n.closed == b.closed && n.resync == b.resync
    requires n.startup.last.Some? && n.startup.last.value.sent == b.job && w'.ctl.report.startup == s
    requires Below(b.job, w.seqs.issued) && s == SummaryOf(Count(b.job, w.kernel.replies, b.lost))
    ensures Reported(w'.ctl, w'.seqs.issued, w'.kernel.replies, n)
  {
  }

  lemma CollectBalances(o: Options, w: World, budget: nat, t: Tick, b: Books)
    requires Balances(w, b) && w.ctl.job.DumpCollect? && w.flow.inflight.None? && w.flow.completed.None?
    ensures var w' := CollectTurn(o, w, budget, t).world; Balances(w', Note(o, w, Maintain(budget, t), w', b))
  {
    var w' := CollectTurn(o, w, budget, t).world;
    var n := Note(o, w, Maintain(budget, t), w', b);
    CollectSeen(o, w, budget, t, b);
    if n.startup.last == b.startup.last && w'.ctl.report == w.ctl.report {
      QuietBooked(w, w', b, n);
    } else {
      StartupReported(w, w', b, n, w.ctl.job.summary);
    }
  }

  lemma BuildSeen(o: Options, w: World, budget: nat, t: Tick, b: Books)
    requires w.ctl.job.ResyncBuild? && w.flow.inflight.None?
    ensures var w' := BuildTurn(o, w, budget, t).world;
            var n := Note(o, w, Maintain(budget, t), w', b);
            && SendsNothing(w, w') && w'.ctl.close == w.ctl.close && w'.ctl.report == w.ctl.report
            && n.lost == b.lost && n.closed == b.closed && n.resync == b.resync && n.startup.last == b.startup.last
            && (w'.ctl.job.Idle? || (n.job == [] && JobShows(w'.ctl.job, Counts(0, 0, 0, 0))))
  {
  }

  lemma BuildBalances(o: Options, w: World, budget: nat, t: Tick, b: Books)
    requires Balances(w, b) && w.ctl.job.ResyncBuild? && w.flow.inflight.None? && w.flow.completed.None?
    ensures var w' := BuildTurn(o, w, budget, t).world; Balances(w', Note(o, w, Maintain(budget, t), w', b))
  {
    var w' := BuildTurn(o, w, budget, t).world;
    var n := Note(o, w, Maintain(budget, t), w', b);
    BuildSeen(o, w, budget, t, b);
    QuietBooked(w, w', b, n);
    if !w'.ctl.job.Idle? {
      FreshBooked(w'.flow, w'.ctl.job, w'.hist.mark.first, w'.seqs.issued, w'.kernel.replies, n.lost);
    }
  }

  // -------------------------------------------------------------------
  // Turns that collect a result and send the next chunk
  // -------------------------------------------------------------------

  /** Nothing is out: all that was sent is in the totals. */
  ghost predicate CaughtUp(w: World, b: Books, j: Job) {
    && w.flow.inflight.None? && w.flow.completed.None?
    && Reported(w.ctl, w.seqs.issued, w.kernel.replies, b)
    && Below(b.job, w.seqs.issued) && JobShows(j, Count(b.job, w.kernel.replies, b.lost))
  }

  /** The job with a collected result in its totals. */
  function WithResult(j: Job, r: ApplyResult): Job {
    match j
    case DumpApply(offset, id, s, waiting, next) => DumpApply(offset, id, AddUp(s, r), waiting, next)
    case CleanupTracked(offset, id, s, waiting) => CleanupTracked(offset, id, AddUp(s, r), waiting)
    case ResyncApply(i, k, id, m, waiting) => ResyncApply(i, k, id, AddMetrics(m, r), waiting)
    case _ => j
  }

  lemma ResultShows(j: Job, r: ApplyResult, a: Counts, c: Counts, all: Counts)
    requires Applies(j) && JobShows(j, a) && ResultIs(r, c, r.input) && Sum(all, a, c)
    ensures JobShows(WithResult(j, r), all)
  {
  }

  predicate Applies(j: Job) {
    j.DumpApply? || j.CleanupTracked? || j.ResyncApply?
  }

  lemma NothingCollected(j: Job)
    requires Applies(j)
    ensures WithResult(j, ApplyResult(0, 0, 0, 0, 0)) == j
  {
  }

  lemma AllCounted(f: Flow, j: Job, first: nat, issued: nat, replies: map<nat, AckStatus>, lost: set<nat>,
                   log: seq<Sent>, r: ApplyResult)
    requires JobBooked(f, j, first, issued, replies, lost, log) && f.inflight.None? && Applies(j)
    requires r == if f.completed.Some? then f.completed.value.result else ApplyResult(0, 0, 0, 0, 0)
    ensures Below(log, issued) && JobShows(WithResult(j, r), Count(log, replies, lost))
  {
    if f.completed.Some? {
      var k := |log| - r.input;
      CountConcat(log[..k], log[k..], replies, lost);
      assert log == log[..k] + log[k..];
      ResultShows(j, r, Count(log[..k], replies, lost), Count(log[k..], replies, lost), Count(log, replies, lost));
    } else {
      NothingCollected(j);
    }
  }

  lemma CanCollect(w: World)
    requires HandoffInv(w.flow, w.ctl.job) && w.flow.inflight.None?
    ensures CanProceed(w, Waiting(w.ctl.job)) && (Waiting(w.ctl.job).Some? <==> w.flow.completed.Some?)
    ensures AfterCollect(w, Waiting(w.ctl.job)) == w.(flow := w.flow.(completed := None))
  {
  }

  lemma CollectCatchesUp(w: World, b: Books)
    requires Balances(w, b) && HandoffInv(w.flow, w.ctl.job) && w.flow.inflight.None? && Applies(w.ctl.job)
    ensures var waiting := Waiting(w.ctl.job);
            CanProceed(w, waiting)
            && CaughtUp(AfterCollect(w, waiting), b, WithResult(w.ctl.job, Collected(w, waiting)))
  {
    CanCollect(w);
    AllCounted(w.flow, w.ctl.job, w.hist.mark.first, w.seqs.issued, w.kernel.replies, b.lost, b.job,
               Collected(w, Waiting(w.ctl.job)));
  }

  /** A chunk went out under a job that shows the same totals. */
  ghost predicate ChunkSeen(w: World, w': World, b: Books, n: Books) {
    && Flies(w'.flow) && w'.flow.completed.None?
    && var f := w'.flow.inflight.value;
    && f.noopPrefilter == 0 && f.inputCount == |f.ops| && w'.hist.mark.first == w.seqs.issued
    && n.job == b.job + Numbered(f.ops, w.seqs.issued)
    && w'.ctl.close == w.ctl.close && w'.ctl.report == w.ctl.report
    && n.lost == b.lost && n.closed == b.closed && n.resync == b.resync && n.startup.last == b.startup.last
    && SameBefore(w.seqs.issued, w.kernel.replies, b.lost, w'.kernel.replies, n.lost)
  }

  lemma ChunkBalances(w: World, w': World, b: Books, n: Books, j: Job)
    requires CaughtUp(w, b, j) && ChunkSeen(w, w', b, n)
    requires forall c :: JobShows(j, c) ==> JobShows(w'.ctl.job, c)
    ensures Balances(w', n)
  {
    var issued, ops := w.seqs.issued, w'.flow.inflight.value.ops;
    ReportedStays(w.ctl, issued, w.kernel.replies, b, w'.ctl, issued, w'.kernel.replies, n);
    CountSame(b.job, issued, w.kernel.replies, b.lost, w'.kernel.replies, n.lost);
    assert n.job[..|n.job| - |ops|] == b.job && n.job[|n.job| - |ops|..] == Numbered(ops, issued);
  }

  lemma SendSeen(w: World, id: nat, ops: seq<RuleOp>, s: Send, lost: set<nat>)
    requires w.flow.inflight.None? && w.flow.completed.None?
    ensures var w' := SendBatch(w, id, MaintenanceOwner, |ops|, 0, ops, s);
            && Flies(w'.flow) && w'.flow.completed.None? && w'.flow.inflight.value.ops == ops
            && w'.flow.inflight.value.noopPrefilter == 0 && w'.flow.inflight.value.inputCount == |ops|
            && w'.hist.mark.first == w.seqs.issued && w'.ctl == w.ctl && w'.seqs.issued == w.seqs.issued + |ops|
            && SameBefore(w.seqs.issued, w.kernel.replies, lost, w'.kernel.replies, lost)
    ensures var w' := BreakSend(w, ops, s);
            && w'.flow == w.flow && w'.ctl == w.ctl && w'.seqs.issued == w.seqs.issued + |ops|
            && SameBefore(w.seqs.issued, w.kernel.replies, lost, w'.kernel.replies, lost)
  {
    RunAnswers(w.kernel, ops, s.refuse, w.seqs.issued, |ops|);
    RunAnswers(w.kernel, ops, s.refuse, w.seqs.issued, Delivered(s, |ops|));
  }

  /** Collecting a completed batch is not seen from outside. */
  lemma NoteAfterCollect(o: Options, w: World, waiting: Option<nat>, a: Action, w': World, b: Books)
    ensures Note(o, AfterCollect(w, waiting), a, w', b) == Note(o, w, a, w', b)
  {
  }

  lemma CleanupSeen(o: Options, w: World, summary: Summary, left: nat, t: Tick, a: Action, b: Books)
    requires a.Maintain? && a.tick == t && w.ctl.job.CleanupTracked? && w.flow.inflight.None? && w.flow.completed.None?
    requires !w.ctl.close.done && !CleanupChunkTurn(o, w, summary, left, t).world.failed
    ensures var w' := CleanupChunkTurn(o, w, summary, left, t).world;
            var n := Note(o, w, a, w', b);
            if CleanupChunk(w.ctl.close.tracked, w.ctl.job.offset, ChunkRoom(o, left)) == [] then
              && SendsNothing(w, w') && w'.ctl.job.Idle? && w'.ctl.close.done && w'.ctl.close.summary == summary
              && w'.ctl.report == w.ctl.report && n.closed == b.job
              && n.lost == b.lost && n.resync == b.resync && n.startup.last == b.startup.last
            else ChunkSeen(w, w', b, n) && w'.ctl.job.CleanupTracked? && w'.ctl.job.summary == summary
  {
    var chunk := CleanupChunk(w.ctl.close.tracked, w.ctl.job.offset, ChunkRoom(o, left));
    SendSeen(w, NextId(w.ctl.job.batchId), chunk, t.send, b.lost);
  }

  /** The end of shutdown cleanup reports the totals of what it sent. */
  lemma CloseReported(w: World, w': World, b: Books, n: Books, s: Summary, j: Job)
    requires CaughtUp(w, b, j) && j.CleanupTracked? && j.summary == s && SendsNothing(w, w') && n.lost == b.lost
    requires w'.ctl.close.summary == s && w'.ctl.report == w.ctl.report && w'.ctl.job.Idle?
    requires n.closed == b.job && n.resync == b.resync && n.startup.last == b.startup.last
    ensures Balances(w', n)
  {
  }

  lemma CleanupBalances(o: Options, w: World, summary: Summary, left: nat, t: Tick, a: Action, b: Books, j: Job)
    requires a.Maintain? && a.tick == t && w.ctl.job.CleanupTracked? && !w.ctl.close.done
    requires CaughtUp(w, b, j) && j.CleanupTracked? && j.summary == summary
    requires !CleanupChunkTurn(o, w, summary, left, t).world.failed
    ensures var w' := CleanupChunkTurn(o, w, summary, left, t).world; Balances(w', Note(o, w, a, w', b))
  {
    var w' := CleanupChunkTurn(o, w, summary, left, t).world;
    CleanupSeen(o, w, summary, left, t, a, b);
    if CleanupChunk(w.ctl.close.tracked, w.ctl.job.offset, ChunkRoom(o, left)) == [] {
      CloseReported(w, w', b, Note(o, w, a, w', b), summary, j);
    } else {
      ChunkBalances(w, w', b, Note(o, w, a, w', b), j);
    }
  }

  lemma ResyncSeen(o: Options, w: World, metrics: ResyncResult, left: nat, t: Tick, a: Action, b: Books)
    requires a.Maintain? && a.tick == t && w.ctl.job.ResyncApply? && w.flow.inflight.None? && w.flow.completed.None?
    requires !ResyncChunkTurn(o, w, metrics, left, t).world.failed
    ensures var w', j := ResyncChunkTurn(o, w, metrics, left, t).world, w.ctl.job;
            var n := Note(o, w, a, w', b);
            if NextChunk(w.ctl.plan.target, w.ctl.plan.current, j.targetIdx, j.currentIdx, ChunkRoom(o, left)).ops == [] then
              && SendsNothing(w, w') && w'.ctl.job.Idle? && w'.ctl.close == w.ctl.close
              && w'.ctl.report.startup == w.ctl.report.startup && w'.ctl.report.resync == metrics && n.resync == b.job
              && n.lost == b.lost && n.closed == b.closed && n.startup.last == b.startup.last
            else ChunkSeen(w, w', b, n) && w'.ctl.job.ResyncApply? && w'.ctl.job.metrics == metrics
  {
    var j := w.ctl.job;
    var c := NextChunk(w.ctl.plan.target, w.ctl.plan.current, j.targetIdx, j.currentIdx, ChunkRoom(o, left));
    SendSeen(w, NextId(j.batchId), c.ops, t.send, b.lost);
  }

  lemma ResyncReported(w: World, w': World, b: Books, n: Books, j: Job)
    requires CaughtUp(w, b, j) && j.ResyncApply? && SendsNothing(w, w') && n.lost == b.lost && w'.ctl.close == w.ctl.close
    requires w'.ctl.report.startup == w.ctl.report.startup && w'.ctl.report.resync == j.metrics && w'.ctl.job.Idle?
    requires n.resync == b.job && n.closed == b.closed && n.startup.last == b.startup.last
    ensures Balances(w', n)
  {
  }

  lemma ResyncBalances(o: Options, w: World, metrics: ResyncResult, left: nat, t: Tick, a: Action, b: Books, j: Job)
    requires a.Maintain? && a.tick == t && w.ctl.job.ResyncApply?
    requires CaughtUp(w, b, j) && j.ResyncApply? && j.metrics == metrics
    requires !ResyncChunkTurn(o, w, metrics, left, t).world.failed
    ensures var w' := ResyncChunkTurn(o, w, metrics, left, t).world; Balances(w', Note(o, w, a, w', b))
  {
    var w' := ResyncChunkTurn(o, w, metrics, left, t).world;
    ResyncSeen(o, w, metrics, left, t, a, b);
    if w'.ctl.job.Idle? {
      ResyncReported(w, w', b, Note(o, w, a, w', b), j);
    } else {
      ChunkBalances(w, w', b, Note(o, w, a, w', b), j);
    }
  }

  /** The list of a family is worked off. */
  lemma DumpEndSeen(o: Options, w: World, summary: Summary, left: nat, t: Tick, a: Action, b: Books)
    requires a.Maintain? && a.tick == t && w.ctl.job.DumpApply? && w.flow.inflight.None? && w.flow.completed.None?
    requires CleanupChunk(w.ctl.startup.keys, w.ctl.job.offset, ChunkRoom(o, left)) == []
    ensures var w' := DumpChunkTurn(o, w, summary, left, t).world;
            var n := Note(o, w, a, w', b);
            && SendsNothing(w, w') && w'.ctl.close == w.ctl.close && w'.ctl.report.resync == w.ctl.report.resync
            && n.lost == b.lost && n.closed == b.closed && n.resync == b.resync
            && if w'.ctl.job.Idle? then
                 w'.ctl.report.startup == summary && n.startup.last.Some? && n.startup.last.value.sent == b.job
               else
                 && w'.ctl.job.DumpCollect? && w'.ctl.job.summary == summary && n.job == b.job
                 && w'.ctl.report == w.ctl.report && n.startup.last == b.startup.last
  {
    assert b.job + [] == b.job;
  }

  /** A chunk of it is sent, or the send breaks off and the attempt is over. */
  lemma DumpSendSeen(o: Options, w: World, summary: Summary, left: nat, t: Tick, a: Action, b: Books)
    requires a.Maintain? && a.tick == t && w.ctl.job.DumpApply? && w.flow.inflight.None? && w.flow.completed.None?
    requires CleanupChunk(w.ctl.startup.keys, w.ctl.job.offset, ChunkRoom(o, left)) != []
    ensures var w' := DumpChunkTurn(o, w, summary, left, t).world;
            var n := Note(o, w, a, w', b);
            if t.send.ok then ChunkSeen(w, w', b, n) && w'.ctl.job.DumpApply? && w'.ctl.job.summary == summary
            else
              && w'.ctl.job.Idle? && w'.flow == w.flow && w'.seqs.issued >= w.seqs.issued && w'.ctl.close == w.ctl.close
              && w'.ctl.report == w.ctl.report && n.lost == b.lost && n.closed == b.closed && n.resync == b.resync
              && n.startup.last == b.startup.last
              && SameBefore(w.seqs.issued, w.kernel.replies, b.lost, w'.kernel.replies, n.lost)
  {
    var chunk := CleanupChunk(w.ctl.startup.keys, w.ctl.job.offset, ChunkRoom(o, left));
    SendSeen(w, NextId(w.ctl.job.batchId), chunk, t.send, b.lost);
  }

  lemma DumpReported(w: World, w': World, b: Books, n: Books, j: Job)
    requires CaughtUp(w, b, j) && j.DumpApply? && SendsNothing(w, w') && n.lost == b.lost && w'.ctl.close == w.ctl.close
    requires w'.ctl.report.resync == w.ctl.report.resync && n.closed == b.closed && n.resync == b.resync
    requires if w'.ctl.job.Idle? then
               w'.ctl.report.startup == j.summary && n.startup.last.Some? && n.startup.last.value.sent == b.job
             else
               && w'.ctl.job.DumpCollect? && w'.ctl.job.summary == j.summary && n.job == b.job
               && w'.ctl.report == w.ctl.report && n.startup.last == b.startup.last
    ensures Balances(w', n)
  {
    BelowMore(b.job, w.seqs.issued, w'.seqs.issued);
  }

  lemma DumpBalances(o: Options, w: World, summary: Summary, left: nat, t: Tick, a: Action, b: Books, j: Job)
    requires a.Maintain? && a.tick == t && w.ctl.job.DumpApply?
    requires CaughtUp(w, b, j) && j.DumpApply? && j.summary == summary
    ensures var w' := DumpChunkTurn(o, w, summary, left, t).world; Balances(w', Note(o, w, a, w', b))
  {
    var w' := DumpChunkTurn(o, w, summary, left, t).world;
    var n := Note(o, w, a, w', b);
    if CleanupChunk(w.ctl.startup.keys, w.ctl.job.offset, ChunkRoom(o, left)) == [] {
      DumpEndSeen(o, w, summary, left, t, a, b);
      DumpReported(w, w', b, n, j);
    } else {
      DumpSendSeen(o, w, summary, left, t, a, b);
      if t.send.ok {
        ChunkBalances(w, w', b, n, j);
      } else {
        ReportedStays(w.ctl, w.seqs.issued, w.kernel.replies, b, w'.ctl, w'.seqs.issued, w'.kernel.replies, n);
      }
    }
  }

  /** The three applying jobs. */
  lemma ApplyBalances(o: Options, w: World, budget: nat, t: Tick, b: Books)
    requires Balances(w, b) && JobInv(w) && w.flow.inflight.None? && Applies(w.ctl.job)
    requires !JobTurn(o, w, budget, t).world.failed
    ensures var w' := JobTurn(o, w, budget, t).world; Balances(w', Note(o, w, Maintain(budget, t), w', b))
  {
    var a, w', waiting := Maintain(budget, t), JobTurn(o, w, budget, t).world, Waiting(w.ctl.job);
    CollectCatchesUp(w, b);
    NoteAfterCollect(o, w, waiting, a, w', b);
    var w1, r := AfterCollect(w, waiting), Collected(w, waiting);
    var left := BudgetAfter(w, waiting, budget);
    match w.ctl.job
    case DumpApply(_, _, s, _, _) => DumpBalances(o, w1, AddUp(s, r), left, t, a, b, WithResult(w.ctl.job, r));
    case ResyncApply(_, _, _, m, _) => ResyncBalances(o, w1, AddMetrics(m, r), left, t, a, b, WithResult(w.ctl.job, r));
    case CleanupTracked(_, _, s, _) => CleanupBalances(o, w1, AddUp(s, r), left, t, a, b, WithResult(w.ctl.job, r));
  }

  lemma TurnBalances(o: Options, w: World, budget: nat, t: Tick, b: Books)
    requires Balances(w, b) && JobInv(w) && w.flow.inflight.None? && !JobTurn(o, w, budget, t).world.failed
    ensures var w' := JobTurn(o, w, budget, t).world; Balances(w', Note(o, w, Maintain(budget, t), w', b))
  {
    match w.ctl.job
    case Idle => IdleBalances(o, w, budget, t, b);
    case DumpCollect(_, _, _, _) => CollectBalances(o, w, budget, t, b);
    case ResyncBuild(_) => BuildBalances(o, w, budget, t, b);
    case _ => ApplyBalances(o, w, budget, t, b);
  }

  lemma StepBalances(o: Options, w: World, a: Action, b: Books)
    requires Balances(w, b) && Inv(o, w) && Enabled(o, w, a) && !Step(o, w, a).failed
    ensures var w' := Step(o, w, a); Balances(w', Note(o, w, a, w', b))
  {
    match a
    case Acks(msgs, fatal) =>
      if !fatal {
        AcksBalance(o, w, msgs, b);
      } else {
        StillBalances(o, w, a, w, b);
      }
    case Expire(now) => ExpireBalances(o, w, now, b);
    case Flush(_, pick, flushNow, s) =>
      FlushIsSeen(o, w, pick, flushNow, s);
      FlushBalances(o, w, a, Step(o, w, a), b);
    case Maintain(budget, t) => TurnBalances(o, w, budget, t, b);
    case _ =>
      StillIsSeen(o, w, a);
      StillBalances(o, w, a, Step(o, w, a), b);
  }

  lemma {:induction false} RunBalances(o: Options, start: World, actions: seq<Action>, w: World, b: Books)
    requires GoodOptions(o) && Initial(start) && Traces(o, start, actions, w, b) && !w.failed
    ensures Inv(o, w) && Balances(w, b)
    decreases |actions|
  {
    if actions == [] {
      InitialInv(o, w);
    } else {
      var n := |actions| - 1;
      var mid, b0 :| Traces(o, start, actions[..n], mid, b0) && Continues(o, mid, actions[n], w)
                     && b == Note(o, mid, actions[n], w, b0);
      RunBalances(o, start, actions[..n], mid, b0);
      StepKeeps(o, mid, actions[n]);
      StepBalances(o, mid, actions[n], b0);
    }
  }

  // -------------------------------------------------------------------
  // What is reported
  // -------------------------------------------------------------------

  /**
   When the loop leaves, the summary of shutdown cleanup says what became of its
   deletes: removed are those the kernel answered with success, noop those answered
   ENOENT or ESRCH, and failed all others, among them every delete of a batch that
   timed out, whatever the kernel did with it.
   */
  lemma ShutdownReportIsTrue(o: Options, start: World, actions: seq<Action>, w: World, b: Books)
    requires GoodOptions(o) && Initial(start) && Traces(o, start, actions, w, b) && !w.failed && Exits(w)
    ensures w.ctl.close.summary.removed == HowMany(b.closed, Deleted, w.kernel.replies, b.lost)
    ensures w.ctl.close.summary.noop == HowMany(b.closed, Noop, w.kernel.replies, b.lost)
    ensures w.ctl.close.summary.failed == HowMany(b.closed, Failed, w.kernel.replies, b.lost)
  {
    RunBalances(o, start, actions, w, b);
  }

  /** The same for the last startup cleanup that came to its end. */
  lemma StartupReportIsTrue(o: Options, start: World, actions: seq<Action>, w: World, b: Books)
    requires GoodOptions(o) && Initial(start) && Traces(o, start, actions, w, b) && !w.failed && b.startup.last.Some?
    ensures var sent, s := b.startup.last.value.sent, w.ctl.report.startup;
            && s.removed == HowMany(sent, Deleted, w.kernel.replies, b.lost)
            && s.noop == HowMany(sent, Noop, w.kernel.replies, b.lost)
            && s.failed == HowMany(sent, Failed, w.kernel.replies, b.lost)
  {
    RunBalances(o, start, actions, w, b);
  }

  /** And for the last resync that finished. */
  lemma ResyncReportIsTrue(o: Options, start: World, actions: seq<Action>, w: World, b: Books)
    requires GoodOptions(o) && Initial(start) && Traces(o, start, actions, w, b) && !w.failed
    ensures w.ctl.report.resync.add == HowMany(b.resync, Added, w.kernel.replies, b.lost)
    ensures w.ctl.report.resync.del == HowMany(b.resync, Deleted, w.kernel.replies, b.lost)
    ensures w.ctl.report.resync.failed == HowMany(b.resync, Failed, w.kernel.replies, b.lost)
  {
    RunBalances(o, start, actions, w, b);
  }
}
