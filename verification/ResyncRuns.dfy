/**
 A resync followed from its snapshot to its end: which keys it brings to the
 snapshot, and which it does not.
 */
module ResyncRuns {
  import opened IpKeys
  import opened AckTracking
  import opened ResyncDiff
  import opened Reactor
  import opened Ownership
  import opened Invariants
  import opened Theorems

  /** The operations of a plan, in the order they are sent. */
  function Diff(p: Plan): seq<RuleOp> {
    Rest(p.target, p.current, 0, 0)
  }

  /** What is fixed when a resync is planned: the keys owned, the plan, and the number of the next message. */
  datatype Pass = Pass(owned: set<IpKey>, plan: Plan, first: nat)

  function PassOf(w: World): Pass {
    Pass(w.flow.owned, w.ctl.plan, w.seqs.issued)
  }

  function FlightOps(f: Flow): seq<RuleOp> {
    if f.inflight.Some? then f.inflight.value.ops else []
  }

  // -------------------------------------------------------------------
  // A list of operations sent in order
  // -------------------------------------------------------------------

  /**
   Of the operations `diff` the first `sent` are out, the last of these in
   flight, and `owned` is what the rest of them achieved: those flagged in `ok`.
   */
  ghost predicate Progress(owned0: set<IpKey>, diff: seq<RuleOp>, ok: seq<bool>, sent: nat, flight: seq<RuleOp>,
                           owned: set<IpKey>)
  {
    && |ok| == |diff| && |flight| <= sent <= |diff|
    && diff[sent - |flight|..sent] == flight
    && owned == Effects(owned0, diff, ok, sent - |flight|)
  }

  lemma {:induction false} EffectsInParts(s: set<IpKey>, ops: seq<RuleOp>, ok: seq<bool>, a: nat, n: nat)
    requires a + n <= |ops| && a + n <= |ok|
    ensures Effects(s, ops, ok, a + n) == Effects(Effects(s, ops, ok, a), ops[a..a + n], ok[a..a + n], n)
  {
    if n > 0 {
      EffectsInParts(s, ops, ok, a, n - 1);
      EffectsSame(Effects(s, ops, ok, a), ops[a..a + n - 1], ok[a..a + n - 1], ops[a..a + n], ok[a..a + n], n - 1);
    }
  }

  lemma {:induction false} NoEffects(s: set<IpKey>, ops: seq<RuleOp>, ok: seq<bool>, n: nat)
    requires n <= |ops| && n <= |ok| && forall i :: 0 <= i < n ==> !ok[i]
    ensures Effects(s, ops, ok, n) == s
  {
    if n > 0 {
      NoEffects(s, ops, ok, n - 1);
    }
  }

  /** The batch in flight is settled by its flags. */
  lemma ProgressCommit(owned0: set<IpKey>, diff: seq<RuleOp>, ok: seq<bool>, sent: nat, flight: seq<RuleOp>,
                       owned: set<IpKey>, owned': set<IpKey>)
    requires Progress(owned0, diff, ok, sent, flight, owned)
    requires owned' == Effects(owned, flight, ok[sent - |flight|..sent], |flight|)
    ensures Progress(owned0, diff, ok, sent, [], owned')
  {
    EffectsInParts(owned0, diff, ok, sent - |flight|, |flight|);
  }

  /** It is given up: its flags are cleared and nothing happens. */
  lemma ProgressLose(owned0: set<IpKey>, diff: seq<RuleOp>, ok: seq<bool>, ok': seq<bool>, sent: nat,
                     flight: seq<RuleOp>, owned: set<IpKey>)
    requires Progress(owned0, diff, ok, sent, flight, owned) && |ok'| == |ok|
    requires forall i :: 0 <= i < sent - |flight| ==> ok'[i] == ok[i]
    requires forall i :: sent - |flight| <= i < sent ==> !ok'[i]
    ensures Progress(owned0, diff, ok', sent, [], owned)
  {
    var a, n := sent - |flight|, |flight|;
    EffectsSame(owned0, diff, ok, diff, ok', a);
    NoEffects(owned, diff[a..a + n], ok'[a..a + n], n);
    ProgressCommit(owned0, diff, ok', sent, flight, owned, owned);
  }

  lemma SplitAt(all: seq<RuleOp>, at: nat, a: seq<RuleOp>, b: seq<RuleOp>)
    requires at <= |all| && all[at..] == a + b
    ensures at + |a| <= |all| && all[at..at + |a|] == a && all[at + |a|..] == b
  {
    assert |all[at..]| == |a| + |b|;
    assert all[at..][..|a|] == a && all[at..][|a|..] == b;
  }

  /** The next operations go out. */
  lemma ProgressSend(owned0: set<IpKey>, diff: seq<RuleOp>, ok: seq<bool>, ok': seq<bool>, sent: nat,
                     owned: set<IpKey>, ops: seq<RuleOp>, rest: seq<RuleOp>)
    requires Progress(owned0, diff, ok, sent, [], owned) && |ok'| == |ok| && diff[sent..] == ops + rest
    requires forall i :: 0 <= i < sent ==> ok'[i] == ok[i]
    ensures Progress(owned0, diff, ok', sent + |ops|, ops, owned) && diff[sent + |ops|..] == rest
  {
    SplitAt(diff, sent, ops, rest);
    EffectsSame(owned0, diff, ok, diff, ok', sent);
  }

  // -------------------------------------------------------------------
  // The course of a resync
  // -------------------------------------------------------------------

  /** Message n was answered with success and its batch was not given up at its deadline. */
  ghost predicate Landed(replies: map<nat, AckStatus>, lost: set<nat>, n: nat) {
    n in replies && replies[n].None? && n !in lost
  }

  /** Which of n operations sent from message `first` on took effect for the daemon: carried out, and heard of in time. */
  ghost function Flags(n: nat, first: nat, replies: map<nat, AckStatus>, lost: set<nat>): (ok: seq<bool>)
    ensures |ok| == n
    ensures forall i :: 0 <= i < n ==> ok[i] == Landed(replies, lost, first + i)
  {
    seq(n, i requires 0 <= i => Landed(replies, lost, first + i))
  }

  /**
   The operations `diff` are sent as messages `first`, `first + 1` and so on; those
   before `issued` are out and answered, and `lost` are the messages of batches
   that timed out.
   */
  ghost predicate Underway(owned0: set<IpKey>, diff: seq<RuleOp>, first: nat, issued: nat,
                           replies: map<nat, AckStatus>, lost: set<nat>, flight: seq<RuleOp>, owned: set<IpKey>)
  {
    && first <= issued && issued - first <= |diff| && Answered(replies, first, issued - first)
    && Progress(owned0, diff, Flags(|diff|, first, replies, lost), issued - first, flight, owned)
    && forall n :: n in lost ==> n < issued - |flight|
  }

  lemma FlagsSlice(total: nat, first: nat, replies: map<nat, AckStatus>, lost: set<nat>, a: nat, n: nat)
    requires a + n <= total && forall m :: m in lost ==> m < first + a
    ensures Flags(total, first, replies, lost)[a..a + n] == ReplyFlags(replies, first + a, n)
  {
    var all, part := Flags(total, first, replies, lost), ReplyFlags(replies, first + a, n);
    forall i: nat | i < n ensures all[a..a + n][i] == part[i] {
      assert all[a + i] == Landed(replies, lost, first + (a + i));
      assert first + (a + i) == first + a + i;
    }
  }

  /** Committing the batch in flight adds its part to what is done. */
  lemma UnderwayCommit(owned0: set<IpKey>, diff: seq<RuleOp>, first: nat, issued: nat, replies: map<nat, AckStatus>,
                       lost: set<nat>, flight: seq<RuleOp>, owned: set<IpKey>, owned': set<IpKey>)
    requires Underway(owned0, diff, first, issued, replies, lost, flight, owned)
    requires owned' == Effects(owned, flight, ReplyFlags(replies, issued - |flight|, |flight|), |flight|)
    ensures Underway(owned0, diff, first, issued, replies, lost, [], owned')
  {
    var sent := issued - first;
    FlagsSlice(|diff|, first, replies, lost, sent - |flight|, |flight|);
    ProgressCommit(owned0, diff, Flags(|diff|, first, replies, lost), sent, flight, owned, owned');
  }

  function Range(a: nat, n: nat): (r: set<nat>)
    ensures forall m :: m in r <==> a <= m < a + n
  {
    if n == 0 then {} else Range(a, n - 1) + {a + n - 1}
  }

  /** The last n messages issued. */
  function LastMessages(issued: nat, n: nat): set<nat> {
    if n <= issued then Range(issued - n, n) else {}
  }

  /** A batch that times out leaves ownership alone, and its messages are lost. */
  lemma UnderwayLoses(owned0: set<IpKey>, diff: seq<RuleOp>, first: nat, issued: nat, replies: map<nat, AckStatus>,
                      lost: set<nat>, flight: seq<RuleOp>, owned: set<IpKey>)
    requires Underway(owned0, diff, first, issued, replies, lost, flight, owned)
    ensures Underway(owned0, diff, first, issued, replies, lost + LastMessages(issued, |flight|), [], owned)
  {
    var lost' := lost + LastMessages(issued, |flight|);
    var ok, ok' := Flags(|diff|, first, replies, lost), Flags(|diff|, first, replies, lost');
    var sent, n := issued - first, |flight|;
    forall i | 0 <= i < sent ensures ok'[i] == (ok[i] && i < sent - n) {
      assert first + i in LastMessages(issued, n) <==> i >= sent - n;
    }
    ProgressLose(owned0, diff, ok, ok', sent, flight, owned);
  }

  ghost predicate KeepsAnswers(before: map<nat, AckStatus>, after: map<nat, AckStatus>, n: nat) {
    forall m: nat :: m < n && m in before ==> m in after && after[m] == before[m]
  }

  /** Answers already given do not change. */
  lemma SameFlagsSoFar(total: nat, first: nat, replies: map<nat, AckStatus>, replies': map<nat, AckStatus>,
                       lost: set<nat>, sent: nat)
    requires sent <= total && Answered(replies, first, sent) && KeepsAnswers(replies, replies', first + sent)
    ensures forall i :: 0 <= i < sent ==> Flags(total, first, replies', lost)[i] == Flags(total, first, replies, lost)[i]
  {
    forall i | 0 <= i < sent ensures Flags(total, first, replies', lost)[i] == Flags(total, first, replies, lost)[i] {
      assert first + i in replies;
    }
  }

  lemma AnsweredOn(replies: map<nat, AckStatus>, replies': map<nat, AckStatus>, first: nat, sent: nat, n: nat)
    requires Answered(replies, first, sent) && KeepsAnswers(replies, replies', first + sent)
    requires Answered(replies', first + sent, n)
    ensures Answered(replies', first, sent + n)
  {
  }

  /** The next operations go out and are answered. */
  lemma UnderwaySends(owned0: set<IpKey>, diff: seq<RuleOp>, first: nat, issued: nat, replies: map<nat, AckStatus>,
                      replies': map<nat, AckStatus>, lost: set<nat>, owned: set<IpKey>, ops: seq<RuleOp>,
                      rest: seq<RuleOp>)
    requires Underway(owned0, diff, first, issued, replies, lost, [], owned) && diff[issued - first..] == ops + rest
    requires Answered(replies', issued, |ops|) && KeepsAnswers(replies, replies', issued)
    ensures Underway(owned0, diff, first, issued + |ops|, replies', lost, ops, owned)
    ensures diff[issued + |ops| - first..] == rest
  {
    var sent := issued - first;
    SameFlagsSoFar(|diff|, first, replies, replies', lost, sent);
    AnsweredOn(replies, replies', first, sent, |ops|);
    ProgressSend(owned0, diff, Flags(|diff|, first, replies, lost), Flags(|diff|, first, replies', lost), sent, owned,
                 ops, rest);
  }

  /**
   The m-th operation of the plan is message `first + m`: the operations sent are
   a prefix, those in flight its last part, and ownership is what the rest of
   that prefix achieved.
   */
  ghost predicate Course(p: Pass, f: Flow, c: Control, issued: nat, replies: map<nat, AckStatus>, lost: set<nat>) {
    && c.job.ResyncApply? && c.plan == p.plan
    && Underway(p.owned, Diff(p.plan), p.first, issued, replies, lost, FlightOps(f), f.owned)
    && Diff(p.plan)[issued - p.first..] == Rest(p.plan.target, p.plan.current, c.job.targetIdx, c.job.currentIdx)
  }

  ghost predicate OnCourse(p: Pass, w: World, lost: set<nat>) {
    Course(p, w.flow, w.ctl, w.seqs.issued, w.kernel.replies, lost)
  }

  lemma CourseCommit(p: Pass, f: Flow, f': Flow, c: Control, issued: nat, replies: map<nat, AckStatus>, lost: set<nat>)
    requires Course(p, f, c, issued, replies, lost) && f'.inflight.None?
    requires var ops := FlightOps(f);
             f'.owned == Effects(f.owned, ops, ReplyFlags(replies, issued - |ops|, |ops|), |ops|)
    ensures Course(p, f', c, issued, replies, lost)
  {
    UnderwayCommit(p.owned, Diff(p.plan), p.first, issued, replies, lost, FlightOps(f), f.owned, f'.owned);
  }

  lemma CourseLoses(p: Pass, f: Flow, f': Flow, c: Control, c': Control, issued: nat, replies: map<nat, AckStatus>,
                    lost: set<nat>)
    requires Course(p, f, c, issued, replies, lost) && f'.inflight.None? && f'.owned == f.owned
    requires c'.job == c.job && c'.plan == c.plan
    ensures Course(p, f', c', issued, replies, lost + LastMessages(issued, |FlightOps(f)|))
  {
    UnderwayLoses(p.owned, Diff(p.plan), p.first, issued, replies, lost, FlightOps(f), f.owned);
  }

  /** Only these parts of the state are on the course. */
  lemma CourseSame(p: Pass, f: Flow, c: Control, f': Flow, c': Control, issued: nat, replies: map<nat, AckStatus>,
                   lost: set<nat>)
    requires Course(p, f, c, issued, replies, lost)
    requires FlightOps(f') == FlightOps(f) && f'.owned == f.owned && c'.job == c.job && c'.plan == c.plan
    ensures Course(p, f', c', issued, replies, lost)
  {
  }

  /** Acknowledgements either leave the batch in flight or commit it by the kernel's answers. */
  ghost predicate Settles(f: Flow, f': Flow, issued: nat, replies: map<nat, AckStatus>)
    requires |FlightOps(f)| <= issued
  {
    var ops := FlightOps(f);
    || (FlightOps(f') == ops && f'.owned == f.owned)
    || (f'.inflight.None? && f'.owned == Effects(f.owned, ops, ReplyFlags(replies, issued - |ops|, |ops|), |ops|))
  }

  lemma AcksSettle(w: World, msgs: seq<AckMsg>)
    requires BatchInv(w) && w.flow.inflight.Some? && forall i :: 0 <= i < |msgs| ==> Genuine(w, msgs[i])
    ensures Settles(w.flow, AcksStep(w, msgs, false).flow, w.seqs.issued, w.kernel.replies)
  {
    var b := w.flow.inflight.value;
    var t := ReceiveAll(b.tracker, b.firstSeq, |b.ops|, msgs);
    if t.pending == 0 {
      DrainKeepsGenuine(w, b, msgs);
      PendingCountsUnseen(b.tracker, b.firstSeq, |b.ops|, msgs);
      FinishedFlags(w, b.(tracker := t));
    }
  }

  lemma CourseSettles(p: Pass, f: Flow, f': Flow, c: Control, issued: nat, replies: map<nat, AckStatus>, lost: set<nat>)
    requires Course(p, f, c, issued, replies, lost) && Settles(f, f', issued, replies)
    ensures Course(p, f', c, issued, replies, lost)
  {
    if FlightOps(f') == FlightOps(f) && f'.owned == f.owned {
      CourseSame(p, f, c, f', c, issued, replies, lost);
    } else {
      CourseCommit(p, f, f', c, issued, replies, lost);
    }
  }

  lemma CourseAcks(o: Options, p: Pass, w: World, msgs: seq<AckMsg>, lost: set<nat>)
    requires OnCourse(p, w, lost) && BatchInv(w) && Enabled(o, w, Acks(msgs, false))
    ensures OnCourse(p, AcksStep(w, msgs, false), lost)
  {
    if w.flow.inflight.Some? {
      AcksSettle(w, msgs);
      CourseSettles(p, w.flow, AcksStep(w, msgs, false).flow, w.ctl, w.seqs.issued, w.kernel.replies, lost);
    }
  }

  /** Sending the next chunk extends the prefix that is sent. */
  lemma CourseGrows(p: Pass, f: Flow, c: Control, f': Flow, c': Control, chunk: Chunk, issued: nat,
                    replies: map<nat, AckStatus>, replies': map<nat, AckStatus>, lost: set<nat>)
    requires Course(p, f, c, issued, replies, lost) && f.inflight.None?
    requires chunk.ops + Rest(p.plan.target, p.plan.current, chunk.targetIdx, chunk.currentIdx)
             == Rest(p.plan.target, p.plan.current, c.job.targetIdx, c.job.currentIdx)
    requires c'.job.ResyncApply? && c'.plan == p.plan
    requires c'.job.targetIdx == chunk.targetIdx && c'.job.currentIdx == chunk.currentIdx
    requires FlightOps(f') == chunk.ops && f'.owned == f.owned
    requires Answered(replies', issued, |chunk.ops|) && KeepsAnswers(replies, replies', issued)
    ensures Course(p, f', c', issued + |chunk.ops|, replies', lost)
  {
    UnderwaySends(p.owned, Diff(p.plan), p.first, issued, replies, replies', lost, f.owned, chunk.ops,
                  Rest(p.plan.target, p.plan.current, chunk.targetIdx, chunk.currentIdx));
  }

  /** From w to w' the chunk goes out and the cursors move to its end. */
  ghost predicate Sends(w: World, w': World, c: Chunk) {
    && w.ctl.job.ResyncApply? && w'.ctl.job.ResyncApply? && w'.ctl.plan == w.ctl.plan
    && c.ops + Rest(w.ctl.plan.target, w.ctl.plan.current, c.targetIdx, c.currentIdx)
       == Rest(w.ctl.plan.target, w.ctl.plan.current, w.ctl.job.targetIdx, w.ctl.job.currentIdx)
    && w'.ctl.job.targetIdx == c.targetIdx && w'.ctl.job.currentIdx == c.currentIdx
    && FlightOps(w'.flow) == c.ops && w'.flow.owned == w.flow.owned
    && w'.seqs.issued == w.seqs.issued + |c.ops|
    && Answered(w'.kernel.replies, w.seqs.issued, |c.ops|)
    && KeepsAnswers(w.kernel.replies, w'.kernel.replies, w.seqs.issued)
  }

  lemma SendingTurn(o: Options, w: World, budget: nat, t: Tick) returns (c: Chunk)
    requires w.ctl.job.ResyncApply? && w.flow.inflight.None? && CanProceed(w, w.ctl.job.waiting)
    requires var w' := ResyncTurn(o, w, budget, t).world; w'.ctl.job.ResyncApply? && !w'.failed
    ensures Sends(w, ResyncTurn(o, w, budget, t).world, c)
    ensures ResyncTurn(o, w, budget, t).world.kernel
            == KernelRun(w.kernel, c.ops, t.send.refuse, w.seqs.issued, |c.ops|)
  {
    var j, plan := w.ctl.job, w.ctl.plan;
    var room := ChunkRoom(o, BudgetAfter(w, j.waiting, budget));
    c := NextChunk(plan.target, plan.current, j.targetIdx, j.currentIdx, room);
    ChunkIsPrefix(plan.target, plan.current, j.targetIdx, j.currentIdx, room);
    RunAnswers(w.kernel, c.ops, t.send.refuse, w.seqs.issued, |c.ops|);
  }

  lemma CourseSent(p: Pass, w: World, w': World, c: Chunk, lost: set<nat>)
    requires OnCourse(p, w, lost) && w.flow.inflight.None? && Sends(w, w', c)
    ensures OnCourse(p, w', lost)
  {
    CourseGrows(p, w.flow, w.ctl, w'.flow, w'.ctl, c, w.seqs.issued, w.kernel.replies, w'.kernel.replies, lost);
  }

  lemma CourseTurn(o: Options, p: Pass, w: World, budget: nat, t: Tick, lost: set<nat>)
    requires OnCourse(p, w, lost) && w.flow.inflight.None?
    requires var w' := ResyncTurn(o, w, budget, t).world; w'.ctl.job.ResyncApply? && !w'.failed
    ensures OnCourse(p, ResyncTurn(o, w, budget, t).world, lost)
  {
    if CanProceed(w, w.ctl.job.waiting) {
      var c := SendingTurn(o, w, budget, t);
      CourseSent(p, w, ResyncTurn(o, w, budget, t).world, c, lost);
    }
  }

  /** Steps that touch none of what the course is about. */
  lemma CourseElsewhere(o: Options, p: Pass, w: World, a: Action, lost: set<nat>)
    requires OnCourse(p, w, lost) && Enabled(o, w, a) && (a.Route? || a.Signal? || a.Foreign?)
    ensures OnCourse(p, Step(o, w, a), lost)
  {
    var w' := Step(o, w, a);
    CourseSame(p, w.flow, w.ctl, w'.flow, w'.ctl, w.seqs.issued, w.kernel.replies, lost);
  }

  lemma CourseExpires(p: Pass, w: World, lost: set<nat>)
    requires OnCourse(p, w, lost) && w.flow.inflight.Some?
    ensures OnCourse(p, Timeout(w), lost + LastMessages(w.seqs.issued, |FlightOps(w.flow)|))
  {
    var w' := Timeout(w);
    CourseLoses(p, w.flow, w'.flow, w.ctl, w'.ctl, w.seqs.issued, w.kernel.replies, lost);
  }

  /** The messages lost by a step. */
  function LostBy(w: World, a: Action): set<nat> {
    if a.Expire? then LastMessages(w.seqs.issued, |FlightOps(w.flow)|) else {}
  }

  lemma CourseStep(o: Options, p: Pass, w: World, a: Action, lost: set<nat>)
    requires OnCourse(p, w, lost) && BatchInv(w) && Enabled(o, w, a) && !a.Flush?
    requires var w' := Step(o, w, a); w'.ctl.job.ResyncApply? && !w'.failed
    ensures OnCourse(p, Step(o, w, a), lost + LostBy(w, a))
  {
    assert !a.Expire? ==> lost + LostBy(w, a) == lost;
    match a
    case Acks(msgs, fatal) =>
      if !fatal || w.flow.inflight.None? {
        CourseAcks(o, p, w, msgs, lost);
      }
    case Maintain(budget, t) => CourseTurn(o, p, w, budget, t, lost);
    case Expire(_) => CourseExpires(p, w, lost);
    case _ => CourseElsewhere(o, p, w, a, lost);
  }

  /** A stretch of a run in one resync with no pending batch sent; `lost` are the messages of batches that timed out. */
  ghost predicate Undisturbed(o: Options, from: World, actions: seq<Action>, w: World, lost: set<nat>)
    decreases |actions|
  {
    && w.ctl.job.ResyncApply? && !w.failed
    && if actions == [] then w == from && lost == {}
       else
         var n := |actions| - 1;
         exists mid, lost0 :: Undisturbed(o, from, actions[..n], mid, lost0) && Continues(o, mid, actions[n], w)
                              && lost == lost0 + LostBy(mid, actions[n])
  }

  ghost predicate Continues(o: Options, mid: World, a: Action, w: World) {
    Enabled(o, mid, a) && !a.Flush? && w == Step(o, mid, a)
  }

  lemma {:induction false} StaysOnCourse(o: Options, p: Pass, from: World, actions: seq<Action>, w: World, lost: set<nat>)
    requires GoodOptions(o) && Inv(o, from) && OnCourse(p, from, {}) && Undisturbed(o, from, actions, w, lost)
    ensures Inv(o, w) && OnCourse(p, w, lost)
    decreases |actions|
  {
    if actions != [] {
      var n := |actions| - 1;
      var mid, lost0 :| Undisturbed(o, from, actions[..n], mid, lost0) && Continues(o, mid, actions[n], w)
                        && lost == lost0 + LostBy(mid, actions[n]);
      StaysOnCourse(o, p, from, actions[..n], mid, lost0);
      CourseStep(o, p, mid, actions[n], lost0);
      StepKeeps(o, mid, actions[n]);
    }
  }

  /** The kernel turned down the operation planned for this key: an error, or a no-op answer. */
  ghost predicate TurnedDown(p: Pass, replies: map<nat, AckStatus>, k: IpKey) {
    exists m :: 0 <= m < |Diff(p.plan)| && Diff(p.plan)[m].key == k
                && p.first + m in replies && replies[p.first + m].Some?
  }

  /** The batch of the operation planned for this key timed out. */
  ghost predicate TimedOut(p: Pass, lost: set<nat>, k: IpKey) {
    exists m :: 0 <= m < |Diff(p.plan)| && Diff(p.plan)[m].key == k && p.first + m in lost
  }

  lemma {:induction false} EffectsAt(s: set<IpKey>, ops: seq<RuleOp>, ok: seq<bool>, n: nat, m: nat)
    requires m < n <= |ops| == |ok| && Increasing(ops)
    ensures ops[m].key in Effects(s, ops, ok, n) <==> if ok[m] then ops[m].action.Add? else ops[m].key in s
  {
    if m < n - 1 {
      EffectsAt(s, ops, ok, n - 1, m);
    } else {
      EffectsElsewhere(s, ops, ok, m, ops[m].key);
    }
  }

  lemma OnlyOne(ops: seq<RuleOp>, i: nat, m: nat)
    requires Increasing(ops) && i < |ops| && m < |ops| && ops[i].key == ops[m].key
    ensures i == m
  {
    assert !KeyLess(ops[m].key, ops[m].key);
  }

  /** The flag of a key's one operation says whether it was turned down or timed out. */
  lemma FlagOfKey(p: Pass, replies: map<nat, AckStatus>, lost: set<nat>, k: IpKey, m: nat)
    requires Increasing(Diff(p.plan)) && m < |Diff(p.plan)| && Diff(p.plan)[m].key == k && p.first + m in replies
    ensures TurnedDown(p, replies, k) <==> replies[p.first + m].Some?
    ensures TimedOut(p, lost, k) <==> p.first + m in lost
    ensures Flags(|Diff(p.plan)|, p.first, replies, lost)[m] <==> !TurnedDown(p, replies, k) && !TimedOut(p, lost, k)
  {
    var diff := Diff(p.plan);
    if TurnedDown(p, replies, k) {
      var i :| 0 <= i < |diff| && diff[i].key == k && p.first + i in replies && replies[p.first + i].Some?;
      OnlyOne(diff, i, m);
    }
    if TimedOut(p, lost, k) {
      var i :| 0 <= i < |diff| && diff[i].key == k && p.first + i in lost;
      OnlyOne(diff, i, m);
    }
  }

  /** The one operation planned for a key, if any, is the one that takes it from the start to the target. */
  lemma PlannedOp(plan: Plan, k: IpKey)
    requires Sorted(plan.target) && Sorted(plan.current)
    ensures Increasing(Diff(plan))
    ensures RuleOp(k, Add) in Diff(plan) <==> k in KeySet(plan.target) && k !in KeySet(plan.current)
    ensures RuleOp(k, Delete) in Diff(plan) <==> k in KeySet(plan.current) && k !in KeySet(plan.target)
  {
    RestIncreases(plan.target, plan.current, 0, 0);
    TailOfAll(plan.target, k);
    TailOfAll(plan.current, k);
    RestIsDifference(plan.target, plan.current, 0, 0, RuleOp(k, Add));
    RestIsDifference(plan.target, plan.current, 0, 0, RuleOp(k, Delete));
  }

  /** Carried out in part, the plan misses the target exactly on the keys whose operation was turned down or timed out. */
  lemma PartlyDone(p: Pass, replies: map<nat, AckStatus>, lost: set<nat>, owned: set<IpKey>, k: IpKey)
    requires Sorted(p.plan.target) && Sorted(p.plan.current) && KeySet(p.plan.current) == p.owned
    requires Answered(replies, p.first, |Diff(p.plan)|)
    requires var n := |Diff(p.plan)|; owned == Effects(p.owned, Diff(p.plan), Flags(n, p.first, replies, lost), n)
    ensures (k in owned <==> k in KeySet(p.plan.target)) <==> !TurnedDown(p, replies, k) && !TimedOut(p, lost, k)
  {
    var diff := Diff(p.plan);
    var ok := Flags(|diff|, p.first, replies, lost);
    PlannedOp(p.plan, k);
    if m :| 0 <= m < |diff| && diff[m].key == k {
      FlagOfKey(p, replies, lost, k, m);
      DoneAtIndex(p.owned, diff, ok, KeySet(p.plan.target), k, m);
    } else {
      DoneAt(p.owned, diff, ok, KeySet(p.plan.target), k);
    }
  }

  /** Without an operation a key stays, and the start agrees with the target. */
  lemma DoneAt(owned: set<IpKey>, diff: seq<RuleOp>, ok: seq<bool>, target: set<IpKey>, k: IpKey)
    requires |ok| == |diff|
    requires RuleOp(k, Add) in diff <==> k in target && k !in owned
    requires RuleOp(k, Delete) in diff <==> k in owned && k !in target
    requires forall m :: 0 <= m < |diff| ==> diff[m].key != k
    ensures k in Effects(owned, diff, ok, |diff|) <==> k in target
  {
    EffectsElsewhere(owned, diff, ok, |diff|, k);
  }

  lemma DoneAtIndex(owned: set<IpKey>, diff: seq<RuleOp>, ok: seq<bool>, target: set<IpKey>, k: IpKey, m: nat)
    requires |ok| == |diff| && Increasing(diff) && m < |diff| && diff[m].key == k
    requires RuleOp(k, Add) in diff <==> k in target && k !in owned
    requires RuleOp(k, Delete) in diff <==> k in owned && k !in target
    ensures (k in Effects(owned, diff, ok, |diff|) <==> k in target) <==> ok[m]
  {
    EffectsAt(owned, diff, ok, |diff|, m);
    assert diff[m] in diff;
    if diff[m].action.Add? {
      assert diff[m] == RuleOp(k, Add);
    } else {
      assert diff[m] == RuleOp(k, Delete);
    }
  }

  /** The snapshot is taken, the plan is made, and nothing of it has been sent. */
  lemma CourseStarts(o: Options, b: World, budget: nat, t: Tick)
    requires Running(o, b) && b.ctl.job.ResyncBuild? && b.flow.inflight.None? && budget > 0 && t.snapshot.Addresses?
    ensures var from := BuildTurn(o, b, budget, t).world;
            var plan := from.ctl.plan;
            && Inv(o, from) && OnCourse(PassOf(from), from, {}) && Sorted(plan.target) && Sorted(plan.current)
            && KeySet(plan.target) == KeySet(t.snapshot.keys) && KeySet(plan.current) == from.flow.owned
  {
    var from := BuildTurn(o, b, budget, t).world;
    ReachableInv(o, b);
    StepKeeps(o, b, Maintain(budget, t));
    SortKeysLists(KeySet(t.snapshot.keys));
    SortKeysLists(b.flow.owned);
    assert Diff(from.ctl.plan)[0..] == Diff(from.ctl.plan);
  }

  /** The resync ends only after its whole plan was sent and answered. */
  lemma CourseEnds(o: Options, p: Pass, w: World, budget: nat, t: Tick, lost: set<nat>)
    requires OnCourse(p, w, lost) && w.flow.inflight.None?
    requires var w' := ResyncTurn(o, w, budget, t).world; w'.ctl.job.Idle? && !w'.failed
    ensures Answered(w.kernel.replies, p.first, |Diff(p.plan)|) && w.seqs.issued == p.first + |Diff(p.plan)|
    ensures ResyncTurn(o, w, budget, t).world.flow.owned
            == Effects(p.owned, Diff(p.plan), Flags(|Diff(p.plan)|, p.first, w.kernel.replies, lost), |Diff(p.plan)|)
  {
    var j := w.ctl.job;
    var room := ChunkRoom(o, BudgetAfter(w, j.waiting, budget));
    EmptyChunkMeansDone(p.plan.target, p.plan.current, j.targetIdx, j.currentIdx, room);
  }

  /** A resync of these stages: the turn that plans it, an undisturbed stretch, and the turn that ends it. */
  ghost predicate WholeResync(o: Options, b: World, budget0: nat, t0: Tick, actions: seq<Action>, w: World,
                              lost: set<nat>, budget: nat, t: Tick)
  {
    && Running(o, b) && b.ctl.job.ResyncBuild? && b.flow.inflight.None? && budget0 > 0 && t0.snapshot.Addresses?
    && Undisturbed(o, BuildTurn(o, b, budget0, t0).world, actions, w, lost) && w.flow.inflight.None?
    && ResyncTurn(o, w, budget, t).world.ctl.job.Idle? && !ResyncTurn(o, w, budget, t).world.failed
  }

  /**
   A resync that runs from snapshot to end with no pending batch in between
   brings a key to the snapshot if and only if the kernel did not turn down the
   operation planned for it and the batch of that operation did not time out.
   */
  lemma UndisturbedResyncIsExact(o: Options, b: World, budget0: nat, t0: Tick, actions: seq<Action>, w: World,
                                 lost: set<nat>, budget: nat, t: Tick, k: IpKey)
    requires WholeResync(o, b, budget0, t0, actions, w, lost, budget, t)
    ensures var p := PassOf(BuildTurn(o, b, budget0, t0).world);
            (k in ResyncTurn(o, w, budget, t).world.flow.owned <==> k in KeySet(t0.snapshot.keys))
            <==> !TurnedDown(p, w.kernel.replies, k) && !TimedOut(p, lost, k)
  {
    CourseStarts(o, b, budget0, t0);
    ExactFrom(o, BuildTurn(o, b, budget0, t0).world, actions, w, lost, budget, t, k);
  }

  lemma ExactFrom(o: Options, from: World, actions: seq<Action>, w: World, lost: set<nat>, budget: nat, t: Tick, k: IpKey)
    requires GoodOptions(o) && Inv(o, from) && OnCourse(PassOf(from), from, {})
    requires Undisturbed(o, from, actions, w, lost) && w.flow.inflight.None?
    requires Sorted(from.ctl.plan.target) && Sorted(from.ctl.plan.current)
    requires KeySet(from.ctl.plan.current) == from.flow.owned
    requires var w' := ResyncTurn(o, w, budget, t).world; w'.ctl.job.Idle? && !w'.failed
    ensures (k in ResyncTurn(o, w, budget, t).world.flow.owned <==> k in KeySet(from.ctl.plan.target))
            <==> !TurnedDown(PassOf(from), w.kernel.replies, k) && !TimedOut(PassOf(from), lost, k)
  {
    StaysOnCourse(o, PassOf(from), from, actions, w, lost);
    EndsExact(o, PassOf(from), w, lost, budget, t, k);
  }

  lemma EndsExact(o: Options, p: Pass, w: World, lost: set<nat>, budget: nat, t: Tick, k: IpKey)
    requires OnCourse(p, w, lost) && w.flow.inflight.None?
    requires Sorted(p.plan.target) && Sorted(p.plan.current) && KeySet(p.plan.current) == p.owned
    requires var w' := ResyncTurn(o, w, budget, t).world; w'.ctl.job.Idle? && !w'.failed
    ensures (k in ResyncTurn(o, w, budget, t).world.flow.owned <==> k in KeySet(p.plan.target))
            <==> !TurnedDown(p, w.kernel.replies, k) && !TimedOut(p, lost, k)
  {
    CourseEnds(o, p, w, budget, t, lost);
    PartlyDone(p, w.kernel.replies, lost, ResyncTurn(o, w, budget, t).world.flow.owned, k);
  }

  /** In particular, with every operation carried out and heard of in time, the daemon ends up owning exactly the snapshot. */
  lemma GrantedResyncReachesSnapshot(o: Options, b: World, budget0: nat, t0: Tick, actions: seq<Action>, w: World,
                                     budget: nat, t: Tick)
    requires WholeResync(o, b, budget0, t0, actions, w, {}, budget, t)
    requires forall n :: n in w.kernel.replies && n >= BuildTurn(o, b, budget0, t0).world.seqs.issued ==>
                           w.kernel.replies[n].None?
    ensures ResyncTurn(o, w, budget, t).world.flow.owned == KeySet(t0.snapshot.keys)
  {
    forall k ensures k in ResyncTurn(o, w, budget, t).world.flow.owned <==> k in KeySet(t0.snapshot.keys) {
      UndisturbedResyncIsExact(o, b, budget0, t0, actions, w, {}, budget, t, k);
    }
  }
}
