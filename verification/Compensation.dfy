/**
 What a resync can repair: an address on the interfaces that the daemon does not
 own becomes owned exactly if no rule for it is installed.
 */
module Compensation {
  import opened IpKeys
  import opened AckTracking
  import opened ResyncDiff
  import opened Reactor
  import opened Ownership
  import opened Invariants
  import opened Theorems
  import opened ResyncRuns

  /** Nobody else touches k, and the kernel refuses nothing of its own accord. */
  ghost predicate Willing(a: Action, k: IpKey) {
    && (a.Foreign? ==> a.key != k)
    && (a.Maintain? ==> forall i :: a.tick.send.refuse(i) == None)
  }

  lemma {:induction false} KernelElsewhere(kernel: Kernel, ops: seq<RuleOp>, refuse: nat -> Option<int>, first: nat,
                                           n: nat, k: IpKey)
    requires n <= |ops| && forall i :: 0 <= i < n ==> ops[i].key != k
    ensures k in KernelRun(kernel, ops, refuse, first, n).installed <==> k in kernel.installed
  {
    if n > 0 {
      KernelElsewhere(kernel, ops, refuse, first, n - 1, k);
    }
  }

  /** The one operation on k in a batch is an add: it is answered EEXIST exactly if a rule was there. */
  lemma {:induction false} AddAnswer(kernel: Kernel, ops: seq<RuleOp>, refuse: nat -> Option<int>, first: nat, n: nat,
                                     at: nat, k: IpKey)
    requires at < n <= |ops| && Increasing(ops) && ops[at] == RuleOp(k, Add) && forall i :: refuse(i) == None
    ensures var after := KernelRun(kernel, ops, refuse, first, n);
            first + at in after.replies && (after.replies[first + at].Some? <==> k in kernel.installed)
  {
    if n == at + 1 {
      KernelElsewhere(kernel, ops, refuse, first, at, k);
    } else {
      AddAnswer(kernel, ops, refuse, first, n - 1, at, k);
    }
  }

  /** The add of k is message n: until it is sent its answer can still be told from the kernel. */
  ghost predicate AnswerAt(kernel: Kernel, issued: nat, k: IpKey, n: nat, there: bool) {
    if n < issued then n in kernel.replies && (kernel.replies[n].Some? <==> there)
    else k in kernel.installed <==> there
  }

  ghost predicate AnswerIs(p: Pass, w: World, k: IpKey, m: nat, there: bool) {
    AnswerAt(w.kernel, w.seqs.issued, k, p.first + m, there)
  }

  /** A chunk that is part of an increasing list goes out, its first message being `first + sent`. */
  lemma ChunkAnswers(kernel: Kernel, diff: seq<RuleOp>, ops: seq<RuleOp>, first: nat, sent: nat,
                     refuse: nat -> Option<int>, k: IpKey, m: nat, there: bool)
    requires AnswerAt(kernel, first + sent, k, first + m, there) && Increasing(diff)
    requires m < |diff| && diff[m] == RuleOp(k, Add) && forall i :: refuse(i) == None
    requires sent + |ops| <= |diff| && ops == diff[sent..sent + |ops|]
    ensures AnswerAt(KernelRun(kernel, ops, refuse, first + sent, |ops|), first + sent + |ops|, k, first + m, there)
  {
    RunAnswers(kernel, ops, refuse, first + sent, |ops|);
    if sent <= m < sent + |ops| {
      AddAnswer(kernel, ops, refuse, first + sent, |ops|, m - sent, k);
    } else if m >= sent + |ops| {
      forall i | 0 <= i < |ops| ensures ops[i].key != k {
        assert KeyLess(diff[sent + i].key, diff[m].key);
      }
      KernelElsewhere(kernel, ops, refuse, first + sent, |ops|, k);
    }
  }

  lemma SendAnswers(kernel: Kernel, diff: seq<RuleOp>, ops: seq<RuleOp>, rest: seq<RuleOp>, first: nat, sent: nat,
                    refuse: nat -> Option<int>, k: IpKey, m: nat, there: bool)
    requires AnswerAt(kernel, first + sent, k, first + m, there) && Increasing(diff)
    requires m < |diff| && diff[m] == RuleOp(k, Add) && forall i :: refuse(i) == None
    requires sent <= |diff| && diff[sent..] == ops + rest
    ensures AnswerAt(KernelRun(kernel, ops, refuse, first + sent, |ops|), first + sent + |ops|, k, first + m, there)
  {
    SplitAt(diff, sent, ops, rest);
    ChunkAnswers(kernel, diff, ops, first, sent, refuse, k, m, there);
  }

  lemma SentAnswers(p: Pass, diff: seq<RuleOp>, w: World, w': World, c: Chunk, rest: seq<RuleOp>,
                    refuse: nat -> Option<int>, k: IpKey, m: nat, there: bool)
    requires p.first <= w.seqs.issued && w.seqs.issued - p.first <= |diff|
    requires diff[w.seqs.issued - p.first..] == c.ops + rest
    requires w'.kernel == KernelRun(w.kernel, c.ops, refuse, w.seqs.issued, |c.ops|)
    requires w'.seqs.issued == w.seqs.issued + |c.ops| && AnswerIs(p, w, k, m, there) && Increasing(diff)
    requires m < |diff| && diff[m] == RuleOp(k, Add) && forall i :: refuse(i) == None
    ensures AnswerIs(p, w', k, m, there)
  {
    SendAnswers(w.kernel, diff, c.ops, rest, p.first, w.seqs.issued - p.first, refuse, k, m, there);
  }

  lemma TurnAnswers(o: Options, p: Pass, w: World, lost: set<nat>, budget: nat, t: Tick, k: IpKey, m: nat, there: bool)
    requires OnCourse(p, w, lost) && w.flow.inflight.None? && AnswerIs(p, w, k, m, there) && Increasing(Diff(p.plan))
    requires m < |Diff(p.plan)| && Diff(p.plan)[m] == RuleOp(k, Add) && forall i :: t.send.refuse(i) == None
    requires var w' := ResyncTurn(o, w, budget, t).world; w'.ctl.job.ResyncApply? && !w'.failed
    ensures AnswerIs(p, ResyncTurn(o, w, budget, t).world, k, m, there)
  {
    if CanProceed(w, w.ctl.job.waiting) {
      var c := SendingTurn(o, w, budget, t);
      SentAnswers(p, Diff(p.plan), w, ResyncTurn(o, w, budget, t).world, c,
                  Rest(p.plan.target, p.plan.current, c.targetIdx, c.currentIdx), t.send.refuse, k, m, there);
    }
  }

  /** Only sending and other programs change what the answer can be told from. */
  lemma OtherAnswers(o: Options, p: Pass, w: World, a: Action, k: IpKey, m: nat, there: bool)
    requires AnswerIs(p, w, k, m, there) && Enabled(o, w, a) && Willing(a, k) && !a.Flush? && !a.Maintain?
    ensures AnswerIs(p, Step(o, w, a), k, m, there)
  {
    var w' := Step(o, w, a);
    assert w'.seqs == w.seqs && w'.kernel.replies == w.kernel.replies;
    assert k in w'.kernel.installed <==> k in w.kernel.installed;
  }

  lemma StepAnswers(o: Options, p: Pass, w: World, lost: set<nat>, a: Action, k: IpKey, m: nat, there: bool)
    requires OnCourse(p, w, lost) && AnswerIs(p, w, k, m, there) && Increasing(Diff(p.plan)) && Enabled(o, w, a)
    requires m < |Diff(p.plan)| && Diff(p.plan)[m] == RuleOp(k, Add)
    requires Willing(a, k) && !a.Flush?
    requires var w' := Step(o, w, a); w'.ctl.job.ResyncApply? && !w'.failed
    ensures AnswerIs(p, Step(o, w, a), k, m, there)
  {
    match a
    case Maintain(budget, t) => TurnAnswers(o, p, w, lost, budget, t, k, m, there);
    case _ => OtherAnswers(o, p, w, a, k, m, there);
  }

  lemma {:induction false} RunAnswersAdd(o: Options, p: Pass, from: World, actions: seq<Action>, w: World,
                                         lost: set<nat>, k: IpKey, m: nat, there: bool)
    requires GoodOptions(o) && Inv(o, from) && OnCourse(p, from, {}) && Undisturbed(o, from, actions, w, lost)
    requires Increasing(Diff(p.plan)) && m < |Diff(p.plan)| && Diff(p.plan)[m] == RuleOp(k, Add)
    requires AnswerIs(p, from, k, m, there) && forall i :: 0 <= i < |actions| ==> Willing(actions[i], k)
    ensures OnCourse(p, w, lost) && AnswerIs(p, w, k, m, there)
    decreases |actions|
  {
    if actions != [] {
      var n := |actions| - 1;
      var mid, lost0 :| Undisturbed(o, from, actions[..n], mid, lost0) && Continues(o, mid, actions[n], w)
                        && lost == lost0 + LostBy(mid, actions[n]);
      StaysOnCourse(o, p, from, actions, w, lost);
      RunAnswersAdd(o, p, from, actions[..n], mid, lost0, k, m, there);
      StepAnswers(o, p, mid, lost0, actions[n], k, m, there);
    }
  }

  /** An address of the snapshot that is not owned has its add in the plan. */
  lemma AddIsPlanned(plan: Plan, k: IpKey) returns (m: nat)
    requires Sorted(plan.target) && Sorted(plan.current)
    requires k in KeySet(plan.target) && k !in KeySet(plan.current)
    ensures m < |Diff(plan)| && Diff(plan)[m] == RuleOp(k, Add) && Increasing(Diff(plan))
  {
    PlannedOp(plan, k);
    m :| 0 <= m < |Diff(plan)| && Diff(plan)[m] == RuleOp(k, Add);
  }

  /** At the end of the plan: the add was turned down exactly if a rule was there. */
  lemma RepairFrom(o: Options, p: Pass, w: World, lost: set<nat>, budget: nat, t: Tick, k: IpKey, m: nat, there: bool)
    requires OnCourse(p, w, lost) && w.flow.inflight.None? && AnswerIs(p, w, k, m, there)
    requires Increasing(Diff(p.plan)) && m < |Diff(p.plan)| && Diff(p.plan)[m].key == k
    requires var w' := ResyncTurn(o, w, budget, t).world; w'.ctl.job.Idle? && !w'.failed
    ensures TurnedDown(p, w.kernel.replies, k) <==> there
  {
    CourseEnds(o, p, w, budget, t, lost);
    FlagOfKey(p, w.kernel.replies, lost, k, m);
  }

  /** The turn that takes the snapshot plans the add and leaves the kernel alone. */
  lemma RepairBegins(o: Options, b: World, budget: nat, t: Tick, k: IpKey) returns (m: nat)
    requires Running(o, b) && b.ctl.job.ResyncBuild? && b.flow.inflight.None? && budget > 0 && t.snapshot.Addresses?
    requires k in KeySet(t.snapshot.keys) && k !in b.flow.owned
    ensures var from := BuildTurn(o, b, budget, t).world;
            var diff := Diff(from.ctl.plan);
            && Inv(o, from) && OnCourse(PassOf(from), from, {}) && from.kernel == b.kernel
            && Increasing(diff) && m < |diff| && diff[m] == RuleOp(k, Add)
  {
    CourseStarts(o, b, budget, t);
    m := AddIsPlanned(BuildTurn(o, b, budget, t).world.ctl.plan, k);
  }

  lemma RepairRuns(o: Options, from: World, actions: seq<Action>, w: World, lost: set<nat>, budget: nat, t: Tick,
                   k: IpKey, m: nat)
    requires GoodOptions(o) && Inv(o, from) && OnCourse(PassOf(from), from, {})
    requires Undisturbed(o, from, actions, w, lost)
    requires Increasing(Diff(from.ctl.plan)) && m < |Diff(from.ctl.plan)| && Diff(from.ctl.plan)[m] == RuleOp(k, Add)
    requires w.flow.inflight.None? && forall i :: 0 <= i < |actions| ==> Willing(actions[i], k)
    requires var w' := ResyncTurn(o, w, budget, t).world; w'.ctl.job.Idle? && !w'.failed
    ensures TurnedDown(PassOf(from), w.kernel.replies, k) <==> k in from.kernel.installed
  {
    RunAnswersAdd(o, PassOf(from), from, actions, w, lost, k, m, k in from.kernel.installed);
    RepairFrom(o, PassOf(from), w, lost, budget, t, k, m, k in from.kernel.installed);
  }

  /**
   A resync with no pending batch in between takes an address of its snapshot
   into ownership if and only if no rule for it was installed when it began and
   the batch of its add did not time out.  So after an add timed out, the
   compensating resync repairs the key exactly if the kernel did not carry the
   add out (and no one else has such a rule) and it is not late again.
   */
  lemma ResyncRepairsIff(o: Options, b: World, budget0: nat, t0: Tick, actions: seq<Action>, w: World,
                         lost: set<nat>, budget: nat, t: Tick, k: IpKey)
    requires WholeResync(o, b, budget0, t0, actions, w, lost, budget, t)
    requires forall i :: 0 <= i < |actions| ==> Willing(actions[i], k)
    requires k in KeySet(t0.snapshot.keys) && k !in b.flow.owned
    ensures k in ResyncTurn(o, w, budget, t).world.flow.owned <==>
            k !in b.kernel.installed && !TimedOut(PassOf(BuildTurn(o, b, budget0, t0).world), lost, k)
  {
    UndisturbedResyncIsExact(o, b, budget0, t0, actions, w, lost, budget, t, k);
    var m := RepairBegins(o, b, budget0, t0, k);
    RepairRuns(o, BuildTurn(o, b, budget0, t0).world, actions, w, lost, budget, t, k, m);
  }
}
