/**
 What every step of the reactor keeps about batches, acknowledgements and
 ownership.  `FlowInv` speaks about addresses and batches only; the invariants
 of the maintenance jobs are in the module on jobs.
 */
module Ownership {
  import opened IpKeys
  import opened SeqRing
  import opened AckTracking
  import opened Reactor

  // -------------------------------------------------------------------
  // Effects of partly successful batches
  // -------------------------------------------------------------------

  ghost predicate Agree(a: set<IpKey>, b: set<IpKey>, except: set<IpKey>) {
    forall k :: k !in except ==> (k in a <==> k in b)
  }

  /** Sets that agree keep agreeing, and an operation that takes effect settles its key. */
  lemma {:induction false} EffectsAgree(a: set<IpKey>, b: set<IpKey>, except: set<IpKey>,
                                        ops: seq<RuleOp>, ok: seq<bool>, n: nat, k: IpKey)
    requires Agree(a, b, except) && n <= |ops| == |ok|
    requires k !in except || exists i :: 0 <= i < n && ok[i] && ops[i].key == k
    ensures k in Effects(a, ops, ok, n) <==> k in Effects(b, ops, ok, n)
  {
    if n > 0 && !(ok[n - 1] && ops[n - 1].key == k) {
      EffectsAgree(a, b, except, ops, ok, n - 1, k);
    }
  }

  lemma {:induction false} EffectsElsewhere(s: set<IpKey>, ops: seq<RuleOp>, ok: seq<bool>, n: nat, k: IpKey)
    requires n <= |ops| == |ok|
    requires forall i :: 0 <= i < n && ok[i] ==> ops[i].key != k
    ensures k in Effects(s, ops, ok, n) <==> k in s
  {
    if n > 0 {
      EffectsElsewhere(s, ops, ok, n - 1, k);
    }
  }

  /** On a key all of whose operations succeed, the effect is that of applying them all. */
  lemma {:induction false} EffectsAllOk(s: set<IpKey>, ops: seq<RuleOp>, ok: seq<bool>, n: nat, k: IpKey)
    requires n <= |ops| == |ok|
    requires forall i :: 0 <= i < n && ops[i].key == k ==> ok[i]
    ensures k in Effects(s, ops, ok, n) <==> k in ApplyAll(s, ops[..n])
  {
    if n > 0 {
      EffectsAllOk(s, ops, ok, n - 1, k);
      assert ops[..n][..n - 1] == ops[..n - 1];
    }
  }

  lemma {:induction false} ApplyAllElsewhere(s: set<IpKey>, ops: seq<RuleOp>, k: IpKey)
    requires k !in OpKeys(ops)
    ensures k in ApplyAll(s, ops) <==> k in s
  {
    if ops != [] {
      var n := |ops| - 1;
      assert k != ops[n].key by { assert ops[n].key in OpKeys(ops); }
      assert k !in OpKeys(ops[..n]) by {
        forall i | 0 <= i < n ensures ops[..n][i].key != k {
          assert ops[i].key in OpKeys(ops);
        }
      }
      ApplyAllElsewhere(s, ops[..n], k);
    }
  }

  // -------------------------------------------------------------------
  // The kernel's answers
  // -------------------------------------------------------------------

  ghost predicate Answered(replies: map<nat, AckStatus>, first: nat, n: nat) {
    forall m: nat :: first <= m < first + n ==> m in replies
  }

  /** Which operations of a batch the kernel carried out. */
  ghost function ReplyFlags(replies: map<nat, AckStatus>, first: nat, n: nat): seq<bool> {
    seq(n, i requires 0 <= i < n => first + i in replies && replies[first + i].None?)
  }

  /** A batch is answered message by message, and other answers stay as they were. */
  lemma {:induction false} RunAnswers(k: Kernel, ops: seq<RuleOp>, refuse: nat -> Option<int>, first: nat, n: nat)
    requires n <= |ops|
    ensures var after := KernelRun(k, ops, refuse, first, n);
            && Answered(after.replies, first, n)
            && (forall m: nat :: m < first || m >= first + n ==>
                  (m in after.replies <==> m in k.replies) && (m in k.replies ==> after.replies[m] == k.replies[m]))
  {
    if n > 0 {
      RunAnswers(k, ops, refuse, first, n - 1);
    }
  }

  /** A batch changes `mine` exactly by the operations answered with success. */
  lemma {:induction false} RunEffect(k: Kernel, ops: seq<RuleOp>, refuse: nat -> Option<int>, first: nat, n: nat)
    requires n <= |ops|
    ensures var after := KernelRun(k, ops, refuse, first, n);
            && after.mine == Effects(k.mine, ops[..n], ReplyFlags(after.replies, first, n), n)
            && (k.mine <= k.installed ==> after.mine <= after.installed)
  {
    if n > 0 {
      RunEffect(k, ops, refuse, first, n - 1);
      var before := KernelRun(k, ops, refuse, first, n - 1);
      var after := KernelRun(k, ops, refuse, first, n);
      RunAnswers(k, ops, refuse, first, n - 1);
      var f := ReplyFlags(before.replies, first, n - 1);
      var g := ReplyFlags(after.replies, first, n);
      assert forall i: nat :: i < n - 1 ==> g[i] == f[i];
      EffectsSame(k.mine, ops[..n - 1], f, ops[..n], g, n - 1);
    }
  }

  lemma {:induction false} EffectsSame(s: set<IpKey>, a: seq<RuleOp>, f: seq<bool>, b: seq<RuleOp>, g: seq<bool>, n: nat)
    requires n <= |a| && n <= |b| && n <= |f| && n <= |g|
    requires forall i :: 0 <= i < n ==> a[i] == b[i] && f[i] == g[i]
    ensures Effects(s, a, f, n) == Effects(s, b, g, n)
  {
    if n > 0 {
      EffectsSame(s, a, f, b, g, n - 1);
    }
  }

  /** The kernel carried out a delete of this key among the first n operations. */
  ghost predicate DeleteDelivered(ops: seq<RuleOp>, refuse: nat -> Option<int>, n: nat, key: IpKey) {
    exists i: nat :: i < n && i < |ops| && ops[i].key == key && refuse(i).None?
  }

  /** Deletes take a key from the daemon exactly when one of them reaches the kernel and is not refused. */
  lemma {:induction false} DeletesRemove(k: Kernel, ops: seq<RuleOp>, refuse: nat -> Option<int>, first: nat, n: nat,
                                         key: IpKey)
    requires n <= |ops| && k.mine <= k.installed
    requires forall i :: 0 <= i < n ==> ops[i].action.Delete?
    ensures var after := KernelRun(k, ops, refuse, first, n);
            && after.mine <= after.installed
            && (key in after.mine <==> key in k.mine && !DeleteDelivered(ops, refuse, n, key))
  {
    if n > 0 {
      DeletesRemove(k, ops, refuse, first, n - 1, key);
      assert DeleteDelivered(ops, refuse, n, key) <==>
             DeleteDelivered(ops, refuse, n - 1, key) || (ops[n - 1].key == key && refuse(n - 1).None?);
    }
  }

  // -------------------------------------------------------------------
  // The invariants
  // -------------------------------------------------------------------

  ghost predicate SeqInv(w: World) {
    w.seqs.next == Wire(w.seqs.issued)
  }

  /** The in-flight batch: its size, its place among the messages, and a tracker that holds only genuine answers. */
  ghost predicate BatchInv(w: World) {
    w.flow.inflight.Some? ==>
      var b := w.flow.inflight.value;
      && 0 < |b.ops| <= SPAN
      && b.inputCount == b.noopPrefilter + |b.ops|
      && TrackerFits(b.tracker, |b.ops|) && b.tracker.pending > 0
      && b.firstSeq == Wire(w.hist.mark.first) && w.hist.mark.first + |b.ops| == w.seqs.issued
      && Answered(w.kernel.replies, w.hist.mark.first, |b.ops|)
      && TrackerGenuine(w, b)
  }

  ghost predicate TrackerGenuine(w: World, b: Inflight) {
    forall i: nat :: i < |b.ops| && i < |b.tracker.seen| && i < |b.tracker.status| && b.tracker.seen[i] ==>
      w.hist.mark.first + i in w.kernel.replies && b.tracker.status[i] == w.kernel.replies[w.hist.mark.first + i]
  }

  /** Ownership agrees with the kernel outside `loose`, up to the in-flight batch. */
  ghost predicate OwnInv(w: World) {
    && w.kernel.mine <= w.kernel.installed
    && (w.flow.inflight.None? ==> Agree(w.flow.owned, w.kernel.mine, w.hist.loose))
    && (w.flow.inflight.Some? ==>
          var b := w.flow.inflight.value;
          && Agree(w.flow.owned, w.hist.mark.mine0, w.hist.loose)
          && w.kernel.mine == Effects(w.hist.mark.mine0, b.ops,
                                      ReplyFlags(w.kernel.replies, w.hist.mark.first, |b.ops|), |b.ops|))
  }

  /** What the daemon will hold once what is in flight and then what is pending takes effect. */
  ghost function Outlook(f: Flow, k: IpKey): bool {
    if k in f.pending then f.pending[k].Add?
    else if f.inflight.Some? then k in ApplyAll(f.owned, f.inflight.value.ops)
    else k in f.owned
  }

  ghost predicate CoalesceInv(w: World) {
    forall k :: k !in w.hist.strayed ==> (Outlook(w.flow, k) <==> k in w.hist.want)
  }

  ghost predicate FlowInv(w: World) {
    SeqInv(w) && BatchInv(w) && OwnInv(w) && CoalesceInv(w)
  }

  // -------------------------------------------------------------------
  // Sending keeps them
  // -------------------------------------------------------------------

  lemma ReserveKeeps(w: World, n: nat)
    requires FlowInv(w) && w.flow.inflight.None?
    ensures FlowInv(ReserveSeqs(w, n))
  {
    AdvanceIsWire(w.seqs.issued, n);
  }

  /** What holds of a world about to send `ops`: nothing is in flight and ownership is settled. */
  ghost predicate CanSend(w: World, ops: seq<RuleOp>) {
    && w.flow.inflight.None? && 0 < |ops| <= SPAN
    && SeqInv(w) && OwnInv(w)
  }

  lemma SendKeeps(w: World, id: nat, owner: Owner, input: nat, noop: nat, ops: seq<RuleOp>, s: Send)
    requires CanSend(w, ops) && input == noop + |ops|
    ensures var w' := SendBatch(w, id, owner, input, noop, ops, s);
            SeqInv(w') && BatchInv(w') && OwnInv(w')
  {
    var w' := SendBatch(w, id, owner, input, noop, ops, s);
    AdvanceIsWire(w.seqs.issued, |ops|);
    PreparedFits(|ops|);
    RunAnswers(w.kernel, ops, s.refuse, w.seqs.issued, |ops|);
    RunEffect(w.kernel, ops, s.refuse, w.seqs.issued, |ops|);
    assert ops[..|ops|] == ops;
    assert w'.kernel.mine == Effects(w.kernel.mine, ops, ReplyFlags(w'.kernel.replies, w.seqs.issued, |ops|), |ops|);
  }

  /** A maintenance batch moves the outlook only on keys it then counts as strayed. */
  lemma MaintenanceSendCoalesces(w: World, id: nat, input: nat, noop: nat, ops: seq<RuleOp>, s: Send)
    requires w.flow.inflight.None? && CoalesceInv(w)
    ensures CoalesceInv(SendBatch(w, id, MaintenanceOwner, input, noop, ops, s))
  {
    var w' := SendBatch(w, id, MaintenanceOwner, input, noop, ops, s);
    forall k | k !in w'.hist.strayed ensures Outlook(w'.flow, k) <==> k in w'.hist.want {
      if k !in w.flow.pending {
        ApplyAllElsewhere(w.flow.owned, ops, k);
      }
    }
  }

  lemma BreakKeeps(w: World, ops: seq<RuleOp>, s: Send)
    requires CanSend(w, ops) && CoalesceInv(w)
    ensures FlowInv(BreakSend(w, ops, s))
  {
    var n := Delivered(s, |ops|);
    var w' := BreakSend(w, ops, s);
    AdvanceIsWire(w.seqs.issued, |ops|);
    RunEffect(w.kernel, ops, s.refuse, w.seqs.issued, n);
    var ok := ReplyFlags(w'.kernel.replies, w.seqs.issued, n);
    forall k | k !in w'.hist.loose ensures k in w'.flow.owned <==> k in w'.kernel.mine {
      forall i | 0 <= i < n ensures ops[..n][i].key != k {
        assert ops[..n][i].key in OpKeys(ops[..n]);
      }
      EffectsElsewhere(w.kernel.mine, ops[..n], ok, n, k);
    }
  }

  // -------------------------------------------------------------------
  // Acknowledgements keep them
  // -------------------------------------------------------------------

  /** Genuine messages, however late, repeated or reordered, fill the tracker with the kernel's own answers. */
  lemma {:induction false} DrainKeepsGenuine(w: World, b: Inflight, msgs: seq<AckMsg>)
    requires w.flow.inflight == Some(b) && BatchInv(w)
    requires forall i :: 0 <= i < |msgs| ==> Genuine(w, msgs[i])
    ensures TrackerGenuine(w, b.(tracker := ReceiveAll(b.tracker, b.firstSeq, |b.ops|, msgs)))
    decreases |msgs|
  {
    if msgs != [] {
      var n := |msgs| - 1;
      DrainKeepsGenuine(w, b, msgs[..n]);
      var m := msgs[n];
      if m.Ack? {
        assert Genuine(w, m);
        var at: nat :| GenuineAt(w, m, at);
        NewestBlockOwnsItsAcks(w.hist.mark.first, |b.ops|, at);
      }
    }
  }

  /** Every slot of a finished batch is seen, so its flags are the kernel's answers. */
  lemma FinishedFlags(w: World, b: Inflight)
    requires TrackerFits(b.tracker, |b.ops|) && b.tracker.pending == 0
    requires Answered(w.kernel.replies, w.hist.mark.first, |b.ops|) && TrackerGenuine(w, b)
    ensures forall i :: 0 <= i < |b.ops| ==> b.tracker.seen[i]
    ensures OkFlags(b.tracker, |b.ops|) == ReplyFlags(w.kernel.replies, w.hist.mark.first, |b.ops|)
  {
    UnseenZero(b.tracker.seen);
  }

  lemma FinishOwns(w: World)
    requires w.flow.inflight.Some? && OwnInv(w)
    requires var b := w.flow.inflight.value;
             OkFlags(b.tracker, |b.ops|) == ReplyFlags(w.kernel.replies, w.hist.mark.first, |b.ops|)
    ensures OwnInv(Finish(w))
  {
    var b := w.flow.inflight.value;
    var ok := OkFlags(b.tracker, |b.ops|);
    var w' := Finish(w);
    forall k | k !in w'.hist.loose ensures k in w'.flow.owned <==> k in w'.kernel.mine {
      if k in w.hist.loose {
        assert k in KeysWhere(b.ops, ok, true);
        var i :| 0 <= i < |b.ops| && i < |ok| && ok[i] == true && b.ops[i].key == k;
      }
      EffectsAgree(w.flow.owned, w.hist.mark.mine0, w.hist.loose, b.ops, ok, |b.ops|, k);
    }
  }

  lemma FinishCoalesces(w: World)
    requires w.flow.inflight.Some? && CoalesceInv(w)
    ensures CoalesceInv(Finish(w))
  {
    var b := w.flow.inflight.value;
    var ok := OkFlags(b.tracker, |b.ops|);
    var w' := Finish(w);
    forall k | k !in w'.hist.strayed ensures Outlook(w'.flow, k) <==> k in w'.hist.want {
      if k !in w.flow.pending {
        forall i | 0 <= i < |b.ops| && b.ops[i].key == k ensures ok[i] {
          assert !ok[i] ==> k in KeysWhere(b.ops, ok, false);
        }
        EffectsAllOk(w.flow.owned, b.ops, ok, |b.ops|, k);
        assert b.ops[..|b.ops|] == b.ops;
      }
    }
  }

  lemma AcksKeep(w: World, msgs: seq<AckMsg>)
    requires FlowInv(w)
    requires forall i :: 0 <= i < |msgs| ==> Genuine(w, msgs[i])
    ensures FlowInv(AcksStep(w, msgs, false))
  {
    if w.flow.inflight.Some? {
      var b := w.flow.inflight.value;
      DrainKeepsGenuine(w, b, msgs);
      PendingCountsUnseen(b.tracker, b.firstSeq, |b.ops|, msgs);
      var t := ReceiveAll(b.tracker, b.firstSeq, |b.ops|, msgs);
      var w' := w.(flow := w.flow.(inflight := Some(b.(tracker := t))));
      if t.pending == 0 {
        FinishedFlags(w', b.(tracker := t));
        FinishOwns(w');
        FinishCoalesces(w');
      }
    }
  }

  lemma TimeoutKeeps(w: World)
    requires FlowInv(w) && w.flow.inflight.Some?
    ensures FlowInv(Timeout(w))
  {
    var b := w.flow.inflight.value;
    var w' := Timeout(w);
    forall k | k !in w'.hist.loose ensures k in w'.flow.owned <==> k in w'.kernel.mine {
      forall i | 0 <= i < |b.ops| ensures b.ops[i].key != k {
        assert b.ops[i].key in OpKeys(b.ops);
      }
      EffectsElsewhere(w.hist.mark.mine0, b.ops, ReplyFlags(w.kernel.replies, w.hist.mark.first, |b.ops|), |b.ops|, k);
    }
    forall k | k !in w'.hist.strayed ensures Outlook(w'.flow, k) <==> k in w'.hist.want {
      if k !in w.flow.pending {
        ApplyAllElsewhere(w.flow.owned, b.ops, k);
      }
    }
  }

  // -------------------------------------------------------------------
  // Events and flushes keep them
  // -------------------------------------------------------------------

  /** Folding events into the pending map and folding them into a set say the same about every key. */
  lemma {:induction false} InsertAllAt(pending: map<IpKey, RuleAction>, want: set<IpKey>, events: seq<RuleOp>, k: IpKey)
    ensures var p := InsertAll(pending, events);
            && (k in p <==> k in pending || k in OpKeys(events))
            && (k in OpKeys(events) ==> (p[k].Add? <==> k in ApplyAll(want, events)))
            && (k !in OpKeys(events) ==> (k in pending ==> p[k] == pending[k])
                                         && (k in ApplyAll(want, events) <==> k in want))
  {
    if events != [] {
      var n := |events| - 1;
      InsertAllAt(pending, want, events[..n], k);
      OpKeysSnoc(events[..n], events[n]);
      assert events == events[..n] + [events[n]];
    }
  }

  lemma OpKeysSnoc(ops: seq<RuleOp>, op: RuleOp)
    ensures OpKeys(ops + [op]) == OpKeys(ops) + {op.key}
  {
    var all := ops + [op];
    forall k | k in OpKeys(ops) + {op.key} ensures k in OpKeys(all) {
      if k == op.key {
        assert all[|ops|].key == k;
      } else {
        var i :| 0 <= i < |ops| && ops[i].key == k;
        assert all[i].key == k;
      }
    }
  }

  lemma RouteKeeps(o: Options, w: World, events: seq<RuleOp>, parseFailed: nat, now: nat)
    requires FlowInv(w)
    ensures FlowInv(RouteStep(o, w, events, parseFailed, false, now))
  {
    var w' := RouteStep(o, w, events, parseFailed, false, now);
    forall k | k !in w'.hist.strayed ensures Outlook(w'.flow, k) <==> k in w'.hist.want {
      InsertAllAt(w.flow.pending, w.hist.want, events, k);
    }
  }

  /** What a batch cut from the pending map contains: a key's action survives unless ownership already has it. */
  lemma {:induction false} PrefilterAt(owned: set<IpKey>, ops: seq<RuleOp>, k: IpKey)
    requires forall i, j :: 0 <= i < j < |ops| ==> ops[i].key != ops[j].key
    ensures k in OpKeys(Prefilter(owned, ops)) ==> k in OpKeys(ops)
    ensures forall i :: 0 <= i < |ops| && ops[i].key == k ==>
              (k in ApplyAll(owned, Prefilter(owned, ops)) <==> ops[i].action.Add?)
    ensures k !in OpKeys(ops) ==> (k in ApplyAll(owned, Prefilter(owned, ops)) <==> k in owned)
  {
    if ops != [] {
      var n := |ops| - 1;
      PrefilterAt(owned, ops[..n], k);
      assert ops == ops[..n] + [ops[n]];
      OpKeysSnoc(ops[..n], ops[n]);
      var kept := Prefilter(owned, ops[..n]);
      OpKeysSnoc(kept, ops[n]);
      assert (kept + [ops[n]])[..|kept|] == kept;
      if ops[n].key == k {
        assert k !in OpKeys(ops[..n]);
      }
    }
  }

  lemma TakenKeys(pending: map<IpKey, RuleAction>, pick: seq<IpKey>, k: IpKey)
    requires forall i :: 0 <= i < |pick| ==> pick[i] in pending
    requires forall i, j :: 0 <= i < j < |pick| ==> pick[i] != pick[j]
    ensures k in OpKeys(TakeOps(pending, pick)) <==> k in KeySet(pick)
    ensures forall i :: 0 <= i < |pick| && pick[i] == k ==> TakeOps(pending, pick)[i] == RuleOp(k, pending[k])
  {
    var ops := TakeOps(pending, pick);
    if k in KeySet(pick) {
      var i :| 0 <= i < |pick| && pick[i] == k;
      assert ops[i].key == k;
    }
  }

  /**
   The step where coalescing could lose an event: taking a batch out of the
   pending map and prefiltering it leaves every key's outlook as it was.
   */
  lemma CutKeepsOutlook(f: Flow, pick: seq<IpKey>, k: IpKey)
    requires f.inflight.None?
    requires forall i :: 0 <= i < |pick| ==> pick[i] in f.pending
    requires forall i, j :: 0 <= i < j < |pick| ==> pick[i] != pick[j]
    ensures var kept := Prefilter(f.owned, TakeOps(f.pending, pick));
            var left := f.pending - KeySet(pick);
            Outlook(f, k) == if k in left then left[k].Add? else k in ApplyAll(f.owned, kept)
  {
    var ops := TakeOps(f.pending, pick);
    TakenKeys(f.pending, pick, k);
    PrefilterAt(f.owned, ops, k);
    if k in KeySet(pick) {
      var i :| 0 <= i < |pick| && pick[i] == k;
      assert ops[i] == RuleOp(k, f.pending[k]);
    }
  }

  lemma FlushKeeps(o: Options, w: World, pick: seq<IpKey>, now: nat, s: Send)
    requires GoodOptions(o) && FlowInv(w) && ValidPick(o, w.flow.pending, pick)
    requires !FlushStep(o, w, pick, now, s).failed
    ensures FlowInv(FlushStep(o, w, pick, now, s))
  {
    if w.flow.inflight.None? && w.flow.pending != map[] {
      var w' := FlushStep(o, w, pick, now, s);
      var ops := TakeOps(w.flow.pending, pick);
      var kept := Prefilter(w.flow.owned, ops);
      var w1 := TakePending(o, w, pick, now);
      forall k | k !in w'.hist.strayed ensures Outlook(w'.flow, k) <==> k in w'.hist.want {
        CutKeepsOutlook(w.flow, pick, k);
      }
      if kept != [] {
        var id := NextId(w.ctl.batchId);
        var w2 := w1.(ctl := w1.ctl.(batchId := id));
        SendKeeps(w2, id, PendingOwner, |ops|, |ops| - |kept|, kept, s);
      }
    }
  }
}
