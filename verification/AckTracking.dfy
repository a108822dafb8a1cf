/**
 Rule operations, acknowledgement classes and the acknowledgement tracker.
 */
module AckTracking {
  import opened IpKeys
  import opened SeqRing

  datatype RuleAction = Delete | Add

  datatype RuleOp = RuleOp(key: IpKey, action: RuleAction)

  const EEXIST: int := 17
  const ENOENT: int := 2
  const ESRCH: int := 3

  /** None is success; Some(e) is the errno the kernel reported. */
  type AckStatus = Option<int>

  datatype RuleAckClass = Applied | EexistNoop | EnoentNoop | KernelErr

  function ClassifyAck(op: RuleOp, status: AckStatus): RuleAckClass {
    if status.None? then Applied
    else if op.action.Add? && status.value == EEXIST then EexistNoop
    else if op.action.Delete? && (status.value == ENOENT || status.value == ESRCH) then EnoentNoop
    else KernelErr
  }

  function OpKeys(ops: seq<RuleOp>): set<IpKey> {
    set i | 0 <= i < |ops| :: ops[i].key
  }

  function ApplyOp(s: set<IpKey>, op: RuleOp): set<IpKey> {
    if op.action.Add? then s + {op.key} else s - {op.key}
  }

  /** The set of keys after the operations take effect one by one. */
  function ApplyAll(s: set<IpKey>, ops: seq<RuleOp>): set<IpKey> {
    if ops == [] then s else ApplyOp(ApplyAll(s, ops[..|ops| - 1]), ops[|ops| - 1])
  }

  // -------------------------------------------------------------------
  // The tracker as a value
  // -------------------------------------------------------------------

  datatype Tracker = Tracker(seen: seq<bool>, status: seq<AckStatus>, pending: nat,
                             seqMismatch: nat, nonAck: nat)

  /** A message drained from the rule socket, as far as the tracker reads it. */
  datatype AckMsg = Ack(seqNo: Word, status: AckStatus) | NonAck

  function Prepared(n: nat): Tracker {
    Tracker(seq(n, i => false), seq(n, i => None), n, 0, 0)
  }

  function Mark(t: Tracker, idx: nat, status: AckStatus): Tracker {
    if idx >= |t.seen| || idx >= |t.status| || t.seen[idx] then t
    else t.(seen := t.seen[idx := true], status := t.status[idx := status],
            pending := if t.pending > 0 then t.pending - 1 else 0)
  }

  function Receive(t: Tracker, firstSeq: Word, len: nat, m: AckMsg): Tracker {
    if m.NonAck? then t.(nonAck := t.nonAck + 1)
    else
      var idx := SeqToBatchIndex(m.seqNo, firstSeq, len);
      if idx.None? then t.(seqMismatch := t.seqMismatch + 1) else Mark(t, idx.value, m.status)
  }

  function ReceiveAll(t: Tracker, firstSeq: Word, len: nat, msgs: seq<AckMsg>): Tracker {
    if msgs == [] then t
    else Receive(ReceiveAll(t, firstSeq, len, msgs[..|msgs| - 1]), firstSeq, len, msgs[|msgs| - 1])
  }

  function Unseen(seen: seq<bool>): (n: nat)
    ensures n <= |seen|
  {
    if seen == [] then 0
    else Unseen(seen[..|seen| - 1]) + (if seen[|seen| - 1] then 0 else 1)
  }

  ghost predicate TrackerFits(t: Tracker, len: nat) {
    |t.seen| == len && |t.status| == len && t.pending == Unseen(t.seen)
  }

  lemma {:induction false} UnseenAfterMark(seen: seq<bool>, i: nat)
    requires i < |seen| && !seen[i]
    ensures Unseen(seen) > 0
    ensures Unseen(seen[i := true]) == Unseen(seen) - 1
  {
    var n := |seen| - 1;
    if i < n {
      UnseenAfterMark(seen[..n], i);
      assert seen[i := true][..n] == seen[..n][i := true];
    } else {
      assert seen[i := true][..n] == seen[..n];
    }
  }

  lemma {:induction false} UnseenZero(seen: seq<bool>)
    ensures Unseen(seen) == 0 <==> forall i :: 0 <= i < |seen| ==> seen[i]
  {
    if seen != [] {
      var n := |seen| - 1;
      UnseenZero(seen[..n]);
      assert forall i :: 0 <= i < n ==> seen[..n][i] == seen[i];
    }
  }

  lemma {:induction false} UnseenAll(n: nat)
    ensures Unseen(seq(n, i => false)) == n
  {
    if n > 0 {
      UnseenAll(n - 1);
      assert seq(n, i => false)[..n - 1] == seq(n - 1, i => false);
    }
  }

  lemma PreparedFits(n: nat)
    ensures TrackerFits(Prepared(n), n)
  {
    UnseenAll(n);
  }

  lemma MarkFits(t: Tracker, len: nat, idx: nat, status: AckStatus)
    requires TrackerFits(t, len)
    ensures TrackerFits(Mark(t, idx, status), len)
  {
    if idx < len && !t.seen[idx] {
      UnseenAfterMark(t.seen, idx);
    }
  }

  /** After any stream of messages `pending` is the number of slots without an acknowledgement. */
  lemma {:induction false} PendingCountsUnseen(t: Tracker, firstSeq: Word, len: nat, msgs: seq<AckMsg>)
    requires TrackerFits(t, len)
    ensures TrackerFits(ReceiveAll(t, firstSeq, len, msgs), len)
  {
    if msgs != [] {
      var n := |msgs| - 1;
      PendingCountsUnseen(t, firstSeq, len, msgs[..n]);
      var mid := ReceiveAll(t, firstSeq, len, msgs[..n]);
      if msgs[n].Ack? {
        var idx := SeqToBatchIndex(msgs[n].seqNo, firstSeq, len);
        if idx.Some? {
          MarkFits(mid, len, idx.value, msgs[n].status);
        }
      }
    }
  }

  // -------------------------------------------------------------------
  // First acknowledgement per slot wins
  // -------------------------------------------------------------------

  predicate Hits(m: AckMsg, firstSeq: Word, len: nat, i: nat) {
    m.Ack? && SeqToBatchIndex(m.seqNo, firstSeq, len) == Some(i)
  }

  /** The status carried by the first message of the stream that belongs to slot i. */
  function FirstAck(msgs: seq<AckMsg>, firstSeq: Word, len: nat, i: nat): Option<AckStatus> {
    if msgs == [] then None
    else if Hits(msgs[0], firstSeq, len, i) then Some(msgs[0].status)
    else FirstAck(msgs[1..], firstSeq, len, i)
  }

  lemma {:induction false} FirstAckSnoc(msgs: seq<AckMsg>, m: AckMsg, firstSeq: Word, len: nat, i: nat)
    ensures FirstAck(msgs + [m], firstSeq, len, i)
            == if FirstAck(msgs, firstSeq, len, i).Some? then FirstAck(msgs, firstSeq, len, i)
               else if Hits(m, firstSeq, len, i) then Some(m.status) else None
  {
    if msgs == [] {
      assert [m][1..] == [];
    } else {
      assert (msgs + [m])[1..] == msgs[1..] + [m];
      FirstAckSnoc(msgs[1..], m, firstSeq, len, i);
    }
  }

  /** What the tracker of a fresh batch holds after a stream, slot by slot. */
  lemma {:induction false} FirstAckWins(firstSeq: Word, len: nat, msgs: seq<AckMsg>, i: nat)
    requires i < len
    ensures var t := ReceiveAll(Prepared(len), firstSeq, len, msgs);
            var a := FirstAck(msgs, firstSeq, len, i);
            TrackerFits(t, len) && t.seen[i] == a.Some?
            && t.status[i] == (if a.Some? then a.value else None)
  {
    PreparedFits(len);
    PendingCountsUnseen(Prepared(len), firstSeq, len, msgs);
    if msgs != [] {
      var n := |msgs| - 1;
      FirstAckWins(firstSeq, len, msgs[..n], i);
      assert msgs == msgs[..n] + [msgs[n]];
      FirstAckSnoc(msgs[..n], msgs[n], firstSeq, len, i);
    }
  }

  /** Streams that agree on the first acknowledgement of every slot leave the same tracker contents. */
  lemma SameFirstAcksSameTracker(firstSeq: Word, len: nat, a: seq<AckMsg>, b: seq<AckMsg>)
    requires forall i: nat :: i < len ==> FirstAck(a, firstSeq, len, i) == FirstAck(b, firstSeq, len, i)
    ensures var ta := ReceiveAll(Prepared(len), firstSeq, len, a);
            var tb := ReceiveAll(Prepared(len), firstSeq, len, b);
            ta.seen == tb.seen && ta.status == tb.status && ta.pending == tb.pending
  {
    var ta := ReceiveAll(Prepared(len), firstSeq, len, a);
    var tb := ReceiveAll(Prepared(len), firstSeq, len, b);
    PreparedFits(len);
    PendingCountsUnseen(Prepared(len), firstSeq, len, a);
    PendingCountsUnseen(Prepared(len), firstSeq, len, b);
    forall i: nat | i < len ensures ta.seen[i] == tb.seen[i] && ta.status[i] == tb.status[i] {
      FirstAckWins(firstSeq, len, a, i);
      FirstAckWins(firstSeq, len, b, i);
    }
    assert ta.seen == tb.seen;
  }

  lemma {:induction false} FirstAckConcat(x: seq<AckMsg>, y: seq<AckMsg>, firstSeq: Word, len: nat, i: nat)
    ensures FirstAck(x + y, firstSeq, len, i)
            == if FirstAck(x, firstSeq, len, i).Some? then FirstAck(x, firstSeq, len, i)
               else FirstAck(y, firstSeq, len, i)
  {
    if x == [] {
      assert x + y == y;
    } else {
      assert (x + y)[1..] == x[1..] + y;
      FirstAckConcat(x[1..], y, firstSeq, len, i);
    }
  }

  /**
   Reordering neighbours that do not belong to the same slot, or inserting a
   message for a slot already acknowledged, changes nothing the commit reads.
   */
  lemma SwapOrDuplicate(firstSeq: Word, len: nat, x: seq<AckMsg>, p: AckMsg, q: AckMsg, y: seq<AckMsg>)
    ensures (forall i: nat :: i < len ==> !(Hits(p, firstSeq, len, i) && Hits(q, firstSeq, len, i))) ==>
              var ta := ReceiveAll(Prepared(len), firstSeq, len, x + [p, q] + y);
              var tb := ReceiveAll(Prepared(len), firstSeq, len, x + [q, p] + y);
              ta.seen == tb.seen && ta.status == tb.status && ta.pending == tb.pending
    ensures (exists i: nat :: i < len && Hits(q, firstSeq, len, i) && FirstAck(x, firstSeq, len, i).Some?) ==>
              var ta := ReceiveAll(Prepared(len), firstSeq, len, x + [q] + y);
              var tb := ReceiveAll(Prepared(len), firstSeq, len, x + y);
              ta.seen == tb.seen && ta.status == tb.status && ta.pending == tb.pending
  {
    forall i: nat | i < len
      ensures !(Hits(p, firstSeq, len, i) && Hits(q, firstSeq, len, i)) ==>
                FirstAck(x + [p, q] + y, firstSeq, len, i) == FirstAck(x + [q, p] + y, firstSeq, len, i)
      ensures !Hits(q, firstSeq, len, i) || FirstAck(x, firstSeq, len, i).Some? ==>
                FirstAck(x + [q] + y, firstSeq, len, i) == FirstAck(x + y, firstSeq, len, i)
    {
      FirstAckConcat(x, y, firstSeq, len, i);
      FirstAckConcat(x + [p, q], y, firstSeq, len, i);
      FirstAckConcat(x + [q, p], y, firstSeq, len, i);
      FirstAckConcat(x + [q], y, firstSeq, len, i);
      FirstAckConcat(x, [p, q], firstSeq, len, i);
      FirstAckConcat(x, [q, p], firstSeq, len, i);
      FirstAckSnoc(x, q, firstSeq, len, i);
      assert [p, q][1..] == [q] && [q, p][1..] == [p] && [p][1..] == [] && [q][1..] == [];
    }
    if forall i: nat :: i < len ==> !(Hits(p, firstSeq, len, i) && Hits(q, firstSeq, len, i)) {
      SameFirstAcksSameTracker(firstSeq, len, x + [p, q] + y, x + [q, p] + y);
    }
    if exists i: nat :: i < len && Hits(q, firstSeq, len, i) && FirstAck(x, firstSeq, len, i).Some? {
      SameFirstAcksSameTracker(firstSeq, len, x + [q] + y, x + y);
    }
  }

  // -------------------------------------------------------------------
  // Messages that belong to no slot
  // -------------------------------------------------------------------

  /** The acknowledgement carries the number of no message of the batch. */
  ghost predicate Strays(m: AckMsg, firstSeq: Word, len: nat) {
    m.Ack? && forall k: nat :: k < len ==> m.seqNo != SeqWithOffset(firstSeq, k)
  }

  ghost function Strayed(msgs: seq<AckMsg>, firstSeq: Word, len: nat): set<int> {
    set i | 0 <= i < |msgs| && Strays(msgs[i], firstSeq, len)
  }

  ghost function Aliens(msgs: seq<AckMsg>): set<int> {
    set i | 0 <= i < |msgs| && msgs[i].NonAck?
  }

  lemma StraysIff(m: AckMsg, firstSeq: Word, len: nat)
    requires m.Ack? && len <= SPAN
    ensures SeqToBatchIndex(m.seqNo, firstSeq, len).None? <==> Strays(m, firstSeq, len)
  {
    forall k: nat | k < len ensures SeqToBatchIndex(SeqWithOffset(firstSeq, k), firstSeq, len) == Some(k) {
      IndexSeqInverse(firstSeq, len, k, m.seqNo);
    }
    if len > 0 {
      IndexSeqInverse(firstSeq, len, 0, m.seqNo);
    }
  }

  lemma OneMoreStray(head: seq<AckMsg>, m: AckMsg, firstSeq: Word, len: nat)
    ensures |Strayed(head + [m], firstSeq, len)|
            == |Strayed(head, firstSeq, len)| + if Strays(m, firstSeq, len) then 1 else 0
  {
    var before := Strayed(head, firstSeq, len);
    assert |head| !in before;
    assert Strayed(head + [m], firstSeq, len) == if Strays(m, firstSeq, len) then before + {|head|} else before;
  }

  lemma OneMoreAlien(head: seq<AckMsg>, m: AckMsg)
    ensures |Aliens(head + [m])| == |Aliens(head)| + if m.NonAck? then 1 else 0
  {
    assert |head| !in Aliens(head);
    assert Aliens(head + [m]) == if m.NonAck? then Aliens(head) + {|head|} else Aliens(head);
  }

  /** The two anomaly counters: acknowledgements that name no message of the batch, and messages that are none. */
  lemma {:induction false} AnomaliesAreCounted(firstSeq: Word, len: nat, msgs: seq<AckMsg>)
    requires len <= SPAN
    ensures var t := ReceiveAll(Prepared(len), firstSeq, len, msgs);
            t.seqMismatch == |Strayed(msgs, firstSeq, len)| && t.nonAck == |Aliens(msgs)|
  {
    if msgs != [] {
      var n := |msgs| - 1;
      var head, m := msgs[..n], msgs[n];
      AnomaliesAreCounted(firstSeq, len, head);
      assert msgs == head + [m];
      OneMoreStray(head, m, firstSeq, len);
      OneMoreAlien(head, m);
      if m.Ack? {
        StraysIff(m, firstSeq, len);
      }
    }
  }

  // -------------------------------------------------------------------
  // The tracker object
  // -------------------------------------------------------------------

  /** The reusable acknowledgement table. */
  class AckTracker {
    var seen: seq<bool>
    var status: seq<AckStatus>
    var pending: nat
    var seqMismatch: nat
    var nonAck: nat

    ghost function View(): Tracker
      reads this
    {
      Tracker(seen, status, pending, seqMismatch, nonAck)
    }

    ghost predicate Fits()
      reads this
    {
      |status| == |seen|
    }

    constructor ()
      ensures View() == Prepared(0) && Fits()
    {
      seen, status, pending, seqMismatch, nonAck := [], [], 0, 0, 0;
    }

    method Prepare(batchLen: nat)
      modifies this
      ensures View() == Prepared(batchLen) && Fits()
    {
      seen := seq(batchLen, i => false);
      status := seq(batchLen, i => None);
      pending := batchLen;
      seqMismatch, nonAck := 0, 0;
    }

    method MarkStatus(idx: nat, s: AckStatus)
      requires Fits()
      modifies this
      ensures View() == Mark(old(View()), idx, s) && Fits()
    {
      if idx >= |seen| || seen[idx] {
        return;
      }
      seen := seen[idx := true];
      status := status[idx := s];
      pending := if pending > 0 then pending - 1 else 0;
    }

    /** Draining the messages of one readiness event into the table. */
    method Drain(firstSeq: Word, len: nat, msgs: seq<AckMsg>)
      requires Fits()
      modifies this
      ensures View() == ReceiveAll(old(View()), firstSeq, len, msgs) && Fits()
    {
      var n := 0;
      while n < |msgs|
        invariant n <= |msgs| && Fits()
        invariant View() == ReceiveAll(old(View()), firstSeq, len, msgs[..n])
      {
        var m := msgs[n];
        if m.NonAck? {
          nonAck := nonAck + 1;
        } else {
          var idx := SeqToBatchIndex(m.seqNo, firstSeq, len);
          if idx.None? {
            seqMismatch := seqMismatch + 1;
          } else {
            MarkStatus(idx.value, m.status);
          }
        }
        assert msgs[..n + 1][..n] == msgs[..n];
        n := n + 1;
      }
      assert msgs[..n] == msgs;
    }
  }
}
