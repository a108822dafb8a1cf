/**
 Netlink sequence numbers.

 Numbers live on a ring of 2^32 - 1 values that skips 0.  `Wire` gives the
 number the n-th reservation since start-up appears under on the wire, which is
 what the reservation counter and the index arithmetic are compared with.
 */
module SeqRing {
  import opened IpKeys

  const SPAN: int := 0xFFFF_FFFF

  function NormalizeSeq(value: Word): Word {
    if value == 0 then 1 else value
  }

  function SeqAdvance(start: Word, steps: nat): Word {
    var offset := steps % SPAN;
    (NormalizeSeq(start) - 1 + offset) % SPAN + 1
  }

  function SeqWithOffset(firstSeq: Word, offset: nat): Word {
    SeqAdvance(NormalizeSeq(firstSeq), offset)
  }

  function SeqToBatchIndex(seqNo: Word, firstSeq: Word, batchLen: nat): Option<nat> {
    if batchLen == 0 || seqNo == 0 then None
    else
      var start := NormalizeSeq(firstSeq);
      var current := NormalizeSeq(seqNo);
      var delta := if current >= start then current - start else SPAN - (start - current);
      if delta < batchLen then Some(delta) else None
  }

  /** The number the n-th reserved message carries. */
  function Wire(n: nat): (s: Word)
    ensures s != 0
  {
    n % SPAN + 1
  }

  lemma AdvanceIsWire(n: nat, steps: nat)
    ensures SeqAdvance(Wire(n), steps) == Wire(n + steps)
  {
    ModSum(n, steps);
  }

  lemma ModSum(a: nat, b: nat)
    ensures (a % SPAN + b % SPAN) % SPAN == (a + b) % SPAN
  {
    var x := a % SPAN + b % SPAN;
    var q := a / SPAN + b / SPAN;
    assert a + b == q * SPAN + x;
    ModOfMultiple(q, x);
  }

  lemma {:induction false} ModOfMultiple(q: nat, x: nat)
    ensures (q * SPAN + x) % SPAN == x % SPAN
  {
    if q > 0 {
      ModOfMultiple(q - 1, x);
      assert q * SPAN + x == ((q - 1) * SPAN + x) + SPAN;
    }
  }

  lemma WireDistance(n: nat, m: nat)
    requires n <= m < n + SPAN
    ensures var d := Wire(m) - Wire(n); m - n == (if d >= 0 then d else SPAN + d)
  {
    ModSum(n, m - n);
  }

  /**
   For every first number and every batch that fits on the ring, turning an
   index into a number and back is the identity, in both directions and across
   the wrap; no number handed out is 0.
   */
  lemma IndexSeqInverse(firstSeq: Word, batchLen: nat, i: nat, s: Word)
    requires batchLen <= SPAN && i < batchLen
    ensures SeqWithOffset(firstSeq, i) != 0
    ensures SeqToBatchIndex(SeqWithOffset(firstSeq, i), firstSeq, batchLen) == Some(i)
    ensures SeqToBatchIndex(s, firstSeq, batchLen).Some? ==>
              SeqWithOffset(firstSeq, SeqToBatchIndex(s, firstSeq, batchLen).value) == s
  {
    var n := NormalizeSeq(firstSeq) - 1;
    assert Wire(n) == NormalizeSeq(firstSeq);
    AdvanceIsWire(n, i);
    WireDistance(n, n + i);
    var r := SeqToBatchIndex(s, firstSeq, batchLen);
    if r.Some? {
      AdvanceIsWire(n, r.value);
      WireDistance(n, n + r.value);
    }
  }

  /**
   Attribution.  Of all messages reserved within the last full turn of the
   ring, exactly those of the newest block `[first, first + len)` map to an
   index of that block, and each maps to its own.
   */
  lemma NewestBlockOwnsItsAcks(first: nat, len: nat, n: nat)
    requires 0 < len <= SPAN
    requires first + len - SPAN <= n < first + len
    ensures SeqToBatchIndex(Wire(n), Wire(first), len)
            == if n >= first then Some(n - first) else None
  {
    if n >= first {
      WireDistance(first, n);
    } else {
      WireDistance(n, first);
      var d := Wire(first) - Wire(n);
      assert Wire(n) - Wire(first) == -d;
    }
  }

  /** Two blocks reserved less than a full turn apart share no number. */
  lemma BlocksDisjoint(a: nat, aLen: nat, b: nat, bLen: nat, i: nat, j: nat)
    requires a + aLen <= b && b + bLen <= a + SPAN
    requires i < aLen && j < bLen
    ensures SeqWithOffset(Wire(a), i) != SeqWithOffset(Wire(b), j)
  {
    AdvanceIsWire(a, i);
    AdvanceIsWire(b, j);
    WireDistance(a + i, b + j);
  }

  /** The process-wide counter cell. */
  class SeqCounter {
    var next: Word
    ghost var issued: nat

    ghost predicate Valid()
      reads this
    {
      next == Wire(issued)
    }

    constructor ()
      ensures Valid() && next == 1 && issued == 0
    {
      next := 1;
      issued := 0;
    }

    /** Hands out a block of `count` consecutive numbers, at least one. */
    method ReserveBlock(count: nat) returns (first: Word)
      modifies this
      ensures first == NormalizeSeq(old(next))
      ensures issued == old(issued) + (if count == 0 then 1 else count)
      ensures next == SeqAdvance(first, issued - old(issued))
      ensures old(Valid()) ==> Valid()
      ensures old(Valid()) ==> forall i: nat :: i < count ==> SeqWithOffset(first, i) == Wire(old(issued) + i)
    {
      var steps := if count == 0 then 1 else count;
      var current := NormalizeSeq(next);
      next := SeqAdvance(current, steps);
      first := current;
      AdvanceIsWire(issued, steps);
      forall i: nat | i < count ensures SeqWithOffset(Wire(issued), i) == Wire(issued + i) {
        AdvanceIsWire(issued, i);
      }
      issued := issued + steps;
    }
  }
}
