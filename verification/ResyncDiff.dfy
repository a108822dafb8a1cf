/**
 The resumable two-cursor merge that turns a snapshot and the tracked keys
 into rule operations, and the chunking of cleanup deletes.
 */
module ResyncDiff {
  import opened IpKeys
  import opened AckTracking

  datatype Chunk = Chunk(ops: seq<RuleOp>, targetIdx: nat, currentIdx: nat)

  /** What the merge does at a pair of cursors. */
  datatype Move = Stop | Skip(i: nat, j: nat) | Out(op: RuleOp, i: nat, j: nat)

  /** Keys left in front of a cursor. */
  function Left(s: seq<IpKey>, i: nat): nat {
    if i < |s| then |s| - i else 0
  }

  function NextMove(target: seq<IpKey>, current: seq<IpKey>, i: nat, j: nat): (m: Move)
    ensures !m.Stop? ==> Left(target, m.i) + Left(current, m.j) < Left(target, i) + Left(current, j)
    ensures !m.Stop? && i <= |target| && j <= |current| ==> m.i <= |target| && m.j <= |current|
    ensures m.Stop? <==> i >= |target| && j >= |current|
  {
    if i < |target| && (j >= |current| || KeyLess(target[i], current[j])) then
      Out(RuleOp(target[i], Add), i + 1, j)
    else if j < |current| && (i >= |target| || KeyLess(current[j], target[i])) then
      Out(RuleOp(current[j], Delete), i, j + 1)
    else if i < |target| && j < |current| then Skip(i + 1, j + 1)
    else Stop
  }

  /** All operations still to emit from a pair of cursors. */
  function Rest(target: seq<IpKey>, current: seq<IpKey>, i: nat, j: nat): seq<RuleOp>
    decreases Left(target, i) + Left(current, j)
  {
    match NextMove(target, current, i, j)
    case Stop => []
    case Skip(i', j') => Rest(target, current, i', j')
    case Out(op, i', j') => [op] + Rest(target, current, i', j')
  }

  /** One call of the merge: at most `room` operations and the cursors afterwards. */
  function NextChunk(target: seq<IpKey>, current: seq<IpKey>, i: nat, j: nat, room: nat): (c: Chunk)
    ensures i <= |target| && j <= |current| ==> c.targetIdx <= |target| && c.currentIdx <= |current|
    decreases Left(target, i) + Left(current, j)
  {
    if room == 0 then Chunk([], i, j)
    else
      match NextMove(target, current, i, j)
      case Stop => Chunk([], i, j)
      case Skip(i', j') => NextChunk(target, current, i', j', room)
      case Out(op, i', j') => Emit(op, NextChunk(target, current, i', j', room - 1))
  }

  function Emit(op: RuleOp, c: Chunk): Chunk {
    c.(ops := [op] + c.ops)
  }

  lemma Regroup(a: seq<RuleOp>, b: seq<RuleOp>, c: seq<RuleOp>)
    ensures a + b + c == a + (b + c)
  {
  }

  /** A chunk is the next piece of the remaining work, as large as the room allows. */
  lemma {:induction false} ChunkIsPrefix(target: seq<IpKey>, current: seq<IpKey>, i: nat, j: nat, room: nat)
    ensures var c := NextChunk(target, current, i, j, room);
            var rest := Rest(target, current, i, j);
            c.ops + Rest(target, current, c.targetIdx, c.currentIdx) == rest
            && |c.ops| == (if |rest| < room then |rest| else room)
    decreases Left(target, i) + Left(current, j)
  {
    if room > 0 {
      match NextMove(target, current, i, j)
      case Stop =>
      case Skip(i', j') => ChunkIsPrefix(target, current, i', j', room);
      case Out(op, i', j') =>
        ChunkIsPrefix(target, current, i', j', room - 1);
        var d := NextChunk(target, current, i', j', room - 1);
        Regroup([op], d.ops, Rest(target, current, d.targetIdx, d.currentIdx));
    }
  }

  /** With room left, an empty chunk means that both cursors have reached the end, and conversely. */
  lemma {:induction false} EmptyChunkMeansDone(target: seq<IpKey>, current: seq<IpKey>, i: nat, j: nat, room: nat)
    requires room > 0
    ensures var c := NextChunk(target, current, i, j, room);
            c.ops == [] <==> Rest(target, current, i, j) == []
    ensures var c := NextChunk(target, current, i, j, room);
            c.ops == [] ==> c.targetIdx >= |target| && c.currentIdx >= |current|
    ensures i >= |target| && j >= |current| ==> NextChunk(target, current, i, j, room).ops == []
    decreases Left(target, i) + Left(current, j)
  {
    ChunkIsPrefix(target, current, i, j, room);
    var m := NextMove(target, current, i, j);
    if m.Skip? {
      EmptyChunkMeansDone(target, current, m.i, m.j, room);
    }
  }

  // -------------------------------------------------------------------
  // The operations are the set difference
  // -------------------------------------------------------------------

  ghost predicate InTail(s: seq<IpKey>, i: nat, k: IpKey) {
    exists n :: i <= n < |s| && s[n] == k
  }

  /** What the remaining operations are, without reference to the merge. */
  ghost predicate Differs(target: seq<IpKey>, current: seq<IpKey>, i: nat, j: nat, op: RuleOp) {
    if op.action.Add? then InTail(target, i, op.key) && !InTail(current, j, op.key)
    else InTail(current, j, op.key) && !InTail(target, i, op.key)
  }

  lemma TailStep(s: seq<IpKey>, i: nat, k: IpKey)
    requires i < |s|
    ensures InTail(s, i, k) <==> k == s[i] || InTail(s, i + 1, k)
  {
    if InTail(s, i, k) {
      var n :| i <= n < |s| && s[n] == k;
      assert n > i ==> InTail(s, i + 1, k);
    }
    if k == s[i] {
      assert InTail(s, i, k);
    }
  }

  lemma NotInLaterTail(s: seq<IpKey>, i: nat, k: IpKey)
    requires Sorted(s) && (i < |s| ==> KeyLess(k, s[i]))
    ensures !InTail(s, i, k)
  {
    forall n | i <= n < |s| ensures s[n] != k {
      assert n == i || KeyLess(s[i], s[n]);
    }
  }

  lemma {:induction false} RestIsDifference(target: seq<IpKey>, current: seq<IpKey>, i: nat, j: nat, op: RuleOp)
    requires Sorted(target) && Sorted(current)
    ensures op in Rest(target, current, i, j) <==> Differs(target, current, i, j, op)
    decreases Left(target, i) + Left(current, j)
  {
    var k := op.key;
    if i < |target| {
      TailStep(target, i, k);
      NotInLaterTail(target, i + 1, target[i]);
    }
    if j < |current| {
      TailStep(current, j, k);
      NotInLaterTail(current, j + 1, current[j]);
    }
    var m := NextMove(target, current, i, j);
    if !m.Stop? {
      if m.Out? && m.op.action.Add? {
        NotInLaterTail(current, j, target[i]);
      } else if m.Out? {
        NotInLaterTail(target, i, current[j]);
      }
      RestIsDifference(target, current, m.i, m.j, op);
    }
  }

  ghost predicate Increasing(ops: seq<RuleOp>) {
    forall a, b :: 0 <= a < b < |ops| ==> KeyLess(ops[a].key, ops[b].key)
  }

  lemma {:induction false} RestIncreases(target: seq<IpKey>, current: seq<IpKey>, i: nat, j: nat)
    requires Sorted(target) && Sorted(current)
    ensures Increasing(Rest(target, current, i, j))
    decreases Left(target, i) + Left(current, j)
  {
    var m := NextMove(target, current, i, j);
    if !m.Stop? {
      RestIncreases(target, current, m.i, m.j);
      if m.Out? {
        HeadBelow(target, current, m.i, m.j, m.op.key);
      }
    }
  }

  lemma HeadBelow(target: seq<IpKey>, current: seq<IpKey>, i: nat, j: nat, k: IpKey)
    requires Sorted(target) && Sorted(current)
    requires (i < |target| ==> KeyLess(k, target[i])) && (j < |current| ==> KeyLess(k, current[j]))
    ensures forall op :: op in Rest(target, current, i, j) ==> KeyLess(k, op.key)
  {
    forall op | op in Rest(target, current, i, j) ensures KeyLess(k, op.key) {
      RestIsDifference(target, current, i, j, op);
      if InTail(target, i, op.key) {
        var n :| i <= n < |target| && target[n] == op.key;
        assert n == i || KeyLess(target[i], target[n]);
      } else {
        var n :| j <= n < |current| && current[n] == op.key;
        assert n == j || KeyLess(current[j], current[n]);
      }
    }
  }

  // -------------------------------------------------------------------
  // Whole resyncs, cut in any way
  // -------------------------------------------------------------------

  /** The chunks produced for a list of room sizes, one after the other. */
  function AllChunks(target: seq<IpKey>, current: seq<IpKey>, i: nat, j: nat, rooms: seq<nat>): (c: Chunk)
    ensures i <= |target| && j <= |current| ==> c.targetIdx <= |target| && c.currentIdx <= |current|
    decreases |rooms|
  {
    if rooms == [] then Chunk([], i, j)
    else
      var c := NextChunk(target, current, i, j, rooms[0]);
      var d := AllChunks(target, current, c.targetIdx, c.currentIdx, rooms[1..]);
      Chunk(c.ops + d.ops, d.targetIdx, d.currentIdx)
  }

  lemma {:induction false} ChunksArePrefix(target: seq<IpKey>, current: seq<IpKey>, i: nat, j: nat, rooms: seq<nat>)
    ensures var c := AllChunks(target, current, i, j, rooms);
            c.ops + Rest(target, current, c.targetIdx, c.currentIdx) == Rest(target, current, i, j)
    decreases |rooms|
  {
    if rooms != [] {
      var c := NextChunk(target, current, i, j, rooms[0]);
      var d := AllChunks(target, current, c.targetIdx, c.currentIdx, rooms[1..]);
      ChunkIsPrefix(target, current, i, j, rooms[0]);
      ChunksArePrefix(target, current, c.targetIdx, c.currentIdx, rooms[1..]);
      Regroup(c.ops, d.ops, Rest(target, current, d.targetIdx, d.currentIdx));
    }
  }

  lemma TailOfAll(s: seq<IpKey>, k: IpKey)
    ensures InTail(s, 0, k) <==> k in KeySet(s)
  {
  }

  lemma {:induction false} ApplyAllAt(s: set<IpKey>, ops: seq<RuleOp>, k: IpKey)
    requires Increasing(ops)
    ensures k in ApplyAll(s, ops) <==> (RuleOp(k, Add) in ops || (k in s && RuleOp(k, Delete) !in ops))
  {
    if ops != [] {
      var n := |ops| - 1;
      ApplyAllAt(s, ops[..n], k);
      assert ops == ops[..n] + [ops[n]];
      if ops[n].key == k {
        assert forall a :: 0 <= a < n ==> ops[a].key != k;
      }
    }
  }

  /**
   For sorted inputs and any sequence of chunk sizes: once a further chunk of
   positive size comes back empty, the chunks so far are a strictly increasing
   list whose adds are target minus current, whose deletes are current minus
   target, and which turns current into target.
   */
  lemma ChunkedDiffIsSetDifference(target: seq<IpKey>, current: seq<IpKey>, rooms: seq<nat>, room: nat)
    requires Sorted(target) && Sorted(current) && room > 0
    requires var c := AllChunks(target, current, 0, 0, rooms);
             NextChunk(target, current, c.targetIdx, c.currentIdx, room).ops == []
    ensures var ops := AllChunks(target, current, 0, 0, rooms).ops;
            && Increasing(ops)
            && (forall k :: RuleOp(k, Add) in ops <==> k in KeySet(target) - KeySet(current))
            && (forall k :: RuleOp(k, Delete) in ops <==> k in KeySet(current) - KeySet(target))
            && ApplyAll(KeySet(current), ops) == KeySet(target)
  {
    var c := AllChunks(target, current, 0, 0, rooms);
    ChunksArePrefix(target, current, 0, 0, rooms);
    EmptyChunkMeansDone(target, current, c.targetIdx, c.currentIdx, room);
    var ops := c.ops;
    assert ops == Rest(target, current, 0, 0);
    RestIncreases(target, current, 0, 0);
    forall k ensures RuleOp(k, Add) in ops <==> k in KeySet(target) - KeySet(current)
             ensures RuleOp(k, Delete) in ops <==> k in KeySet(current) - KeySet(target)
             ensures k in ApplyAll(KeySet(current), ops) <==> k in KeySet(target)
    {
      RestIsDifference(target, current, 0, 0, RuleOp(k, Add));
      RestIsDifference(target, current, 0, 0, RuleOp(k, Delete));
      TailOfAll(target, k);
      TailOfAll(current, k);
      ApplyAllAt(KeySet(current), ops, k);
    }
  }

  /** Positive chunk sizes always get there: the emitted total grows by each room until the work is done. */
  lemma {:induction false} ChunksMakeProgress(target: seq<IpKey>, current: seq<IpKey>, i: nat, j: nat, rooms: seq<nat>)
    requires forall n :: 0 <= n < |rooms| ==> rooms[n] > 0
    ensures var c := AllChunks(target, current, i, j, rooms);
            |c.ops| >= |rooms| || Rest(target, current, c.targetIdx, c.currentIdx) == []
    decreases |rooms|
  {
    if rooms != [] {
      var c := NextChunk(target, current, i, j, rooms[0]);
      ChunkIsPrefix(target, current, i, j, rooms[0]);
      ChunksMakeProgress(target, current, c.targetIdx, c.currentIdx, rooms[1..]);
      if c.ops == [] {
        EmptyChunkMeansDone(target, current, i, j, rooms[0]);
        ChunksArePrefix(target, current, c.targetIdx, c.currentIdx, rooms[1..]);
      }
    }
  }

  // -------------------------------------------------------------------
  // Cleanup deletes
  // -------------------------------------------------------------------

  function Deletes(keys: seq<IpKey>): seq<RuleOp> {
    seq(|keys|, i requires 0 <= i < |keys| => RuleOp(keys[i], Delete))
  }

  function CleanupEnd(keys: seq<IpKey>, offset: nat, room: nat): (e: nat)
    ensures offset <= |keys| ==> offset <= e <= |keys|
  {
    if room == 0 || offset >= |keys| then offset
    else if offset + room < |keys| then offset + room else |keys|
  }

  function CleanupChunk(keys: seq<IpKey>, offset: nat, room: nat): seq<RuleOp> {
    if offset <= |keys| then Deletes(keys[offset..CleanupEnd(keys, offset, room)]) else []
  }

  // -------------------------------------------------------------------
  // The in-place fill routines
  // -------------------------------------------------------------------

  /** What has been put out plus what the merge still yields from the cursors is the chunk asked for. */
  ghost predicate Owes(target: seq<IpKey>, current: seq<IpKey>, i: nat, j: nat, maxOps: nat, out: seq<RuleOp>,
                       whole: Chunk)
  {
    && |out| <= maxOps
    && var c := NextChunk(target, current, i, j, maxOps - |out|);
       whole == Chunk(out + c.ops, c.targetIdx, c.currentIdx)
  }

  lemma OwesStep(target: seq<IpKey>, current: seq<IpKey>, i: nat, j: nat, maxOps: nat, out: seq<RuleOp>, whole: Chunk)
    requires Owes(target, current, i, j, maxOps, out, whole)
    requires |out| < maxOps
    ensures var m := NextMove(target, current, i, j);
            match m
            case Stop => whole == Chunk(out, i, j)
            case Skip(i', j') => Owes(target, current, i', j', maxOps, out, whole)
            case Out(op, i', j') => Owes(target, current, i', j', maxOps, out + [op], whole)
  {
    var m := NextMove(target, current, i, j);
    if m.Out? {
      var c := NextChunk(target, current, m.i, m.j, maxOps - |out| - 1);
      assert out + ([m.op] + c.ops) == (out + [m.op]) + c.ops;
    }
  }

  method FillResyncChunk(target: seq<IpKey>, current: seq<IpKey>, targetIdx: nat, currentIdx: nat, maxOps: nat)
    returns (out: seq<RuleOp>, i: nat, j: nat)
    ensures Chunk(out, i, j) == NextChunk(target, current, targetIdx, currentIdx, maxOps)
  {
    out, i, j := [], targetIdx, currentIdx;
    if maxOps == 0 {
      return;
    }
    ghost var whole := NextChunk(target, current, targetIdx, currentIdx, maxOps);
    while |out| < maxOps && i < |target| && j < |current|
      invariant Owes(target, current, i, j, maxOps, out, whole)
      decreases Left(target, i) + Left(current, j)
    {
      OwesStep(target, current, i, j, maxOps, out, whole);
      var targetKey := target[i];
      var currentKey := current[j];
      if KeyLess(targetKey, currentKey) {
        out := out + [RuleOp(targetKey, Add)];
        i := i + 1;
      } else if KeyLess(currentKey, targetKey) {
        out := out + [RuleOp(currentKey, Delete)];
        j := j + 1;
      } else {
        i := i + 1;
        j := j + 1;
      }
    }
    while |out| < maxOps && i < |target|
      invariant Owes(target, current, i, j, maxOps, out, whole)
      invariant |out| >= maxOps || i >= |target| || j >= |current|
    {
      OwesStep(target, current, i, j, maxOps, out, whole);
      out := out + [RuleOp(target[i], Add)];
      i := i + 1;
    }
    while |out| < maxOps && j < |current|
      invariant Owes(target, current, i, j, maxOps, out, whole)
      invariant |out| >= maxOps || i >= |target|
    {
      OwesStep(target, current, i, j, maxOps, out, whole);
      out := out + [RuleOp(current[j], Delete)];
      j := j + 1;
    }
    if |out| < maxOps {
      OwesStep(target, current, i, j, maxOps, out, whole);
    }
  }

  method FillTrackedCleanupChunk(tracked: seq<IpKey>, offset: nat, maxOps: nat)
    returns (out: seq<RuleOp>, next: nat)
    ensures out == CleanupChunk(tracked, offset, maxOps)
    ensures next == CleanupEnd(tracked, offset, maxOps)
  {
    out, next := [], offset;
    if maxOps == 0 || offset >= |tracked| {
      return;
    }
    var end := if offset + maxOps < |tracked| then offset + maxOps else |tracked|;
    while next < end
      invariant offset <= next <= end
      invariant out == Deletes(tracked[offset..next])
    {
      out := out + [RuleOp(tracked[next], Delete)];
      next := next + 1;
    }
  }
}
