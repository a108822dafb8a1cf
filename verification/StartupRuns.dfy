/**
 Startup cleanup over whole runs: which rules it deletes, and how often it is tried.
 */
module StartupRuns {
  import opened IpKeys
  import opened AckTracking
  import opened ResyncDiff
  import opened Reactor
  import opened Jobs
  import opened Invariants
  import opened Theorems
  import opened Ledger

  function FamilyCount(o: Options): nat {
    if o.ipv6 then 2 else 1
  }

  function Upto(n: nat): seq<nat> {
    seq(n, i => i)
  }

  // -------------------------------------------------------------------
  // What an attempt has done so far
  // -------------------------------------------------------------------

  /**
   Of the keys listed, `keys` are those of the current family.  While a family is
   collected the deletes of all earlier ones are sent; while it is worked off, the
   deletes up to the cursor as well.
   */
  ghost predicate AttemptAt(o: Options, c: Control, s: StartupBook, sent: seq<RuleOp>) {
    InStartup(c.job) ==>
      var keys := c.startup.keys;
      && |keys| <= |s.listed| && keys == s.listed[|s.listed| - |keys|..]
      && match c.job
         case DumpCollect(idx, dumpSeq, _, _) =>
           && idx <= FamilyCount(o) && s.families == Upto(idx)
           && (if dumpSeq.Some? then idx < FamilyCount(o) else keys == [])
           && sent == Deletes(s.listed[..|s.listed| - |keys|])
         case DumpApply(offset, _, _, _, next) =>
           && 0 < next <= FamilyCount(o) && s.families == Upto(next) && offset <= |keys|
           && sent == Deletes(s.listed[..|s.listed| - |keys| + offset])
         case _ => true
  }

  /** The last attempt that came to its end has deleted exactly what its dumps listed, in every family. */
  ghost predicate EndedWell(o: Options, last: Option<StartupEnd>) {
    last.Some? ==> Ops(last.value.sent) == Deletes(last.value.listed) && last.value.families == Upto(FamilyCount(o))
  }

  ghost predicate StartupInv(o: Options, w: World, b: Books) {
    AttemptAt(o, w.ctl, b.startup, Ops(b.job)) && EndedWell(o, b.startup.last)
  }

  lemma OpsConcat(a: seq<Sent>, b: seq<Sent>)
    ensures Ops(a + b) == Ops(a) + Ops(b)
  {
  }

  lemma OpsNumbered(ops: seq<RuleOp>, first: nat)
    ensures Ops(Numbered(ops, first)) == ops
  {
  }

  lemma DeletesConcat(a: seq<IpKey>, b: seq<IpKey>)
    ensures Deletes(a + b) == Deletes(a) + Deletes(b)
  {
  }

  lemma UptoNext(n: nat)
    ensures Upto(n) + [n] == Upto(n + 1)
  {
  }

  /** Outside startup cleanup a turn that does not begin one leaves its book alone. */
  lemma OtherTurn(o: Options, w: World, a: Action, w': World, b: Books)
    requires StartupInv(o, w, b) && !InStartup(w.ctl.job) && !InStartup(w'.ctl.job)
    ensures StartupInv(o, w', Note(o, w, a, w', b))
  {
  }

  /** Steps that leave the job alone send nothing for it. */
  lemma OtherStep(o: Options, w: World, a: Action, w': World, b: Books)
    requires StartupInv(o, w, b) && !a.Maintain? && w'.ctl.job == w.ctl.job && w'.ctl.startup == w.ctl.startup
    requires SentNow(w, w') == []
    ensures StartupInv(o, w', Note(o, w, a, w', b))
  {
    assert b.job + [] == b.job;
  }

  lemma IdleBegins(o: Options, w: World, budget: nat, t: Tick, b: Books)
    requires StartupInv(o, w, b) && w.ctl.job.Idle? && w.flow.inflight.None?
    ensures var w' := IdleTurn(w, budget, t).world; StartupInv(o, w', Note(o, w, Maintain(budget, t), w', b))
  {
    var w' := IdleTurn(w, budget, t).world;
    if !w'.ctl.job.DumpCollect? {
      OtherTurn(o, w, Maintain(budget, t), w', b);
    } else {
      assert Ops([]) == [] && Deletes([]) == [] && Upto(0) == [];
    }
  }

  /** Targets read from a dump join the keys of the current family. */
  lemma ReadMore(listed: seq<IpKey>, keys: seq<IpKey>, targets: seq<IpKey>)
    requires |keys| <= |listed| && keys == listed[|listed| - |keys|..]
    ensures var more := listed + targets;
            && |keys + targets| <= |more| && keys + targets == more[|more| - |keys + targets|..]
            && more[..|more| - |keys + targets|] == listed[..|listed| - |keys|]
  {
  }

  /** What is seen when a dump is read. */
  lemma CollectReads(o: Options, w: World, budget: nat, t: Tick, b: Books)
    requires w.ctl.job.DumpCollect? && w.flow.inflight.None? && ReadsDump(o, w, Maintain(budget, t))
    requires !t.poll.DumpFailed?
    ensures var a, w' := Maintain(budget, t), CollectTurn(o, w, budget, t).world;
            var idx := w.ctl.job.familyIdx;
            var keys := w.ctl.startup.keys + t.targets;
            var s := Note(o, w, a, w', b).startup;
            && w'.ctl.startup.keys == keys && s.listed == b.startup.listed + t.targets && s.last == b.startup.last
            && s.families == (if t.poll.DumpDone? then b.startup.families + [idx] else b.startup.families)
            && Ops(Note(o, w, a, w', b).job) == Ops(b.job)
            && (t.poll.DumpMore? ==>
                  w'.ctl.job.DumpCollect? && w'.ctl.job.familyIdx == idx && w'.ctl.job.dumpSeq.Some?)
            && (t.poll.DumpDone? && keys == [] ==>
                  w'.ctl.job.DumpCollect? && w'.ctl.job.familyIdx == idx + 1 && w'.ctl.job.dumpSeq.None?)
            && (t.poll.DumpDone? && keys != [] ==>
                  w'.ctl.job.DumpApply? && w'.ctl.job.offset == 0 && w'.ctl.job.nextFamilyIdx == idx + 1)
  {
    assert b.job + [] == b.job;
  }

  /** What is seen when there is no family left, and when a dump cannot be started or read. */
  lemma CollectEnds(o: Options, w: World, budget: nat, t: Tick, b: Books)
    requires w.ctl.job.DumpCollect? && w.flow.inflight.None?
    requires ReadsDump(o, w, Maintain(budget, t)) ==> t.poll.DumpFailed?
    requires NextFamily(w.ctl.job.familyIdx, o.ipv6).None? ==> w.ctl.startup.keys == []
    ensures var a, w' := Maintain(budget, t), CollectTurn(o, w, budget, t).world;
            var s := Note(o, w, a, w', b).startup;
            && w'.ctl.job.Idle?
            && s.last == if NextFamily(w.ctl.job.familyIdx, o.ipv6).None?
                         then Some(StartupEnd(b.startup.listed, b.startup.families, b.job)) else b.startup.last
  {
  }

  lemma AttemptReads(o: Options, c: Control, s: StartupBook, sent: seq<RuleOp>, c': Control, s': StartupBook,
                     targets: seq<IpKey>, done: bool)
    requires AttemptAt(o, c, s, sent) && c.job.DumpCollect? && c.job.familyIdx < FamilyCount(o)
    requires c'.startup.keys == c.startup.keys + targets && s'.listed == s.listed + targets
    requires s'.families == if done then s.families + [c.job.familyIdx] else s.families
    requires if !done then c'.job.DumpCollect? && c'.job.familyIdx == c.job.familyIdx && c'.job.dumpSeq.Some?
             else if c'.startup.keys == []
             then c'.job.DumpCollect? && c'.job.familyIdx == c.job.familyIdx + 1 && c'.job.dumpSeq.None?
             else c'.job.DumpApply? && c'.job.offset == 0 && c'.job.nextFamilyIdx == c.job.familyIdx + 1
    ensures AttemptAt(o, c', s', sent)
  {
    ReadMore(s.listed, c.startup.keys, targets);
    UptoNext(c.job.familyIdx);
  }

  lemma CollectBooks(o: Options, w: World, budget: nat, t: Tick, b: Books)
    requires StartupInv(o, w, b) && w.ctl.job.DumpCollect? && w.flow.inflight.None?
    ensures var w' := CollectTurn(o, w, budget, t).world; StartupInv(o, w', Note(o, w, Maintain(budget, t), w', b))
  {
    var w' := CollectTurn(o, w, budget, t).world;
    if ReadsDump(o, w, Maintain(budget, t)) && !t.poll.DumpFailed? {
      CollectReads(o, w, budget, t, b);
      AttemptReads(o, w.ctl, b.startup, Ops(b.job), w'.ctl, Note(o, w, Maintain(budget, t), w', b).startup,
                   t.targets, t.poll.DumpDone?);
    } else {
      CollectEnds(o, w, budget, t, b);
      assert b.startup.listed[..|b.startup.listed|] == b.startup.listed;
    }
  }

  /** The cursor moves to the end of the chunk that is sent, and no further. */
  lemma ChunkExtends(listed: seq<IpKey>, keys: seq<IpKey>, offset: nat, room: nat)
    requires |keys| <= |listed| && keys == listed[|listed| - |keys|..] && offset <= |keys| && room > 0
    ensures var d := |listed| - |keys|;
            var next := CleanupEnd(keys, offset, room);
            && Deletes(listed[..d + offset]) + CleanupChunk(keys, offset, room) == Deletes(listed[..d + next])
            && (CleanupChunk(keys, offset, room) == [] <==> offset == |keys|)
  {
    var d := |listed| - |keys|;
    var next := CleanupEnd(keys, offset, room);
    assert keys[offset..next] == listed[d + offset..d + next];
    assert listed[..d + next] == listed[..d + offset] + listed[d + offset..d + next];
    DeletesConcat(listed[..d + offset], listed[d + offset..d + next]);
  }

  /** What is seen when the list of a family is worked off. */
  lemma DumpChunkEnds(o: Options, w: World, summary: Summary, left: nat, t: Tick, a: Action, b: Books)
    requires a.Maintain? && a.tick == t && w.ctl.job.DumpApply? && w.flow.inflight.None?
    requires CleanupChunk(w.ctl.startup.keys, w.ctl.job.offset, ChunkRoom(o, left)) == []
    ensures var w' := DumpChunkTurn(o, w, summary, left, t).world;
            var n, s := Note(o, w, a, w', b), b.startup;
            && w'.ctl.startup.keys == [] && n.startup.listed == s.listed && n.startup.families == s.families
            && Ops(n.job) == Ops(b.job)
            && if w.ctl.job.nextFamilyIdx < FamilyCount(o)
               then w'.ctl.job.DumpCollect? && w'.ctl.job.familyIdx == w.ctl.job.nextFamilyIdx
                    && w'.ctl.job.dumpSeq.None? && n.startup.last == s.last
               else w.ctl.job.nextFamilyIdx > 0 ==>
                    w'.ctl.job.Idle? && n.startup.last == Some(StartupEnd(s.listed, s.families, b.job))
  {
    assert b.job + [] == b.job;
  }

  /** What is seen when a chunk of it is sent, or the send breaks off. */
  lemma DumpChunkSends(o: Options, w: World, summary: Summary, left: nat, t: Tick, a: Action, b: Books)
    requires a.Maintain? && a.tick == t && w.ctl.job.DumpApply? && w.flow.inflight.None?
    requires CleanupChunk(w.ctl.startup.keys, w.ctl.job.offset, ChunkRoom(o, left)) != []
    ensures var w' := DumpChunkTurn(o, w, summary, left, t).world;
            var n, s, j := Note(o, w, a, w', b), b.startup, w.ctl.job;
            var chunk := CleanupChunk(w.ctl.startup.keys, j.offset, ChunkRoom(o, left));
            && n.startup.listed == s.listed && n.startup.families == s.families && n.startup.last == s.last
            && if t.send.ok
               then w'.ctl.startup == w.ctl.startup && Ops(n.job) == Ops(b.job) + chunk
                    && w'.ctl.job.DumpApply? && w'.ctl.job.nextFamilyIdx == j.nextFamilyIdx
                    && w'.ctl.job.offset == CleanupEnd(w.ctl.startup.keys, j.offset, ChunkRoom(o, left))
               else w'.ctl.job.Idle?
  {
    var chunk := CleanupChunk(w.ctl.startup.keys, w.ctl.job.offset, ChunkRoom(o, left));
    OpsConcat(b.job, Numbered(chunk, w.seqs.issued));
    OpsNumbered(chunk, w.seqs.issued);
  }

  lemma AttemptSends(o: Options, c: Control, s: StartupBook, sent: seq<RuleOp>, c': Control, s': StartupBook, room: nat)
    requires AttemptAt(o, c, s, sent) && c.job.DumpApply? && c'.job.DumpApply? && c'.startup == c.startup && room > 0
    requires c'.job.nextFamilyIdx == c.job.nextFamilyIdx && s'.listed == s.listed && s'.families == s.families
    requires c'.job.offset == CleanupEnd(c.startup.keys, c.job.offset, room)
    ensures AttemptAt(o, c', s', sent + CleanupChunk(c.startup.keys, c.job.offset, room))
  {
    ChunkExtends(s.listed, c.startup.keys, c.job.offset, room);
  }

  lemma AttemptWorkedOff(o: Options, c: Control, s: StartupBook, sent: seq<RuleOp>, room: nat)
    requires AttemptAt(o, c, s, sent) && c.job.DumpApply? && room > 0
    requires CleanupChunk(c.startup.keys, c.job.offset, room) == []
    ensures sent == Deletes(s.listed) && s.families == Upto(c.job.nextFamilyIdx)
    ensures 0 < c.job.nextFamilyIdx <= FamilyCount(o)
  {
    ChunkExtends(s.listed, c.startup.keys, c.job.offset, room);
    assert s.listed[..|s.listed|] == s.listed;
  }

  lemma AttemptNextFamily(o: Options, c': Control, s': StartupBook, sent: seq<RuleOp>)
    requires c'.job.DumpCollect? && c'.job.familyIdx <= FamilyCount(o) && c'.job.dumpSeq.None? && c'.startup.keys == []
    requires s'.families == Upto(c'.job.familyIdx) && sent == Deletes(s'.listed)
    ensures AttemptAt(o, c', s', sent)
  {
    assert s'.listed[..|s'.listed|] == s'.listed && s'.listed[|s'.listed|..] == [];
  }

  lemma DumpChunkBooks(o: Options, w: World, summary: Summary, left: nat, t: Tick, a: Action, b: Books)
    requires a.Maintain? && a.tick == t && StartupInv(o, w, b) && w.ctl.job.DumpApply? && w.flow.inflight.None?
    ensures var w' := DumpChunkTurn(o, w, summary, left, t).world; StartupInv(o, w', Note(o, w, a, w', b))
  {
    var w' := DumpChunkTurn(o, w, summary, left, t).world;
    var n, room := Note(o, w, a, w', b), ChunkRoom(o, left);
    if CleanupChunk(w.ctl.startup.keys, w.ctl.job.offset, room) == [] {
      DumpChunkEnds(o, w, summary, left, t, a, b);
      AttemptWorkedOff(o, w.ctl, b.startup, Ops(b.job), room);
      if w'.ctl.job.DumpCollect? {
        AttemptNextFamily(o, w'.ctl, n.startup, Ops(n.job));
      }
    } else {
      DumpChunkSends(o, w, summary, left, t, a, b);
      if t.send.ok {
        AttemptSends(o, w.ctl, b.startup, Ops(b.job), w'.ctl, n.startup, room);
      }
    }
  }

  /** Collecting a result changes nothing an observer of startup cleanup looks at. */
  lemma DumpApplyBooks(o: Options, w: World, budget: nat, t: Tick, b: Books)
    requires StartupInv(o, w, b) && w.ctl.job.DumpApply? && w.flow.inflight.None?
    ensures var w' := DumpApplyTurn(o, w, budget, t).world; StartupInv(o, w', Note(o, w, Maintain(budget, t), w', b))
  {
    var a, j := Maintain(budget, t), w.ctl.job;
    if CanProceed(w, j.waiting) {
      var w1 := AfterCollect(w, j.waiting);
      var w' := DumpApplyTurn(o, w, budget, t).world;
      DumpChunkBooks(o, w1, AddUp(j.summary, Collected(w, j.waiting)), BudgetAfter(w, j.waiting, budget), t, a, b);
      assert Note(o, w1, a, w', b).job == Note(o, w, a, w', b).job;
      assert Note(o, w1, a, w', b).startup == Note(o, w, a, w', b).startup;
    } else {
      assert b.job + [] == b.job;
    }
  }

  lemma BuildLeaves(o: Options, w: World, budget: nat, t: Tick)
    requires w.ctl.job.ResyncBuild?
    ensures !InStartup(BuildTurn(o, w, budget, t).world.ctl.job)
  {
  }

  lemma ResyncLeaves(o: Options, w: World, budget: nat, t: Tick)
    requires w.ctl.job.ResyncApply?
    ensures !InStartup(ResyncTurn(o, w, budget, t).world.ctl.job)
  {
  }

  lemma CleanupLeaves(o: Options, w: World, budget: nat, t: Tick)
    requires w.ctl.job.CleanupTracked?
    ensures !InStartup(CleanupTurn(o, w, budget, t).world.ctl.job)
  {
  }

  lemma TurnBooks(o: Options, w: World, budget: nat, t: Tick, b: Books)
    requires StartupInv(o, w, b) && w.flow.inflight.None?
    ensures var w' := JobTurn(o, w, budget, t).world; StartupInv(o, w', Note(o, w, Maintain(budget, t), w', b))
  {
    var w' := JobTurn(o, w, budget, t).world;
    match w.ctl.job
    case Idle => IdleBegins(o, w, budget, t, b);
    case DumpCollect(_, _, _, _) => CollectBooks(o, w, budget, t, b);
    case DumpApply(_, _, _, _, _) => DumpApplyBooks(o, w, budget, t, b);
    case ResyncBuild(_) => BuildLeaves(o, w, budget, t); OtherTurn(o, w, Maintain(budget, t), w', b);
    case ResyncApply(_, _, _, _, _) => ResyncLeaves(o, w, budget, t); OtherTurn(o, w, Maintain(budget, t), w', b);
    case CleanupTracked(_, _, _, _) => CleanupLeaves(o, w, budget, t); OtherTurn(o, w, Maintain(budget, t), w', b);
  }

  lemma StepLeavesJob(o: Options, w: World, a: Action)
    requires Enabled(o, w, a) && !a.Maintain?
    ensures var w' := Step(o, w, a);
            w'.ctl.job == w.ctl.job && w'.ctl.startup == w.ctl.startup && SentNow(w, w') == []
  {
  }

  lemma StepBooks(o: Options, w: World, a: Action, b: Books)
    requires StartupInv(o, w, b) && Enabled(o, w, a)
    ensures var w' := Step(o, w, a); StartupInv(o, w', Note(o, w, a, w', b))
  {
    match a
    case Maintain(budget, t) => TurnBooks(o, w, budget, t, b);
    case _ => StepLeavesJob(o, w, a); OtherStep(o, w, a, Step(o, w, a), b);
  }

  lemma {:induction false} RunStartup(o: Options, start: World, actions: seq<Action>, w: World, b: Books)
    requires Initial(start) && Traces(o, start, actions, w, b)
    ensures StartupInv(o, w, b)
    decreases |actions|
  {
    if actions != [] {
      var n := |actions| - 1;
      var mid, b0 :| Traces(o, start, actions[..n], mid, b0) && Continues(o, mid, actions[n], w)
                     && b == Note(o, mid, actions[n], w, b0);
      RunStartup(o, start, actions[..n], mid, b0);
      StepBooks(o, mid, actions[n], b0);
    }
  }

  /**
   A startup cleanup that comes to its end without a failure has sent exactly one
   delete for each target its dumps listed, in the order listed, and has dumped
   IPv4 and then, exactly if it is enabled, IPv6.
   */
  lemma StartupIsExact(o: Options, start: World, actions: seq<Action>, w: World, b: Books)
    requires Initial(start) && Traces(o, start, actions, w, b) && b.startup.last.Some?
    ensures Ops(b.startup.last.value.sent) == Deletes(b.startup.last.value.listed)
    ensures b.startup.last.value.families == if o.ipv6 then [0, 1] else [0]
  {
    RunStartup(o, start, actions, w, b);
    assert Upto(2) == [0, 1] && Upto(1) == [0];
  }

  // -------------------------------------------------------------------
  // Attempts
  // -------------------------------------------------------------------

  /** How many attempts there were, against the daemon's own count of retries. */
  ghost predicate Tried(c: Control, s: StartupBook) {
    && s.begun <= 4
    && (InStartup(c.job) ==> !c.startup.due && s.begun == c.startup.retryCount + 1)
    && (c.startup.due ==>
          && s.begun == c.startup.retryCount <= 3
          && (s.begun > 0 ==> s.endedAt.Some? && c.startup.retryDeadline == Some(s.endedAt.value + 500)))
  }

  lemma IdleTries(o: Options, w: World, budget: nat, t: Tick, b: Books)
    requires Tried(w.ctl, b.startup) && w.ctl.job.Idle?
    ensures var w' := IdleTurn(w, budget, t).world; Tried(w'.ctl, Note(o, w, Maintain(budget, t), w', b).startup)
  {
  }

  lemma CollectTries(o: Options, w: World, budget: nat, t: Tick, b: Books)
    requires Tried(w.ctl, b.startup) && w.ctl.job.DumpCollect?
    ensures var w' := CollectTurn(o, w, budget, t).world; Tried(w'.ctl, Note(o, w, Maintain(budget, t), w', b).startup)
  {
  }

  lemma DumpTries(o: Options, w: World, budget: nat, t: Tick, b: Books)
    requires Tried(w.ctl, b.startup) && w.ctl.job.DumpApply?
    ensures var w' := DumpApplyTurn(o, w, budget, t).world;
            Tried(w'.ctl, Note(o, w, Maintain(budget, t), w', b).startup)
  {
  }

  /** Nothing else makes a startup cleanup due or begins one. */
  lemma OtherTries(o: Options, w: World, a: Action, w': World, b: Books)
    requires Tried(w.ctl, b.startup) && !w.ctl.job.Idle? && !InStartup(w.ctl.job)
    requires !InStartup(w'.ctl.job) && w'.ctl.startup == w.ctl.startup
    ensures Tried(w'.ctl, Note(o, w, a, w', b).startup)
  {
  }

  lemma BuildKeepsStartup(o: Options, w: World, budget: nat, t: Tick)
    requires w.ctl.job.ResyncBuild?
    ensures BuildTurn(o, w, budget, t).world.ctl.startup == w.ctl.startup
  {
  }

  lemma ResyncKeepsStartup(o: Options, w: World, budget: nat, t: Tick)
    requires w.ctl.job.ResyncApply?
    ensures ResyncTurn(o, w, budget, t).world.ctl.startup == w.ctl.startup
  {
  }

  lemma CleanupKeepsStartup(o: Options, w: World, budget: nat, t: Tick)
    requires w.ctl.job.CleanupTracked?
    ensures CleanupTurn(o, w, budget, t).world.ctl.startup == w.ctl.startup
  {
  }

  lemma TurnTries(o: Options, w: World, budget: nat, t: Tick, b: Books)
    requires Tried(w.ctl, b.startup)
    ensures var w' := JobTurn(o, w, budget, t).world; Tried(w'.ctl, Note(o, w, Maintain(budget, t), w', b).startup)
  {
    var a, w' := Maintain(budget, t), JobTurn(o, w, budget, t).world;
    match w.ctl.job
    case Idle => IdleTries(o, w, budget, t, b);
    case DumpCollect(_, _, _, _) => CollectTries(o, w, budget, t, b);
    case DumpApply(_, _, _, _, _) => DumpTries(o, w, budget, t, b);
    case ResyncBuild(_) =>
      BuildLeaves(o, w, budget, t);
      BuildKeepsStartup(o, w, budget, t);
      OtherTries(o, w, a, w', b);
    case ResyncApply(_, _, _, _, _) =>
      ResyncLeaves(o, w, budget, t);
      ResyncKeepsStartup(o, w, budget, t);
      OtherTries(o, w, a, w', b);
    case CleanupTracked(_, _, _, _) =>
      CleanupLeaves(o, w, budget, t);
      CleanupKeepsStartup(o, w, budget, t);
      OtherTries(o, w, a, w', b);
  }

  lemma StepTries(o: Options, w: World, a: Action, b: Books)
    requires Tried(w.ctl, b.startup) && Enabled(o, w, a)
    ensures var w' := Step(o, w, a); Tried(w'.ctl, Note(o, w, a, w', b).startup)
  {
    match a
    case Maintain(budget, t) => TurnTries(o, w, budget, t, b);
    case _ => StepLeavesJob(o, w, a);
  }

  /** A startup cleanup is begun at most four times in the life of the daemon. */
  lemma {:induction false} StartupTriesAreFew(o: Options, start: World, actions: seq<Action>, w: World, b: Books)
    requires Initial(start) && Traces(o, start, actions, w, b)
    ensures b.startup.begun <= 4 && Tried(w.ctl, b.startup)
    decreases |actions|
  {
    if actions != [] {
      var n := |actions| - 1;
      var mid, b0 :| Traces(o, start, actions[..n], mid, b0) && Continues(o, mid, actions[n], w)
                     && b == Note(o, mid, actions[n], w, b0);
      StartupTriesAreFew(o, start, actions[..n], mid, b0);
      StepTries(o, mid, actions[n], b0);
    }
  }

  /** It is begun again only 500 ms or more after the last attempt ended, and only if that attempt failed. */
  lemma RetryWaits(o: Options, start: World, actions: seq<Action>, w: World, b: Books, budget: nat, t: Tick)
    requires Initial(start) && Traces(o, start, actions, w, b)
    requires w.ctl.job.Idle? && JobTurn(o, w, budget, t).world.ctl.job.DumpCollect? && b.startup.begun > 0
    ensures b.startup.endedAt.Some? && t.now >= b.startup.endedAt.value + 500 && w.ctl.startup.retryCount == b.startup.begun
  {
    StartupTriesAreFew(o, start, actions, w, b);
  }
}
