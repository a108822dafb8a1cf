/**
 An observer of runs.

 It keeps books by looking on from outside: at the action taken and at the
 worlds before and after it.  Nothing in the reactor reads or writes them, so
 what is proved of them says what the reactor did.
 */
module Ledger {
  import opened IpKeys
  import opened AckTracking
  import opened Reactor

  /** An operation and the number of the message that carried it. */
  datatype Sent = Sent(op: RuleOp, msg: nat)

  /** A startup cleanup that came to its end: what its dumps listed, for which families, and what it sent. */
  datatype StartupEnd = StartupEnd(listed: seq<IpKey>, families: seq<nat>, sent: seq<Sent>)

  /** Startup cleanup: what the current attempt's dumps have listed so far, attempts begun, and when the last one ended. */
  datatype StartupBook = StartupBook(listed: seq<IpKey>, families: seq<nat>, begun: nat, endedAt: Option<nat>,
                                     last: Option<StartupEnd>)

  /** Requests for a resync that no turn has taken up, losses that no finished resync has made good, a request to stop. */
  datatype Asked = Asked(resync: bool, compensate: bool, stop: bool)

  /**
   The books.
     lost     messages of batches whose deadline passed
     job      what the current maintenance job has sent
     closed   what shutdown cleanup sent
     resync   what the last finished resync sent
     sentAt   when the batch in flight was sent
     touches  arrivals of events and batch cuts
   */
  datatype Books = Books(lost: set<nat>, job: seq<Sent>, closed: seq<Sent>, resync: seq<Sent>, startup: StartupBook,
                         asked: Asked, sentAt: nat, touches: seq<Touch>)

  const NO_BOOKS := Books({}, [], [], [], StartupBook([], [], 0, None, None),
                          Asked(false, false, false), 0, [])

  function Numbered(ops: seq<RuleOp>, first: nat): (s: seq<Sent>)
    ensures |s| == |ops|
  {
    seq(|ops|, i requires 0 <= i < |ops| => Sent(ops[i], first + i))
  }

  function Ops(log: seq<Sent>): (ops: seq<RuleOp>)
    ensures |ops| == |log|
  {
    seq(|log|, i requires 0 <= i < |log| => log[i].op)
  }

  function Messages(first: nat, n: nat): (r: set<nat>)
    ensures forall m :: m in r <==> first <= m < first + n
  {
    if n == 0 then {} else Messages(first, n - 1) + {first + n - 1}
  }

  // -------------------------------------------------------------------
  // What is seen to happen
  // -------------------------------------------------------------------

  /** A batch has gone into flight. */
  predicate Launches(w: World, w': World) {
    w.flow.inflight.None? && w'.flow.inflight.Some?
  }

  /** The maintenance operations seen to go out. */
  function SentNow(w: World, w': World): seq<Sent> {
    if Launches(w, w') && w'.flow.inflight.value.owner.MaintenanceOwner?
    then Numbered(w'.flow.inflight.value.ops, w.seqs.issued) else []
  }

  /** A job begins, or a resync goes over from its snapshot to its plan. */
  predicate BeginsJob(w: World, w': World) {
    (w.ctl.job.Idle? && !w'.ctl.job.Idle?) || (w.ctl.job.ResyncBuild? && w'.ctl.job.ResyncApply?)
  }

  predicate InStartup(j: Job) {
    j.DumpCollect? || j.DumpApply?
  }

  /** A dump of family j.familyIdx is read: it was started before or starts now. */
  predicate ReadsDump(o: Options, w: World, a: Action) {
    && a.Maintain? && w.ctl.job.DumpCollect?
    && (w.ctl.job.familyIdx == 0 || (w.ctl.job.familyIdx == 1 && o.ipv6))
    && (w.ctl.job.dumpSeq.Some? || a.tick.dumpStarts)
  }

  /** Startup cleanup meets an error: a dump cannot be started or read, or a send breaks off. */
  predicate StartupFails(o: Options, w: World, a: Action, w': World) {
    && a.Maintain?
    && ((&& w.ctl.job.DumpCollect? && (w.ctl.job.familyIdx == 0 || (w.ctl.job.familyIdx == 1 && o.ipv6))
         && (ReadsDump(o, w, a) ==> a.tick.poll.DumpFailed?))
        || (w.ctl.job.DumpApply? && !a.tick.send.ok && w'.seqs.issued > w.seqs.issued))
  }

  predicate EndsStartup(w: World, w': World) {
    InStartup(w.ctl.job) && w'.ctl.job.Idle?
  }

  function NoteStartup(o: Options, w: World, a: Action, w': World, b: StartupBook, sent: seq<Sent>): StartupBook {
    if w.ctl.job.Idle? && w'.ctl.job.DumpCollect? then b.(listed := [], families := [], begun := b.begun + 1)
    else
      var read := ReadsDump(o, w, a) && !a.tick.poll.DumpFailed?;
      var listed := if read then b.listed + a.tick.targets else b.listed;
      var families := if read && a.tick.poll.DumpDone? then b.families + [w.ctl.job.familyIdx] else b.families;
      StartupBook(listed, families, b.begun,
                  if a.Maintain? && EndsStartup(w, w') then Some(a.tick.now) else b.endedAt,
                  if EndsStartup(w, w') && !StartupFails(o, w, a, w') then Some(StartupEnd(listed, families, sent))
                  else b.last)
  }

  /** The world asks for a resync. */
  predicate Asks(w: World, a: Action, w': World) {
    || (a.Signal? && a.resync)
    || Loses(w, a)
    || (a.Maintain? && w.ctl.job.ResyncBuild? && a.tick.snapshot.SnapshotError?)
    || EndsStartup(w, w')
  }

  /** Events may be missing: a message could not be parsed, or a batch of events timed out. */
  predicate Loses(w: World, a: Action) {
    || (a.Route? && !a.fatal && a.parseFailed > 0)
    || (a.Expire? && w.flow.inflight.Some? && w.flow.inflight.value.owner.PendingOwner?)
  }

  function NoteAsked(w: World, a: Action, w': World, b: Asked): Asked {
    Asked(if Asks(w, a, w') then true else if w.ctl.job.Idle? && w'.ctl.job.ResyncBuild? then false else b.resync,
          if Loses(w, a) then true else if w.ctl.job.ResyncApply? && w'.ctl.job.Idle? then false else b.compensate,
          (a.Signal? && !a.resync) || b.stop)
  }

  function NoteTouches(a: Action, w': World, b: seq<Touch>): seq<Touch> {
    if a.Route? && !a.fatal && a.events != [] then b + [Arrival(a.now)]
    else if a.Flush? then b + [Cut(a.flushNow, w'.flow.pending == map[])]
    else b
  }

  function SendTime(a: Action): nat {
    if a.Flush? then a.send.at else if a.Maintain? then a.tick.send.at else 0
  }

  function Note(o: Options, w: World, a: Action, w': World, b: Books): Books {
    Books(if a.Expire? && w.flow.inflight.Some? && |w.flow.inflight.value.ops| <= w.seqs.issued
          then b.lost + Messages(w.seqs.issued - |w.flow.inflight.value.ops|, |w.flow.inflight.value.ops|) else b.lost,
          (if BeginsJob(w, w') then [] else b.job) + SentNow(w, w'),
          if w'.ctl.close.done && !w.ctl.close.done then (if w.ctl.job.CleanupTracked? then b.job else []) else b.closed,
          if w.ctl.job.ResyncApply? && w'.ctl.job.Idle? then b.job else b.resync,
          NoteStartup(o, w, a, w', b.startup, b.job),
          NoteAsked(w, a, w', b.asked),
          if Launches(w, w') then SendTime(a) else b.sentAt,
          NoteTouches(a, w', b.touches))
  }

  // -------------------------------------------------------------------
  // Runs with their books
  // -------------------------------------------------------------------

  ghost predicate Continues(o: Options, mid: World, a: Action, w: World) {
    Enabled(o, mid, a) && w == Step(o, mid, a)
  }

  /** A run from an initial world to w, and the books kept of it. */
  ghost predicate Traces(o: Options, start: World, actions: seq<Action>, w: World, b: Books)
    decreases |actions|
  {
    if actions == [] then w == start && b == NO_BOOKS
    else
      var n := |actions| - 1;
      exists mid, b0 :: Traces(o, start, actions[..n], mid, b0) && Continues(o, mid, actions[n], w)
                        && b == Note(o, mid, actions[n], w, b0)
  }

  lemma LastTrace(o: Options, start: World, actions: seq<Action>, mid: World, b0: Books, w: World)
    requires actions != []
    requires var n := |actions| - 1; Traces(o, start, actions[..n], mid, b0) && Continues(o, mid, actions[n], w)
    ensures Traces(o, start, actions, w, Note(o, mid, actions[|actions| - 1], w, b0))
  {
  }

  /** Books are kept of every run ... */
  lemma {:induction false} RunHasBooks(o: Options, start: World, actions: seq<Action>, w: World) returns (b: Books)
    requires Runs(o, start, actions, w)
    ensures Traces(o, start, actions, w, b)
    decreases |actions|
  {
    if actions == [] {
      b := NO_BOOKS;
    } else {
      var n := |actions| - 1;
      var mid :| Runs(o, start, actions[..n], mid) && Enabled(o, mid, actions[n]) && w == Step(o, mid, actions[n]);
      var b0 := RunHasBooks(o, start, actions[..n], mid);
      LastTrace(o, start, actions, mid, b0, w);
      b := Note(o, mid, actions[n], w, b0);
    }
  }

  lemma LastRun(o: Options, start: World, actions: seq<Action>, mid: World, w: World)
    requires actions != []
    requires var n := |actions| - 1; Runs(o, start, actions[..n], mid) && Continues(o, mid, actions[n], w)
    ensures Runs(o, start, actions, w)
  {
  }

  /** ... and of runs only. */
  lemma {:induction false} BooksAreOfRuns(o: Options, start: World, actions: seq<Action>, w: World, b: Books)
    requires Traces(o, start, actions, w, b)
    ensures Runs(o, start, actions, w)
    decreases |actions|
  {
    if actions != [] {
      var n := |actions| - 1;
      var mid, b0 :| Traces(o, start, actions[..n], mid, b0) && Continues(o, mid, actions[n], w)
                     && b == Note(o, mid, actions[n], w, b0);
      BooksAreOfRuns(o, start, actions[..n], mid, b0);
      LastRun(o, start, actions, mid, w);
    }
  }
}
