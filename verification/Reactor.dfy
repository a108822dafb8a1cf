/**
 The reactor as a state machine.

 `World` is everything a run can depend on: what the daemon holds (`flow` for
 addresses and batches, `ctl` for flags and the maintenance job, `seqs` for the
 sequence counter), the kernel's rules and its answers, and a history that only
 the statements about runs read.  Every step is a function of the world and of
 what the environment supplies: the clock, the outcome of socket calls, the
 order a hash map is walked in, dump contents and kernel refusals.
 */
module Reactor {
  import opened IpKeys
  import opened SeqRing
  import opened AckTracking
  import opened ResyncDiff

  datatype Options = Options(batchMax: nat, debounce: nat, debounceMax: nat, ipv6: bool)

  // Times are in milliseconds.
  const ACK_WAIT_TIMEOUT: nat := 5000
  const MAINTENANCE_OP_BUDGET: nat := 256
  const STARTUP_CLEANUP_RETRY_LIMIT: nat := 3
  const STARTUP_CLEANUP_RETRY_DELAY: nat := 500
  const ID_SPAN: nat := 0x1_0000_0000_0000_0000

  // -------------------------------------------------------------------
  // State
  // -------------------------------------------------------------------

  datatype Owner = PendingOwner | MaintenanceOwner

  datatype ApplyResult = ApplyResult(input: nat, noop: nat, added: nat, deleted: nat, failed: nat)

  datatype Inflight = Inflight(batchId: nat, ackDeadline: nat, inputCount: nat, noopPrefilter: nat,
                               firstSeq: Word, tracker: Tracker, owner: Owner, ops: seq<RuleOp>)

  datatype Completed = Completed(batchId: nat, result: ApplyResult, owner: Owner)

  datatype Summary = Summary(removed: nat, noop: nat, failed: nat)

  datatype ResyncResult = ResyncResult(target: nat, current: nat, add: nat, del: nat, failed: nat)

  datatype Job =
    | Idle
    | DumpCollect(familyIdx: nat, dumpSeq: Option<Word>, batchId: nat, summary: Summary)
    | DumpApply(offset: nat, batchId: nat, summary: Summary, waiting: Option<nat>, nextFamilyIdx: nat)
    | ResyncBuild(batchId: nat)
    | ResyncApply(targetIdx: nat, currentIdx: nat, batchId: nat, metrics: ResyncResult, waiting: Option<nat>)
    | CleanupTracked(offset: nat, batchId: nat, summary: Summary, waiting: Option<nat>)

  datatype Flow = Flow(owned: set<IpKey>, pending: map<IpKey, RuleAction>, quiet: Option<nat>, maxDeadline: Option<nat>,
                       inflight: Option<Inflight>, completed: Option<Completed>)

  datatype Requests = Requests(shutdown: bool, resync: bool, compensate: bool)

  /** Shutdown cleanup: whether it is over, what it counted, and the keys given up to it. */
  datatype Close = Close(done: bool, summary: Summary, tracked: seq<IpKey>)

  /** Startup cleanup: whether it is due, when to retry, how often it was, and the keys a dump listed. */
  datatype Startup = Startup(due: bool, retryDeadline: Option<nat>, retryCount: nat, keys: seq<IpKey>)

  /** A resync plan: the snapshot and the keys owned when it was taken. */
  datatype Plan = Plan(target: seq<IpKey>, current: seq<IpKey>)

  /** What the last finished startup cleanup and the last finished resync reported in the log. */
  datatype Report = Report(startup: Summary, resync: ResyncResult)

  datatype Control = Control(batchId: nat, req: Requests, job: Job, close: Close, startup: Startup, plan: Plan,
                             report: Report)

  /** The sequence counter and how many numbers it has handed out. */
  datatype Seqs = Seqs(next: Word, issued: nat)

  /**
   The kernel: the rules installed under the daemon's preference and table, those
   among them that this process added, and the answer given to each message.
   */
  datatype Kernel = Kernel(installed: set<IpKey>, mine: set<IpKey>, replies: map<nat, AckStatus>)

  /** Moments that move the debounce deadlines. */
  datatype Touch = Arrival(at: nat) | Cut(at: nat, drained: bool)

  /** The first message of the batch in flight, and `mine` before it was sent. */
  datatype SentMark = SentMark(first: nat, mine0: set<IpKey>)

  /**
   The course of shutdown cleanup: whether it has begun, the keys owned at that
   moment, the deletes it sent, those the kernel refused, what was loose when it
   began, and whether nothing was queued then and nothing has come in since.
   */
  datatype CloseLog = CloseLog(begun: bool, given: set<IpKey>, sent: seq<RuleOp>, refused: set<IpKey>,
                               loose: set<IpKey>, quiet: bool)

  /**
   Bookkeeping for statements about runs.
     loose    keys of batches that timed out or broke off while being sent, and keys
              given up to shutdown cleanup, until an operation on them succeeds
     want     the accepted events folded one by one
     strayed  keys whose latest event has since met a maintenance operation, a
              refusal or a timeout
     missed   keys on which the current resync does not decide: its operation did
              not succeed, or a pending batch touched them
     touches  arrivals and batch cuts, oldest first
   */
  datatype History = History(mark: SentMark, loose: set<IpKey>, want: set<IpKey>, strayed: set<IpKey>,
                             missed: set<IpKey>, close: CloseLog, touches: seq<Touch>)

  datatype World = World(flow: Flow, ctl: Control, seqs: Seqs, kernel: Kernel, hist: History, failed: bool)

  const NO_SUMMARY := Summary(0, 0, 0)
  const NO_REPORT := Report(NO_SUMMARY, ResyncResult(0, 0, 0, 0, 0))

  predicate Initial(w: World) {
    && w.flow == Flow({}, map[], None, None, None, None)
    && w.ctl == Control(0, Requests(false, false, false), Idle, Close(false, NO_SUMMARY, []),
                        Startup(true, None, 0, []), Plan([], []), NO_REPORT)
    && w.seqs == Seqs(1, 0)
    && w.kernel.mine == {} && w.kernel.replies == map[]
    && w.hist == History(SentMark(0, {}), {}, {}, {}, {}, CloseLog(false, {}, [], {}, {}, false), [])
    && !w.failed
  }

  // -------------------------------------------------------------------
  // What the environment supplies
  // -------------------------------------------------------------------

  /**
   Outcome of sending a batch.  A broken send may already have delivered
   messages, though never the last one.  `refuse(i)` is an errno with which the
   kernel turns operation i down without effect.
   */
  datatype Send = Send(ok: bool, delivered: nat, refuse: nat -> Option<int>, at: nat)

  datatype DumpPoll = DumpMore | DumpDone | DumpFailed

  datatype Snapshot = Addresses(keys: seq<IpKey>) | SnapshotError(afterSecond: bool)

  /** What one turn of the maintenance loop may meet. */
  datatype Tick = Tick(timeLeft: bool, now: nat, dumpStarts: bool, poll: DumpPoll, targets: seq<IpKey>,
                       snapshot: Snapshot, send: Send)

  /**
   Steps of a run.  Driving the reactor once is Expire if the acknowledgement
   deadline has passed, Flush if a flush is due, and then any number of Maintain.
   */
  datatype Action =
    | Route(events: seq<RuleOp>, parseFailed: nat, fatal: bool, now: nat)
    | Acks(msgs: seq<AckMsg>, fatal: bool)
    | Signal(resync: bool)
    | Foreign(key: IpKey, present: bool)
    | Expire(now: nat)
    | Flush(now: nat, pick: seq<IpKey>, flushNow: nat, send: Send)
    | Maintain(budget: nat, tick: Tick)

  // -------------------------------------------------------------------
  // Kernel
  // -------------------------------------------------------------------

  function Answer(k: Kernel, op: RuleOp, refusal: Option<int>): AckStatus {
    if refusal.Some? then refusal
    else if op.action.Add? then (if op.key in k.installed then Some(EEXIST) else None)
    else (if op.key in k.installed then None else Some(ENOENT))
  }

  function KernelOp(k: Kernel, op: RuleOp, status: AckStatus, n: nat): Kernel {
    if status.None? then
      Kernel(ApplyOp(k.installed, op), ApplyOp(k.mine, op), k.replies[n := status])
    else k.(replies := k.replies[n := status])
  }

  /** The kernel after the first n operations of a batch whose first message is `first`. */
  function KernelRun(k: Kernel, ops: seq<RuleOp>, refuse: nat -> Option<int>, first: nat, n: nat): Kernel
    requires n <= |ops|
  {
    if n == 0 then k
    else
      var before := KernelRun(k, ops, refuse, first, n - 1);
      KernelOp(before, ops[n - 1], Answer(before, ops[n - 1], refuse(n - 1)), first + n - 1)
  }

  function RefusedKeys(ops: seq<RuleOp>, refuse: nat -> Option<int>): set<IpKey> {
    set i: nat | i < |ops| && refuse(i).Some? :: ops[i].key
  }

  /** A drained message is one the kernel sent, at most one turn of the sequence ring ago. */
  ghost predicate Genuine(w: World, m: AckMsg) {
    m.Ack? ==> exists n: nat :: GenuineAt(w, m, n)
  }

  ghost predicate GenuineAt(w: World, m: AckMsg, n: nat)
    requires m.Ack?
  {
    && w.seqs.issued - SPAN <= n < w.seqs.issued
    && m.seqNo == Wire(n)
    && (n in w.kernel.replies ==> m.status == w.kernel.replies[n])
  }

  // -------------------------------------------------------------------
  // Sending
  // -------------------------------------------------------------------

  function NextId(id: nat): nat {
    (id + 1) % ID_SPAN
  }

  function Min(a: nat, b: nat): nat {
    if a < b then a else b
  }

  function Max(a: nat, b: nat): nat {
    if a < b then b else a
  }

  function ReserveSeqs(w: World, n: nat): World {
    w.(seqs := Seqs(SeqAdvance(NormalizeSeq(w.seqs.next), n), w.seqs.issued + n))
  }

  function SentHistory(w: World, ops: seq<RuleOp>, owner: Owner, refuse: nat -> Option<int>): History {
    var h := w.hist;
    var mark := SentMark(w.seqs.issued, w.kernel.mine);
    if owner.PendingOwner? then h.(mark := mark, missed := h.missed + OpKeys(ops))
    else
      h.(mark := mark,
         strayed := h.strayed + (OpKeys(ops) - w.flow.pending.Keys),
         close := if w.ctl.job.CleanupTracked? then
                    h.close.(sent := h.close.sent + ops, refused := h.close.refused + RefusedKeys(ops, refuse))
                  else h.close)
  }

  /** A batch goes out and becomes the one in flight. */
  function SendBatch(w: World, batchId: nat, owner: Owner, inputCount: nat, noopPrefilter: nat,
                     ops: seq<RuleOp>, s: Send): World {
    World(
      w.flow.(inflight := Some(Inflight(batchId, s.at + ACK_WAIT_TIMEOUT, inputCount, noopPrefilter,
                                        NormalizeSeq(w.seqs.next), Prepared(|ops|), owner, ops))),
      w.ctl,
      ReserveSeqs(w, |ops|).seqs,
      KernelRun(w.kernel, ops, s.refuse, w.seqs.issued, |ops|),
      SentHistory(w, ops, owner, s.refuse),
      w.failed)
  }

  /** How many of n messages a broken send delivered: sending fails only while messages are left. */
  function Delivered(s: Send, n: nat): (d: nat)
    ensures d == 0 || d < n
  {
    if n == 0 then 0 else Min(s.delivered, n - 1)
  }

  /**
   Messages taken in all when n are sent by calls that report how many they took,
   `rc(c)` for call c, the first failure ending it.
   */
  function TotalSent(rc: nat -> int, n: nat, c: nat, sent: nat): (total: nat)
    requires sent <= n
    ensures sent <= total <= n
    decreases n - sent
  {
    if sent == n || rc(c) <= 0 then sent else TotalSent(rc, n, c + 1, sent + Min(rc(c), n - sent))
  }

  /** Calls with the outcome s: all messages are taken at once, or those delivered and then none. */
  function Calls(s: Send, n: nat): nat -> int {
    (c: nat) => if s.ok then n else if c == 0 then Delivered(s, n) else 0
  }

  /** Outcomes and calls are two views of the same thing: every outcome has its calls, and every list of calls its outcome. */
  lemma OutcomesAreCalls(s: Send, rc: nat -> int, n: nat)
    requires n > 0
    ensures TotalSent(Calls(s, n), n, 0, 0) == if s.ok then n else Delivered(s, n)
    ensures var sent := TotalSent(rc, n, 0, 0);
            var t := s.(ok := sent == n, delivered := sent);
            sent == if t.ok then n else Delivered(t, n)
  {
    var d := Delivered(s, n);
    if !s.ok && d > 0 {
      assert TotalSent(Calls(s, n), n, 1, d) == d;
    }
  }

  /** Sending breaks off: some messages may be out, no batch is in flight. */
  function BreakSend(w: World, ops: seq<RuleOp>, s: Send): World {
    var n := Delivered(s, |ops|);
    ReserveSeqs(w, |ops|).(
      kernel := KernelRun(w.kernel, ops, s.refuse, w.seqs.issued, n),
      hist := w.hist.(loose := w.hist.loose + OpKeys(ops[..n])))
  }

  // -------------------------------------------------------------------
  // Acknowledgements
  // -------------------------------------------------------------------

  /** Which operations of a batch the tracker holds a success for. */
  function OkFlags(t: Tracker, n: nat): seq<bool> {
    seq(n, i => 0 <= i < |t.seen| && i < |t.status| && t.seen[i] && t.status[i].None?)
  }

  /** The first n operations take effect where their flag is set. */
  function Effects(s: set<IpKey>, ops: seq<RuleOp>, ok: seq<bool>, n: nat): set<IpKey>
    requires n <= |ops| && n <= |ok|
  {
    if n == 0 then s
    else
      var before := Effects(s, ops, ok, n - 1);
      if ok[n - 1] then ApplyOp(before, ops[n - 1]) else before
  }

  datatype Tally = Tally(noop: nat, added: nat, deleted: nat, failed: nat)

  function TallyOp(a: Tally, op: RuleOp, t: Tracker, i: nat): Tally {
    if !(i < |t.seen| && t.seen[i]) then a.(failed := a.failed + 1)
    else
      match ClassifyAck(op, if i < |t.status| then t.status[i] else None)
      case Applied => if op.action.Add? then a.(added := a.added + 1) else a.(deleted := a.deleted + 1)
      case EexistNoop => a.(noop := a.noop + 1)
      case EnoentNoop => a.(noop := a.noop + 1)
      case KernelErr => a.(failed := a.failed + 1)
  }

  function TallyUpTo(noop: nat, ops: seq<RuleOp>, t: Tracker, n: nat): Tally
    requires n <= |ops|
  {
    if n == 0 then Tally(noop, 0, 0, 0) else TallyOp(TallyUpTo(noop, ops, t, n - 1), ops[n - 1], t, n - 1)
  }

  function CommitResult(b: Inflight): ApplyResult {
    var a := TallyUpTo(b.noopPrefilter, b.ops, b.tracker, |b.ops|);
    ApplyResult(b.inputCount, a.noop, a.added, a.deleted, a.failed)
  }

  function KeysWhere(ops: seq<RuleOp>, ok: seq<bool>, v: bool): set<IpKey> {
    set i | 0 <= i < |ops| && i < |ok| && ok[i] == v :: ops[i].key
  }

  /** The in-flight batch is committed. */
  function Finish(w: World): World
    requires w.flow.inflight.Some?
  {
    var b := w.flow.inflight.value;
    var ok := OkFlags(b.tracker, |b.ops|);
    var unsure := KeysWhere(b.ops, ok, false);
    w.(flow := w.flow.(
         owned := Effects(w.flow.owned, b.ops, ok, |b.ops|),
         inflight := None,
         completed := if b.owner.MaintenanceOwner? then Some(Completed(b.batchId, CommitResult(b), b.owner))
                      else w.flow.completed),
       hist := w.hist.(
         loose := w.hist.loose - KeysWhere(b.ops, ok, true),
         strayed := w.hist.strayed + (unsure - w.flow.pending.Keys),
         missed := w.hist.missed + unsure))
  }

  function AskResync(c: Control): Control {
    c.(req := c.req.(resync := true))
  }

  function AskCompensate(c: Control): Control {
    c.(req := c.req.(resync := true, compensate := true))
  }

  function NotQuiet(h: History): History {
    h.(close := h.close.(quiet := false))
  }

  /** The acknowledgement deadline passed: nothing of the batch is committed. */
  function Timeout(w: World): World
    requires w.flow.inflight.Some?
  {
    var b := w.flow.inflight.value;
    var keys := OpKeys(b.ops);
    var lost := ApplyResult(b.inputCount, b.noopPrefilter, 0, 0,
                            if b.noopPrefilter <= b.inputCount then b.inputCount - b.noopPrefilter else 0);
    w.(flow := w.flow.(
         inflight := None,
         completed := if b.owner.MaintenanceOwner? then Some(Completed(b.batchId, lost, b.owner))
                      else w.flow.completed),
       ctl := if b.owner.PendingOwner? then AskCompensate(w.ctl) else w.ctl,
       hist := w.hist.(
         loose := w.hist.loose + keys,
         strayed := w.hist.strayed + (keys - w.flow.pending.Keys),
         missed := w.hist.missed + keys))
  }

  /** The rule socket became readable. */
  function AcksStep(w: World, msgs: seq<AckMsg>, fatal: bool): World {
    if w.flow.inflight.None? then w
    else
      var b := w.flow.inflight.value;
      var t := ReceiveAll(b.tracker, b.firstSeq, |b.ops|, msgs);
      var w' := w.(flow := w.flow.(inflight := Some(b.(tracker := t))));
      if fatal then w'.(failed := true) else if t.pending == 0 then Finish(w') else w'
  }

  // -------------------------------------------------------------------
  // Events and signals
  // -------------------------------------------------------------------

  function InsertAll(pending: map<IpKey, RuleAction>, events: seq<RuleOp>): map<IpKey, RuleAction> {
    if events == [] then pending
    else
      var last := events[|events| - 1];
      InsertAll(pending, events[..|events| - 1])[last.key := last.action]
  }

  function RouteHistory(h: History, events: seq<RuleOp>, parseFailed: nat): History {
    h.(want := ApplyAll(h.want, events), strayed := h.strayed - OpKeys(events),
       close := h.close.(quiet := h.close.quiet && events == [] && parseFailed == 0))
  }

  function RouteStep(o: Options, w: World, events: seq<RuleOp>, parseFailed: nat, fatal: bool, now: nat): World {
    var h := RouteHistory(w.hist, events, parseFailed);
    var f := w.flow.(pending := InsertAll(w.flow.pending, events));
    if fatal then w.(flow := f, hist := h, failed := true)
    else
      w.(flow := if events == [] then f
                 else f.(quiet := Some(now + o.debounce),
                         maxDeadline := if f.maxDeadline.None? then Some(now + o.debounceMax) else f.maxDeadline),
         ctl := if parseFailed > 0 then AskCompensate(w.ctl) else w.ctl,
         hist := if events == [] then h else h.(touches := h.touches + [Arrival(now)]))
  }

  function SignalStep(w: World, resync: bool): World {
    if resync then w.(ctl := AskResync(w.ctl), hist := NotQuiet(w.hist))
    else w.(ctl := w.ctl.(req := w.ctl.req.(shutdown := true)))
  }

  /** Someone else installs or removes a rule that is not the daemon's. */
  function ForeignStep(w: World, key: IpKey, present: bool): World {
    w.(kernel := w.kernel.(installed := if present then w.kernel.installed + {key} else w.kernel.installed - {key}))
  }

  // -------------------------------------------------------------------
  // Flushing pending events
  // -------------------------------------------------------------------

  /** A walk of the pending map that takes at most `batchMax` entries. */
  ghost predicate ValidPick(o: Options, pending: map<IpKey, RuleAction>, pick: seq<IpKey>) {
    && |pick| == Min(o.batchMax, |pending|)
    && (forall i :: 0 <= i < |pick| ==> pick[i] in pending)
    && (forall i, j :: 0 <= i < j < |pick| ==> pick[i] != pick[j])
  }

  function TakeOps(pending: map<IpKey, RuleAction>, pick: seq<IpKey>): seq<RuleOp>
    requires forall i :: 0 <= i < |pick| ==> pick[i] in pending
  {
    seq(|pick|, i requires 0 <= i < |pick| => RuleOp(pick[i], pending[pick[i]]))
  }

  predicate Redundant(owned: set<IpKey>, op: RuleOp) {
    if op.action.Add? then op.key in owned else op.key !in owned
  }

  function Prefilter(owned: set<IpKey>, ops: seq<RuleOp>): (kept: seq<RuleOp>)
    ensures |kept| <= |ops|
  {
    if ops == [] then []
    else
      var kept := Prefilter(owned, ops[..|ops| - 1]);
      if Redundant(owned, ops[|ops| - 1]) then kept else kept + [ops[|ops| - 1]]
  }

  /** The extracted entries leave the map and the debounce deadlines restart or clear. */
  function CutFlow(o: Options, f: Flow, pick: seq<IpKey>, now: nat): Flow {
    Restarted(o, f, f.pending - KeySet(pick), now)
  }

  function Restarted(o: Options, f: Flow, left: map<IpKey, RuleAction>, now: nat): Flow {
    f.(pending := left,
       quiet := if left == map[] then None else Some(now + o.debounce),
       maxDeadline := if left == map[] then None else Some(now + o.debounceMax))
  }

  function TakePending(o: Options, w: World, pick: seq<IpKey>, now: nat): World {
    var f := CutFlow(o, w.flow, pick, now);
    w.(flow := f, hist := w.hist.(touches := w.hist.touches + [Cut(now, f.pending == map[])]))
  }

  /** What is left of a cut batch goes out under a fresh id; a send that breaks off ends the loop. */
  function SendKept(w: World, input: nat, kept: seq<RuleOp>, s: Send): World
    requires |kept| <= input
  {
    var id := NextId(w.ctl.batchId);
    var w' := w.(ctl := w.ctl.(batchId := id));
    if s.ok then SendBatch(w', id, PendingOwner, input, input - |kept|, kept, s)
    else BreakSend(w', kept, s).(failed := true)
  }

  function FlushStep(o: Options, w: World, pick: seq<IpKey>, now: nat, s: Send): World
    requires forall i :: 0 <= i < |pick| ==> pick[i] in w.flow.pending
  {
    if w.flow.inflight.Some? || w.flow.pending == map[] then w
    else
      var kept := Prefilter(w.flow.owned, TakeOps(w.flow.pending, pick));
      if kept == [] then TakePending(o, w, pick, now)
      else SendKept(TakePending(o, w, pick, now), |pick|, kept, s)
  }

  predicate ShouldFlush(f: Flow, now: nat, force: bool) {
    && f.pending != map[]
    && (force || (f.quiet.Some? && now >= f.quiet.value) || (f.maxDeadline.Some? && now >= f.maxDeadline.value))
  }

  // -------------------------------------------------------------------
  // Maintenance jobs
  // -------------------------------------------------------------------

  datatype Reason = NothingToDo | RetryLater | DumpPending | BatchStarted
                  | AwaitingBatch | OtherCompletion | BatchNotStarted

  datatype Verdict = Continue | Break(why: Reason) | Abort

  datatype Turn = Turn(world: World, budget: nat, verdict: Verdict)

  function WithJob(w: World, j: Job): World {
    w.(ctl := w.ctl.(job := j))
  }

  predicate ShutdownDue(w: World) {
    w.ctl.req.shutdown && w.flow.pending == map[] && !w.ctl.close.done
  }

  /** Ownership is handed over to shutdown cleanup. */
  function GiveUpOwned(w: World, tracked: seq<IpKey>): World {
    w.(flow := w.flow.(owned := {}),
       ctl := w.ctl.(close := w.ctl.close.(tracked := tracked)),
       hist := w.hist.(loose := w.hist.loose + w.flow.owned,
                       strayed := w.hist.strayed + (w.flow.owned - w.flow.pending.Keys),
                       close := CloseLog(true, w.flow.owned, [], {}, w.hist.loose, !w.ctl.req.resync && !w.ctl.startup.due)))
  }

  function CleanupDone(w: World, summary: Summary, batchId: nat): World {
    w.(ctl := w.ctl.(batchId := batchId, job := Idle, close := w.ctl.close.(done := true, summary := summary)))
  }

  function PrepareWith(w: World, tracked: seq<IpKey>): World {
    if tracked == [] then CleanupDone(GiveUpOwned(w, tracked), NO_SUMMARY, w.ctl.batchId)
    else WithJob(GiveUpOwned(w, tracked), CleanupTracked(0, w.ctl.batchId, NO_SUMMARY, None))
  }

  ghost function PrepareShutdown(w: World): World {
    PrepareWith(w, SortKeys(w.flow.owned))
  }

  function ScheduleRetry(w: World, now: nat): World {
    var count := Min(w.ctl.startup.retryCount + 1, 255);
    var retry := count <= STARTUP_CLEANUP_RETRY_LIMIT;
    w.(ctl := AskResync(w.ctl).(
         job := Idle,
         startup := Startup(retry, if retry then Some(now + STARTUP_CLEANUP_RETRY_DELAY) else None, count, [])))
  }

  /** Families are walked as 0 (IPv4) and 1 (IPv6, if enabled). */
  function NextFamily(startIdx: nat, ipv6: bool): Option<nat> {
    if startIdx == 0 then Some(0) else if startIdx == 1 && ipv6 then Some(1) else None
  }

  function StartupDone(w: World, summary: Summary, batchId: nat): World {
    w.(ctl := AskResync(w.ctl).(batchId := batchId, job := Idle, startup := w.ctl.startup.(retryCount := 0),
                                report := w.ctl.report.(startup := summary)))
  }

  ghost function IdleTurn(w: World, budget: nat, t: Tick): Turn {
    if ShutdownDue(w) then Turn(PrepareShutdown(w), budget, Continue)
    else if w.ctl.startup.due then
      if w.ctl.startup.retryDeadline.Some? && t.now < w.ctl.startup.retryDeadline.value
      then Turn(w, budget, Break(RetryLater))
      else
        Turn(w.(ctl := w.ctl.(startup := Startup(false, None, w.ctl.startup.retryCount, []),
                              job := DumpCollect(0, None, w.ctl.batchId, NO_SUMMARY))),
             budget, Continue)
    else if w.ctl.req.resync then
      Turn(w.(ctl := w.ctl.(req := w.ctl.req.(resync := false), job := ResyncBuild(w.ctl.batchId))), budget, Continue)
    else Turn(w, budget, Break(NothingToDo))
  }

  function Spend(budget: nat, n: nat): nat {
    if budget <= n then 0 else budget - n
  }

  function WithStartupKeys(w: World, keys: seq<IpKey>): World {
    w.(ctl := w.ctl.(startup := w.ctl.startup.(keys := keys)))
  }

  /** The dump of a family has been started; its next answers are read. */
  function PollTurn(w: World, idx: nat, dumpSeq: Word, left: nat, t: Tick): Turn
    requires w.ctl.job.DumpCollect?
  {
    var j := w.ctl.job;
    var keys := w.ctl.startup.keys + t.targets;
    match t.poll
    case DumpMore =>
      Turn(WithJob(WithStartupKeys(w, keys), DumpCollect(idx, Some(dumpSeq), j.batchId, j.summary)), left,
           Break(DumpPending))
    case DumpDone =>
      Turn(WithJob(WithStartupKeys(w, keys),
                   if keys == [] then DumpCollect(idx + 1, None, j.batchId, j.summary)
                   else DumpApply(0, j.batchId, j.summary, None, idx + 1)),
           left, Continue)
    case DumpFailed => Turn(ScheduleRetry(w, t.now), left, Continue)
  }

  function CollectTurn(o: Options, w: World, budget: nat, t: Tick): Turn
    requires w.ctl.job.DumpCollect?
  {
    var j := w.ctl.job;
    var left := Spend(budget, 1);
    var family := NextFamily(j.familyIdx, o.ipv6);
    if family.None? then
      if w.ctl.startup.keys == [] then Turn(StartupDone(w, j.summary, j.batchId), left, Continue)
      else Turn(WithJob(w, DumpApply(0, j.batchId, j.summary, None, j.familyIdx + 1)), left, Continue)
    else if j.dumpSeq.Some? then PollTurn(w, family.value, j.dumpSeq.value, left, t)
    else if t.dumpStarts then PollTurn(ReserveSeqs(w, 1), family.value, NormalizeSeq(w.seqs.next), left, t)
    else Turn(ScheduleRetry(ReserveSeqs(w, 1), t.now), left, Continue)
  }

  // The three applying jobs first collect the batch they wait for.

  predicate Matches(c: Option<Completed>, id: nat) {
    c.Some? && c.value.owner.MaintenanceOwner? && c.value.batchId == id
  }

  predicate CanProceed(w: World, waiting: Option<nat>) {
    waiting.None? || Matches(w.flow.completed, waiting.value)
  }

  function Stalled(w: World): Reason {
    if w.flow.completed.None? then AwaitingBatch else OtherCompletion
  }

  /** The result collected, zero when the job was not waiting. */
  function Collected(w: World, waiting: Option<nat>): ApplyResult
    requires CanProceed(w, waiting)
  {
    if waiting.Some? then w.flow.completed.value.result else ApplyResult(0, 0, 0, 0, 0)
  }

  function AfterCollect(w: World, waiting: Option<nat>): World {
    if waiting.Some? then w.(flow := w.flow.(completed := None)) else w
  }

  function BudgetAfter(w: World, waiting: Option<nat>, budget: nat): nat
    requires CanProceed(w, waiting)
  {
    if waiting.Some? then Spend(budget, Max(Collected(w, waiting).input, 1)) else budget
  }

  function AddUp(s: Summary, r: ApplyResult): Summary {
    Summary(s.removed + r.deleted, s.noop + r.noop, s.failed + r.failed)
  }

  function AddMetrics(m: ResyncResult, r: ApplyResult): ResyncResult {
    m.(add := m.add + r.added, del := m.del + r.deleted, failed := m.failed + r.failed)
  }

  function ChunkRoom(o: Options, budget: nat): (n: nat)
    ensures n > 0
  {
    Min(Max(o.batchMax, 1), Max(budget, 1))
  }

  function CollectNext(w: World, batchId: nat, idx: nat, summary: Summary): World {
    w.(ctl := w.ctl.(batchId := batchId, job := DumpCollect(idx, None, batchId, summary),
                     startup := w.ctl.startup.(keys := [])))
  }

  /** The next chunk of startup cleanup deletes, once the batch waited for is collected. */
  function DumpChunkTurn(o: Options, w: World, summary: Summary, left: nat, t: Tick): Turn
    requires w.ctl.job.DumpApply?
  {
    var j := w.ctl.job;
    var room := ChunkRoom(o, left);
    var chunk := CleanupChunk(w.ctl.startup.keys, j.offset, room);
    var next := CleanupEnd(w.ctl.startup.keys, j.offset, room);
    var id := NextId(j.batchId);
    if chunk == [] then
      if NextFamily(j.nextFamilyIdx, o.ipv6).Some? then
        Turn(CollectNext(w, j.batchId, j.nextFamilyIdx, summary), left, Continue)
      else Turn(StartupDone(WithStartupKeys(w, []), summary, j.batchId), left, Continue)
    else if w.flow.inflight.Some? then
      Turn(WithJob(w, DumpApply(next, id, summary, None, j.nextFamilyIdx)), left, Break(BatchNotStarted))
    else if t.send.ok then
      Turn(WithJob(SendBatch(w, id, MaintenanceOwner, |chunk|, 0, chunk, t.send),
                   DumpApply(next, id, summary, Some(id), j.nextFamilyIdx)),
           left, Break(BatchStarted))
    else Turn(ScheduleRetry(BreakSend(w, chunk, t.send), t.now), left, Continue)
  }

  function DumpApplyTurn(o: Options, w: World, budget: nat, t: Tick): Turn
    requires w.ctl.job.DumpApply?
  {
    var j := w.ctl.job;
    if !CanProceed(w, j.waiting) then Turn(w, budget, Break(Stalled(w)))
    else DumpChunkTurn(o, AfterCollect(w, j.waiting), AddUp(j.summary, Collected(w, j.waiting)),
                       BudgetAfter(w, j.waiting, budget), t)
  }

  function Planned(w: World, target: seq<IpKey>, current: seq<IpKey>, batchId: nat): World {
    w.(ctl := w.ctl.(plan := Plan(target, current),
                     job := ResyncApply(0, 0, batchId, ResyncResult(|target|, |current|, 0, 0, 0), None)),
       hist := w.hist.(missed := {}))
  }

  function ResyncPutOff(w: World): World {
    w.(ctl := AskResync(w.ctl).(job := Idle))
  }

  /** The address dumps of one or two families each take a sequence number. */
  function DumpSeqs(w: World, second: bool): World {
    if second then ReserveSeqs(ReserveSeqs(w, 1), 1) else ReserveSeqs(w, 1)
  }

  ghost function BuildTurn(o: Options, w: World, budget: nat, t: Tick): Turn
    requires w.ctl.job.ResyncBuild?
  {
    match t.snapshot
    case SnapshotError(afterSecond) => Turn(ResyncPutOff(DumpSeqs(w, afterSecond && o.ipv6)), 0, Continue)
    case Addresses(keys) =>
      Turn(Planned(DumpSeqs(w, o.ipv6), SortKeys(KeySet(keys)), SortKeys(w.flow.owned), w.ctl.job.batchId),
           Spend(budget, 1), Continue)
  }

  function ResyncDone(w: World, metrics: ResyncResult, batchId: nat): World {
    w.(ctl := w.ctl.(batchId := batchId, job := Idle, req := w.ctl.req.(compensate := false),
                     report := w.ctl.report.(resync := metrics)))
  }

  /** The next chunk of the resync plan, once the batch waited for is collected. */
  function ResyncChunkTurn(o: Options, w: World, metrics: ResyncResult, left: nat, t: Tick): Turn
    requires w.ctl.job.ResyncApply?
  {
    var j := w.ctl.job;
    var c := NextChunk(w.ctl.plan.target, w.ctl.plan.current, j.targetIdx, j.currentIdx, ChunkRoom(o, left));
    var id := NextId(j.batchId);
    if c.ops == [] then Turn(ResyncDone(w, metrics, j.batchId), left, Continue)
    else if w.flow.inflight.Some? then
      Turn(WithJob(w, ResyncApply(c.targetIdx, c.currentIdx, id, metrics, None)), left, Break(BatchNotStarted))
    else if t.send.ok then
      Turn(WithJob(SendBatch(w, id, MaintenanceOwner, |c.ops|, 0, c.ops, t.send),
                   ResyncApply(c.targetIdx, c.currentIdx, id, metrics, Some(id))),
           left, Break(BatchStarted))
    else Turn(WithJob(BreakSend(w, c.ops, t.send), Idle).(failed := true), left, Abort)
  }

  function ResyncTurn(o: Options, w: World, budget: nat, t: Tick): Turn
    requires w.ctl.job.ResyncApply?
  {
    var j := w.ctl.job;
    if !CanProceed(w, j.waiting) then Turn(w, budget, Break(Stalled(w)))
    else ResyncChunkTurn(o, AfterCollect(w, j.waiting), AddMetrics(j.metrics, Collected(w, j.waiting)),
                         BudgetAfter(w, j.waiting, budget), t)
  }

  /** The next chunk of shutdown deletes, once the batch waited for is collected. */
  function CleanupChunkTurn(o: Options, w: World, summary: Summary, left: nat, t: Tick): Turn
    requires w.ctl.job.CleanupTracked?
  {
    var j := w.ctl.job;
    var room := ChunkRoom(o, left);
    var chunk := CleanupChunk(w.ctl.close.tracked, j.offset, room);
    var next := CleanupEnd(w.ctl.close.tracked, j.offset, room);
    var id := NextId(j.batchId);
    if chunk == [] then Turn(CleanupDone(w, summary, j.batchId), left, Continue)
    else if w.flow.inflight.Some? then
      Turn(WithJob(w, CleanupTracked(next, id, summary, None)), left, Break(BatchNotStarted))
    else if t.send.ok then
      Turn(WithJob(SendBatch(w, id, MaintenanceOwner, |chunk|, 0, chunk, t.send),
                   CleanupTracked(next, id, summary, Some(id))),
           left, Break(BatchStarted))
    else Turn(WithJob(BreakSend(w, chunk, t.send), Idle).(failed := true), left, Abort)
  }

  function CleanupTurn(o: Options, w: World, budget: nat, t: Tick): Turn
    requires w.ctl.job.CleanupTracked?
  {
    var j := w.ctl.job;
    if !CanProceed(w, j.waiting) then Turn(w, budget, Break(Stalled(w)))
    else CleanupChunkTurn(o, AfterCollect(w, j.waiting), AddUp(j.summary, Collected(w, j.waiting)),
                          BudgetAfter(w, j.waiting, budget), t)
  }

  /** One turn of the maintenance loop. */
  ghost function JobTurn(o: Options, w: World, budget: nat, t: Tick): Turn {
    match w.ctl.job
    case Idle => IdleTurn(w, budget, t)
    case DumpCollect(_, _, _, _) => CollectTurn(o, w, budget, t)
    case DumpApply(_, _, _, _, _) => DumpApplyTurn(o, w, budget, t)
    case ResyncBuild(_) => BuildTurn(o, w, budget, t)
    case ResyncApply(_, _, _, _, _) => ResyncTurn(o, w, budget, t)
    case CleanupTracked(_, _, _, _) => CleanupTurn(o, w, budget, t)
  }

  /** How many more turns a job can take before the operation budget shrinks. */
  function Rank(w: World): nat {
    match w.ctl.job
    case ResyncApply(_, _, _, _, _) => 4
    case DumpApply(_, _, _, _, _) => 4
    case Idle => if ShutdownDue(w) then 3 else 1
    case CleanupTracked(_, _, _, _) => 2
    case ResyncBuild(_) => 0
    case DumpCollect(_, _, _, _) => 0
  }

  /** Turns left, whatever the clock does. */
  function TurnsLeft(w: World, budget: nat): nat {
    5 * budget + Rank(w)
  }

  lemma ApplyTurnUsesUp(o: Options, w: World, budget: nat, t: Tick)
    requires budget > 0 && (w.ctl.job.DumpApply? || w.ctl.job.ResyncApply?)
    ensures var r := JobTurn(o, w, budget, t);
            r.verdict.Continue? ==> TurnsLeft(r.world, r.budget) < TurnsLeft(w, budget)
  {
  }

  lemma OtherTurnUsesUp(o: Options, w: World, budget: nat, t: Tick)
    requires budget > 0 && !w.ctl.job.DumpApply? && !w.ctl.job.ResyncApply?
    ensures var r := JobTurn(o, w, budget, t);
            r.verdict.Continue? ==> TurnsLeft(r.world, r.budget) < TurnsLeft(w, budget)
  {
  }

  /** Every continuing turn uses up `TurnsLeft`, whatever the clock, the sockets and the kernel do. */
  lemma TurnUsesUp(o: Options, w: World, budget: nat, t: Tick)
    requires budget > 0
    ensures var r := JobTurn(o, w, budget, t);
            r.verdict.Continue? ==> TurnsLeft(r.world, r.budget) < TurnsLeft(w, budget)
  {
    if w.ctl.job.DumpApply? || w.ctl.job.ResyncApply? {
      ApplyTurnUsesUp(o, w, budget, t);
    } else {
      OtherTurnUsesUp(o, w, budget, t);
    }
  }

  ghost function Slice(o: Options, w: World, budget: nat, ticks: nat -> Tick, n: nat): World
    decreases TurnsLeft(w, budget)
  {
    if budget == 0 || !ticks(n).timeLeft then w
    else
      var r := JobTurn(o, w, budget, ticks(n));
      TurnUsesUp(o, w, budget, ticks(n));
      if r.verdict.Continue? then Slice(o, r.world, r.budget, ticks, n + 1) else r.world
  }

  /** How many turns a slice takes. */
  ghost function SliceTurns(o: Options, w: World, budget: nat, ticks: nat -> Tick, n: nat): nat
    decreases TurnsLeft(w, budget)
  {
    if budget == 0 || !ticks(n).timeLeft then 0
    else
      var r := JobTurn(o, w, budget, ticks(n));
      TurnUsesUp(o, w, budget, ticks(n));
      1 + if r.verdict.Continue? then SliceTurns(o, r.world, r.budget, ticks, n + 1) else 0
  }

  // -------------------------------------------------------------------
  // Steps and runs
  // -------------------------------------------------------------------

  function AfterDeadline(w: World, now: nat): World {
    if w.flow.inflight.Some? && now >= w.flow.inflight.value.ackDeadline then Timeout(w) else w
  }

  function AfterFlush(o: Options, w: World, now: nat, pick: seq<IpKey>, flushNow: nat, s: Send): World
    requires forall i :: 0 <= i < |pick| ==> pick[i] in w.flow.pending
  {
    if w.flow.inflight.None? && ShouldFlush(w.flow, now, w.ctl.req.shutdown)
    then FlushStep(o, w, pick, flushNow, s) else w
  }

  ghost function ReactStep(o: Options, w: World, now: nat, pick: seq<IpKey>, flushNow: nat, s: Send,
                           ticks: nat -> Tick): World
    requires forall i :: 0 <= i < |pick| ==> pick[i] in w.flow.pending
  {
    var w1 := AfterFlush(o, AfterDeadline(w, now), now, pick, flushNow, s);
    if w1.failed || w1.flow.inflight.Some? then w1 else Slice(o, w1, MAINTENANCE_OP_BUDGET, ticks, 0)
  }

  ghost predicate Enabled(o: Options, w: World, a: Action) {
    && !w.failed
    && match a
       case Acks(msgs, _) => forall i :: 0 <= i < |msgs| ==> Genuine(w, msgs[i])
       case Foreign(key, _) => key !in w.kernel.mine
       case Expire(now) => w.flow.inflight.Some? && now >= w.flow.inflight.value.ackDeadline
       case Flush(now, pick, _, _) =>
         && w.flow.inflight.None? && ShouldFlush(w.flow, now, w.ctl.req.shutdown)
         && ValidPick(o, w.flow.pending, pick)
       case Maintain(budget, _) => w.flow.inflight.None? && budget > 0
       case _ => true
  }

  ghost function Step(o: Options, w: World, a: Action): World
    requires Enabled(o, w, a)
  {
    match a
    case Route(events, parseFailed, fatal, now) => RouteStep(o, w, events, parseFailed, fatal, now)
    case Acks(msgs, fatal) => AcksStep(w, msgs, fatal)
    case Signal(resync) => SignalStep(w, resync)
    case Foreign(key, present) => ForeignStep(w, key, present)
    case Expire(_) => Timeout(w)
    case Flush(_, pick, flushNow, s) => FlushStep(o, w, pick, flushNow, s)
    case Maintain(budget, t) => JobTurn(o, w, budget, t).world
  }

  /** A run of the daemon, from a world through a list of actions to a world. */
  ghost predicate Runs(o: Options, w: World, actions: seq<Action>, end: World)
    decreases |actions|
  {
    if actions == [] then w == end
    else
      var n := |actions| - 1;
      exists mid :: Runs(o, w, actions[..n], mid) && Enabled(o, mid, actions[n]) && end == Step(o, mid, actions[n])
  }

  ghost predicate Reachable(o: Options, w: World) {
    exists start, actions :: Initial(start) && Runs(o, start, actions, w)
  }

  ghost predicate GoodOptions(o: Options) {
    0 < o.batchMax <= SPAN && 0 < o.debounce <= o.debounceMax
  }

  /** The loop leaves when this holds after the reactor has been driven. */
  predicate Exits(w: World) {
    && w.ctl.req.shutdown && w.flow.pending == map[] && w.flow.inflight.None?
    && w.ctl.job.Idle? && w.ctl.close.done
  }

  // -------------------------------------------------------------------
  // Timer
  // -------------------------------------------------------------------

  function Earlier(d: Option<nat>, v: nat): Option<nat> {
    if d.Some? && d.value <= v then d else Some(v)
  }

  function EarlierOpt(d: Option<nat>, v: Option<nat>): Option<nat> {
    if v.Some? then Earlier(d, v.value) else d
  }

  /** When the timer is next armed for; `now` is the time of asking. */
  function NextDeadline(w: World, now: nat): Option<nat> {
    var soon := now + 1;
    var d0 := EarlierOpt(EarlierOpt(None, w.flow.quiet), w.flow.maxDeadline);
    var d1 := if w.flow.inflight.Some? then Earlier(d0, w.flow.inflight.value.ackDeadline) else d0;
    var d2 := if !w.ctl.job.Idle? then Earlier(d1, soon) else d1;
    var free := w.flow.inflight.None?;
    var d3 := if w.ctl.req.resync && free then Earlier(d2, soon) else d2;
    var d4 := if w.ctl.req.shutdown && !w.ctl.close.done && free then Earlier(d3, soon) else d3;
    if w.ctl.startup.due && free
    then Earlier(d4, if w.ctl.startup.retryDeadline.Some? then w.ctl.startup.retryDeadline.value else soon) else d4
  }
}
