/**
 The log rate limiter: sixteen slots of (key, time of the last accepted line),
 the oldest slot being reused when all are taken.
 */
module RateLimiting {
  import opened IpKeys

  const RATE_LIMIT_SLOTS: nat := 16

  datatype RateEntry = RateEntry(key: string, at: int)

  /** `duration_since`, which is zero for a moment in the future. */
  function Elapsed(now: int, at: int): nat {
    if now >= at then now - at else 0
  }

  /** The index of the slot that holds `key`, or the number of slots in use. */
  function Find(es: seq<RateEntry>, key: string): (i: nat)
    ensures i <= |es|
    ensures forall j :: 0 <= j < i ==> es[j].key != key
    ensures i < |es| ==> es[i].key == key
  {
    if es == [] || es[0].key == key then 0 else
    var r := Find(es[1..], key);
    assert forall j :: 0 < j < r + 1 ==> es[j] == es[1..][j - 1];
    r + 1
  }

  lemma FindIs(es: seq<RateEntry>, key: string, i: nat)
    requires i < |es| && es[i].key == key && forall j :: 0 <= j < i ==> es[j].key != key
    ensures Find(es, key) == i
  {
    var f := Find(es, key);
    assert f <= i;
  }

  /** The first of the oldest slots. */
  function Oldest(es: seq<RateEntry>): (i: nat)
    requires es != []
    ensures i < |es|
    ensures forall j :: 0 <= j < |es| ==> es[i].at <= es[j].at
    ensures forall j :: 0 <= j < i ==> es[i].at < es[j].at
  {
    if |es| == 1 then 0
    else
      var n := |es| - 1;
      var r := Oldest(es[..n]);
      assert forall j :: 0 <= j < n ==> es[j] == es[..n][j];
      if es[n].at < es[r].at then n else r
  }

  datatype Decision = Decision(entries: seq<RateEntry>, accepted: bool)

  function Decide(es: seq<RateEntry>, key: string, interval: nat, now: int): Decision {
    var i := Find(es, key);
    if i < |es| then
      if Elapsed(now, es[i].at) < interval then Decision(es, false)
      else Decision(es[i := RateEntry(key, now)], true)
    else if |es| < RATE_LIMIT_SLOTS then Decision(es + [RateEntry(key, now)], true)
    else Decision(es[Oldest(es) := RateEntry(key, now)], true)
  }

  class RateLimiter {
    const entries: array<Option<RateEntry>>
    var len: nat

    ghost predicate Valid()
      reads this, entries
    {
      && entries.Length == RATE_LIMIT_SLOTS && len <= RATE_LIMIT_SLOTS
      && forall i :: 0 <= i < len ==> entries[i].Some?
    }

    ghost function View(): (es: seq<RateEntry>)
      reads this, entries
      requires Valid()
      ensures |es| == len
    {
      seq(len, i requires 0 <= i < len && Valid() reads this, entries => entries[i].value)
    }

    constructor ()
      ensures Valid() && View() == [] && fresh(entries)
    {
      entries := new Option<RateEntry>[RATE_LIMIT_SLOTS](i => None);
      len := 0;
    }

    method ShouldLog(key: string, interval: nat, now: int) returns (accepted: bool)
      requires Valid()
      modifies this, entries
      ensures Valid()
      ensures Decision(View(), accepted) == Decide(old(View()), key, interval, now)
    {
      ghost var es := View();
      var idx := 0;
      while idx < len
        invariant 0 <= idx <= len && View() == es && Valid()
        invariant forall j :: 0 <= j < idx ==> es[j].key != key
        invariant len == |es|
      {
        var entry := entries[idx].value;
        if entry.key == key {
          assert es[idx] == entry;
          FindIs(es, key, idx);
          if Elapsed(now, entry.at) < interval {
            return false;
          }
          entries[idx] := Some(RateEntry(key, now));
          assert View() == es[idx := RateEntry(key, now)];
          return true;
        }
        idx := idx + 1;
      }
      assert Find(es, key) == |es|;
      if len < RATE_LIMIT_SLOTS {
        entries[len] := Some(RateEntry(key, now));
        len := len + 1;
        assert View() == es + [RateEntry(key, now)];
        return true;
      }
      var oldest, oldestAt := 0, entries[0].value.at;
      for i := 1 to RATE_LIMIT_SLOTS
        invariant oldest < i && View() == es && oldestAt == es[oldest].at
        invariant forall j :: 0 <= j < i ==> es[oldest].at <= es[j].at
        invariant forall j :: 0 <= j < oldest ==> es[oldest].at < es[j].at
      {
        if entries[i].value.at < oldestAt {
          oldest, oldestAt := i, entries[i].value.at;
        }
      }
      assert oldest == Oldest(es);
      entries[oldest] := Some(RateEntry(key, now));
      assert View() == es[oldest := RateEntry(key, now)];
      accepted := true;
    }
  }

  // -------------------------------------------------------------------
  // Call histories
  // -------------------------------------------------------------------

  datatype Call = Call(key: string, interval: nat, now: int)

  function StateBefore(calls: seq<Call>, n: nat): seq<RateEntry>
    requires n <= |calls|
    decreases n, 0
  {
    if n == 0 then [] else DecisionAt(calls, n - 1).entries
  }

  /** What the limiter decides on call `i`, having seen the calls before it. */
  function DecisionAt(calls: seq<Call>, i: nat): Decision
    requires i < |calls|
    decreases i, 1
  {
    Decide(StateBefore(calls, i), calls[i].key, calls[i].interval, calls[i].now)
  }

  predicate Accepted(calls: seq<Call>, i: nat)
    requires i < |calls|
  {
    DecisionAt(calls, i).accepted
  }

  ghost predicate TimeRuns(calls: seq<Call>) {
    forall i, j :: 0 <= i <= j < |calls| ==> calls[i].now <= calls[j].now
  }

  ghost predicate Distinct(es: seq<RateEntry>) {
    forall i, j :: 0 <= i < j < |es| ==> es[i].key != es[j].key
  }

  function Keys(es: seq<RateEntry>): set<string> {
    set i | 0 <= i < |es| :: es[i].key
  }

  /** The other keys accepted among the first `n` calls from time `from` on. */
  ghost function Rivals(calls: seq<Call>, n: nat, key: string, from: int): set<string>
    requires n <= |calls|
  {
    set m | 0 <= m < n && Accepted(calls, m) && calls[m].key != key && calls[m].now >= from :: calls[m].key
  }

  /** Every slot is the record of an accepted call. */
  ghost predicate Recorded(calls: seq<Call>, n: nat, e: RateEntry)
    requires n <= |calls|
  {
    exists m :: 0 <= m < n && Accepted(calls, m) && calls[m].key == e.key && calls[m].now == e.at
  }

  ghost predicate Holds(es: seq<RateEntry>, key: string, from: int) {
    exists i :: 0 <= i < |es| && es[i].key == key && es[i].at >= from
  }

  /** An accepted call is still remembered, or sixteen rivals were accepted since. */
  ghost predicate Remembered(calls: seq<Call>, n: nat, i: nat)
    requires i < n <= |calls|
  {
    || Holds(StateBefore(calls, n), calls[i].key, calls[i].now)
    || |Rivals(calls, n, calls[i].key, calls[i].now)| >= RATE_LIMIT_SLOTS
  }

  ghost predicate HistoryInv(calls: seq<Call>, n: nat)
    requires n <= |calls|
  {
    var es := StateBefore(calls, n);
    && |es| <= RATE_LIMIT_SLOTS && Distinct(es)
    && (forall k :: 0 <= k < |es| ==> Recorded(calls, n, es[k]))
    && (forall i :: 0 <= i < n && Accepted(calls, i) ==> Remembered(calls, n, i))
  }

  lemma {:induction false} DistinctKeysCount(es: seq<RateEntry>)
    requires Distinct(es)
    ensures |Keys(es)| == |es|
  {
    if es != [] {
      var n := |es| - 1;
      DistinctKeysCount(es[..n]);
      assert Keys(es) == Keys(es[..n]) + {es[n].key};
      assert es[n].key !in Keys(es[..n]);
    }
  }

  lemma SubsetCount(a: set<string>, b: set<string>)
    requires a <= b
    ensures |a| <= |b|
  {
    assert b == a + (b - a);
  }

  lemma DecideDistinct(es: seq<RateEntry>, key: string, interval: nat, now: int)
    requires |es| <= RATE_LIMIT_SLOTS && Distinct(es)
    ensures var d := Decide(es, key, interval, now); |d.entries| <= RATE_LIMIT_SLOTS && Distinct(d.entries)
  {
  }

  lemma RecordsStay(calls: seq<Call>, n: nat, e: RateEntry)
    requires n < |calls| && Recorded(calls, n, e)
    ensures Recorded(calls, n + 1, e)
  {
  }

  lemma StepRecords(calls: seq<Call>, n: nat)
    requires n < |calls| && HistoryInv(calls, n)
    ensures var es := StateBefore(calls, n + 1);
            forall k :: 0 <= k < |es| ==> Recorded(calls, n + 1, es[k])
  {
    var before, after, e := StateBefore(calls, n), StateBefore(calls, n + 1), RateEntry(calls[n].key, calls[n].now);
    assert Accepted(calls, n) ==> Recorded(calls, n + 1, e);
    forall k | 0 <= k < |after| ensures Recorded(calls, n + 1, after[k]) {
      if k < |before| && after[k] == before[k] {
        RecordsStay(calls, n, before[k]);
      } else {
        assert after[k] == e && Accepted(calls, n);
      }
    }
  }

  /** Swapping one of the stored keys for a new one leaves as many keys. */
  lemma SwapCount(es: seq<RateEntry>, key: string, fresher: string)
    requires Distinct(es) && key in Keys(es) && fresher !in Keys(es)
    ensures |Keys(es) - {key} + {fresher}| == |es|
  {
    DistinctKeysCount(es);
  }

  lemma StoredIsRival(calls: seq<Call>, n: nat, e: RateEntry, key: string, from: int)
    requires n < |calls| && Recorded(calls, n, e) && e.key != key && e.at >= from
    ensures e.key in Rivals(calls, n + 1, key, from)
  {
    var m :| 0 <= m < n && Accepted(calls, m) && calls[m].key == e.key && calls[m].now == e.at;
  }

  lemma RecordIsPast(calls: seq<Call>, n: nat, e: RateEntry)
    requires n < |calls| && TimeRuns(calls) && Recorded(calls, n, e)
    ensures e.at <= calls[n].now
  {
  }

  lemma OthersAreRivals(calls: seq<Call>, n: nat, es: seq<RateEntry>, key: string, from: int)
    requires n < |calls| && forall k :: 0 <= k < |es| ==> Recorded(calls, n, es[k]) && from <= es[k].at
    ensures Keys(es) - {key} <= Rivals(calls, n + 1, key, from)
  {
    forall k | k in Keys(es) && k != key ensures k in Rivals(calls, n + 1, key, from) {
      var i :| 0 <= i < |es| && es[i].key == k;
      StoredIsRival(calls, n, es[i], key, from);
    }
  }

  /** When call `n` drops the oldest slot, the other fifteen slots and the new key are rivals of the dropped key. */
  lemma EvictionHasRivals(calls: seq<Call>, n: nat, es: seq<RateEntry>, key: string, from: int)
    requires n < |calls| && TimeRuns(calls) && Accepted(calls, n)
    requires |es| == RATE_LIMIT_SLOTS && Distinct(es) && forall k :: 0 <= k < |es| ==> Recorded(calls, n, es[k])
    requires calls[n].key !in Keys(es) && key == es[Oldest(es)].key && from <= es[Oldest(es)].at
    ensures |Rivals(calls, n + 1, key, from)| >= RATE_LIMIT_SLOTS
  {
    RecordIsPast(calls, n, es[Oldest(es)]);
    assert calls[n].key in Rivals(calls, n + 1, key, from);
    OthersAreRivals(calls, n, es, key, from);
    SwapCount(es, key, calls[n].key);
    SubsetCount(Keys(es) - {key} + {calls[n].key}, Rivals(calls, n + 1, key, from));
  }

  /** A slot keeps its key, or is the oldest one and every slot was taken. */
  lemma SlotFate(es: seq<RateEntry>, key: string, interval: nat, now: int, k: nat)
    requires |es| <= RATE_LIMIT_SLOTS && k < |es|
    ensures var d := Decide(es, key, interval, now);
            || (k < |d.entries| && d.entries[k] == es[k])
            || (k < |d.entries| && d.entries[k] == RateEntry(key, now) && es[k].key == key)
            || (|es| == RATE_LIMIT_SLOTS && k == Oldest(es) && key !in Keys(es) && d.accepted)
  {
  }

  lemma StepRemembers(calls: seq<Call>, n: nat, i: nat)
    requires n < |calls| && HistoryInv(calls, n) && TimeRuns(calls)
    requires i < n && Accepted(calls, i)
    ensures Remembered(calls, n + 1, i)
  {
    var before, key, from := StateBefore(calls, n), calls[i].key, calls[i].now;
    assert Remembered(calls, n, i);
    if |Rivals(calls, n, key, from)| >= RATE_LIMIT_SLOTS {
      SubsetCount(Rivals(calls, n, key, from), Rivals(calls, n + 1, key, from));
    } else {
      var k :| 0 <= k < |before| && before[k].key == key && before[k].at >= from;
      var c := calls[n];
      var after := Decide(before, c.key, c.interval, c.now).entries;
      assert StateBefore(calls, n + 1) == after;
      SlotFate(before, c.key, c.interval, c.now, k);
      if |before| == RATE_LIMIT_SLOTS && k == Oldest(before) && c.key !in Keys(before) && Accepted(calls, n) {
        EvictionHasRivals(calls, n, before, key, from);
      } else {
        assert after[k].key == key && after[k].at >= from;
      }
    }
  }

  lemma NewestRemembered(calls: seq<Call>, n: nat)
    requires n < |calls| && |StateBefore(calls, n)| <= RATE_LIMIT_SLOTS && Accepted(calls, n)
    ensures Remembered(calls, n + 1, n)
  {
    var c := calls[n];
    AcceptedIsStored(StateBefore(calls, n), c.key, c.interval, c.now);
    assert StateBefore(calls, n + 1) == Decide(StateBefore(calls, n), c.key, c.interval, c.now).entries;
  }

  lemma StepHistory(calls: seq<Call>, n: nat, next: nat)
    requires n < |calls| && HistoryInv(calls, n) && TimeRuns(calls) && next == n + 1
    ensures HistoryInv(calls, next)
  {
    var c := calls[n];
    DecideDistinct(StateBefore(calls, n), c.key, c.interval, c.now);
    assert StateBefore(calls, n + 1) == Decide(StateBefore(calls, n), c.key, c.interval, c.now).entries;
    StepRecords(calls, n);
    forall i | 0 <= i < n + 1 && Accepted(calls, i) ensures Remembered(calls, n + 1, i) {
      if i < n {
        StepRemembers(calls, n, i);
      } else {
        NewestRemembered(calls, n);
      }
    }
  }

  lemma {:induction false} HistoryKeeps(calls: seq<Call>, n: nat)
    requires n <= |calls| && TimeRuns(calls)
    ensures HistoryInv(calls, n)
  {
    if n == 0 {
      HistoryStarts(calls);
    } else {
      HistoryKeeps(calls, n - 1);
      StepHistory(calls, n - 1, n);
    }
  }

  lemma HistoryStarts(calls: seq<Call>)
    ensures HistoryInv(calls, 0)
  {
    assert StateBefore(calls, 0) == [];
  }

  lemma AcceptedIsStored(es: seq<RateEntry>, key: string, interval: nat, now: int)
    requires |es| <= RATE_LIMIT_SLOTS && Decide(es, key, interval, now).accepted
    ensures Holds(Decide(es, key, interval, now).entries, key, now)
  {
    var after, i := Decide(es, key, interval, now).entries, Find(es, key);
    var k := if i < |es| || |es| < RATE_LIMIT_SLOTS then i else Oldest(es);
    assert after[k] == RateEntry(key, now);
  }

  // -------------------------------------------------------------------
  // What the limiter promises
  // -------------------------------------------------------------------

  /** In every history the stored keys are distinct and fit the slots. */
  lemma StoredKeysAreDistinct(calls: seq<Call>, n: nat)
    requires n <= |calls| && TimeRuns(calls)
    ensures Distinct(StateBefore(calls, n)) && |StateBefore(calls, n)| <= RATE_LIMIT_SLOTS
  {
    HistoryKeeps(calls, n);
  }

  /** Two acceptances of one key closer than the interval: sixteen other keys were accepted in that window. */
  lemma EarlyRepeatNeedsRivals(calls: seq<Call>, i: nat, j: nat)
    requires TimeRuns(calls) && i < j < |calls| && Accepted(calls, i) && Accepted(calls, j)
    requires calls[i].key == calls[j].key && calls[j].now - calls[i].now < calls[j].interval
    ensures |Rivals(calls, j, calls[j].key, calls[i].now)| >= RATE_LIMIT_SLOTS
  {
    HistoryKeeps(calls, j);
    assert Remembered(calls, j, i);
    var es := StateBefore(calls, j);
    if Holds(es, calls[i].key, calls[i].now) {
      forall k | 0 <= k < |es| ensures es[k].at <= calls[j].now {
        RecordIsPast(calls, j, es[k]);
      }
      RememberedBlocks(es, calls[i].now, calls[j]);
    }
  }

  lemma RememberedBlocks(es: seq<RateEntry>, from: int, c: Call)
    requires Distinct(es) && Holds(es, c.key, from) && forall k :: 0 <= k < |es| ==> es[k].at <= c.now
    requires c.now - from < c.interval
    ensures !Decide(es, c.key, c.interval, c.now).accepted
  {
    var k :| 0 <= k < |es| && es[k].key == c.key && es[k].at >= from;
    assert Find(es, c.key) == k;
  }

  /** A suppressed line always had an accepted one of its key within the interval. */
  lemma SuppressionIsJustified(calls: seq<Call>, j: nat)
    requires TimeRuns(calls) && j < |calls| && !Accepted(calls, j)
    ensures exists i :: 0 <= i < j && Accepted(calls, i) && calls[i].key == calls[j].key
                        && calls[j].now - calls[i].now < calls[j].interval
  {
    HistoryKeeps(calls, j);
    var es := StateBefore(calls, j);
    var e := es[Find(es, calls[j].key)];
    assert Recorded(calls, j, e);
    var i :| 0 <= i < j && Accepted(calls, i) && calls[i].key == e.key && calls[i].now == e.at;
  }

  function CallKeys(calls: seq<Call>): set<string> {
    set i | 0 <= i < |calls| :: calls[i].key
  }

  /** With no more keys than slots the limiter is exact: a line passes iff no line of its key passed within the interval. */
  lemma ExactWithFewKeys(calls: seq<Call>, j: nat)
    requires TimeRuns(calls) && j < |calls| && |CallKeys(calls)| <= RATE_LIMIT_SLOTS
    ensures Accepted(calls, j) <==>
            forall i :: 0 <= i < j && Accepted(calls, i) && calls[i].key == calls[j].key ==>
              calls[j].now - calls[i].now >= calls[j].interval
  {
    if !Accepted(calls, j) {
      SuppressionIsJustified(calls, j);
    } else {
      forall i | 0 <= i < j && Accepted(calls, i) && calls[i].key == calls[j].key
        ensures calls[j].now - calls[i].now >= calls[j].interval
      {
        if calls[j].now - calls[i].now < calls[j].interval {
          EarlyRepeatNeedsRivals(calls, i, j);
          var key := calls[j].key;
          var rivals := Rivals(calls, j, key, calls[i].now);
          SubsetCount(rivals + {key}, CallKeys(calls));
        }
      }
    }
  }

  // -------------------------------------------------------------------
  // Sixteen is the limit
  // -------------------------------------------------------------------

  /** Keys that differ in length. */
  function Letters(n: nat): (s: string)
    ensures |s| == n
  {
    seq(n, i => 'k')
  }

  /** Seventeen keys in turn at one moment, and then the first one again. */
  ghost predicate IsBurst(calls: seq<Call>) {
    && |calls| == RATE_LIMIT_SLOTS + 2
    && (forall i :: 0 <= i <= RATE_LIMIT_SLOTS ==> calls[i] == Call(Letters(i), 1, 0))
    && calls[RATE_LIMIT_SLOTS + 1] == Call(Letters(0), 1, 0)
  }

  function Filled(n: nat): (es: seq<RateEntry>)
    ensures |es| == n
  {
    seq(n, i requires 0 <= i => RateEntry(Letters(i), 0))
  }

  lemma LettersAreNew(es: seq<RateEntry>, n: nat)
    requires forall i :: 0 <= i < |es| ==> |es[i].key| != n
    ensures Find(es, Letters(n)) == |es|
  {
    var i := Find(es, Letters(n));
  }

  lemma FillStep(n: nat)
    requires n < RATE_LIMIT_SLOTS
    ensures Decide(Filled(n), Letters(n), 1, 0) == Decision(Filled(n + 1), true)
  {
    LettersAreNew(Filled(n), n);
    assert Filled(n + 1) == Filled(n) + [RateEntry(Letters(n), 0)];
  }

  lemma EvictStep(n: nat, after: seq<RateEntry>)
    requires n == RATE_LIMIT_SLOTS && after == Filled(n)[0 := RateEntry(Letters(n), 0)]
    ensures Decide(Filled(n), Letters(n), 1, 0) == Decision(after, true)
    ensures Decide(after, Letters(0), 1, 0).accepted
  {
    LettersAreNew(Filled(n), n);
    assert Filled(n)[0].at == 0 && Oldest(Filled(n)) == 0;
    LettersAreNew(after, 0);
  }

  lemma {:induction false} BurstFills(calls: seq<Call>, n: nat)
    requires IsBurst(calls) && n <= RATE_LIMIT_SLOTS
    ensures StateBefore(calls, n) == Filled(n)
  {
    if n > 0 {
      BurstFills(calls, n - 1);
      FillStep(n - 1);
    }
  }

  /** With one key more than there are slots, a line can pass again at once. */
  lemma OneKeyTooMany() returns (calls: seq<Call>, first: nat, again: nat)
    ensures TimeRuns(calls) && |CallKeys(calls)| == RATE_LIMIT_SLOTS + 1 && first < again < |calls|
    ensures Accepted(calls, first) && Accepted(calls, again) && calls[first].key == calls[again].key
    ensures calls[again].now - calls[first].now < calls[again].interval
  {
    var n := RATE_LIMIT_SLOTS;
    calls := seq(n + 1, i requires 0 <= i => Call(Letters(i), 1, 0)) + [Call(Letters(0), 1, 0)];
    first, again := 0, n + 1;
    BurstKeys(calls);
    BurstPasses(calls, n);
  }

  lemma BurstPasses(calls: seq<Call>, n: nat)
    requires IsBurst(calls) && n == RATE_LIMIT_SLOTS
    ensures Accepted(calls, 0) && Accepted(calls, n + 1)
  {
    BurstFills(calls, 0);
    FillStep(0);
    BurstFills(calls, n);
    EvictStep(n, Filled(n)[0 := RateEntry(Letters(n), 0)]);
    assert StateBefore(calls, n + 1) == DecisionAt(calls, n).entries;
  }

  lemma BurstKeys(calls: seq<Call>)
    requires IsBurst(calls)
    ensures |CallKeys(calls)| == RATE_LIMIT_SLOTS + 1
  {
    var all := Filled(RATE_LIMIT_SLOTS + 1);
    forall i, j | 0 <= i < j < |all| ensures all[i].key != all[j].key {
      assert |all[i].key| == i && |all[j].key| == j;
    }
    DistinctKeysCount(all);
    forall k | k in Keys(all) ensures k in CallKeys(calls) {
      var i :| 0 <= i < |all| && all[i].key == k;
      assert calls[i].key == k;
    }
    forall k | k in CallKeys(calls) ensures k in Keys(all) {
      var i :| 0 <= i < |calls| && calls[i].key == k;
      assert all[if i <= RATE_LIMIT_SLOTS then i else 0].key == k;
    }
    assert CallKeys(calls) == Keys(all);
  }
}
