/**
 The duty-cycle ledger. Instants and durations are nanoseconds, instants counted from the
 first one the clock can represent; each operation is given the clock readings it makes.
 */
module DutyCycle {
  const WINDOW := 3_600_000_000_000

  datatype Entry = Entry(at: nat, airtime: nat)

  function Total(log: seq<Entry>): nat {
    if log == [] then 0 else log[0].airtime + Total(log[1..])
  }

  /** `Instant::now().checked_sub(WINDOW).unwrap_or(Instant::now())`; `again` is the second reading. */
  function Cutoff(now: nat, again: nat): nat {
    if now >= WINDOW then now - WINDOW else again
  }

  /** The log without its leading entries older than `cutoff`. */
  function Evict(log: seq<Entry>, cutoff: nat): seq<Entry> {
    if log != [] && log[0].at < cutoff then Evict(log[1..], cutoff) else log
  }

  class Ledger {
    const budget: nat
    var log: seq<Entry>

    constructor (budget: nat)
      ensures this.budget == budget && log == []
    {
      this.budget := budget;
      log := [];
    }

    method EvictStale(now: nat, again: nat)
      modifies this
      ensures log == Evict(old(log), Cutoff(now, again))
    {
      var cutoff := if now >= WINDOW then now - WINDOW else again;
      while log != [] && log[0].at < cutoff
        invariant Evict(log, cutoff) == Evict(old(log), cutoff)
        decreases |log|
      {
        log := log[1..];
      }
    }

    method CanSend(airtime: nat, now: nat, again: nat) returns (ok: bool)
      modifies this
      ensures log == Evict(old(log), Cutoff(now, again))
      ensures ok == (Total(log) + airtime <= budget)
    {
      EvictStale(now, again);
      var used, i := 0, 0;
      while i < |log|
        invariant 0 <= i <= |log|
        invariant used + Total(log[i..]) == Total(log)
      {
        used := used + log[i].airtime;
        assert log[i..][1..] == log[i + 1..];
        i := i + 1;
      }
      ok := used + airtime <= budget;
    }

    method RecordTx(airtime: nat, now: nat)
      modifies this
      ensures log == old(log) + [Entry(now, airtime)]
    {
      log := log + [Entry(now, airtime)];
    }
  }

  // ---- The full, unpruned history as reference ----

  /** The airtime recorded in the closed interval [lo, hi]. */
  function Airtime(h: seq<Entry>, lo: int, hi: int): nat {
    if h == [] then 0
    else
      var e := h[|h| - 1];
      Airtime(h[..|h| - 1], lo, hi) + if lo <= e.at <= hi then e.airtime else 0
  }

  ghost predicate Sorted(h: seq<Entry>) {
    forall i, j :: 0 <= i < j < |h| ==> h[i].at <= h[j].at
  }

  /** The first entry of `h` that is no older than `from`, or the end of `h`. */
  function FirstSince(h: seq<Entry>, from: int): (k: nat)
    ensures k <= |h|
    ensures forall i :: 0 <= i < k ==> h[i].at < from
    ensures k < |h| ==> h[k].at >= from
  {
    if h == [] || h[0].at >= from then 0
    else
      assert forall i :: 0 < i < |h| ==> h[i] == h[1..][i - 1];
      1 + FirstSince(h[1..], from)
  }

  lemma {:induction false} EvictIsSuffix(log: seq<Entry>, cutoff: nat)
    ensures Evict(log, cutoff) == log[FirstSince(log, cutoff)..]
  {
    if log != [] && log[0].at < cutoff {
      EvictIsSuffix(log[1..], cutoff);
      assert log[1..][FirstSince(log[1..], cutoff)..] == log[FirstSince(log, cutoff)..];
    }
  }

  /** On a sorted log, popping from the front removes exactly the entries older than the cutoff. */
  lemma EvictExact(log: seq<Entry>, cutoff: nat)
    requires Sorted(log)
    ensures var kept := Evict(log, cutoff);
            && Sorted(kept) && |kept| <= |log| && kept == log[|log| - |kept|..]
            && (forall i :: 0 <= i < |log| ==> (log[i].at >= cutoff <==> i >= |log| - |kept|))
  {
    EvictIsSuffix(log, cutoff);
  }

  lemma {:induction false} TotalAppend(a: seq<Entry>, b: seq<Entry>)
    ensures Total(a + b) == Total(a) + Total(b)
  {
    if a == [] {
      assert a + b == b;
    } else {
      assert (a + b)[1..] == a[1..] + b;
      TotalAppend(a[1..], b);
    }
  }

  /** The airtime of an interval is the total of the suffix that lies in it. */
  lemma {:induction false} AirtimeOfSuffix(h: seq<Entry>, k: nat, lo: int, hi: int)
    requires k <= |h|
    requires forall i :: 0 <= i < |h| ==> h[i].at <= hi && (h[i].at >= lo <==> i >= k)
    ensures Airtime(h, lo, hi) == Total(h[k..])
  {
    if h != [] {
      var (g, e) := (h[..|h| - 1], h[|h| - 1]);
      if k < |h| {
        AirtimeOfSuffix(g, k, lo, hi);
        assert h[k..] == g[k..] + [e];
        TotalAppend(g[k..], [e]);
      } else {
        AirtimeOfSuffix(g, |g|, lo, hi);
      }
    }
  }

  lemma {:induction false} AirtimeShrinks(h: seq<Entry>, lo: int, hi: int, lo': int, hi': int)
    requires lo <= lo'
    requires forall i :: 0 <= i < |h| ==> h[i].at <= hi || hi' <= hi
    ensures Airtime(h, lo', hi') <= Airtime(h, lo, hi)
  {
    if h != [] { AirtimeShrinks(h[..|h| - 1], lo, hi, lo', hi'); }
  }

  // ---- Whole call sequences ----

  /** One call, with its clock readings. `Ask` is `can_send`, `Record` is `record_tx`. */
  datatype Call = Ask(airtime: nat, now: nat, again: nat) | Record(airtime: nat, now: nat)

  /** The ledger's log next to everything ever recorded. */
  datatype State = State(log: seq<Entry>, history: seq<Entry>)

  function Step(s: State, c: Call): State {
    match c
    case Ask(_, now, again) => State(Evict(s.log, Cutoff(now, again)), s.history)
    case Record(d, now) => State(s.log + [Entry(now, d)], s.history + [Entry(now, d)])
  }

  function After(calls: seq<Call>): State {
    if calls == [] then State([], []) else Step(After(calls[..|calls| - 1]), calls[|calls| - 1])
  }

  /** What `can_send` answers in state `s`. */
  function Answer(s: State, c: Call, budget: nat): bool
    requires c.Ask?
  {
    Total(Step(s, c).log) + c.airtime <= budget
  }

  // ---- Any non-decreasing clock, its first hour included ----

  /** The last reading a call makes that matters: in the first hour `can_send` also uses the second one. */
  function Ends(c: Call): nat {
    if c.Ask? && c.now < WINDOW then c.again else c.now
  }

  /** Successive readings of the clock, fallback readings included, never decrease. */
  ghost predicate Clocked(calls: seq<Call>) {
    && (forall i :: 0 <= i < |calls| ==> calls[i].now <= Ends(calls[i]))
    && (forall i, j :: 0 <= i < j < |calls| ==> Ends(calls[i]) <= calls[j].now)
  }

  function Max(a: nat, b: nat): nat {
    if a >= b then a else b
  }

  /** The largest fallback reading of the first hour so far, or zero. */
  function Fallback(calls: seq<Call>): nat {
    if calls == [] then 0
    else
      var c := calls[|calls| - 1];
      Max(Fallback(calls[..|calls| - 1]), if c.Ask? && c.now < WINDOW then c.again else 0)
  }

  /** The largest cutoff so far, or zero. */
  function Horizon(calls: seq<Call>): nat {
    if calls == [] then 0
    else
      var c := calls[|calls| - 1];
      Max(Horizon(calls[..|calls| - 1]), if c.Ask? then Cutoff(c.now, c.again) else 0)
  }

  lemma AfterStep(calls: seq<Call>, c: Call)
    ensures After(calls + [c]) == Step(After(calls), c)
  {
    assert (calls + [c])[..|calls|] == calls;
  }

  /** The log is exactly the part of the sorted history that is no older than `horizon`. */
  ghost predicate Trimmed(s: State, horizon: nat, clock: nat) {
    && Sorted(s.history) && horizon <= clock
    && |s.log| <= |s.history| && s.log == s.history[|s.history| - |s.log|..]
    && forall i :: 0 <= i < |s.history| ==>
         s.history[i].at <= clock && (s.history[i].at >= horizon <==> i >= |s.history| - |s.log|)
  }

  lemma TrimAgain(h: seq<Entry>, d: nat, horizon: nat, cutoff: nat)
    requires Sorted(h) && d <= |h| && forall i :: 0 <= i < |h| ==> (h[i].at >= horizon <==> i >= d)
    ensures var k := |h| - |Evict(h[d..], cutoff)|;
            && d <= k <= |h| && Evict(h[d..], cutoff) == h[k..]
            && forall i :: 0 <= i < |h| ==> (h[i].at >= Max(horizon, cutoff) <==> i >= k)
  {
    var log := h[d..];
    EvictExact(log, cutoff);
    var n := |log| - |Evict(log, cutoff)|;
    assert log[n..] == h[d + n..];
    forall i | 0 <= i < |h|
      ensures h[i].at >= Max(horizon, cutoff) <==> i >= d + n
    {
      if i >= d { assert h[i] == log[i - d]; }
    }
  }

  lemma AskTrims(s: State, horizon: nat, clock: nat, c: Call)
    requires Trimmed(s, horizon, clock) && c.Ask? && clock <= c.now <= Ends(c)
    ensures Trimmed(Step(s, c), Max(horizon, Cutoff(c.now, c.again)), Ends(c))
  {
    TrimAgain(s.history, |s.history| - |s.log|, horizon, Cutoff(c.now, c.again));
  }

  lemma RecordTrims(s: State, horizon: nat, clock: nat, c: Call)
    requires Trimmed(s, horizon, clock) && c.Record? && clock <= c.now
    ensures Trimmed(Step(s, c), horizon, c.now)
  {}

  lemma ClockedPrefix(calls: seq<Call>, c: Call)
    requires Clocked(calls + [c])
    ensures Clocked(calls) && c.now <= Ends(c) && forall i :: 0 <= i < |calls| ==> Ends(calls[i]) <= c.now
  {
    var all := calls + [c];
    assert all[|calls|] == c;
    assert forall i :: 0 <= i < |calls| ==> calls[i] == all[i];
  }

  function Clock(calls: seq<Call>): nat {
    if calls == [] then 0 else Ends(calls[|calls| - 1])
  }

  /** The log is always the history since the largest cutoff so far. */
  lemma {:induction false} AlwaysTrimmed(calls: seq<Call>)
    requires Clocked(calls)
    ensures Trimmed(After(calls), Horizon(calls), Clock(calls))
  {
    if calls != [] {
      var (before, c) := (calls[..|calls| - 1], calls[|calls| - 1]);
      assert before + [c] == calls;
      ClockedPrefix(before, c);
      AlwaysTrimmed(before);
      if c.Ask? {
        AskTrims(After(before), Horizon(before), Clock(before), c);
      } else {
        RecordTrims(After(before), Horizon(before), Clock(before), c);
      }
    }
  }

  lemma {:induction false} HorizonBounds(calls: seq<Call>, t: nat)
    requires forall i :: 0 <= i < |calls| ==> calls[i].now <= t
    ensures Fallback(calls) <= Horizon(calls) <= Max(Fallback(calls), if t >= WINDOW then t - WINDOW else 0)
  {
    if calls != [] { HorizonBounds(calls[..|calls| - 1], t); }
  }

  /** At a query, the largest cutoff is the largest first-hour fallback reading or the start of the last hour. */
  lemma HorizonAtAsk(calls: seq<Call>, c: Call)
    requires c.Ask? && Clocked(calls + [c])
    ensures Horizon(calls + [c]) == Max(Fallback(calls + [c]), if c.now >= WINDOW then c.now - WINDOW else 0)
  {
    ClockedPrefix(calls, c);
    var all := calls + [c];
    assert all[..|calls|] == calls && all[|calls|] == c;
    forall i | 0 <= i < |all|
      ensures all[i].now <= c.now
    {
      if i < |calls| { assert all[i] == calls[i] && calls[i].now <= Ends(calls[i]); }
    }
    HorizonBounds(all, c.now);
  }

  lemma {:induction false} AirtimeSplit(h: seq<Entry>, lo: int, mid: int, hi: int)
    requires lo <= mid && forall i :: 0 <= i < |h| ==> h[i].at <= hi
    ensures Airtime(h, lo, hi) == Airtime(h, lo, mid - 1) + Airtime(h, mid, hi)
  {
    if h != [] { AirtimeSplit(h[..|h| - 1], lo, mid, hi); }
  }

  lemma {:induction false} AirtimeEmpty(h: seq<Entry>, lo: int, hi: int)
    requires hi < lo
    ensures Airtime(h, lo, hi) == 0
  {
    if h != [] { AirtimeEmpty(h[..|h| - 1], lo, hi); }
  }

  lemma TrimmedTotal(s: State, horizon: nat, clock: nat, now: nat)
    requires Trimmed(s, horizon, clock) && forall i :: 0 <= i < |s.history| ==> s.history[i].at <= now
    ensures Total(s.log) == Airtime(s.history, horizon, now)
  {
    AirtimeOfSuffix(s.history, |s.history| - |s.log|, horizon, now);
  }

  lemma HistoryBefore(calls: seq<Call>, c: Call)
    requires Clocked(calls + [c])
    ensures forall i :: 0 <= i < |After(calls).history| ==> After(calls).history[i].at <= c.now
  {
    ClockedPrefix(calls, c);
    AlwaysTrimmed(calls);
    assert Clock(calls) <= c.now;
  }

  /** A query leaves in the log exactly what was recorded since the largest cutoff. */
  lemma KeptSinceHorizon(calls: seq<Call>, c: Call)
    requires c.Ask? && Clocked(calls + [c])
    ensures Total(Step(After(calls), c).log) == Airtime(After(calls).history, Horizon(calls + [c]), c.now)
  {
    var all := calls + [c];
    AfterStep(calls, c);
    AlwaysTrimmed(all);
    HistoryBefore(calls, c);
    assert After(all).history == After(calls).history;
    TrimmedTotal(After(all), Horizon(all), Clock(all), c.now);
  }

  /** Airtime lost between `from` and the larger of `from` and `r`. */
  lemma SplitAtLarger(h: seq<Entry>, from: int, r: nat, horizon: nat, now: nat)
    requires forall i :: 0 <= i < |h| ==> h[i].at <= now
    requires horizon == Max(r, if from >= 0 then from else 0)
    ensures Airtime(h, horizon, now) + Airtime(h, from, r - 1) == Airtime(h, from, now)
  {
    AirtimeSplit(h, from, horizon, now);
    if horizon != r {
      AirtimeEmpty(h, from, r - 1);
      AirtimeEmpty(h, from, horizon - 1);
    }
  }

  /** What a query leaves in the log, plus what the fallback has lost of the last hour, is the whole last hour. */
  lemma LostToFallback(calls: seq<Call>, c: Call)
    requires c.Ask? && Clocked(calls + [c])
    ensures var h := After(calls).history;
            Total(Step(After(calls), c).log) + Airtime(h, c.now - WINDOW, Fallback(calls + [c]) - 1)
            == Airtime(h, c.now - WINDOW, c.now)
  {
    var (h, all) := (After(calls).history, calls + [c]);
    var (r, horizon) := (Fallback(all), Horizon(all));
    assert Total(Step(After(calls), c).log) == Airtime(h, horizon, c.now) by { KeptSinceHorizon(calls, c); }
    HistoryBefore(calls, c);
    assert horizon == Max(r, if c.now >= WINDOW then c.now - WINDOW else 0) by { HorizonAtAsk(calls, c); }
    SplitAtLarger(h, c.now - WINDOW, r, horizon, c.now);
  }

  /**
   The exact condition. Over any sequence of calls with a non-decreasing clock, `can_send` answers as
   a recount of the last hour would, for every budget and airtime, if and only if nothing was recorded
   in that hour before the largest fallback reading of the clock's first hour, this call's included.
   */
  lemma AnswersRecountIff(calls: seq<Call>, c: Call)
    requires c.Ask? && Clocked(calls + [c])
    ensures var (s, h, from) := (After(calls), After(calls).history, c.now - WINDOW);
            (forall budget: nat, d: nat ::
               Answer(s, Ask(d, c.now, c.again), budget) <==> Airtime(h, from, c.now) + d <= budget)
            <==> Airtime(h, from, Fallback(calls + [c]) - 1) == 0
  {
    var (s, h, from) := (After(calls), After(calls).history, c.now - WINDOW);
    LostToFallback(calls, c);
    var kept := Total(Step(s, c).log);
    assert forall d: nat :: Step(s, Ask(d, c.now, c.again)).log == Step(s, c).log;
    assert Answer(s, Ask(0, c.now, c.again), kept);
  }

  // ---- A clock past its first hour ----

  /** The clock never runs backwards and is at least one window past its origin. */
  ghost predicate Monotone(calls: seq<Call>) {
    && (forall i :: 0 <= i < |calls| ==> calls[i].now >= WINDOW)
    && (forall i, j :: 0 <= i < j < |calls| ==> calls[i].now <= calls[j].now)
  }

  lemma MonotoneClocked(calls: seq<Call>)
    requires Monotone(calls)
    ensures Clocked(calls) && Fallback(calls) == 0
  {
    assert forall i :: 0 <= i < |calls| ==> Ends(calls[i]) == calls[i].now;
    NoFallback(calls);
  }

  lemma {:induction false} NoFallback(calls: seq<Call>)
    requires forall i :: 0 <= i < |calls| ==> calls[i].now >= WINDOW
    ensures Fallback(calls) == 0
  {
    if calls != [] { NoFallback(calls[..|calls| - 1]); }
  }

  /** The log is a suffix of the history, and what it lacks is older than a window at time `clock`. */
  ghost predicate Faithful(s: State, clock: nat) {
    && Sorted(s.history)
    && (forall i :: 0 <= i < |s.history| ==> s.history[i].at <= clock)
    && |s.log| <= |s.history|
    && s.log == s.history[|s.history| - |s.log|..]
    && (forall i :: 0 <= i < |s.history| - |s.log| ==> s.history[i].at + WINDOW < clock)
  }

  lemma TrimmedFaithful(s: State, horizon: nat, clock: nat)
    requires Trimmed(s, horizon, clock) && (horizon == 0 || horizon + WINDOW <= clock)
    ensures Faithful(s, clock)
  {}

  lemma HorizonPast(calls: seq<Call>)
    requires Monotone(calls)
    ensures Clock(calls) == if calls == [] then 0 else calls[|calls| - 1].now
    ensures Horizon(calls) == 0 || Horizon(calls) + WINDOW <= Clock(calls)
  {
    if calls != [] {
      NoFallback(calls);
      HorizonBounds(calls, calls[|calls| - 1].now);
    }
  }

  lemma AlwaysFaithful(calls: seq<Call>)
    requires Monotone(calls)
    ensures Faithful(After(calls), if calls == [] then 0 else calls[|calls| - 1].now)
  {
    MonotoneClocked(calls);
    AlwaysTrimmed(calls);
    HorizonPast(calls);
    TrimmedFaithful(After(calls), Horizon(calls), Clock(calls));
  }

  lemma {:induction false} NothingBeforeZero(h: seq<Entry>, lo: int)
    ensures Airtime(h, lo, -1) == 0
  {
    if h != [] { NothingBeforeZero(h[..|h| - 1], lo); }
  }

  /**
   Pruning is lossless: after any interleaving of calls, `can_send` answers exactly what a
   recount of everything ever recorded over the last hour would answer.
   */
  lemma PruningIsLossless(calls: seq<Call>, c: Call, budget: nat)
    requires c.Ask? && Monotone(calls + [c])
    ensures Answer(After(calls), c, budget)
            <==> Airtime(After(calls).history, c.now - WINDOW, c.now) + c.airtime <= budget
  {
    MonotoneClocked(calls + [c]);
    LostToFallback(calls, c);
    NothingBeforeZero(After(calls).history, c.now - WINDOW);
  }

  // ---- The budget ----

  /** Call `k` records an airtime that `can_send` has granted, with nothing recorded in between. */
  ghost predicate Granted(calls: seq<Call>, k: nat, budget: nat)
    requires k < |calls|
  {
    exists j :: 0 <= j < k && GrantedBy(calls, j, k, budget)
  }

  ghost predicate GrantedBy(calls: seq<Call>, j: nat, k: nat, budget: nat)
    requires j < k < |calls|
  {
    && calls[j].Ask? && calls[j].airtime == calls[k].airtime
    && Answer(After(calls[..j]), calls[j], budget)
    && forall m :: j < m < k ==> calls[m].Ask?
  }

  ghost predicate Disciplined(calls: seq<Call>, budget: nat) {
    forall k :: 0 <= k < |calls| && calls[k].Record? ==> Granted(calls, k, budget)
  }

  lemma {:induction false} AsksKeepHistory(calls: seq<Call>, j: nat)
    requires j <= |calls| && forall m :: j <= m < |calls| ==> calls[m].Ask?
    ensures After(calls).history == After(calls[..j]).history
  {
    if j < |calls| {
      AsksKeepHistory(calls[..|calls| - 1], j);
      assert calls[..|calls| - 1][..j] == calls[..j];
    } else {
      assert calls[..j] == calls;
    }
  }

  lemma PrefixDisciplined(calls: seq<Call>, n: nat, budget: nat)
    requires n <= |calls| && Disciplined(calls, budget) && Monotone(calls)
    ensures Disciplined(calls[..n], budget) && Monotone(calls[..n])
  {
    var p := calls[..n];
    forall k | 0 <= k < n && p[k].Record?
      ensures Granted(p, k, budget)
    {
      assert Granted(calls, k, budget);
      var j :| 0 <= j < k && GrantedBy(calls, j, k, budget);
      assert p[..j] == calls[..j];
      assert GrantedBy(p, j, k, budget);
    }
  }

  /** What `can_send` has granted fits the hour ending at any later instant. */
  lemma GrantFits(calls: seq<Call>, c: Call, budget: nat, x: int)
    requires c.Ask? && Monotone(calls + [c]) && Answer(After(calls), c, budget) && c.now <= x
    ensures Airtime(After(calls).history, x - WINDOW, x) + c.airtime <= budget
  {
    var h := After(calls).history;
    PruningIsLossless(calls, c, budget);
    MonotoneClocked(calls + [c]);
    HistoryBefore(calls, c);
    AirtimeShrinks(h, c.now - WINDOW, c.now, x - WINDOW, x);
  }

  /** A granted recording keeps the hour ending at any instant from then on within budget. */
  lemma GrantCovers(calls: seq<Call>, j: nat, budget: nat, x: int)
    requires |calls| > 0 && calls[|calls| - 1].Record? && Monotone(calls)
    requires j < |calls| - 1 && GrantedBy(calls, j, |calls| - 1, budget) && x >= calls[|calls| - 1].now
    ensures Airtime(After(calls).history, x - WINDOW, x) <= budget
  {
    var (k, before) := (|calls| - 1, calls[..|calls| - 1]);
    var h := After(before).history;
    assert h == After(calls[..j]).history by {
      assert before[..j + 1] == calls[..j + 1] && calls[..j + 1][..j] == calls[..j] && calls[..j + 1][j] == calls[j];
      AsksKeepHistory(before, j + 1);
    }
    assert Airtime(h, x - WINDOW, x) + calls[j].airtime <= budget by {
      assert calls[..j] + [calls[j]] == calls[..j + 1];
      GrantFits(calls[..j], calls[j], budget, x);
    }
    assert After(calls).history[..|h|] == h;
  }

  /**
   In every disciplined use of the ledger, the airtime recorded in any rolling hour, whenever
   it ends, is within budget.
   */
  lemma {:induction false} RollingHourBudget(calls: seq<Call>, budget: nat, x: int)
    requires Monotone(calls) && Disciplined(calls, budget)
    ensures Airtime(After(calls).history, x - WINDOW, x) <= budget
  {
    if calls != [] {
      var (before, c) := (calls[..|calls| - 1], calls[|calls| - 1]);
      PrefixDisciplined(calls, |calls| - 1, budget);
      RollingHourBudget(before, budget, x);
      if c.Record? {
        assert After(calls).history[..|After(before).history|] == After(before).history;
        if x >= c.now {
          assert Granted(calls, |calls| - 1, budget);
          var j :| 0 <= j < |calls| - 1 && GrantedBy(calls, j, |calls| - 1, budget);
          GrantCovers(calls, j, budget, x);
        }
      }
    }
  }

  // ---- The clock's first hour ----

  /**
   Eviction keeps exactly the entries of the last hour if and only if the clock is a window
   past its origin, or nothing in the log is older than the fallback reading.
   */
  lemma PrunesExactlyIff(log: seq<Entry>, now: nat, again: nat)
    requires Sorted(log)
    ensures (forall i :: 0 <= i < |log| ==>
               (log[i].at >= now - WINDOW <==> i >= |log| - |Evict(log, Cutoff(now, again))|))
            <==> now >= WINDOW || log == [] || log[0].at >= again
  {
    EvictExact(log, Cutoff(now, again));
  }

  lemma AirtimeOfTwo(a: Entry, b: Entry, lo: int, hi: int)
    requires lo <= a.at <= hi && lo <= b.at <= hi
    ensures Airtime([a, b], lo, hi) == a.airtime + b.airtime
  {
    assert [a, b][..1] == [a] && [a][..0] == [];
    assert Airtime([a], lo, hi) == a.airtime;
  }

  lemma AfterTwo(calls: seq<Call>, c: Call, d: Call)
    ensures After(calls + [c, d]) == Step(Step(After(calls), c), d)
  {
    AfterStep(calls, c);
    AfterStep(calls + [c], d);
    assert calls + [c] + [d] == calls + [c, d];
  }

  /** A query whose cutoff is later than the only entry logged, and the recording it grants. */
  lemma ForgetAndRecord(s: State, a: Entry, ask: Call, rec: Call)
    requires s.log == [a] && ask.Ask? && a.at < Cutoff(ask.now, ask.again) && rec.Record?
    ensures Step(s, ask).log == []
    ensures Step(Step(s, ask), rec) == State([Entry(rec.now, rec.airtime)], s.history + [Entry(rec.now, rec.airtime)])
  {
    var cutoff := Cutoff(ask.now, ask.again);
    assert s.log[1..] == [] && Evict(s.log, cutoff) == Evict(s.log[1..], cutoff);
  }

  /** Two pairs of a granted query and its recording are disciplined. */
  lemma TwoGrants(first: seq<Call>, ask: Call, rec: Call, d: nat)
    requires |first| == 2 && first[0].Ask? && first[1] == Record(d, first[1].now) && first[0].airtime == d
    requires ask.Ask? && ask.airtime == d && rec.Record? && rec.airtime == d
    requires Answer(State([], []), first[0], d) && Answer(After(first), ask, d)
    ensures Disciplined(first + [ask, rec], d)
  {
    var calls := first + [ask, rec];
    assert calls[..0] == [] && After(calls[..0]) == State([], []);
    assert calls[..2] == first;
    assert calls[0] == first[0] && calls[1] == first[1] && calls[2] == ask && calls[3] == rec;
    assert GrantedBy(calls, 0, 1, d) && GrantedBy(calls, 2, 3, d);
  }

  lemma AfterGrant(ask: Call, d: nat, t: nat)
    requires ask.Ask?
    ensures After([ask, Record(d, t)]) == State([Entry(t, d)], [Entry(t, d)])
  {
    AfterTwo([], ask, Record(d, t));
    assert [] + [ask, Record(d, t)] == [ask, Record(d, t)] && After([]) == State([], []);
  }

  /** After one transmission `a`, a query that forgets it and the recording this query grants. */
  lemma SecondGrant(first: seq<Call>, a: Entry, ask: Call, rec: Call)
    requires After(first) == State([a], [a])
    requires ask.Ask? && a.at < Cutoff(ask.now, ask.again) && rec.Record?
    ensures Step(After(first), ask).log == []
    ensures After(first + [ask, rec]).history == [a, Entry(rec.now, rec.airtime)]
  {
    AfterTwo(first, ask, rec);
    ForgetAndRecord(After(first), a, ask, rec);
    assert [a] + [Entry(rec.now, rec.airtime)] == [a, Entry(rec.now, rec.airtime)];
  }

  /**
   In the clock's first hour two granted transmissions spend twice the budget: the second query
   falls back to its second reading, which is later than the first transmission.
   */
  lemma FirstHourOverspends(d: nat, t: nat, u: nat, r: nat)
    requires t <= u < WINDOW && u <= r && t < r <= t + WINDOW
    ensures var calls := [Ask(d, t, t), Record(d, t), Ask(d, u, r), Record(d, r)];
            Clocked(calls) && Disciplined(calls, d) && Airtime(After(calls).history, r - WINDOW, r) == d + d
  {
    var (first, ask, rec) := ([Ask(d, t, t), Record(d, t)], Ask(d, u, r), Record(d, r));
    AfterGrant(first[0], d, t);
    SecondGrant(first, Entry(t, d), ask, rec);
    TwoGrants(first, ask, rec, d);
    AirtimeOfTwo(Entry(t, d), Entry(r, d), r - WINDOW, r);
    assert first + [ask, rec] == [Ask(d, t, t), Record(d, t), Ask(d, u, r), Record(d, r)];
  }

  ghost predicate WithinBudget(calls: seq<Call>, budget: nat, x: int) {
    Airtime(After(calls).history, x - WINDOW, x) <= budget
  }

  /** Every disciplined use whose clock readings are all at least `t` stays within budget in every hour. */
  ghost predicate BudgetKeptFrom(t: nat) {
    forall calls: seq<Call>, budget: nat, x: int ::
      Clocked(calls) && (forall i :: 0 <= i < |calls| ==> calls[i].now >= t) && Disciplined(calls, budget) ==>
        WithinBudget(calls, budget, x)
  }

  /** The budget is kept if and only if the readings start a whole window past the clock's origin. */
  lemma BudgetKeptIff(t: nat)
    ensures BudgetKeptFrom(t) <==> t >= WINDOW
  {
    if t >= WINDOW {
      forall calls: seq<Call>, budget: nat, x: int
        | Clocked(calls) && (forall i :: 0 <= i < |calls| ==> calls[i].now >= t) && Disciplined(calls, budget)
        ensures WithinBudget(calls, budget, x)
      {
        assert forall i :: 0 <= i < |calls| ==> Ends(calls[i]) == calls[i].now;
        RollingHourBudget(calls, budget, x);
      }
    } else {
      FirstHourOverspends(1, t, t, t + 1);
      assert !WithinBudget([Ask(1, t, t), Record(1, t), Ask(1, t, t + 1), Record(1, t + 1)], 1, t + 1);
    }
  }
}
