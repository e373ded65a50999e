/** What holds of every interleaving of concurrent provider calls: each checks first and records once. */
module QuotaSafety {
  import opened Wrappers
  import opened ProviderQuota

  /** Usage rows, calls admitted and not yet ended, and how many were admitted because the check itself failed. */
  datatype World = World(days: map<int, Usage>, inFlight: nat, unchecked: nat)

  datatype Step =
    | Check
    | CheckFails
    | Succeed
    | Fail(seen: nat)
    | EndUnrecorded

  datatype Timed = At(now: int, step: Step)

  const IDLE: World := World(map[], 0, 0)

  function Next(w: World, now: int, step: Step, s: Settings): World {
    match step
    case Check => if BeforeCall(w.days, now, s).allowed then w.(inFlight := w.inFlight + 1) else w
    case CheckFails => w.(inFlight := w.inFlight + 1, unchecked := w.unchecked + 1)
    case Succeed => if w.inFlight == 0 then w else w.(days := RecordSuccess(w.days, now), inFlight := w.inFlight - 1)
    case Fail(seen) => if w.inFlight == 0 then w else w.(days := RecordError(w.days, now, seen, s), inFlight := w.inFlight - 1)
    case EndUnrecorded => if w.inFlight == 0 then w else w.(inFlight := w.inFlight - 1)
  }

  function Run(w: World, run: seq<Timed>, s: Settings): World {
    if |run| == 0 then w
    else Next(Run(w, run[..|run| - 1], s), run[|run| - 1].now, run[|run| - 1].step, s)
  }

  /** The clock never goes back. */
  predicate Clocked(run: seq<Timed>) {
    forall j, k | 0 <= j < k < |run| :: run[j].now <= run[k].now
  }

  /** Never more than `k` calls at once while the run goes on from `w`. */
  ghost predicate AtMostInFlightFrom(w: World, run: seq<Timed>, s: Settings, k: nat) {
    forall n :: 0 <= n <= |run| ==> Run(w, run[..n], s).inFlight <= k
  }

  ghost predicate AtMostInFlight(run: seq<Timed>, s: Settings, k: nat) {
    AtMostInFlightFrom(IDLE, run, s, k)
  }

  // Counters

  /** Every day's requests are its successes and errors. */
  lemma {:induction false} RequestsAreOutcomes(run: seq<Timed>, s: Settings)
    ensures CountsAddUp(Run(IDLE, run, s).days)
  {
    if |run| > 0 {
      RequestsAreOutcomes(run[..|run| - 1], s);
    }
  }

  // The hard limit

  /** How many calls of one day can get through their checks, with at most `k` in flight. */
  function Capacity(s: Settings, k: nat): int
    requires Limited(s)
  {
    if HardLimit(s) <= 0 then 0 else HardLimit(s) + k - 1
  }

  /** The current day has room for every call in flight, and no day is over. */
  ghost predicate WithinBound(w: World, now: int, s: Settings, k: nat)
    requires Limited(s)
  {
    && (forall d :: d in w.days ==> d <= DayOf(now) && w.days[d].requests <= Capacity(s, k) + w.unchecked)
    && RowOf(w.days, DayOf(now)).requests + w.inFlight <= Capacity(s, k) + w.unchecked
    && (HardLimit(s) <= 0 ==> w.inFlight <= w.unchecked)
  }

  lemma DaysPass(w: World, before: int, now: int, s: Settings, k: nat)
    requires Limited(s) && k >= 1 && w.inFlight <= k
    requires WithinBound(w, before, s, k) && before <= now
    ensures WithinBound(w, now, s, k)
  {
    if DayOf(now) in w.days {
      assert DayOf(now) <= DayOf(before);
    }
  }

  lemma NextWithinBound(w: World, now: int, step: Step, s: Settings, k: nat)
    requires Limited(s) && k >= 1
    requires WithinBound(w, now, s, k) && Next(w, now, step, s).inFlight <= k
    ensures WithinBound(Next(w, now, step, s), now, s, k)
  {
  }

  lemma {:induction false} RunWithinBound(run: seq<Timed>, s: Settings, k: nat)
    requires Limited(s) && k >= 1 && |run| > 0
    requires Clocked(run) && AtMostInFlight(run, s, k)
    ensures WithinBound(Run(IDLE, run, s), run[|run| - 1].now, s, k)
  {
    var n := |run| - 1;
    var now := run[n].now;
    assert run[..|run|] == run;
    forall m | 0 <= m <= n
      ensures Run(IDLE, run[..n][..m], s).inFlight <= k
    {
      assert run[..n][..m] == run[..m];
    }
    if n == 0 {
      assert WithinBound(IDLE, now, s, k);
    } else {
      RunWithinBound(run[..n], s, k);
      DaysPass(Run(IDLE, run[..n], s), run[n - 1].now, now, s, k);
    }
    NextWithinBound(Run(IDLE, run[..n], s), now, run[n].step, s, k);
  }

  /**
   * With at most `k` calls in flight no day's count exceeds the hard limit by `k` or more, over any
   * run, except for the calls admitted because their own check failed.
   */
  lemma CountIsBounded(run: seq<Timed>, s: Settings, k: nat, day: int)
    requires Limited(s) && k >= 1
    requires Clocked(run) && AtMostInFlight(run, s, k)
    ensures RowOf(Run(IDLE, run, s).days, day).requests <= Capacity(s, k) + Run(IDLE, run, s).unchecked
  {
    if |run| > 0 {
      RunWithinBound(run, s, k);
    }
  }

  // The bound is reached

  function Repeat(step: Step, n: nat): seq<Timed> {
    if n == 0 then [] else Repeat(step, n - 1) + [At(0, step)]
  }

  lemma {:induction false} RunConcat(w: World, a: seq<Timed>, b: seq<Timed>, s: Settings)
    ensures Run(w, a + b, s) == Run(Run(w, a, s), b, s)
  {
    if |b| == 0 {
      assert a + b == a;
    } else {
      RunConcat(w, a, b[..|b| - 1], s);
      assert (a + b)[..|a + b| - 1] == a + b[..|b| - 1];
    }
  }

  lemma {:induction false} ManyChecks(w: World, n: nat, s: Settings)
    requires BeforeCall(w.days, 0, s).allowed
    ensures Run(w, Repeat(Check, n), s) == w.(inFlight := w.inFlight + n)
  {
    if n > 0 {
      ManyChecks(w, n - 1, s);
      assert Repeat(Check, n)[..|Repeat(Check, n)| - 1] == Repeat(Check, n - 1);
    }
  }

  lemma {:induction false} ManySuccesses(w: World, n: nat, s: Settings)
    requires n <= w.inFlight
    ensures var r := Run(w, Repeat(Succeed, n), s);
      && r.inFlight == w.inFlight - n && r.unchecked == w.unchecked
      && RowOf(r.days, 0).requests == RowOf(w.days, 0).requests + n
      && RowOf(r.days, 0).circuitOpenUntil == RowOf(w.days, 0).circuitOpenUntil
  {
    if n > 0 {
      ManySuccesses(w, n - 1, s);
      assert Repeat(Succeed, n)[..|Repeat(Succeed, n)| - 1] == Repeat(Succeed, n - 1);
    }
  }

  /** One call at a time, up to `n`. */
  function OneByOne(n: nat): seq<Timed> {
    if n == 0 then [] else OneByOne(n - 1) + [At(0, Check), At(0, Succeed)]
  }

  lemma {:induction false} OneByOneCounts(n: nat, s: Settings)
    requires Limited(s) && n <= HardLimit(s)
    ensures var r := Run(IDLE, OneByOne(n), s);
      r.inFlight == 0 && r.unchecked == 0 && RowOf(r.days, 0).requests == n && RowOf(r.days, 0).circuitOpenUntil.None?
  {
    if n > 0 {
      OneByOneCounts(n - 1, s);
      var w := Run(IDLE, OneByOne(n - 1), s);
      RunConcat(IDLE, OneByOne(n - 1), [At(0, Check), At(0, Succeed)], s);
      assert [At(0, Check), At(0, Succeed)][..1] == [At(0, Check)] && [At(0, Check)][..0] == [];
      assert Run(w, [At(0, Check)], s) == Next(w, 0, Check, s);
    }
  }

  /** One call after another, each admitted by a check that failed. */
  function Unchecked(n: nat): seq<Timed> {
    if n == 0 then [] else Unchecked(n - 1) + [At(0, CheckFails), At(0, Succeed)]
  }

  /** All checked calls but one in turn, then `k` at once, then the unchecked ones. */
  function Flood(s: Settings, k: nat, unchecked: nat): seq<Timed>
    requires Limited(s)
  {
    Checked(s, k) + Unchecked(unchecked)
  }

  function Checked(s: Settings, k: nat): seq<Timed>
    requires Limited(s)
  {
    if HardLimit(s) <= 0 then [] else OneByOne(HardLimit(s) - 1) + Rush(k)
  }

  /** Every step happens at time 0, so the clock does not go back. */
  predicate AtZero(run: seq<Timed>) {
    forall n | 0 <= n < |run| :: run[n].now == 0
  }

  lemma {:induction false} RepeatAtZero(step: Step, n: nat)
    ensures AtZero(Repeat(step, n))
  {
    if n > 0 {
      RepeatAtZero(step, n - 1);
    }
  }

  lemma {:induction false} OneByOneAtZero(n: nat)
    ensures AtZero(OneByOne(n))
  {
    if n > 0 {
      OneByOneAtZero(n - 1);
    }
  }

  lemma {:induction false} UncheckedAtZero(n: nat)
    ensures AtZero(Unchecked(n))
  {
    if n > 0 {
      UncheckedAtZero(n - 1);
    }
  }

  lemma FloodAtZero(s: Settings, k: nat, unchecked: nat)
    requires Limited(s)
    ensures AtZero(Flood(s, k, unchecked)) && Clocked(Flood(s, k, unchecked))
  {
    if HardLimit(s) > 0 {
      OneByOneAtZero(HardLimit(s) - 1);
      RepeatAtZero(Check, k);
      RepeatAtZero(Succeed, k);
    }
    UncheckedAtZero(unchecked);
  }

  lemma InFlightConcat(w: World, a: seq<Timed>, b: seq<Timed>, s: Settings, k: nat)
    requires AtMostInFlightFrom(w, a, s, k) && AtMostInFlightFrom(Run(w, a, s), b, s, k)
    ensures AtMostInFlightFrom(w, a + b, s, k)
  {
    forall n | 0 <= n <= |a + b|
      ensures Run(w, (a + b)[..n], s).inFlight <= k
    {
      if n <= |a| {
        assert (a + b)[..n] == a[..n];
      } else {
        assert (a + b)[..n] == a + b[..n - |a|];
        RunConcat(w, a, b[..n - |a|], s);
      }
    }
  }

  lemma {:induction false} RepeatPrefix(step: Step, n: nat, m: nat)
    requires m <= n
    ensures |Repeat(step, n)| == n && Repeat(step, n)[..m] == Repeat(step, m)
  {
    if m < n {
      RepeatPrefix(step, n - 1, m);
    } else if n > 0 {
      RepeatPrefix(step, n - 1, n - 1);
    }
  }

  lemma ChecksInFlight(w: World, n: nat, s: Settings)
    requires BeforeCall(w.days, 0, s).allowed && w.inFlight == 0
    ensures AtMostInFlightFrom(w, Repeat(Check, n), s, n)
  {
    RepeatPrefix(Check, n, n);
    forall m | 0 <= m <= n
      ensures Run(w, Repeat(Check, n)[..m], s).inFlight <= n
    {
      RepeatPrefix(Check, n, m);
      ManyChecks(w, m, s);
    }
  }

  lemma SuccessesInFlight(w: World, n: nat, s: Settings)
    requires n == w.inFlight
    ensures AtMostInFlightFrom(w, Repeat(Succeed, n), s, n)
  {
    RepeatPrefix(Succeed, n, n);
    forall m | 0 <= m <= n
      ensures Run(w, Repeat(Succeed, n)[..m], s).inFlight <= n
    {
      RepeatPrefix(Succeed, n, m);
      ManySuccesses(w, m, s);
    }
  }

  lemma PairInFlight(w: World, step: Step, s: Settings, k: nat)
    requires k >= 1 && w.inFlight == 0 && step in {Check, CheckFails}
    ensures AtMostInFlightFrom(w, [At(0, step), At(0, Succeed)], s, k)
    ensures Run(w, [At(0, step), At(0, Succeed)], s) == Next(Next(w, 0, step, s), 0, Succeed, s)
  {
    var run := [At(0, step), At(0, Succeed)];
    assert run[..2] == run && run[..1] == [At(0, step)] && run[..0] == [] && [At(0, step)][..0] == [];
    assert Run(w, run[..0], s) == w;
    assert Run(w, run[..1], s) == Next(w, 0, step, s);
  }

  lemma {:induction false} OneByOneInFlight(n: nat, s: Settings, k: nat)
    requires Limited(s) && n <= HardLimit(s) && k >= 1
    ensures AtMostInFlightFrom(IDLE, OneByOne(n), s, k)
  {
    if n > 0 {
      OneByOneInFlight(n - 1, s, k);
      OneByOneCounts(n - 1, s);
      PairInFlight(Run(IDLE, OneByOne(n - 1), s), Check, s, k);
      InFlightConcat(IDLE, OneByOne(n - 1), [At(0, Check), At(0, Succeed)], s, k);
    }
  }

  /** `k` calls that all check before any of them records. */
  function Rush(k: nat): seq<Timed> {
    Repeat(Check, k) + Repeat(Succeed, k)
  }

  lemma RushCounts(w: World, s: Settings, k: nat)
    requires BeforeCall(w.days, 0, s).allowed && w.inFlight == 0
    ensures var r := Run(w, Rush(k), s);
      r.inFlight == 0 && r.unchecked == w.unchecked && RowOf(r.days, 0).requests == RowOf(w.days, 0).requests + k
    ensures AtMostInFlightFrom(w, Rush(k), s, k)
  {
    hide Run, AtMostInFlightFrom, BeforeCall, Repeat;
    var full := w.(inFlight := k);
    ManyChecks(w, k, s);
    ChecksInFlight(w, k, s);
    ManySuccesses(full, k, s);
    SuccessesInFlight(full, k, s);
    RunConcat(w, Repeat(Check, k), Repeat(Succeed, k), s);
    InFlightConcat(w, Repeat(Check, k), Repeat(Succeed, k), s, k);
  }

  /** The checked part alone fills the capacity. */
  lemma CheckedFills(s: Settings, k: nat)
    requires Limited(s) && k >= 1
    ensures var w := Run(IDLE, Checked(s, k), s);
      w.inFlight == 0 && w.unchecked == 0 && RowOf(w.days, 0).requests == Capacity(s, k)
    ensures AtMostInFlightFrom(IDLE, Checked(s, k), s, k)
  {
    if HardLimit(s) > 0 {
      var n := HardLimit(s) - 1;
      var w := Run(IDLE, OneByOne(n), s);
      OneByOneCounts(n, s);
      OneByOneInFlight(n, s, k);
      assert BeforeCall(w.days, 0, s).allowed;
      hide Run, AtMostInFlightFrom, BeforeCall, Rush, OneByOne, HardLimit;
      RushCounts(w, s, k);
      RunConcat(IDLE, OneByOne(n), Rush(k), s);
      InFlightConcat(IDLE, OneByOne(n), Rush(k), s, k);
    }
  }

  lemma {:induction false} UncheckedCounts(w: World, n: nat, s: Settings, k: nat)
    requires w.inFlight == 0 && k >= 1
    ensures var r := Run(w, Unchecked(n), s);
      r.inFlight == 0 && r.unchecked == w.unchecked + n && RowOf(r.days, 0).requests == RowOf(w.days, 0).requests + n
    ensures AtMostInFlightFrom(w, Unchecked(n), s, k)
  {
    if n > 0 {
      UncheckedCounts(w, n - 1, s, k);
      PairInFlight(Run(w, Unchecked(n - 1), s), CheckFails, s, k);
      RunConcat(w, Unchecked(n - 1), [At(0, CheckFails), At(0, Succeed)], s);
      InFlightConcat(w, Unchecked(n - 1), [At(0, CheckFails), At(0, Succeed)], s, k);
    }
  }

  /** No smaller bound holds: for every `k` and every number of failed checks some run reaches it. */
  lemma BoundIsReached(s: Settings, k: nat, unchecked: nat)
    requires Limited(s) && k >= 1
    ensures var run := Flood(s, k, unchecked);
      && Clocked(run) && AtMostInFlight(run, s, k)
      && Run(IDLE, run, s).unchecked == unchecked
      && RowOf(Run(IDLE, run, s).days, 0).requests == Capacity(s, k) + unchecked
  {
    FloodAtZero(s, k, unchecked);
    CheckedFills(s, k);
    UncheckedCounts(Run(IDLE, Checked(s, k), s), unchecked, s, k);
    RunConcat(IDLE, Checked(s, k), Unchecked(unchecked), s);
    InFlightConcat(IDLE, Checked(s, k), Unchecked(unchecked), s, k);
    hide Checked, Unchecked, Run, Clocked;
    assert AtMostInFlightFrom(IDLE, Flood(s, k, unchecked), s, k);
  }

  /**
   * The plain bound, hard limit plus `k` minus one, holds for every run and day with a given number
   * of calls admitted by failed checks exactly when that number is zero; a limit that admits no
   * checked call at all leaves room for as many of them as the bound itself.
   */
  lemma PlainBoundExactly(s: Settings, k: nat, unchecked: nat)
    requires Limited(s) && k >= 1
    ensures (if HardLimit(s) >= 1 then unchecked == 0 else unchecked <= HardLimit(s) + k - 1) <==>
            forall run, day ::
              Clocked(run) && AtMostInFlight(run, s, k) && Run(IDLE, run, s).unchecked == unchecked ==>
              RowOf(Run(IDLE, run, s).days, day).requests <= HardLimit(s) + k - 1
  {
    hide Clocked, AtMostInFlight, Run, RowOf, HardLimit, Flood;
    if Capacity(s, k) + unchecked <= HardLimit(s) + k - 1 {
      forall run, day | Clocked(run) && AtMostInFlight(run, s, k) && Run(IDLE, run, s).unchecked == unchecked
        ensures RowOf(Run(IDLE, run, s).days, day).requests <= HardLimit(s) + k - 1
      {
        CountIsBounded(run, s, k, day);
      }
    } else {
      BoundIsReached(s, k, unchecked);
      assert RowOf(Run(IDLE, Flood(s, k, unchecked), s).days, 0).requests > HardLimit(s) + k - 1;
    }
  }

  /** Room for one call a day, one call at a time, and the check of the second fails: two calls are counted. */
  lemma FailedCheckBreaksTheLimit()
    ensures var s := Settings(Some(1), 80.0, 100.0, 5, 10);
      var run := [At(0, Check), At(0, Succeed), At(0, CheckFails), At(0, Succeed)];
      && Limited(s) && HardLimit(s) == 1
      && Clocked(run) && AtMostInFlight(run, s, 1)
      && RowOf(Run(IDLE, run, s).days, 0).requests == 2
  {
    var s := Settings(Some(1), 80.0, 100.0, 5, 10);
    assert HardLimit(s) == 1;
    BoundIsReached(s, 1, 1);
    assert OneByOne(0) == [] && Repeat(Check, 1) == [At(0, Check)] && Repeat(Succeed, 1) == [At(0, Succeed)];
    assert Unchecked(1) == [At(0, CheckFails), At(0, Succeed)];
    assert Flood(s, 1, 1) == [At(0, Check), At(0, Succeed), At(0, CheckFails), At(0, Succeed)];
    hide Run, Clocked, AtMostInFlight;
  }

  // The circuit

  /** The day's circuit is open at least until `until`. */
  predicate OpenUntil(days: map<int, Usage>, day: int, until: int) {
    RowOf(days, day).circuitOpenUntil.Some? && RowOf(days, day).circuitOpenUntil.value >= until
  }

  lemma {:induction false} StaysOpen(w: World, run: seq<Timed>, s: Settings, day: int, now: int)
    requires OpenUntil(w.days, day, now + s.cooldownMinutes * MINUTE_MS)
    requires forall k :: 0 <= k < |run| ==> now <= run[k].now
    ensures OpenUntil(Run(w, run, s).days, day, now + s.cooldownMinutes * MINUTE_MS)
  {
    if |run| > 0 {
      StaysOpen(w, run[..|run| - 1], s, day, now);
    }
  }

  /** Once an error reaches the threshold, no check of that day admits a call until the cooldown is over. */
  lemma CircuitHolds(w: World, now: int, seen: nat, s: Settings, run: seq<Timed>, later: int)
    requires seen + 1 >= s.errorThreshold
    requires forall k :: 0 <= k < |run| ==> now <= run[k].now
    requires now <= later < now + s.cooldownMinutes * MINUTE_MS && DayOf(later) == DayOf(now)
    ensures var tripped := World(RecordError(w.days, now, seen, s), w.inFlight, w.unchecked);
      BeforeCall(Run(tripped, run, s).days, later, s) == Decision(false, Some(CircuitOpen))
  {
    var tripped := World(RecordError(w.days, now, seen, s), w.inFlight, w.unchecked);
    StaysOpen(tripped, run, s, DayOf(now), now);
  }
}
