/** Daily usage rows of one provider endpoint, with a hard limit and a circuit breaker. */
module ProviderQuota {
  import opened Wrappers

  const DAY_MS: int := 86400000

  const MINUTE_MS: int := 60000

  datatype Usage = Usage(requests: nat, successes: nat, errors: nat, circuitOpenUntil: Option<int>)

  const UNUSED: Usage := Usage(0, 0, 0, None)

  datatype Settings = Settings(
    dailyLimit: Option<int>,
    softPercent: real,
    hardPercent: real,
    errorThreshold: int,
    cooldownMinutes: nat)

  datatype Warning = CircuitOpen | HardLimitReached | SoftLimitReached

  datatype Decision = Decision(allowed: bool, warning: Option<Warning>)

  /** The UTC day of an instant. */
  function DayOf(now: int): int {
    now / DAY_MS
  }

  function RowOf(days: map<int, Usage>, day: int): Usage {
    if day in days then days[day] else UNUSED
  }

  function LimitOf(dailyLimit: int, percent: real): int {
    (dailyLimit as real * (percent / 100.0)).Floor
  }

  predicate Limited(s: Settings) {
    s.dailyLimit.Some? && s.dailyLimit.value > 0
  }

  function HardLimit(s: Settings): int
    requires Limited(s)
  {
    LimitOf(s.dailyLimit.value, s.hardPercent)
  }

  function BeforeCall(days: map<int, Usage>, now: int, s: Settings): Decision {
    var row := RowOf(days, DayOf(now));
    if row.circuitOpenUntil.Some? && row.circuitOpenUntil.value > now then Decision(false, Some(CircuitOpen))
    else if !Limited(s) then Decision(true, None)
    else if row.requests >= HardLimit(s) then Decision(false, Some(HardLimitReached))
    else Decision(true, if row.requests >= LimitOf(s.dailyLimit.value, s.softPercent) then Some(SoftLimitReached) else None)
  }

  /** One request more would go beyond the given percentage of the daily limit. */
  predicate Beyond(requests: nat, dailyLimit: int, percent: real) {
    (requests + 1) as real * 100.0 > dailyLimit as real * percent
  }

  predicate CircuitIsOpen(days: map<int, Usage>, now: int) {
    now / 86400000 in days &&
    days[now / 86400000].circuitOpenUntil.Some? && days[now / 86400000].circuitOpenUntil.value > now
  }

  function RequestsToday(days: map<int, Usage>, now: int): nat {
    if now / 86400000 in days then days[now / 86400000].requests else 0
  }

  lemma BeyondMeans(requests: nat, dailyLimit: int, percent: real)
    ensures requests >= LimitOf(dailyLimit, percent) <==> Beyond(requests, dailyLimit, percent)
  {
    var x := dailyLimit as real * (percent / 100.0);
    assert x * 100.0 == dailyLimit as real * percent;
    assert (requests + 1) as real == requests as real + 1.0;
  }

  /**
   * A call is refused exactly while the day's circuit is open, or, under a limit, when it would go
   * beyond the hard percentage; it is warned about exactly when it would go beyond the soft one.
   */
  lemma BeforeCallMeans(days: map<int, Usage>, now: int, s: Settings)
    ensures var decision := BeforeCall(days, now, s);
      var limited := s.dailyLimit.Some? && s.dailyLimit.value > 0;
      var count := RequestsToday(days, now);
      && (decision.allowed <==> !CircuitIsOpen(days, now) && (limited ==> !Beyond(count, s.dailyLimit.value, s.hardPercent)))
      && (decision.warning == Some(CircuitOpen) <==> CircuitIsOpen(days, now))
      && (decision.warning == Some(HardLimitReached) <==> !decision.allowed && !CircuitIsOpen(days, now))
      && (decision.warning == Some(SoftLimitReached) <==>
            decision.allowed && limited && Beyond(count, s.dailyLimit.value, s.softPercent))
  {
    hide LimitOf, Beyond;
    if s.dailyLimit.Some? {
      BeyondMeans(RequestsToday(days, now), s.dailyLimit.value, s.hardPercent);
      BeyondMeans(RequestsToday(days, now), s.dailyLimit.value, s.softPercent);
    }
  }

  function RecordSuccess(days: map<int, Usage>, now: int): map<int, Usage> {
    var row := RowOf(days, DayOf(now));
    days[DayOf(now) := row.(requests := row.requests + 1, successes := row.successes + 1)]
  }

  /** `seen` is the error count read before the write, which may be out of date. */
  function RecordError(days: map<int, Usage>, now: int, seen: nat, s: Settings): map<int, Usage> {
    var row := RowOf(days, DayOf(now));
    var open := if seen + 1 >= s.errorThreshold then Some(now + s.cooldownMinutes * MINUTE_MS) else row.circuitOpenUntil;
    days[DayOf(now) := row.(requests := row.requests + 1, errors := row.errors + 1, circuitOpenUntil := open)]
  }

  /** A recorded call counts on its own day only; an error opens the circuit exactly from the threshold on, for the cooldown. */
  lemma RecordsCount(days: map<int, Usage>, now: int, seen: nat, s: Settings)
    ensures var today := now / 86400000;
      var before := if today in days then days[today] else Usage(0, 0, 0, None);
      && RecordSuccess(days, now).Keys == RecordError(days, now, seen, s).Keys == days.Keys + {today}
      && (forall d :: d in days && d != today ==> RecordSuccess(days, now)[d] == days[d] == RecordError(days, now, seen, s)[d])
      && RecordSuccess(days, now)[today] == Usage(before.requests + 1, before.successes + 1, before.errors, before.circuitOpenUntil)
      && RecordError(days, now, seen, s)[today] ==
         Usage(before.requests + 1, before.successes, before.errors + 1,
               if seen >= s.errorThreshold - 1 then Some(now + 60000 * s.cooldownMinutes) else before.circuitOpenUntil)
  {
  }

  /** Every request of a day has ended in a success or an error. */
  ghost predicate CountsAddUp(days: map<int, Usage>) {
    forall d :: d in days ==> days[d].requests == days[d].successes + days[d].errors
  }

  class UsageTable {
    var days: map<int, Usage>

    ghost predicate Valid()
      reads this
    {
      CountsAddUp(days)
    }

    constructor ()
      ensures Valid() && days == map[]
    {
      days := map[];
    }

    method Before(now: int, s: Settings) returns (decision: Decision)
      ensures decision == BeforeCall(days, now, s)
      ensures decision.allowed <==>
        !CircuitIsOpen(days, now) &&
        (s.dailyLimit.Some? && s.dailyLimit.value > 0 ==> !Beyond(RequestsToday(days, now), s.dailyLimit.value, s.hardPercent))
    {
      hide Beyond, LimitOf, CircuitIsOpen;
      BeforeCallMeans(days, now, s);
      var row := RowOf(days, DayOf(now));
      if row.circuitOpenUntil.Some? && row.circuitOpenUntil.value > now {
        return Decision(false, Some(CircuitOpen));
      }
      if !Limited(s) {
        return Decision(true, None);
      }
      if row.requests >= HardLimit(s) {
        return Decision(false, Some(HardLimitReached));
      }
      return Decision(true, if row.requests >= LimitOf(s.dailyLimit.value, s.softPercent) then Some(SoftLimitReached) else None);
    }

    method Upsert(now: int, succeeded: bool, open: Option<int>)
      requires Valid()
      modifies this
      ensures Valid()
      ensures var row := RowOf(old(days), DayOf(now));
        days == old(days)[DayOf(now) := Usage(row.requests + 1, row.successes + (if succeeded then 1 else 0),
                                               row.errors + (if succeeded then 0 else 1),
                                               if open.Some? then open else row.circuitOpenUntil)]
    {
      if DayOf(now) !in days {
        days := days[DayOf(now) := Usage(1, if succeeded then 1 else 0, if succeeded then 0 else 1, open)];
        return;
      }
      var row := days[DayOf(now)];
      row := row.(requests := row.requests + 1);
      if succeeded {
        row := row.(successes := row.successes + 1);
      } else {
        row := row.(errors := row.errors + 1);
      }
      if open.Some? {
        row := row.(circuitOpenUntil := open);
      }
      days := days[DayOf(now) := row];
    }

    method Success(now: int)
      requires Valid()
      modifies this
      ensures Valid()
      ensures days == RecordSuccess(old(days), now)
    {
      Upsert(now, true, None);
    }

    method Error(now: int, s: Settings)
      requires Valid()
      modifies this
      ensures Valid()
      ensures days == RecordError(old(days), now, RowOf(old(days), DayOf(now)).errors, s)
    {
      var nextErrorCount := RowOf(days, DayOf(now)).errors + 1;
      Upsert(now, false, if nextErrorCount >= s.errorThreshold then Some(now + s.cooldownMinutes * MINUTE_MS) else None);
    }
  }
}
