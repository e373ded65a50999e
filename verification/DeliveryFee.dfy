/** The automatic delivery fee: tariff, zones, and how the fee moves with its inputs. Amounts are whole pesos. */
module DeliveryFee {
  import opened Wrappers

  const ROUND_TO: int := 500
  const BASE_FARE: int := 5000
  const INCLUDED_KM: real := 1.5
  const PRICE_PER_EXTRA_KM: real := 1000.0
  const INCLUDED_MINUTES: real := 15.0
  const PRICE_PER_TIME_BLOCK: int := 500
  const TIME_BLOCK_MINUTES: real := 5.0
  const MIN_FARE: int := 5000
  const MAX_AUTO_FARE: int := 15000
  const MAX_AUTO_DISTANCE_KM: real := 8.0
  const MAX_AUTO_DURATION_MINUTES: real := 45.0

  datatype Rain = NoRain | LightRain | ModerateRain | HeavyRain | UnknownRain

  datatype Schedule = Normal | Peak | Night | WeekendPeak

  datatype Zone = Near | Medium | Far | OutOfCoverage

  function WeatherSurcharge(rain: Rain): int {
    match rain
    case NoRain | UnknownRain => 0
    case LightRain => 1000
    case ModerateRain => 1500
    case HeavyRain => 2500
  }

  function ScheduleSurcharge(schedule: Schedule): int {
    match schedule
    case Normal => 0
    case Peak | WeekendPeak => 1000
    case Night => 1500
  }

  function LogisticsSurcharge(zone: Zone): int {
    match zone
    case Near | OutOfCoverage => 0
    case Medium => 1000
    case Far => 2500
  }

  function SubtotalBenefit(subtotal: int): int {
    if subtotal >= 120000 then 2000 else if subtotal >= 80000 then 1000 else 0
  }

  function ZoneOf(distanceKm: real, durationMinutes: real): Zone {
    if distanceKm > MAX_AUTO_DISTANCE_KM || durationMinutes > MAX_AUTO_DURATION_MINUTES then OutOfCoverage
    else if distanceKm <= 3.0 then Near
    else if distanceKm <= 6.0 then Medium
    else Far
  }

  function Ceiling(x: real): int {
    -((-x).Floor)
  }

  function RoundUp(value: real): int {
    Ceiling(value / ROUND_TO as real) * ROUND_TO
  }

  function Excess(value: real, included: real): real {
    if value > included then value - included else 0.0
  }

  datatype Trip = Trip(distanceKm: real, durationMinutes: real, rain: Rain, schedule: Schedule, subtotal: int)

  /** The signed amounts of the breakdown, in its order. */
  function Breakdown(t: Trip): seq<int> {
    [
      BASE_FARE,
      RoundUp(Excess(t.distanceKm, INCLUDED_KM) * PRICE_PER_EXTRA_KM),
      Ceiling(Excess(t.durationMinutes, INCLUDED_MINUTES) / TIME_BLOCK_MINUTES) * PRICE_PER_TIME_BLOCK,
      WeatherSurcharge(t.rain),
      ScheduleSurcharge(t.schedule),
      LogisticsSurcharge(ZoneOf(t.distanceKm, t.durationMinutes)),
      -SubtotalBenefit(t.subtotal)
    ]
  }

  function RawFee(t: Trip): int {
    var b := Breakdown(t);
    b[0] + b[1] + b[2] + b[3] + b[4] + b[5] + b[6]
  }

  /** None outside the automatic coverage. */
  function SuggestedFee(t: Trip): Option<int> {
    if ZoneOf(t.distanceKm, t.durationMinutes) == OutOfCoverage then None
    else
      var rounded := RoundUp(RawFee(t) as real);
      var atLeast := if rounded < MIN_FARE then MIN_FARE else rounded;
      Some(if atLeast > MAX_AUTO_FARE then MAX_AUTO_FARE else atLeast)
  }

  function Sum(amounts: seq<int>): int {
    if |amounts| == 0 then 0 else Sum(amounts[..|amounts| - 1]) + amounts[|amounts| - 1]
  }

  function Clamp(x: int): int {
    if x < MIN_FARE then MIN_FARE else if x > MAX_AUTO_FARE then MAX_AUTO_FARE else x
  }

  lemma SumMore(b: seq<int>, n: nat)
    requires n < |b|
    ensures Sum(b[..n + 1]) == Sum(b[..n]) + b[n]
  {
    assert b[..n + 1][..n] == b[..n];
  }

  lemma SevenSum(b: seq<int>)
    requires |b| == 7
    ensures Sum(b) == b[0] + b[1] + b[2] + b[3] + b[4] + b[5] + b[6]
  {
    SumMore(b, 0);
    SumMore(b, 1);
    SumMore(b, 2);
    SumMore(b, 3);
    SumMore(b, 4);
    SumMore(b, 5);
    SumMore(b, 6);
    assert b[..7] == b;
  }

  lemma RawFeeIsSum(t: Trip)
    ensures RawFee(t) == Sum(Breakdown(t))
  {
    SevenSum(Breakdown(t));
  }

  lemma CeilingExact(n: int)
    ensures Ceiling(n as real) == n
  {
  }

  /** Rounding up a multiple changes nothing. */
  lemma RoundUpOfMultiple(n: int)
    requires n % ROUND_TO == 0
    ensures RoundUp(n as real) == n
  {
    var q := n / ROUND_TO;
    assert n as real / ROUND_TO as real == q as real;
    CeilingExact(q);
  }

  lemma CeilingMonotone(x: real, y: real)
    requires x <= y
    ensures Ceiling(x) <= Ceiling(y)
  {
  }

  lemma SurchargesAreMultiples(t: Trip)
    ensures (WeatherSurcharge(t.rain) + ScheduleSurcharge(t.schedule) +
             LogisticsSurcharge(ZoneOf(t.distanceKm, t.durationMinutes)) - SubtotalBenefit(t.subtotal)) % ROUND_TO == 0
  {
    hide ZoneOf;
  }

  lemma EveryPartIsMultiple(t: Trip)
    ensures RawFee(t) % ROUND_TO == 0
  {
    SurchargesAreMultiples(t);
    hide WeatherSurcharge, ScheduleSurcharge, LogisticsSurcharge, SubtotalBenefit, ZoneOf, Ceiling, Excess;
    var km := Ceiling(Excess(t.distanceKm, INCLUDED_KM) * PRICE_PER_EXTRA_KM / ROUND_TO as real);
    var blocks := Ceiling(Excess(t.durationMinutes, INCLUDED_MINUTES) / TIME_BLOCK_MINUTES);
    var rest := WeatherSurcharge(t.rain) + ScheduleSurcharge(t.schedule) +
                LogisticsSurcharge(ZoneOf(t.distanceKm, t.durationMinutes)) - SubtotalBenefit(t.subtotal);
    assert RawFee(t) == 500 * (10 + km + blocks) + rest;
  }

  /** The fee is the sum of its breakdown, kept within its limits: the final rounding changes nothing. */
  lemma FeeIsClampedSum(t: Trip)
    ensures SuggestedFee(t).Some? <==> t.distanceKm <= MAX_AUTO_DISTANCE_KM && t.durationMinutes <= MAX_AUTO_DURATION_MINUTES
    ensures SuggestedFee(t).Some? ==> SuggestedFee(t).value == Clamp(Sum(Breakdown(t)))
    ensures SuggestedFee(t).Some? ==> SuggestedFee(t).value % ROUND_TO == 0
    ensures SuggestedFee(t).Some? ==> MIN_FARE <= SuggestedFee(t).value <= MAX_AUTO_FARE
  {
    EveryPartIsMultiple(t);
    RoundUpOfMultiple(RawFee(t));
    RawFeeIsSum(t);
  }

  // The tariff in plain figures

  /** A block counts as soon as it is begun: `k` is how many blocks it takes to reach the value, none when it is included. */
  predicate BlocksBegun(value: real, included: real, block: real, k: nat) {
    value <= included + block * k as real && (k > 0 ==> value > included + block * (k - 1) as real)
  }

  lemma CeilingIs(x: real)
    ensures x <= Ceiling(x) as real < x + 1.0
  {
  }

  /** Rounding takes the least multiple of 500 that is not below the value. */
  lemma RoundsUp(value: real)
    ensures RoundUp(value) % 500 == 0
    ensures value <= RoundUp(value) as real < value + 500.0
  {
    CeilingIs(value / 500.0);
  }

  lemma CeilingUnique(x: real, k: int)
    requires k as real >= x && x > (k - 1) as real
    ensures Ceiling(x) == k
  {
    CeilingIs(x);
  }

  lemma HalfKilometres(distanceKm: real, k: nat)
    requires BlocksBegun(distanceKm, 1.5, 0.5, k)
    ensures RoundUp(Excess(distanceKm, INCLUDED_KM) * PRICE_PER_EXTRA_KM) == 500 * k
  {
    var x := Excess(distanceKm, INCLUDED_KM) * PRICE_PER_EXTRA_KM / ROUND_TO as real;
    assert x == Excess(distanceKm, 1.5) * 2.0;
    CeilingUnique(x, k);
  }

  lemma FiveMinutes(durationMinutes: real, m: nat)
    requires BlocksBegun(durationMinutes, 15.0, 5.0, m)
    ensures Ceiling(Excess(durationMinutes, INCLUDED_MINUTES) / TIME_BLOCK_MINUTES) * PRICE_PER_TIME_BLOCK == 500 * m
  {
    CeilingUnique(Excess(durationMinutes, INCLUDED_MINUTES) / TIME_BLOCK_MINUTES, m);
  }

  /** The surcharges and the benefit of a covered trip. */
  predicate Extras(t: Trip, wet: int, hour: int, way: int, off: int) {
    && wet == (if t.rain == LightRain then 1000 else if t.rain == ModerateRain then 1500 else if t.rain == HeavyRain then 2500 else 0)
    && hour == (if t.schedule == Night then 1500 else if t.schedule == Normal then 0 else 1000)
    && way == (if t.distanceKm <= 3.0 then 0 else if t.distanceKm <= 6.0 then 1000 else 2500)
    && off == (if t.subtotal < 80000 then 0 else if t.subtotal < 120000 then 1000 else 2000)
  }

  lemma ExtrasAre(t: Trip, wet: int, hour: int, way: int, off: int)
    requires Extras(t, wet, hour, way, off) && ZoneOf(t.distanceKm, t.durationMinutes) != OutOfCoverage
    ensures WeatherSurcharge(t.rain) == wet && ScheduleSurcharge(t.schedule) == hour
    ensures LogisticsSurcharge(ZoneOf(t.distanceKm, t.durationMinutes)) == way && SubtotalBenefit(t.subtotal) == off
  {
  }

  lemma RawByTariff(t: Trip, k: nat, m: nat, wet: int, hour: int, way: int, off: int)
    requires BlocksBegun(t.distanceKm, 1.5, 0.5, k) && BlocksBegun(t.durationMinutes, 15.0, 5.0, m)
    requires Extras(t, wet, hour, way, off) && ZoneOf(t.distanceKm, t.durationMinutes) != OutOfCoverage
    ensures RawFee(t) == 5000 + 500 * k + 500 * m + wet + hour + way - off
  {
    hide Ceiling, RoundUp, Excess, BlocksBegun, Extras, ZoneOf, WeatherSurcharge, ScheduleSurcharge, LogisticsSurcharge, SubtotalBenefit;
    HalfKilometres(t.distanceKm, k);
    FiveMinutes(t.durationMinutes, m);
    ExtrasAre(t, wet, hour, way, off);
  }

  /**
   * A trip of at most 8 km and 45 minutes costs 5000, 500 more for each half kilometre begun beyond
   * 1.5 km and for each five minutes begun beyond 15, with the surcharges and the benefit, never less
   * than 5000 or more than 15000; any other trip has no automatic fee.
   */
  lemma FeeByTariff(t: Trip, k: nat, m: nat, wet: int, hour: int, way: int, off: int)
    requires BlocksBegun(t.distanceKm, 1.5, 0.5, k) && BlocksBegun(t.durationMinutes, 15.0, 5.0, m)
    requires Extras(t, wet, hour, way, off)
    ensures SuggestedFee(t).None? <==> t.distanceKm > 8.0 || t.durationMinutes > 45.0
    ensures SuggestedFee(t).Some? ==>
      var sum := 5000 + 500 * k + 500 * m + wet + hour + way - off;
      SuggestedFee(t).value == if sum < 5000 then 5000 else if sum > 15000 then 15000 else sum
  {
    hide RawFee, Ceiling, RoundUp, Excess, BlocksBegun, Extras;
    EveryPartIsMultiple(t);
    RoundUpOfMultiple(RawFee(t));
    if SuggestedFee(t).Some? {
      RawByTariff(t, k, m, wet, hour, way, off);
    }
  }

  /** Every distance and duration has such numbers of blocks. */
  lemma BlocksExist(distanceKm: real, durationMinutes: real) returns (k: nat, m: nat)
    ensures BlocksBegun(distanceKm, 1.5, 0.5, k) && BlocksBegun(durationMinutes, 15.0, 5.0, m)
  {
    k := if distanceKm <= 1.5 then 0 else Ceiling((distanceKm - 1.5) * 2.0);
    m := if durationMinutes <= 15.0 then 0 else Ceiling((durationMinutes - 15.0) / 5.0);
    CeilingIs((distanceKm - 1.5) * 2.0);
    CeilingIs((durationMinutes - 15.0) / 5.0);
  }

  // Monotonicity

  /** How hard it rains; rain of unknown strength counts as none. */
  function Intensity(rain: Rain): nat {
    match rain
    case NoRain | UnknownRain => 0
    case LightRain => 1
    case ModerateRain => 2
    case HeavyRain => 3
  }

  /** How hard the hour is to serve. */
  function Burden(schedule: Schedule): nat {
    match schedule
    case Normal => 0
    case Peak | WeekendPeak => 1
    case Night => 2
  }

  /** The surcharges rise with the rain and with the hour, and with nothing else. */
  lemma SurchargesMonotone(a: Trip, b: Trip)
    ensures Intensity(a.rain) <= Intensity(b.rain) <==> WeatherSurcharge(a.rain) <= WeatherSurcharge(b.rain)
    ensures Burden(a.schedule) <= Burden(b.schedule) <==> ScheduleSurcharge(a.schedule) <= ScheduleSurcharge(b.schedule)
  {
  }

  /** `a` is nowhere farther, slower, wetter or at a harder hour than `b`, and its order is at least as large. */
  predicate Easier(a: Trip, b: Trip) {
    a.distanceKm <= b.distanceKm && a.durationMinutes <= b.durationMinutes &&
    Intensity(a.rain) <= Intensity(b.rain) && Burden(a.schedule) <= Burden(b.schedule) &&
    a.subtotal >= b.subtotal
  }

  lemma ZonesMonotone(a: Trip, b: Trip)
    requires Easier(a, b) && ZoneOf(b.distanceKm, b.durationMinutes) != OutOfCoverage
    ensures ZoneOf(a.distanceKm, a.durationMinutes) != OutOfCoverage
    ensures LogisticsSurcharge(ZoneOf(a.distanceKm, a.durationMinutes)) <= LogisticsSurcharge(ZoneOf(b.distanceKm, b.durationMinutes))
  {
  }

  lemma ChargesMonotone(a: Trip, b: Trip)
    requires Easier(a, b)
    ensures Breakdown(a)[1] <= Breakdown(b)[1] && Breakdown(a)[2] <= Breakdown(b)[2] && Breakdown(a)[6] <= Breakdown(b)[6]
  {
    var x, y := Excess(a.distanceKm, INCLUDED_KM), Excess(b.distanceKm, INCLUDED_KM);
    CeilingMonotone(x * PRICE_PER_EXTRA_KM / ROUND_TO as real, y * PRICE_PER_EXTRA_KM / ROUND_TO as real);
    CeilingMonotone(Excess(a.durationMinutes, INCLUDED_MINUTES) / TIME_BLOCK_MINUTES,
                    Excess(b.durationMinutes, INCLUDED_MINUTES) / TIME_BLOCK_MINUTES);
  }

  /** An easier trip is covered whenever the harder one is, and never costs more, also across zone boundaries. */
  lemma FeeIsMonotone(a: Trip, b: Trip)
    requires Easier(a, b) && SuggestedFee(b).Some?
    ensures SuggestedFee(a).Some? && SuggestedFee(a).value <= SuggestedFee(b).value
  {
    ZonesMonotone(a, b);
    ChargesMonotone(a, b);
    SurchargesMonotone(a, b);
    EveryPartIsMultiple(a);
    EveryPartIsMultiple(b);
    RoundUpOfMultiple(RawFee(a));
    RoundUpOfMultiple(RawFee(b));
    assert RawFee(a) <= RawFee(b);
  }
}
