/** The versioned price table, the plans and the 30-day cycle arithmetic. */
module CreditPolicy {
  import opened Prelude

  /** The signed 64-bit bound every stored amount must respect. */
  const MAX_BIGINT: int := 0x7FFF_FFFF_FFFF_FFFF
  const MICROCREDITS_PER_CREDIT: int := 1_000_000
  /** 2_592_000 seconds, in microseconds. */
  const CYCLE: int := 2_592_000_000_000
  /** The last representable instant, in microseconds since 0001-01-01T00:00Z. */
  const MAX_INSTANT: int := 315_537_897_599_999_999

  datatype PolicyError = MeterUnitsInvalid | PolicyAmountOverflow | TimeBeforeSignup | TimeOverflow

  /** In the alphabetical order of the meter names. */
  datatype Meter =
    | GeminiInputToken
    | GeminiOutputToken
    | ImagenFastImage
    | ImagenStandardImage
    | ImagenUltraImage
    | VeoFastMs
    | VeoStandardMs

  const METER_COUNT: nat := 7

  function MeterRank(m: Meter): nat {
    match m
    case GeminiInputToken => 0
    case GeminiOutputToken => 1
    case ImagenFastImage => 2
    case ImagenStandardImage => 3
    case ImagenUltraImage => 4
    case VeoFastMs => 5
    case VeoStandardMs => 6
  }

  /** Every meter, in the order of reports. */
  const METERS: seq<Meter> :=
    [GeminiInputToken, GeminiOutputToken, ImagenFastImage, ImagenStandardImage, ImagenUltraImage, VeoFastMs, VeoStandardMs]

  lemma InMeters(m: Meter)
    ensures m in METERS
  {
    assert METERS[MeterRank(m)] == m;
  }

  function Rate(m: Meter): int {
    match m
    case GeminiInputToken => 1000
    case GeminiOutputToken => 4000
    case ImagenFastImage => 50_000_000
    case ImagenStandardImage => 100_000_000
    case ImagenUltraImage => 200_000_000
    case VeoFastMs => 60_000
    case VeoStandardMs => 120_000
  }

  datatype Plan = Free | Pro | Max

  function Rank(p: Plan): nat {
    match p
    case Free => 0
    case Pro => 1
    case Max => 2
  }

  datatype PlanPolicy = PlanPolicy(allowance: int, refused: set<Meter>, maxConcurrentRequests: nat)

  function PolicyOf(p: Plan): PlanPolicy {
    match p
    case Free =>
      PlanPolicy(1000 * MICROCREDITS_PER_CREDIT, {ImagenStandardImage, ImagenUltraImage, VeoStandardMs}, 1)
    case Pro =>
      PlanPolicy(10000 * MICROCREDITS_PER_CREDIT, {ImagenUltraImage, VeoStandardMs}, 3)
    case Max =>
      PlanPolicy(50000 * MICROCREDITS_PER_CREDIT, {}, 5)
  }

  function QuoteUsage(m: Meter, units: int): Result<int, PolicyError> {
    if !(0 <= units <= MAX_BIGINT) then Err(MeterUnitsInvalid)
    else if units * Rate(m) > MAX_BIGINT then Err(PolicyAmountOverflow)
    else Ok(units * Rate(m))
  }

  datatype CycleBounds = CycleBounds(index: int, startsAt: int, endsAt: int)

  function BoundsAt(signedUpAt: int, now: int): Result<CycleBounds, PolicyError> {
    if now < signedUpAt then Err(TimeBeforeSignup)
    else
      var index := (now - signedUpAt) / CYCLE;
      var start := signedUpAt + index * CYCLE;
      if start + CYCLE > MAX_INSTANT then Err(TimeOverflow) else Ok(CycleBounds(index, start, start + CYCLE))
  }

  /** Cycles tile the time from sign-up on: the bounds of `now` are those of cycle `i` exactly when `now` lies in cycle `i`. */
  lemma BoundsTile(signedUpAt: int, now: int, i: int)
    requires BoundsAt(signedUpAt, now).Ok?
    ensures var b := BoundsAt(signedUpAt, now).value;
            && b.startsAt <= now < b.endsAt == b.startsAt + CYCLE
            && b.startsAt == signedUpAt + b.index * CYCLE
            && 0 <= b.index
            && (b.index == i <==> signedUpAt + i * CYCLE <= now < signedUpAt + i * CYCLE + CYCLE)
  {
    var b := BoundsAt(signedUpAt, now).value;
    var d := now - signedUpAt;
    assert d == (d / CYCLE) * CYCLE + d % CYCLE;
  }

  /** Every instant of a cycle has the bounds of that cycle, in particular its start. */
  lemma BoundsConstantOnCycle(signedUpAt: int, i: int, t: int)
    requires 0 <= i && signedUpAt + i * CYCLE <= t < signedUpAt + i * CYCLE + CYCLE <= MAX_INSTANT
    ensures BoundsAt(signedUpAt, t) == Ok(CycleBounds(i, signedUpAt + i * CYCLE, signedUpAt + i * CYCLE + CYCLE))
  {
    var d := t - signedUpAt;
    assert d / CYCLE == i by {
      assert i * CYCLE <= d < (i + 1) * CYCLE;
    }
  }

  lemma BoundsMonotone(signedUpAt: int, t1: int, t2: int)
    requires t1 <= t2
    requires BoundsAt(signedUpAt, t1).Ok? && BoundsAt(signedUpAt, t2).Ok?
    ensures BoundsAt(signedUpAt, t1).value.index <= BoundsAt(signedUpAt, t2).value.index
  {
  }

  /** Prices are linear in the units, and a price that fits leaves every smaller price fitting. */
  lemma QuoteLinear(m: Meter, a: int, b: int)
    requires 0 <= a && 0 <= b && QuoteUsage(m, a + b).Ok?
    ensures QuoteUsage(m, a).Ok? && QuoteUsage(m, b).Ok?
    ensures QuoteUsage(m, a + b).value == QuoteUsage(m, a).value + QuoteUsage(m, b).value
    ensures 0 <= QuoteUsage(m, a).value <= QuoteUsage(m, a + b).value
  {
    assert (a + b) * Rate(m) == a * Rate(m) + b * Rate(m);
  }

  /** The lowest plan that permits a meter. */
  function LowestPlan(m: Meter): Plan {
    match m
    case ImagenStandardImage => Pro
    case ImagenUltraImage => Max
    case VeoStandardMs => Max
    case _ => Free
  }

  /** A higher plan permits all that a lower one does, grants more and allows more at once; and a meter is permitted exactly from its lowest plan up. */
  lemma PlansGrow(p: Plan, q: Plan)
    ensures forall m :: m !in PolicyOf(p).refused <==> Rank(LowestPlan(m)) <= Rank(p)
    ensures Rank(p) < Rank(q) ==>
              && PolicyOf(q).refused < PolicyOf(p).refused
              && PolicyOf(p).allowance < PolicyOf(q).allowance
              && PolicyOf(p).maxConcurrentRequests < PolicyOf(q).maxConcurrentRequests
  {
    assert ImagenStandardImage in PolicyOf(Free).refused && ImagenStandardImage !in PolicyOf(Pro).refused;
    assert ImagenUltraImage in PolicyOf(Pro).refused;
  }
}
