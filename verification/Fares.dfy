/** Solo and seat fares, in whole minor units, over exact arithmetic. */
module Fares {
  import opened Types
  import opened Itinerary

  /** `Math.round`: to the nearest integer, halves upwards. */
  function Round(x: real): int {
    (x + 0.5).Floor
  }

  /** `mulMoney`. */
  function Scaled(amount: int, factor: real): int {
    Round(amount as real * factor)
  }

  datatype FareParams = FareParams(baseCents: real, perKmCents: real, perMinCents: real)

  /** What the configuration accepts. */
  datatype SharedParams = SharedParams(multiplier2: real, multiplier3: real, commission: real)

  predicate Configured(f: FareParams, s: SharedParams) {
    && f.baseCents >= 0.0 && f.perKmCents >= 0.0 && f.perMinCents >= 0.0
    && 0.01 <= s.multiplier2 <= 1.0 && 0.01 <= s.multiplier3 <= 1.0 && 0.0 <= s.commission <= 1.0
  }

  datatype Metrics = Metrics(distanceM: real, durationS: real)

  function SoloFare(f: FareParams, m: Metrics): int {
    Round(f.baseCents + f.perKmCents * (m.distanceM / 1000.0) + f.perMinCents * (m.durationS / 60.0))
  }

  function Multiplier(s: SharedParams, seats: int): real {
    if seats <= 1 then 1.0 else if seats == 2 then s.multiplier2 else s.multiplier3
  }

  function Clamp(x: real, lo: real, hi: real): real {
    if x < lo then lo else if x > hi then hi else x
  }

  function Detour(multiplier: real, directM: real, pooledM: real): real
    requires multiplier > 0.0
  {
    Clamp(if directM > 0.0 then pooledM / directM else 1.0, 1.0, 1.0 / multiplier)
  }

  function SeatFare(solo: int, multiplier: real, directM: real, pooledM: real): int
    requires multiplier > 0.0
  {
    Scaled(solo, multiplier * Detour(multiplier, directM, pooledM))
  }

  // ── arithmetic ────────────────────────────────────────────────────────────

  lemma RoundGrows(x: real, y: real)
    requires x <= y
    ensures Round(x) <= Round(y)
  {
  }

  lemma RoundOfInt(n: int)
    ensures Round(n as real) == n
  {
  }

  lemma ScaleGrows(s: real, x: real, y: real)
    requires s >= 0.0 && x <= y
    ensures s * x <= s * y
  {
    assert s * (y - x) >= 0.0;
    assert s * y == s * x + s * (y - x);
  }

  lemma CapIsOne(m: real)
    requires m > 0.0
    ensures m * (1.0 / m) == 1.0
  {
  }

  lemma CapIsAtLeastOne(m: real)
    requires 0.0 < m <= 1.0
    ensures 1.0 / m >= 1.0
  {
    CapIsOne(m);
  }

  lemma DivideGrows(d: real, x: real, y: real)
    requires d > 0.0 && x <= y
    ensures x / d <= y / d
  {
    assert x / d * d == x && y / d * d == y;
  }

  // ── one seat ──────────────────────────────────────────────────────────────

  /** The factor a solo fare is multiplied by lies between the seat multiplier and 1. */
  lemma FactorIsAShare(m: real, directM: real, pooledM: real)
    requires 0.0 < m <= 1.0
    ensures m <= m * Detour(m, directM, pooledM) <= 1.0
  {
    CapIsOne(m);
    CapIsAtLeastOne(m);
    var detour := Detour(m, directM, pooledM);
    ScaleGrows(m, 1.0, detour);
    ScaleGrows(m, detour, 1.0 / m);
  }

  lemma RoundedBetween(solo: nat, low: real, x: real)
    requires 0.0 <= low <= x <= solo as real
    ensures 0 <= Round(low) <= Round(x) <= solo
  {
    RoundGrows(low, x);
    RoundGrows(x, solo as real);
    RoundOfInt(solo);
  }

  lemma ShareOf(full: real, m: real, factor: real)
    requires full >= 0.0 && 0.0 <= m <= factor <= 1.0
    ensures 0.0 <= full * m <= full * factor <= full
  {
    ScaleGrows(full, 0.0, m);
    ScaleGrows(full, m, factor);
    ScaleGrows(full, factor, 1.0);
  }

  lemma ScaledBetween(amount: nat, low: real, factor: real)
    requires 0.0 <= low <= factor <= 1.0
    ensures 0 <= Scaled(amount, low) <= Scaled(amount, factor) <= amount
  {
    ShareOf(amount as real, low, factor);
    RoundedBetween(amount, amount as real * low, amount as real * factor);
  }

  /** A seat never costs more than riding alone, and never less than its multiplier of that. */
  lemma SeatFareBounds(solo: nat, m: real, directM: real, pooledM: real)
    requires 0.0 < m <= 1.0
    ensures 0 <= Scaled(solo, m) <= SeatFare(solo, m, directM, pooledM) <= solo
  {
    FactorIsAShare(m, directM, pooledM);
    ScaledBetween(solo, m, m * Detour(m, directM, pooledM));
  }

  lemma ScaledGrows(amount: nat, x: real, y: real)
    requires x <= y
    ensures Scaled(amount, x) <= Scaled(amount, y)
  {
    ScaleGrows(amount as real, x, y);
    RoundGrows(amount as real * x, amount as real * y);
  }

  /** Riding further never makes a seat cheaper. */
  lemma SeatFareGrows(solo: nat, m: real, directM: real, shorter: real, longer: real)
    requires 0.0 < m <= 1.0 && shorter <= longer
    ensures SeatFare(solo, m, directM, shorter) <= SeatFare(solo, m, directM, longer)
  {
    DetourGrows(m, directM, shorter, longer);
    ScaleGrows(m, Detour(m, directM, shorter), Detour(m, directM, longer));
    ScaledGrows(solo, m * Detour(m, directM, shorter), m * Detour(m, directM, longer));
  }

  lemma DetourGrows(m: real, directM: real, shorter: real, longer: real)
    requires 0.0 < m <= 1.0 && shorter <= longer
    ensures Detour(m, directM, shorter) <= Detour(m, directM, longer)
  {
    CapIsAtLeastOne(m);
    if directM > 0.0 {
      DivideGrows(directM, shorter, longer);
    }
  }

  /** A detour that uses up the discount costs exactly the solo fare. */
  lemma LongDetourCostsSolo(solo: nat, m: real, directM: real, pooledM: real)
    requires 0.0 < m <= 1.0 && directM > 0.0 && pooledM * m >= directM
    ensures SeatFare(solo, m, directM, pooledM) == solo
  {
    CapIsOne(m);
    CapIsAtLeastOne(m);
    ReachesCap(m, directM, pooledM);
    RoundOfInt(solo);
  }

  lemma ReachesCap(m: real, directM: real, pooledM: real)
    requires m > 0.0 && directM > 0.0 && pooledM * m >= directM
    ensures pooledM / directM >= 1.0 / m
  {
    DivideGrows(m * directM, directM, pooledM * m);
    assert directM / (m * directM) == 1.0 / m;
    assert pooledM * m / (m * directM) == pooledM / directM;
  }

  lemma FaresAreNonNegative(f: FareParams, s: SharedParams, m: Metrics, seats: int)
    requires Configured(f, s) && m.distanceM >= 0.0 && m.durationS >= 0.0
    ensures SoloFare(f, m) >= 0 && 0.0 < Multiplier(s, seats) <= 1.0
  {
    ScaleGrows(f.perKmCents, 0.0, m.distanceM / 1000.0);
    ScaleGrows(f.perMinCents, 0.0, m.durationS / 60.0);
  }

  // ── the legs of one passenger ─────────────────────────────────────────────

  /** `findIndex`; the length stands for -1. */
  function FindStop(stops: seq<OfferStop>, kind: StopKind, passenger: Id): (i: nat)
    ensures i <= |stops|
    ensures i < |stops| ==> stops[i].kind == kind && stops[i].passenger == passenger
    ensures forall j :: 0 <= j < i ==> !(stops[j].kind == kind && stops[j].passenger == passenger)
  {
    if stops == [] || (stops[0].kind == kind && stops[0].passenger == passenger) then 0
    else 1 + FindStop(stops[1..], kind, passenger)
  }

  function Sum(legs: seq<real>): real {
    if legs == [] then 0.0 else legs[0] + Sum(legs[1..])
  }

  datatype Quote = Quoted(fare: int, pooledM: real) | OutOfOrder

  /** `legs` are the routed distances between consecutive stops, `direct` the passenger's own route. */
  function QuoteSeat(f: FareParams, s: SharedParams, stops: seq<OfferStop>, legs: seq<real>, passenger: Id,
                     seats: int, direct: Metrics): Quote
    requires Configured(f, s) && |legs| + 1 == |stops|
  {
    var up, down := FindStop(stops, Pickup, passenger), FindStop(stops, Dropoff, passenger);
    if up == |stops| || down == |stops| || down <= up then OutOfOrder
    else
      var pooledM := if |stops| > 2 then Sum(legs[up..down]) else direct.distanceM;
      Quoted(SeatFare(SoloFare(f, direct), Multiplier(s, seats), direct.distanceM, pooledM), pooledM)
  }

  /** The distance is that of the legs between the rider's own stops. */
  ghost predicate RidesOwnLegs(plan: seq<OfferStop>, n: nat, r: Rider, legs: seq<real>, direct: Metrics,
                               pooledM: real) {
    exists up: nat, down: nat ::
      OwnStops(plan, n, r, up, down) && down <= |legs| && pooledM == OwnLegs(legs, n, up, down, direct)
  }

  lemma QuotedForOwnLegs(plan: seq<OfferStop>, n: nat, r: Rider, up: nat, down: nat, f: FareParams, s: SharedParams,
                         legs: seq<real>, direct: Metrics)
    requires Configured(f, s) && |legs| + 1 == |plan| == 2 * n
    requires OwnStops(plan, n, r, up, down) && FindStop(plan, Pickup, r.passenger) == up
    requires FindStop(plan, Dropoff, r.passenger) == down
    ensures var q := QuoteSeat(f, s, plan, legs, r.passenger, n, direct);
      && q.Quoted? && RidesOwnLegs(plan, n, r, legs, direct, q.pooledM)
      && q.fare == SeatFare(SoloFare(f, direct), Multiplier(s, n), direct.distanceM, q.pooledM)
  {
    assert OwnLegs(legs, n, up, down, direct) == if |plan| > 2 then Sum(legs[up..down]) else direct.distanceM;
  }

  /** On a computed itinerary every rider's dropoff follows the pickup, so the quote is for exactly the legs in
      between. */
  lemma PlannedSeatIsQuoted(dist: Distance, anchor: Point, riders: seq<Rider>, r: Rider, f: FareParams,
                            s: SharedParams, legs: seq<real>, direct: Metrics)
    requires Configured(f, s) && Distinct(multiset(riders)) && r in riders
    requires |legs| + 1 == |Plan(dist, anchor, riders)|
    requires direct.distanceM >= 0.0 && direct.durationS >= 0.0
    ensures var plan, n := Plan(dist, anchor, riders), |riders|;
      var q := QuoteSeat(f, s, plan, legs, r.passenger, n, direct);
      && q.Quoted? && RidesOwnLegs(plan, n, r, legs, direct, q.pooledM)
      && q.fare == SeatFare(SoloFare(f, direct), Multiplier(s, n), direct.distanceM, q.pooledM)
      && 0 <= q.fare <= SoloFare(f, direct)
  {
    var plan, n := Plan(dist, anchor, riders), |riders|;
    PlanShape(dist, anchor, riders);
    var up, down := OwnStopsOf(plan, n, r);
    FindOwnStops(plan, n, r, up, down);
    QuotedForOwnLegs(plan, n, r, up, down, f, s, legs, direct);
    FaresAreNonNegative(f, s, direct, n);
    SeatFareBounds(SoloFare(f, direct), Multiplier(s, n), direct.distanceM,
                   QuoteSeat(f, s, plan, legs, r.passenger, n, direct).pooledM);
  }

  lemma OwnStopsOf(plan: seq<OfferStop>, n: nat, r: Rider) returns (up: nat, down: nat)
    requires |plan| == 2 * n && Served(plan[..n], plan[n..], r)
    ensures OwnStops(plan, n, r, up, down)
  {
    var i :| 0 <= i < n && plan[..n][i] == OfferStop(Pickup, r.origin, r.passenger, i);
    var k :| 0 <= k < n && plan[n..][k] == OfferStop(Dropoff, r.dest, r.passenger, n + k);
    assert plan[n + k] == plan[n..][k];
    up, down := i, n + k;
  }

  predicate OwnStops(plan: seq<OfferStop>, n: nat, r: Rider, up: nat, down: nat) {
    && up < n <= down < |plan|
    && plan[up].kind == Pickup && plan[up].at == r.origin && plan[up].passenger == r.passenger
    && plan[down].kind == Dropoff && plan[down].at == r.dest && plan[down].passenger == r.passenger
  }

  /** A lone rider's itinerary is the direct route. */
  function OwnLegs(legs: seq<real>, n: nat, up: nat, down: nat, direct: Metrics): real
    requires up <= down <= |legs|
  {
    if n > 1 then Sum(legs[up..down]) else direct.distanceM
  }

  lemma FindOwnStops(plan: seq<OfferStop>, n: nat, r: Rider, up: nat, down: nat)
    requires |plan| == 2 * n && OwnStops(plan, n, r, up, down) && OncePerHalf(plan, n)
    requires forall j :: 0 <= j < |plan| ==> plan[j].kind == if j < n then Pickup else Dropoff
    ensures FindStop(plan, Pickup, r.passenger) == up && FindStop(plan, Dropoff, r.passenger) == down
  {
  }

  // ── the driver's share ────────────────────────────────────────────────────

  function SumMoney(fares: seq<int>): int {
    if fares == [] then 0 else fares[0] + SumMoney(fares[1..])
  }

  function DriverPayout(s: SharedParams, fares: seq<int>): int {
    Scaled(SumMoney(fares), 1.0 - s.commission)
  }

  /** The source's `reduce`, from the left. */
  method SumOf(fares: seq<int>) returns (total: int)
    ensures total == SumMoney(fares)
  {
    total := 0;
    for i := 0 to |fares|
      invariant total + SumMoney(fares[i..]) == SumMoney(fares)
    {
      total := total + fares[i];
      assert fares[i..][1..] == fares[i + 1..];
    }
  }

  lemma {:induction false} SumIsNonNegative(fares: seq<int>)
    requires forall i :: 0 <= i < |fares| ==> fares[i] >= 0
    ensures SumMoney(fares) >= 0
  {
    if fares != [] {
      SumIsNonNegative(fares[1..]);
    }
  }

  lemma {:induction false} PayoutWithinFares(f: FareParams, s: SharedParams, fares: seq<int>)
    requires Configured(f, s) && forall i :: 0 <= i < |fares| ==> fares[i] >= 0
    ensures 0 <= DriverPayout(s, fares) <= SumMoney(fares)
  {
    SumIsNonNegative(fares);
    ScaledBetween(SumMoney(fares), 1.0 - s.commission, 1.0 - s.commission);
  }

  // ── the amounts ───────────────────────────────────────────────────────────

  /** No whole amount is nearer, and of two as near it is the higher. */
  ghost predicate IsNearest(n: int, x: real) {
    -0.5 < n as real - x <= 0.5
  }

  lemma RoundIsNearest(x: real, n: int)
    ensures Round(x) == n <==> IsNearest(n, x)
  {
  }

  /** The solo fare is the nearest amount to a base, so much for every kilometre and so much for every minute. */
  lemma SoloFareIs(f: FareParams, kilometres: real, minutes: real)
    ensures IsNearest(SoloFare(f, Metrics(1000.0 * kilometres, 60.0 * minutes)),
                      f.baseCents + kilometres * f.perKmCents + minutes * f.perMinCents)
  {
    assert 1000.0 * kilometres / 1000.0 == kilometres && 60.0 * minutes / 60.0 == minutes;
    var total := f.baseCents + f.perKmCents * kilometres + f.perMinCents * minutes;
    RoundIsNearest(total, Round(total));
    assert SoloFare(f, Metrics(1000.0 * kilometres, 60.0 * minutes)) == Round(total);
    assert f.perKmCents * kilometres == kilometres * f.perKmCents && f.perMinCents * minutes == minutes * f.perMinCents;
  }

  /** Alone in a pool a rider pays the solo fare; two pay the second multiplier, more the third. */
  lemma ShareOfDirectRide(s: SharedParams, f: FareParams, solo: nat, directM: real, seats: nat)
    requires Configured(f, s) && seats > 0
    ensures seats == 1 ==> SeatFare(solo, Multiplier(s, seats), directM, directM) == solo
    ensures seats == 2 ==>
      IsNearest(SeatFare(solo, Multiplier(s, seats), directM, directM), solo as real * s.multiplier2)
    ensures seats >= 3 ==>
      IsNearest(SeatFare(solo, Multiplier(s, seats), directM, directM), solo as real * s.multiplier3)
  {
    CapIsAtLeastOne(Multiplier(s, seats));
    assert directM > 0.0 ==> directM / directM == 1.0;
    assert Detour(Multiplier(s, seats), directM, directM) == 1.0;
  }

  /** Below the cap a seat costs its multiplier of the solo fare, in proportion to how much farther the pool drives. */
  lemma DetourIsPaidInProportion(solo: nat, m: real, directM: real, pooledM: real)
    requires 0.0 < m <= 1.0 && 0.0 < directM <= pooledM && pooledM * m <= directM
    ensures IsNearest(SeatFare(solo, m, directM, pooledM), solo as real * (m * (pooledM / directM)))
  {
    CapIsOne(m);
    DivideGrows(directM, directM, pooledM);
    BelowCap(m, directM, pooledM);
  }

  lemma BelowCap(m: real, directM: real, pooledM: real)
    requires m > 0.0 && directM > 0.0 && pooledM * m <= directM
    ensures pooledM / directM <= 1.0 / m
  {
    DivideGrows(m * directM, pooledM * m, directM);
    assert directM / (m * directM) == 1.0 / m;
    assert pooledM * m / (m * directM) == pooledM / directM;
  }

  /** The driver gets what the fares add up to less the commission on it, to the nearest amount. */
  lemma PayoutIsTheRest(s: SharedParams, fares: seq<int>)
    ensures IsNearest(DriverPayout(s, fares), SumMoney(fares) as real - s.commission * SumMoney(fares) as real)
  {
    var total := SumMoney(fares) as real;
    assert total * (1.0 - s.commission) == total - s.commission * total;
  }
}
