/** Itinerary construction for a pool: pickups by distance from the anchor, dropoffs nearest-neighbour. */
module Itinerary {
  import opened Types

  /** `sequenceIndex` is a field of its own because consumers look stops up by it. */
  datatype OfferStop = OfferStop(kind: StopKind, at: Point, passenger: Id, sequenceIndex: nat)

  type Rank = Rider -> real

  /** The comparators of the source: smaller measure first, then the smaller passenger id. */
  predicate Before(rank: Rank, a: Rider, b: Rider) {
    rank(a) < rank(b) || (rank(a) == rank(b) && a.passenger < b.passenger)
  }

  /** `byPassengerId` alone: every measure ties. */
  const ById: Rank := (r: Rider) => 0.0

  function FromAnchor(dist: Distance, anchor: Point): Rank {
    (r: Rider) => dist(anchor, r.origin)
  }

  function ToDropoff(dist: Distance, cur: Point): Rank {
    (r: Rider) => dist(cur, r.dest)
  }

  // ── what an itinerary is, independently of how it is computed ──────────────

  /** A member set: nobody twice, and one row per passenger. */
  ghost predicate Distinct(riders: multiset<Rider>) {
    && (forall r :: r in riders ==> riders[r] == 1)
    && (forall r, q :: r in riders && q in riders && r.passenger == q.passenger ==> r == q)
  }

  ghost predicate Ascending(rank: Rank, s: seq<Rider>) {
    s != [] ==>
      && (forall j :: 0 < j < |s| ==> Before(rank, s[0], s[j]))
      && Ascending(rank, s[1..])
  }

  /** Every dropoff is the one closest to the stop before it among those still to be made. */
  ghost predicate Greedy(dist: Distance, cur: Point, s: seq<Rider>)
    decreases |s|
  {
    s != [] ==>
      && (forall j :: 0 < j < |s| ==> Before(ToDropoff(dist, cur), s[0], s[j]))
      && Greedy(dist, s[0].dest, s[1..])
  }

  /** `stops` visits exactly `riders`: all pickups outward from the anchor, then all dropoffs greedily from the last
      pickup. */
  ghost predicate IsItinerary(dist: Distance, anchor: Point, riders: multiset<Rider>, stops: seq<OfferStop>) {
    exists ups: seq<Rider>, downs: seq<Rider> :: Visits(dist, anchor, riders, ups, downs) && stops == Stops(ups, downs)
  }

  ghost predicate Visits(dist: Distance, anchor: Point, riders: multiset<Rider>, ups: seq<Rider>, downs: seq<Rider>) {
    && multiset(ups) == riders == multiset(downs)
    && Ascending(FromAnchor(dist, anchor), ups)
    && (ups != [] ==> Greedy(dist, ups[|ups| - 1].origin, downs))
  }

  function StopAt(ups: seq<Rider>, downs: seq<Rider>, i: nat): OfferStop
    requires i < |ups| + |downs|
  {
    if i < |ups| then OfferStop(Pickup, ups[i].origin, ups[i].passenger, i)
    else OfferStop(Dropoff, downs[i - |ups|].dest, downs[i - |ups|].passenger, i)
  }

  function Stops(ups: seq<Rider>, downs: seq<Rider>): (stops: seq<OfferStop>)
    ensures |stops| == |ups| + |downs|
    ensures forall i :: 0 <= i < |stops| ==> stops[i] == StopAt(ups, downs, i)
  {
    seq(|ups| + |downs|, i requires 0 <= i < |ups| + |downs| => StopAt(ups, downs, i))
  }

  // ── the computation ───────────────────────────────────────────────────────

  /** Stable insertion: `Array.prototype.sort` keeps the order of elements that compare equal. */
  function Insert(rank: Rank, r: Rider, s: seq<Rider>): seq<Rider> {
    if s == [] || !Before(rank, s[0], r) then [r] + s else [s[0]] + Insert(rank, r, s[1..])
  }

  function SortBy(rank: Rank, s: seq<Rider>): seq<Rider> {
    if s == [] then [] else Insert(rank, s[0], SortBy(rank, s[1..]))
  }

  /** The first of the closest riders, found by the source's scan with a strict comparison. */
  function Nearest(rank: Rank, s: seq<Rider>, n: nat): (best: nat)
    requires 0 < n <= |s|
    ensures best < n
    ensures forall j :: 0 <= j < n ==> rank(s[best]) <= rank(s[j])
    ensures forall j :: 0 <= j < best ==> rank(s[best]) < rank(s[j])
  {
    if n == 1 then 0
    else
      var b := Nearest(rank, s, n - 1);
      if rank(s[n - 1]) < rank(s[b]) then n - 1 else b
  }

  /** `splice(i, 1)`. */
  function Without(s: seq<Rider>, i: nat): (rest: seq<Rider>)
    requires i < |s|
    ensures |rest| == |s| - 1
    ensures forall k :: 0 <= k < |rest| ==> rest[k] == s[if k < i then k else k + 1]
  {
    s[..i] + s[i + 1..]
  }

  function OrderFrom(dist: Distance, cur: Point, remaining: seq<Rider>): seq<Rider>
    decreases |remaining|
  {
    if remaining == [] then []
    else
      var best := Nearest(ToDropoff(dist, cur), remaining, |remaining|);
      [remaining[best]] + OrderFrom(dist, remaining[best].dest, Without(remaining, best))
  }

  function Pickups(dist: Distance, anchor: Point, riders: seq<Rider>): seq<Rider> {
    SortBy(FromAnchor(dist, anchor), riders)
  }

  function Dropoffs(dist: Distance, pickups: seq<Rider>): seq<Rider> {
    if pickups == [] then []
    else OrderFrom(dist, pickups[|pickups| - 1].origin, SortBy(ById, pickups))
  }

  function Plan(dist: Distance, anchor: Point, riders: seq<Rider>): seq<OfferStop> {
    var ups := Pickups(dist, anchor, riders);
    Stops(ups, Dropoffs(dist, ups))
  }

  // ── sorting ───────────────────────────────────────────────────────────────

  lemma {:induction false} InsertKeeps(rank: Rank, r: Rider, s: seq<Rider>)
    ensures multiset(Insert(rank, r, s)) == multiset(s) + multiset{r}
  {
    if s == [] || !Before(rank, s[0], r) {
    } else {
      InsertKeeps(rank, r, s[1..]);
      assert s == [s[0]] + s[1..];
    }
  }

  lemma {:induction false} SortKeeps(rank: Rank, s: seq<Rider>)
    ensures multiset(SortBy(rank, s)) == multiset(s)
  {
    if s != [] {
      SortKeeps(rank, s[1..]);
      InsertKeeps(rank, s[0], SortBy(rank, s[1..]));
      assert s == [s[0]] + s[1..];
    }
  }

  lemma {:induction false} InsertAscends(rank: Rank, r: Rider, s: seq<Rider>)
    requires Ascending(rank, s)
    requires forall q :: q in s ==> q.passenger != r.passenger
    ensures Ascending(rank, Insert(rank, r, s))
  {
    if s == [] || !Before(rank, s[0], r) {
      forall j | 0 < j < |[r] + s| ensures Before(rank, r, ([r] + s)[j]) {
        assert s[j - 1] in s;
      }
      assert ([r] + s)[1..] == s;
    } else {
      InsertAscends(rank, r, s[1..]);
      InsertKeeps(rank, r, s[1..]);
      var rest := Insert(rank, r, s[1..]);
      forall j | 0 < j < |[s[0]] + rest| ensures Before(rank, s[0], ([s[0]] + rest)[j]) {
        assert rest[j - 1] in multiset(rest);
        assert rest[j - 1] == r || rest[j - 1] in s[1..];
      }
      assert ([s[0]] + rest)[1..] == rest;
    }
  }

  lemma {:induction false} SortAscends(rank: Rank, s: seq<Rider>)
    requires Distinct(multiset(s))
    ensures Ascending(rank, SortBy(rank, s))
  {
    if s != [] {
      var rest := SortBy(rank, s[1..]);
      DistinctTail(s);
      SortAscends(rank, s[1..]);
      SortKeeps(rank, s[1..]);
      forall q | q in rest ensures q.passenger != s[0].passenger {
        assert q in multiset(rest);
        assert q in s[1..];
      }
      InsertAscends(rank, s[0], rest);
    }
  }

  lemma DistinctTail(s: seq<Rider>)
    requires s != [] && Distinct(multiset(s))
    ensures Distinct(multiset(s[1..]))
    ensures forall q :: q in s[1..] ==> q.passenger != s[0].passenger
  {
    assert s == [s[0]] + s[1..];
    assert multiset(s) == multiset{s[0]} + multiset(s[1..]);
    forall q | q in s[1..] ensures q.passenger != s[0].passenger {
      assert q in multiset(s[1..]) && s[0] in multiset(s) && q in multiset(s);
      assert q == s[0] ==> multiset(s)[q] >= 2;
    }
    forall r | r in multiset(s[1..]) ensures multiset(s[1..])[r] == 1 {
      assert r in multiset(s);
    }
  }

  /** There is one way to sort a set of riders. */
  lemma {:induction false} AscendingIsUnique(rank: Rank, a: seq<Rider>, b: seq<Rider>)
    requires multiset(a) == multiset(b) && Ascending(rank, a) && Ascending(rank, b)
    ensures a == b
  {
    SameLength(a, b);
    if a != [] {
      SameHead(rank, a, b);
      SameTails(a, b);
      AscendingIsUnique(rank, a[1..], b[1..]);
    }
  }

  lemma SameLength(a: seq<Rider>, b: seq<Rider>)
    requires multiset(a) == multiset(b)
    ensures |a| == |b|
  {
    assert |multiset(a)| == |a| && |multiset(b)| == |b|;
  }

  lemma SameTails(a: seq<Rider>, b: seq<Rider>)
    requires a != [] && b != [] && multiset(a) == multiset(b) && a[0] == b[0]
    ensures multiset(a[1..]) == multiset(b[1..])
  {
    assert a == [a[0]] + a[1..] && b == [b[0]] + b[1..];
    assert multiset(a[1..]) == multiset(a) - multiset{a[0]};
    assert multiset(b[1..]) == multiset(b) - multiset{b[0]};
  }

  lemma SameHead(rank: Rank, a: seq<Rider>, b: seq<Rider>)
    requires a != [] && b != [] && multiset(a) == multiset(b)
    requires forall j :: 0 < j < |a| ==> Before(rank, a[0], a[j])
    requires forall j :: 0 < j < |b| ==> Before(rank, b[0], b[j])
    ensures a[0] == b[0]
  {
    assert a[0] in multiset(b) && b[0] in multiset(a);
    var i :| 0 <= i < |b| && b[i] == a[0];
    var j :| 0 <= j < |a| && a[j] == b[0];
  }

  // ── nearest neighbour ─────────────────────────────────────────────────────

  lemma RemoveAt(s: seq<Rider>, i: nat)
    requires i < |s|
    ensures multiset(s) == multiset{s[i]} + multiset(Without(s, i))
  {
    assert s == s[..i] + [s[i]] + s[i + 1..];
  }

  lemma {:induction false} OrderKeeps(dist: Distance, cur: Point, s: seq<Rider>)
    ensures multiset(OrderFrom(dist, cur, s)) == multiset(s)
    decreases |s|
  {
    if s != [] {
      var best := Nearest(ToDropoff(dist, cur), s, |s|);
      RemoveAt(s, best);
      OrderKeeps(dist, s[best].dest, Without(s, best));
    }
  }

  /** With the riders in id order, the strict scan breaks ties by the least id. */
  lemma NearestBeatsTheRest(rank: Rank, s: seq<Rider>, q: Rider)
    requires s != [] && IdOrdered(s)
    requires var best := Nearest(rank, s, |s|); q in multiset(Without(s, best))
    ensures Before(rank, s[Nearest(rank, s, |s|)], q)
  {
    var best := Nearest(rank, s, |s|);
    var rest := Without(s, best);
    var k :| 0 <= k < |rest| && rest[k] == q;
    assert q == s[if k < best then k else k + 1];
  }

  lemma IdOrderedWithout(s: seq<Rider>, i: nat)
    requires IdOrdered(s) && i < |s|
    ensures IdOrdered(Without(s, i))
  {
  }

  lemma {:induction false} OrderIsGreedy(dist: Distance, cur: Point, s: seq<Rider>)
    requires IdOrdered(s)
    ensures Greedy(dist, cur, OrderFrom(dist, cur, s))
    decreases |s|
  {
    if s != [] {
      var rank := ToDropoff(dist, cur);
      var best := Nearest(rank, s, |s|);
      var rest := Without(s, best);
      IdOrderedWithout(s, best);
      OrderIsGreedy(dist, s[best].dest, rest);
      OrderKeeps(dist, s[best].dest, rest);
      forall q | q in multiset(rest) ensures Before(rank, s[best], q) {
        NearestBeatsTheRest(rank, s, q);
      }
      GreedyCons(dist, cur, s[best], OrderFrom(dist, s[best].dest, rest));
    }
  }

  lemma GreedyCons(dist: Distance, cur: Point, head: Rider, tail: seq<Rider>)
    requires forall q :: q in multiset(tail) ==> Before(ToDropoff(dist, cur), head, q)
    requires Greedy(dist, head.dest, tail)
    ensures Greedy(dist, cur, [head] + tail)
  {
    var all := [head] + tail;
    assert all[1..] == tail;
    forall j | 0 < j < |all| ensures Before(ToDropoff(dist, cur), all[0], all[j]) {
      assert tail[j - 1] in multiset(tail);
    }
  }

  ghost predicate IdOrdered(s: seq<Rider>) {
    forall i, j :: 0 <= i < j < |s| ==> s[i].passenger < s[j].passenger
  }

  lemma {:induction false} AscendingIds(s: seq<Rider>)
    requires Ascending(ById, s)
    ensures IdOrdered(s)
  {
    if s != [] {
      AscendingIds(s[1..]);
      forall i, j | 0 <= i < j < |s| ensures s[i].passenger < s[j].passenger {
        if i == 0 {
          assert Before(ById, s[0], s[j]);
        } else {
          assert s[i] == s[1..][i - 1] && s[j] == s[1..][j - 1];
        }
      }
    }
  }

  lemma {:induction false} GreedyIsUnique(dist: Distance, cur: Point, a: seq<Rider>, b: seq<Rider>)
    requires multiset(a) == multiset(b) && Greedy(dist, cur, a) && Greedy(dist, cur, b)
    ensures a == b
    decreases |a|
  {
    SameLength(a, b);
    if a != [] {
      SameHead(ToDropoff(dist, cur), a, b);
      SameTails(a, b);
      GreedyIsUnique(dist, a[0].dest, a[1..], b[1..]);
    }
  }

  // ── main results ──────────────────────────────────────────────────────────

  lemma PlanVisits(dist: Distance, anchor: Point, riders: seq<Rider>)
    requires Distinct(multiset(riders))
    ensures var ups := Pickups(dist, anchor, riders);
      Visits(dist, anchor, multiset(riders), ups, Dropoffs(dist, ups))
  {
    var rank := FromAnchor(dist, anchor);
    var ups := Pickups(dist, anchor, riders);
    SortKeeps(rank, riders);
    SortAscends(rank, riders);
    if ups != [] {
      var start := ups[|ups| - 1].origin;
      var byId := SortBy(ById, ups);
      SortKeeps(ById, ups);
      SortAscends(ById, ups);
      AscendingIds(byId);
      OrderKeeps(dist, start, byId);
      OrderIsGreedy(dist, start, byId);
    }
  }

  lemma VisitsIsUnique(dist: Distance, anchor: Point, riders: multiset<Rider>,
                       us: seq<Rider>, ds: seq<Rider>, ups: seq<Rider>, downs: seq<Rider>)
    requires Visits(dist, anchor, riders, us, ds) && Visits(dist, anchor, riders, ups, downs)
    ensures us == ups && ds == downs
  {
    AscendingIsUnique(FromAnchor(dist, anchor), us, ups);
    if us == [] {
      SameLength(us, ds);
      SameLength(ds, downs);
    } else {
      GreedyIsUnique(dist, us[|us| - 1].origin, ds, downs);
    }
  }

  /** For one row per passenger, the computed stops are the itinerary, and there is no other. */
  lemma PlanIsTheItinerary(dist: Distance, anchor: Point, riders: seq<Rider>, stops: seq<OfferStop>)
    requires Distinct(multiset(riders))
    ensures IsItinerary(dist, anchor, multiset(riders), stops) <==> stops == Plan(dist, anchor, riders)
  {
    var ups := Pickups(dist, anchor, riders);
    var downs := Dropoffs(dist, ups);
    PlanVisits(dist, anchor, riders);
    if IsItinerary(dist, anchor, multiset(riders), stops) {
      var us: seq<Rider>, ds: seq<Rider> :| Visits(dist, anchor, multiset(riders), us, ds) && stops == Stops(us, ds);
      VisitsIsUnique(dist, anchor, multiset(riders), us, ds, ups, downs);
    }
  }

  /** The itinerary depends on who the members are, never on the order they are listed in. */
  lemma PlanIgnoresOrder(dist: Distance, anchor: Point, a: seq<Rider>, b: seq<Rider>)
    requires multiset(a) == multiset(b) && Distinct(multiset(a))
    ensures Plan(dist, anchor, a) == Plan(dist, anchor, b)
  {
    PlanIsTheItinerary(dist, anchor, a, Plan(dist, anchor, b));
    PlanIsTheItinerary(dist, anchor, b, Plan(dist, anchor, b));
  }

  /** The rider is picked up at its origin in the first half and dropped at its destination in the second. */
  ghost predicate Served(ups: seq<OfferStop>, downs: seq<OfferStop>, r: Rider) {
    && (exists i :: 0 <= i < |ups| && ups[i] == OfferStop(Pickup, r.origin, r.passenger, i))
    && (exists k :: 0 <= k < |downs| && downs[k] == OfferStop(Dropoff, r.dest, r.passenger, |ups| + k))
  }

  /** The shape every consumer relies on: indices are positions, pickups fill the first half, and each rider appears
      once in each half. */
  lemma PlanShape(dist: Distance, anchor: Point, riders: seq<Rider>)
    requires Distinct(multiset(riders))
    ensures var plan, n := Plan(dist, anchor, riders), |riders|;
      && |plan| == 2 * n
      && (forall i :: 0 <= i < 2 * n ==>
           plan[i].sequenceIndex == i && plan[i].kind == (if i < n then Pickup else Dropoff))
      && (forall r :: r in riders ==> Served(plan[..n], plan[n..], r))
      && OncePerHalf(plan, n)
  {
    var plan, n := Plan(dist, anchor, riders), |riders|;
    var ups := Pickups(dist, anchor, riders);
    var downs := Dropoffs(dist, ups);
    PlanVisits(dist, anchor, riders);
    SameLength(ups, riders);
    SameLength(downs, riders);
    forall r | r in riders ensures Served(plan[..n], plan[n..], r) {
      assert r in multiset(riders);
      EveryRiderServed(ups, downs, r);
    }
    OncePerPassenger(ups);
    OncePerPassenger(downs);
    HalvesDistinct(ups, downs);
  }

  ghost predicate OncePerHalf(stops: seq<OfferStop>, n: nat) {
    forall i, j :: 0 <= i < j < |stops| && (j < n || n <= i) ==> stops[i].passenger != stops[j].passenger
  }

  lemma EveryRiderServed(ups: seq<Rider>, downs: seq<Rider>, r: Rider)
    requires r in multiset(ups) && r in multiset(downs)
    ensures Served(Stops(ups, downs)[..|ups|], Stops(ups, downs)[|ups|..], r)
  {
    var stops := Stops(ups, downs);
    var i :| 0 <= i < |ups| && ups[i] == r;
    var k :| 0 <= k < |downs| && downs[k] == r;
    assert stops[..|ups|][i] == OfferStop(Pickup, r.origin, r.passenger, i);
    assert stops[|ups|..][k] == OfferStop(Dropoff, r.dest, r.passenger, |ups| + k);
  }

  lemma HalvesDistinct(ups: seq<Rider>, downs: seq<Rider>)
    requires forall i, j :: 0 <= i < j < |ups| ==> ups[i].passenger != ups[j].passenger
    requires forall i, j :: 0 <= i < j < |downs| ==> downs[i].passenger != downs[j].passenger
    ensures OncePerHalf(Stops(ups, downs), |ups|)
  {
  }

  lemma {:induction false} OncePerPassenger(s: seq<Rider>)
    requires Distinct(multiset(s))
    ensures forall i, j :: 0 <= i < j < |s| ==> s[i].passenger != s[j].passenger
  {
    if s != [] {
      DistinctTail(s);
      OncePerPassenger(s[1..]);
      forall i, j | 0 <= i < j < |s| ensures s[i].passenger != s[j].passenger {
        assert s[j] == s[1..][j - 1];
        if i > 0 {
          assert s[i] == s[1..][i - 1];
        }
      }
    }
  }

  lemma {:induction false} DistinctFromPassengers(s: seq<Rider>)
    requires forall i, j :: 0 <= i < j < |s| ==> s[i].passenger != s[j].passenger
    ensures Distinct(multiset(s))
  {
    if s != [] {
      DistinctFromPassengers(s[1..]);
      assert s == [s[0]] + s[1..];
      assert multiset(s) == multiset{s[0]} + multiset(s[1..]);
      forall r | r in multiset(s[1..]) ensures r.passenger != s[0].passenger {
        var i :| 0 <= i < |s[1..]| && s[1..][i] == r;
        assert s[i + 1] == r;
      }
    }
  }

  // ── the loops of the source ───────────────────────────────────────────────

  /** The scan starts from an infinite best distance, so its first step always picks index 0. */
  method ClosestIndex(dist: Distance, cur: Point, remaining: seq<Rider>) returns (best: nat)
    requires remaining != []
    ensures best == Nearest(ToDropoff(dist, cur), remaining, |remaining|)
  {
    best := 0;
    for i := 1 to |remaining|
      invariant best == Nearest(ToDropoff(dist, cur), remaining, i)
    {
      if dist(cur, remaining[i].dest) < dist(cur, remaining[best].dest) {
        best := i;
      }
    }
  }

  lemma OrderUnfolds(dist: Distance, cur: Point, s: seq<Rider>, done: seq<Rider>)
    requires s != []
    ensures var best := Nearest(ToDropoff(dist, cur), s, |s|);
      done + OrderFrom(dist, cur, s) == done + [s[best]] + OrderFrom(dist, s[best].dest, Without(s, best))
  {
    var best := Nearest(ToDropoff(dist, cur), s, |s|);
    var rest := OrderFrom(dist, s[best].dest, Without(s, best));
    assert done + ([s[best]] + rest) == done + [s[best]] + rest;
  }

  method OrderDropoffsNearestNeighbour(dist: Distance, members: seq<Rider>, start: Point) returns (ordered: seq<Rider>)
    ensures ordered == OrderFrom(dist, start, SortBy(ById, members))
  {
    var remaining := SortBy(ById, members);
    ghost var result := OrderFrom(dist, start, remaining);
    ordered := [];
    var cur := start;
    while remaining != []
      invariant result == ordered + OrderFrom(dist, cur, remaining)
      decreases |remaining|
    {
      var best := ClosestIndex(dist, cur, remaining);
      OrderUnfolds(dist, cur, remaining, ordered);
      var next := remaining[best];
      remaining := Without(remaining, best);
      ordered := ordered + [next];
      cur := next.dest;
    }
  }

  method ComputeStops(dist: Distance, anchor: Point, members: seq<Rider>) returns (stops: seq<OfferStop>)
    ensures stops == Plan(dist, anchor, members)
  {
    var pickups := SortBy(FromAnchor(dist, anchor), members);
    var dropoffs := [];
    if pickups != [] {
      dropoffs := OrderDropoffsNearestNeighbour(dist, pickups, pickups[|pickups| - 1].origin);
    }
    stops := EmitStops(pickups, dropoffs);
  }

  method EmitStops(pickups: seq<Rider>, dropoffs: seq<Rider>) returns (stops: seq<OfferStop>)
    ensures stops == Stops(pickups, dropoffs)
  {
    stops := [];
    for i := 0 to |pickups|
      invariant |stops| == i && forall k :: 0 <= k < i ==> stops[k] == StopAt(pickups, dropoffs, k)
    {
      stops := stops + [OfferStop(Pickup, pickups[i].origin, pickups[i].passenger, |stops|)];
    }
    for i := 0 to |dropoffs|
      invariant |stops| == |pickups| + i && forall k :: 0 <= k < |stops| ==> stops[k] == StopAt(pickups, dropoffs, k)
    {
      stops := stops + [OfferStop(Dropoff, dropoffs[i].dest, dropoffs[i].passenger, |stops|)];
    }
  }
}
