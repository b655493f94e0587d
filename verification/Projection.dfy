/** The Redis projection of driver assignments: late writes, presence, and the repair pass. */
module Projection {
  import opened Types
  import opened Protocol
  import opened Invariants
  import opened Database
  import T = Trips
  import Preservation
  import DispatchResults

  /** `driver:state:<id>` for each present driver, with its `current_ride_id`. */
  type Hashes = map<Id, Option<Id>>

  /** Never creates a hash: presence owns its existence. */
  function SetIfPresent(h: Hashes, d: Id, trip: Id): Hashes {
    if d in h then h[d := Some(trip)] else h
  }

  function ClearIfMatch(h: Hashes, d: Id, trip: Id): Hashes {
    if d in h && h[d] == Some(trip) then h[d := None] else h
  }

  predicate Assigned(db: Db, d: Id, trip: Id) {
    d in db.guards && db.guards[d].trip.id == trip
  }

  function Expected(guards: map<Id, Guard>, d: Id): Option<Id> {
    if d in guards then Some(guards[d].trip.id) else None
  }

  // ── every write and read a step of its own ────────────────────────────────

  datatype Pair = Pair(driver: Id, trip: Id)

  /** `seen`: values a pass read from hashes. `unassigned`: those for which its second look at the guard found none. */
  datatype System = System(world: World, hashes: Hashes, seen: set<Pair>, unassigned: set<Pair>)

  datatype Move =
    | Commit(step: Step)
    | Appear(driver: Id)
    | Vanish(driver: Id)
    | Project(driver: Id, trip: TripRef)      // after an accept, or by a pass that confirmed the guard; however late
    | ReadHash(driver: Id)
    | SecondLook(pair: Pair)
    | PassClears(pair: Pair)
    | ReleaseClears(driver: Id, trip: TripRef) // after the commit that ended the trip; however late

  predicate BoundTo(db: Db, d: Id, t: TripRef) {
    T.TripExists(db, t) && T.Owner(db, t) == Some(d)
  }

  function Apply(dist: Distance, s: System, m: Move): System {
    var db := s.world.db;
    match m
    case Commit(step) => s.(world := Protocol.Apply(dist, s.world, step))
    case Appear(d) => if d in s.hashes then s else s.(hashes := s.hashes[d := None])
    case Vanish(d) => s.(hashes := s.hashes - {d})
    case Project(d, t) => if BoundTo(db, d, t) then s.(hashes := SetIfPresent(s.hashes, d, t.id)) else s
    case ReadHash(d) =>
      if d in s.hashes && s.hashes[d].Some? then s.(seen := s.seen + {Pair(d, s.hashes[d].value)}) else s
    case SecondLook(p) =>
      if p in s.seen && !Assigned(db, p.driver, p.trip) then s.(unassigned := s.unassigned + {p}) else s
    case PassClears(p) => if p in s.unassigned then s.(hashes := ClearIfMatch(s.hashes, p.driver, p.trip)) else s
    case ReleaseClears(d, t) =>
      if BoundTo(db, d, t) && !HasGuard(db, d, t) then s.(hashes := ClearIfMatch(s.hashes, d, t.id)) else s
  }

  const Start := System(Protocol.Start, map[], {}, {})

  datatype Log = Log(moves: seq<Move>, states: seq<System>)

  predicate MoveAt(dist: Distance, l: Log, i: nat)
    requires i < |l.moves| && |l.states| == |l.moves| + 1
  {
    l.states[i + 1] == Apply(dist, l.states[i], l.moves[i])
  }

  ghost predicate IsLog(dist: Distance, l: Log) {
    && |l.states| == |l.moves| + 1 && l.states[0] == Start
    && forall i :: 0 <= i < |l.moves| ==> MoveAt(dist, l, i)
  }

  // ── what is in a hash was bound once ──────────────────────────────────────

  /** Some trip of this id is, or was, the driver's. */
  ghost predicate WasBound(db: Db, p: Pair) {
    BoundTo(db, p.driver, Solo(p.trip)) || BoundTo(db, p.driver, Shared(p.trip))
  }

  ghost predicate ProjectionOk(dist: Distance, s: System) {
    && Inv(dist, s.world)
    && (forall d :: d in s.hashes && s.hashes[d].Some? ==> WasBound(s.world.db, Pair(d, s.hashes[d].value)))
    && (forall p :: p in s.seen ==> WasBound(s.world.db, p))
    && (forall p :: p in s.unassigned ==> WasBound(s.world.db, p) && !Assigned(s.world.db, p.driver, p.trip))
  }

  lemma BindingStays(a: Db, b: Db, p: Pair)
    requires RowsFollow(a, b) && WasBound(a, p)
    ensures WasBound(b, p)
  {
    if BoundTo(a, p.driver, Solo(p.trip)) {
      DispatchResults.RowStays(a, b, Solo(p.trip));
    } else {
      DispatchResults.RowStays(a, b, Shared(p.trip));
    }
  }

  /** A driver's trip of this id is the only trip of this id. */
  lemma IdNamesTrip(dist: Distance, db: Db, t: TripRef, u: TripRef)
    requires RowsOk(dist, db) && T.TripExists(db, t) && T.TripExists(db, u) && t.id == u.id
    ensures t == u
  {
  }

  /** A released pair is never assigned again. */
  lemma ReleaseStays(dist: Distance, a: World, b: World, p: Pair)
    requires Inv(dist, a) && Inv(dist, b) && Follows(a, b)
    requires WasBound(a.db, p) && !Assigned(a.db, p.driver, p.trip)
    ensures !Assigned(b.db, p.driver, p.trip)
  {
    var t := if BoundTo(a.db, p.driver, Solo(p.trip)) then Solo(p.trip) else Shared(p.trip);
    NotServing(dist, a.db, p.driver, t);
    DispatchResults.FinishedForGood(dist, a.db, b.db, t, p.driver);
    BindingStays(a.db, b.db, p);
    if Assigned(b.db, p.driver, p.trip) {
      var u := b.db.guards[p.driver].trip;
      GuardServes(dist, b.db, p.driver);
      DispatchResults.RowStays(a.db, b.db, t);
      IdNamesTrip(dist, b.db, t, u);
    }
  }

  lemma GuardServes(dist: Distance, db: Db, d: Id)
    requires RowsOk(dist, db) && GuardsOk(db) && d in db.guards
    ensures T.TripExists(db, db.guards[d].trip) && DispatchResults.Serves(db, d, db.guards[d].trip)
  {
    assert GuardOk(db, d);
    DispatchResults.BoundIsServed(dist, db, d, db.guards[d].trip);
  }

  lemma NotServing(dist: Distance, db: Db, d: Id, t: TripRef)
    requires RowsOk(dist, db) && GuardsOk(db) && T.TripExists(db, t) && !Assigned(db, d, t.id)
    ensures !DispatchResults.Serves(db, d, t)
  {
    DispatchResults.BoundIsServed(dist, db, d, t);
    assert BoundIsGuarded(db, t);
  }

  lemma CommitKeeps(dist: Distance, s: System, step: Step)
    requires ProjectionOk(dist, s)
    ensures ProjectionOk(dist, Apply(dist, s, Commit(step)))
  {
    var v := Protocol.Apply(dist, s.world, step);
    Preservation.StepKeeps(dist, s.world, step);
    forall p | WasBound(s.world.db, p) ensures WasBound(v.db, p) {
      BindingStays(s.world.db, v.db, p);
    }
    forall p | p in s.unassigned ensures !Assigned(v.db, p.driver, p.trip) {
      ReleaseStays(dist, s.world, v, p);
    }
  }

  lemma MoveKeeps(dist: Distance, s: System, m: Move)
    requires ProjectionOk(dist, s)
    ensures ProjectionOk(dist, Apply(dist, s, m))
  {
    if m.Commit? {
      CommitKeeps(dist, s, m.step);
    }
  }

  lemma {:induction false} LogKeeps(dist: Distance, l: Log, n: nat)
    requires IsLog(dist, l) && n < |l.states|
    ensures ProjectionOk(dist, l.states[n])
  {
    if n == 0 {
      Preservation.StartOk(dist);
    } else {
      LogKeeps(dist, l, n - 1);
      assert MoveAt(dist, l, n - 1);
      MoveKeeps(dist, l.states[n - 1], l.moves[n - 1]);
    }
  }

  /** A repair pass acts on what it read long ago; still it never takes away a live assignment. */
  lemma ClearSparesLiveAssignments(dist: Distance, l: Log, n: nat, d: Id)
    requires IsLog(dist, l) && n < |l.moves| && (l.moves[n].PassClears? || l.moves[n].ReleaseClears?)
    requires d in l.states[n].hashes
    requires d in l.states[n + 1].hashes ==> l.states[n + 1].hashes[d] != l.states[n].hashes[d]
    ensures var s := l.states[n];
      && s.hashes[d].Some? && !Assigned(s.world.db, d, s.hashes[d].value)
      && l.states[n + 1] == s.(hashes := s.hashes[d := None])
  {
    LogKeeps(dist, l, n);
    assert MoveAt(dist, l, n);
    ClearSpares(dist, l.states[n], l.moves[n], d);
  }

  lemma ClearSpares(dist: Distance, s: System, m: Move, d: Id)
    requires ProjectionOk(dist, s) && (m.PassClears? || m.ReleaseClears?)
    requires var v := Apply(dist, s, m); d in s.hashes && (d in v.hashes ==> v.hashes[d] != s.hashes[d])
    ensures s.hashes[d].Some? && !Assigned(s.world.db, d, s.hashes[d].value)
    ensures Apply(dist, s, m) == s.(hashes := s.hashes[d := None])
  {
    if m.ReleaseClears? {
      ReleasedIsNotAssigned(dist, s.world.db, m.driver, m.trip);
    }
  }

  lemma ReleasedIsNotAssigned(dist: Distance, db: Db, d: Id, t: TripRef)
    requires RowsOk(dist, db) && GuardsOk(db)
    ensures BoundTo(db, d, t) && !HasGuard(db, d, t) ==> !Assigned(db, d, t.id)
  {
    if BoundTo(db, d, t) && Assigned(db, d, t.id) {
      GuardServes(dist, db, d);
      IdNamesTrip(dist, db, t, db.guards[d].trip);
    }
  }

  /** Whatever a hash shows is, or was, a trip of its driver. */
  lemma HashNamesOwnTrip(dist: Distance, l: Log, n: nat, d: Id)
    requires IsLog(dist, l) && n < |l.states| && d in l.states[n].hashes && l.states[n].hashes[d].Some?
    ensures WasBound(l.states[n].world.db, Pair(d, l.states[n].hashes[d].value))
  {
    LogKeeps(dist, l, n);
  }

  // ── between passes ────────────────────────────────────────────────────────

  /** Every present hash shows what the guard table says. */
  ghost predicate Right(s: System) {
    forall d :: d in s.hashes ==> s.hashes[d] == Expected(s.world.db.guards, d)
  }

  predicate GuardChanges(dist: Distance, w: World, step: Step, d: Id) {
    Expected(Protocol.Apply(dist, w, step).db.guards, d) != Expected(w.db.guards, d)
  }

  /** A commit that binds or releases a present driver, the appearance of a bound one, a write for a trip the driver
      is not bound to. */
  ghost predicate Spoils(dist: Distance, s: System, m: Move) {
    match m
    case Commit(step) => exists d :: d in s.hashes && GuardChanges(dist, s.world, step, d)
    case Appear(d) => d !in s.hashes && d in s.world.db.guards
    case Project(d, t) => d in s.hashes && BoundTo(s.world.db, d, t) && !Assigned(s.world.db, d, t.id)
    case _ => false
  }

  lemma CommitSpoils(dist: Distance, s: System, step: Step)
    requires Right(s)
    ensures Right(Apply(dist, s, Commit(step))) <==> !Spoils(dist, s, Commit(step))
  {
    var v := Apply(dist, s, Commit(step));
    forall d | d in s.hashes
      ensures v.hashes[d] == Expected(v.world.db.guards, d) <==> !GuardChanges(dist, s.world, step, d)
    {
    }
  }

  lemma OtherSpoils(dist: Distance, s: System, m: Move)
    requires ProjectionOk(dist, s) && Right(s) && !m.Commit?
    ensures Right(Apply(dist, s, m)) <==> !Spoils(dist, s, m)
  {
    match m
    case Appear(d) => assert d in Apply(dist, s, m).hashes;
    case Project(d, t) => if d in s.hashes { assert d in Apply(dist, s, m).hashes; }
    case ReleaseClears(d, t) => ReleasedIsNotAssigned(dist, s.world.db, d, t);
    case _ =>
  }

  /** A right projection stays right exactly as long as no move spoils it; no clear ever does. */
  lemma {:induction false} RightExactlyUntilSpoiled(dist: Distance, l: Log, m: nat, n: nat)
    requires IsLog(dist, l) && m <= n < |l.states| && Right(l.states[m])
    ensures (forall k :: m <= k <= n ==> Right(l.states[k])) <==>
      (forall k :: m <= k < n ==> !Spoils(dist, l.states[k], l.moves[k]))
  {
    if m < n {
      RightExactlyUntilSpoiled(dist, l, m, n - 1);
      if Right(l.states[n - 1]) {
        RightAfter(dist, l, n - 1);
      }
      RightPrefix(dist, l, m, n);
    }
  }

  lemma RightAfter(dist: Distance, l: Log, n: nat)
    requires IsLog(dist, l) && n < |l.moves| && Right(l.states[n])
    ensures Right(l.states[n + 1]) <==> !Spoils(dist, l.states[n], l.moves[n])
  {
    LogKeeps(dist, l, n);
    assert MoveAt(dist, l, n);
    if l.moves[n].Commit? {
      CommitSpoils(dist, l.states[n], l.moves[n].step);
    } else {
      OtherSpoils(dist, l.states[n], l.moves[n]);
    }
  }

  lemma RightPrefix(dist: Distance, l: Log, m: nat, n: nat)
    requires IsLog(dist, l) && m < n < |l.states|
    ensures (forall k :: m <= k <= n ==> Right(l.states[k])) <==>
      (Right(l.states[n]) && forall k :: m <= k <= n - 1 ==> Right(l.states[k]))
    ensures (forall k :: m <= k < n ==> !Spoils(dist, l.states[k], l.moves[k])) <==>
      (!Spoils(dist, l.states[n - 1], l.moves[n - 1]) &&
       forall k :: m <= k < n - 1 ==> !Spoils(dist, l.states[k], l.moves[k]))
  {
  }

  const Anywhere := Booking(0, Fingerprint(ToFixed6(0.0), ToFixed6(0.0), ToFixed6(0.0), ToFixed6(0.0)), None)

  /** Driver 9 is assigned ride 1 before being present, then written, then the ride is cancelled and cleared, then
      written late. */
  const Spoiling: seq<Move> := [
    Commit(CreateRide(1, 7, false, Anywhere)),
    Commit(DirectClaim(1, 9)),
    Appear(9),
    Project(9, Solo(1)),
    Commit(CancelRide(1, T.CancelRequest(T.Client, 7, false, 0), 0)),
    ReleaseClears(9, Solo(1)),
    Project(9, Solo(1))]

  /** Any list of moves is the moves of a log. */
  lemma {:induction false} LogExists(dist: Distance, moves: seq<Move>) returns (l: Log)
    ensures IsLog(dist, l) && l.moves == moves
  {
    if moves == [] {
      l := Log([], [Start]);
    } else {
      var n := |moves| - 1;
      var before := LogExists(dist, moves[..n]);
      l := Log(moves, before.states + [Apply(dist, before.states[n], moves[n])]);
      forall i | 0 <= i < |l.moves| ensures MoveAt(dist, l, i) {
        assert i < n ==> MoveAt(dist, before, i);
      }
    }
  }

  /** Before its driver appears, the ride is bound. */
  lemma BoundUnseen(dist: Distance, l: Log)
    requires IsLog(dist, l) && l.moves == Spoiling
    ensures var s := l.states[2];
      && s.hashes == map[] && Right(s) && 1 in s.world.db.rides
      && s.world.db.rides[1] == Ride(7, false, Accepted, Some(9), 1, None, Anywhere)
      && s.world.db.guards == map[9 := Guard(Solo(1), None, 1)]
  {
    assert MoveAt(dist, l, 0) && MoveAt(dist, l, 1);
  }

  /** Cancelling the ride deletes the guard and leaves the driver on the row. */
  lemma CancelUnbinds(dist: Distance, w: World)
    requires 1 in w.db.rides && w.db.rides[1] == Ride(7, false, Accepted, Some(9), 1, None, Anywhere)
    requires w.db.guards == map[9 := Guard(Solo(1), None, 1)]
    ensures var v := Protocol.Apply(dist, w, Spoiling[4].step);
      v.db.guards == map[] && 1 in v.db.rides && v.db.rides[1].driver == Some(9)
  {
  }

  /** Each of the three moves does spoil a right projection. */
  lemma SpoiledInEachWay(dist: Distance, l: Log)
    requires IsLog(dist, l) && l.moves == Spoiling
    ensures Right(l.states[2]) && !Right(l.states[3])
    ensures Right(l.states[4]) && !Right(l.states[5])
    ensures Right(l.states[6]) && !Right(l.states[7])
  {
    BoundUnseen(dist, l);
    assert MoveAt(dist, l, 2) && MoveAt(dist, l, 3) && MoveAt(dist, l, 4) && MoveAt(dist, l, 5) && MoveAt(dist, l, 6);
    CancelUnbinds(dist, l.states[4].world);
    assert 9 in l.states[3].hashes && 9 in l.states[5].hashes && 9 in l.states[7].hashes;
  }

  // ── the repair pass ───────────────────────────────────────────────────────

  /** The hashes that differ from before. */
  function Changed(a: Hashes, b: Hashes): set<Id> {
    set d | d in a && d in b && a[d] != b[d]
  }

  class AssignmentProjection {
    const tables: Tables
    var hashes: Hashes

    constructor (tables: Tables)
      ensures this.tables == tables && hashes == map[]
    {
      this.tables := tables;
      hashes := map[];
    }

    method StillAssigned(d: Id, trip: Id) returns (yes: bool)
      ensures yes <==> Expected(tables.guards, d) == Some(trip)
    {
      yes := d in tables.guards && tables.guards[d].trip.id == trip;
    }

    method ProjectCurrentRide(d: Id, trip: Id) returns (written: bool)
      modifies this
      ensures hashes == SetIfPresent(old(hashes), d, trip) && (written <==> d in hashes)
    {
      written := d in hashes;
      if written {
        hashes := hashes[d := Some(trip)];
      }
    }

    method ClearCurrentRide(d: Id, trip: Id) returns (cleared: bool)
      modifies this
      ensures hashes == ClearIfMatch(old(hashes), d, trip)
      ensures cleared <==> d in old(hashes) && old(hashes)[d] == Some(trip)
    {
      cleared := d in hashes && hashes[d] == Some(trip);
      if cleared {
        hashes := hashes[d := None];
      }
    }

    /** Every guard onto its driver's present hash. */
    method ProjectGuards() returns (projected: nat)
      modifies this
      ensures hashes.Keys == old(hashes).Keys
      ensures forall d :: d in hashes ==>
        hashes[d] == if d in tables.guards then Expected(tables.guards, d) else old(hashes)[d]
      ensures projected == |Changed(old(hashes), hashes)|
    {
      projected := 0;
      var rest := tables.guards.Keys;
      while rest != {}
        invariant rest <= tables.guards.Keys && hashes.Keys == old(hashes).Keys
        invariant forall d :: d in hashes ==>
          hashes[d] == if d in tables.guards && d !in rest then Expected(tables.guards, d) else old(hashes)[d]
        invariant projected == |Changed(old(hashes), hashes)|
        decreases |rest|
      {
        var d :| d in rest;
        rest := rest - {d};
        var trip := tables.guards[d].trip.id;
        ghost var before := hashes;
        if d in hashes && hashes[d] == Some(trip) {
          continue;
        }
        var still := StillAssigned(d, trip);
        if still {
          var written := ProjectCurrentRide(d, trip);
          if written {
            projected := projected + 1;
          }
          ChangesOne(old(hashes), before, hashes, d);
        }
      }
    }

    lemma ChangesOne(start: Hashes, before: Hashes, after: Hashes, d: Id)
      requires before.Keys == start.Keys && after.Keys == start.Keys
      requires d in before ==> before[d] == start[d] && after == before[d := after[d]] && after[d] != before[d]
      requires d !in before ==> after == before
      ensures |Changed(start, after)| == |Changed(start, before)| + (if d in before then 1 else 0)
    {
      if d in before {
        assert Changed(start, after) == Changed(start, before) + {d};
      }
    }

    /** One key of a scan. */
    method ClearStale(d: Id) returns (cleared: bool)
      modifies this
      ensures cleared <==> d in old(hashes) && old(hashes)[d].Some? && old(hashes)[d] != Expected(tables.guards, d)
      ensures hashes == if cleared then old(hashes)[d := None] else old(hashes)
    {
      cleared := false;
      if d in hashes && hashes[d] != None && Expected(tables.guards, d) != hashes[d] {
        var still := StillAssigned(d, hashes[d].value);
        if !still {
          cleared := ClearCurrentRide(d, hashes[d].value);
        }
      }
    }

    /** `scan` is what the cursor walk returns: batches in any order and with any repeats, of at least every key. */
    method Reconcile(now: Time, locked: set<Id>, scan: seq<seq<Id>>)
      returns (projected: nat, cleared: nat, expired: nat)
      requires tables.Valid() && forall d :: d in hashes ==> InSome(scan, d)
      modifies this, tables`offers
      ensures hashes.Keys == old(hashes).Keys
      ensures forall d :: d in hashes ==> hashes[d] == Expected(tables.guards, d)
      ensures projected + cleared == |Changed(old(hashes), hashes)|
      ensures tables.View() == old(tables.View()).(offers := T.ExpireLapsed(old(tables.offers), None, now, locked))
      ensures expired == |set o | o in old(tables.offers) && tables.offers[o] != old(tables.offers)[o]|
    {
      expired := tables.ExpireLapsed(None, now, locked);
      projected := ProjectGuards();
      ghost var start := old(hashes);
      ghost var seen: set<Id> := {};
      cleared := 0;
      for b := 0 to |scan|
        invariant Swept(start, seen) && projected + cleared == |Changed(start, hashes)|
        invariant forall j :: 0 <= j < b ==> AllIn(scan[j], seen)
        invariant tables.offers == T.ExpireLapsed(old(tables.offers), None, now, locked)
      {
        var more := SweepBatch(start, seen, scan[b]);
        cleared := cleared + more;
        seen := seen + KeySet(scan[b]);
      }
    }

    method SweepBatch(ghost start: Hashes, ghost seen: set<Id>, keys: seq<Id>) returns (cleared: nat)
      requires Swept(start, seen)
      modifies this
      ensures Swept(start, seen + KeySet(keys))
      ensures |Changed(start, hashes)| == |Changed(start, old(hashes))| + cleared
    {
      cleared := 0;
      for k := 0 to |keys|
        invariant Swept(start, seen + KeySet(keys[..k]))
        invariant |Changed(start, hashes)| == |Changed(start, old(hashes))| + cleared
      {
        var d := keys[k];
        ghost var before := hashes;
        var gone := ClearStale(d);
        if gone {
          cleared := cleared + 1;
          ChangesOne(start, before, hashes, d);
        }
        assert KeySet(keys[..k + 1]) == KeySet(keys[..k]) + {d};
      }
      assert keys[..|keys|] == keys;
    }

    /** Guarded drivers are right, and so is every key seen so far; the others are as they were. */
    ghost predicate Swept(start: Hashes, seen: set<Id>)
      reads this, tables
    {
      && hashes.Keys == start.Keys
      && (forall d :: d in hashes && (d in tables.guards || d in seen) ==> hashes[d] == Expected(tables.guards, d))
      && (forall d :: d in hashes && d !in tables.guards ==> hashes[d] == start[d] || hashes[d] == None)
    }
  }

  function KeySet(keys: seq<Id>): set<Id> {
    set d | d in keys
  }

  ghost predicate AllIn(keys: seq<Id>, seen: set<Id>) {
    forall d :: d in keys ==> d in seen
  }

  ghost predicate InSome(scan: seq<seq<Id>>, d: Id) {
    exists b :: 0 <= b < |scan| && d in scan[b]
  }
}
