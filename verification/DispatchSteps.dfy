/** Every step keeps guards and offers exact, whichever trip it touches. */
module DispatchSteps {
  import opened Types
  import opened Protocol
  import opened Invariants
  import T = Trips
  import P = Pools
  import PoolProofs
  import R = RowProofs
  import opened DispatchProofs

  // ── the transactions on pools ─────────────────────────────────────────────

  lemma OpenPoolKeeps(db: Db, id: Id, maxSeats: nat, q: P.SeatRequest)
    requires DispatchOk(db)
    ensures DispatchOk(P.OpenPool(db, id, maxSeats, q).0)
  {
    var (b, r) := P.OpenPool(db, id, maxSeats, q);
    if r.SeatTaken? {
      PoolRowElsewhere(db, b, id, b.pools[id]);
      NewTripKeeps(db, b, Shared(id));
    }
  }

  /** What an open pool row is to offers and guards. */
  predicate Unclaimed(p: Pool) {
    p.state == Open ==> p.claimedBy == None && p.generation == 0 && p.stops == []
  }

  lemma SeatIsUnseen(db: Db, b: Db, id: Id)
    requires DispatchOk(db) && id in db.pools && id in b.pools
    requires b == db.(pools := db.pools[id := b.pools[id]], records := b.records)
    requires db.pools[id].state == Open == b.pools[id].state
    requires b.pools[id].claimedBy == db.pools[id].claimedBy && b.pools[id].generation == db.pools[id].generation
    ensures DispatchOk(b)
  {
    PoolRowElsewhere(db, b, id, b.pools[id]);
    UnseenChangeKeeps(db, b, Shared(id));
  }

  lemma CloseIsFresh(db: Db, b: Db, id: Id)
    requires DispatchOk(db) && id in db.pools && id in b.pools && b.pools == db.pools[id := b.pools[id]]
    requires b.rides == db.rides && b.offers == db.offers && b.guards == db.guards
    requires db.pools[id].claimedBy == None == b.pools[id].claimedBy && db.pools[id].generation == 0
    ensures DispatchOk(b)
  {
    PoolRowElsewhere(db, b, id, b.pools[id]);
    RegenerateKeeps(db, b, Shared(id));
  }

  lemma JoinPoolKeeps(dist: Distance, db: Db, id: Id, q: P.SeatRequest)
    requires DispatchOk(db) && (id in db.pools ==> Unclaimed(db.pools[id]))
    ensures DispatchOk(P.JoinPool(dist, db, id, q).0)
  {
    R.JoinIs(dist, db, id, q);
    var (b, r) := P.JoinPool(dist, db, id, q);
    if r.SeatTaken? {
      if r.closedFull {
        CloseIsFresh(db, b, id);
      } else {
        SeatIsUnseen(db, b, id);
      }
    }
  }

  lemma ExpirePoolKeeps(dist: Distance, db: Db, id: Id)
    requires DispatchOk(db) && (id in db.pools ==> Unclaimed(db.pools[id]))
    ensures DispatchOk(P.CloseIfOpen(dist, db, id).0)
  {
    var (b, r) := P.CloseIfOpen(dist, db, id);
    if r == P.ClosedNow || r == P.AbortedEmpty {
      CloseIsFresh(db, b, id);
    }
  }

  lemma AbortPoolKeeps(db: Db, id: Id, g: nat)
    requires DispatchOk(db)
    ensures DispatchOk(P.AbortUnclaimed(db, id, g))
  {
    var b := P.AbortUnclaimed(db, id, g);
    if b != db {
      PoolRowElsewhere(db, b, id, b.pools[id]);
      RetireKeeps(db, b, Shared(id));
    }
  }

  lemma ConfirmKeeps(db: Db, b: Db, id: Id, driver: Id, row: Pool)
    requires DispatchOk(db) && id in db.pools && db.pools[id].claimedBy == Some(driver) == row.claimedBy
    requires !P.Terminal(db.pools[id].state) && row.generation == db.pools[id].generation
    requires row.state == Finished || row.state == ClosedStarted
    requires b == db.(pools := db.pools[id := row],
                      guards := if row.state == Finished then T.Release(db.guards, driver, Shared(id)) else db.guards)
    ensures DispatchOk(b)
  {
    PoolRowElsewhere(db, b, id, row);
    if row.state == Finished {
      RetireKeeps(db, b, Shared(id));
    } else {
      AdvanceKeeps(db, b, Shared(id));
    }
  }

  lemma ConfirmStopKeeps(dist: Distance, db: Db, id: Id, driver: Id, index: nat, kind: StopKind)
    requires DispatchOk(db) && (id in db.pools ==> PoolOk(dist, db.pools[id]))
    ensures DispatchOk(P.ConfirmStop(db, id, driver, index, kind).0)
  {
    R.ConfirmIs(dist, db, id, driver, index, kind);
    var b := P.ConfirmStop(db, id, driver, index, kind).0;
    if b != db {
      ConfirmedRowIs(dist, db.pools[id], driver, index, kind);
      ConfirmKeeps(db, b, id, driver, PoolProofs.Confirmed(db.pools[id], kind));
    }
  }

  lemma ConfirmedRowIs(dist: Distance, a: Pool, driver: Id, index: nat, kind: StopKind)
    requires PoolOk(dist, a) && P.ConfirmVerdict(a, driver, index, kind) == None
    ensures P.FirstPending(a.stops) < |a.stops|
    ensures var row := PoolProofs.Confirmed(a, kind);
      && a.claimedBy == Some(driver) == row.claimedBy && !P.Terminal(a.state) && row.generation == a.generation
      && (row.state == Finished || row.state == ClosedStarted)
  {
    PoolProofs.ConfirmKeepsRow(dist, a, driver, index, kind);
  }

  // ── any step ──────────────────────────────────────────────────────────────

  lemma OpenPoolsUnclaimed(dist: Distance, pools: map<Id, Pool>)
    requires PoolsOk(dist, pools)
    ensures forall p :: p in pools ==> Unclaimed(pools[p])
  {
  }

  lemma SameDispatch(a: Db, b: Db)
    requires DispatchOk(a) && b == a.(outbox := b.outbox, records := b.records)
    ensures DispatchOk(b)
  {
    forall o | o in b.offers ensures OfferOk(b, o) {
      assert OfferOk(a, o);
    }
    GuardsAlone(a, b);
  }

  lemma GuardsAlone(a: Db, b: Db)
    requires GuardsOk(a) && b == a.(outbox := b.outbox, records := b.records)
    ensures GuardsOk(b)
  {
    forall d | d in b.guards ensures GuardOk(b, d) {
      assert GuardOk(a, d);
    }
    forall r | r in b.rides ensures BoundIsGuarded(b, Solo(r)) {
      assert BoundIsGuarded(a, Solo(r));
    }
    forall p | p in b.pools ensures BoundIsGuarded(b, Shared(p)) {
      assert BoundIsGuarded(a, Shared(p));
    }
  }

  predicate OnTrips(s: Step) {
    || s.CreateRide? || s.Wake? || s.DirectClaim? || s.MoveRide? || s.CancelRide? || s.HardFailRide? || s.Rearm?
    || s.OpenPool? || s.JoinPool? || s.ExpirePool? || s.AbortPool? || s.ConfirmStop?
  }

  lemma OfferStepKeeps(dist: Distance, w: World, s: Step)
    requires DispatchOk(w.db) && R.Informed(w, s) && !OnTrips(s)
    ensures DispatchOk(Apply(dist, w, s).db)
  {
    match s
    case CreateOffer(offer, q, now, locked) => CreateOfferKeeps(w.db, offer, q, now, locked);
    case Accept(seen, now, vehicle) =>
      if seen in w.mem.offers {
        AcceptKeeps(w.db, seen.offer, seen.driver, seen.trip, now, vehicle);
      }
    case DeclineOffer(offer, driver) => DeclineKeeps(w.db, offer, driver);
    case SweepOffers(now, locked) => SweepKeeps(w.db, now, locked);
    case _ => SameDispatch(w.db, Apply(dist, w, s).db);
  }

  lemma RideStepKeeps(dist: Distance, w: World, s: Step)
    requires DispatchOk(w.db) && R.Informed(w, s) && RidesOk(w.db.rides)
    requires s.CreateRide? || s.Wake? || s.DirectClaim? || s.MoveRide? || s.CancelRide? || s.HardFailRide? || s.Rearm?
    ensures DispatchOk(Apply(dist, w, s).db)
  {
    match s
    case CreateRide(id, passenger, scheduled, booking) => CreateRideKeeps(w.db, id, passenger, scheduled, booking);
    case Wake(ride, g) =>
      if g == 1 {
        WakeKeeps(w.db, ride);
      }
    case DirectClaim(ride, driver) =>
      if T.DirectClaim(w.db, ride, driver).Some? {
        DirectClaimKeeps(w.db, ride, driver);
      }
    case MoveRide(ride, driver, event, now) => TransitionKeeps(w.db, ride, driver, event, now);
    case CancelRide(ride, q, now) => CancelKeeps(w.db, ride, q, now);
    case HardFailRide(seen, g) =>
      MarkNoDriverKeeps(w.db, seen.ride, g);
      RearmKeeps(w.db, seen.ride, g);
    case Rearm(ride, g) => RearmKeeps(w.db, ride, g);
  }

  lemma PoolStepKeeps(dist: Distance, w: World, s: Step)
    requires DispatchOk(w.db) && PoolsOk(dist, w.db.pools)
    requires s.ExpirePool? || s.AbortPool? || s.ConfirmStop?
    ensures DispatchOk(Apply(dist, w, s).db)
  {
    OpenPoolsUnclaimed(dist, w.db.pools);
    match s
    case ExpirePool(pool) => ExpirePoolKeeps(dist, w.db, pool);
    case AbortPool(pool, g) => AbortPoolKeeps(w.db, pool, g);
    case ConfirmStop(pool, driver, index, kind) => ConfirmStopKeeps(dist, w.db, pool, driver, index, kind);
  }

  lemma SeatStepKeeps(dist: Distance, w: World, s: Step)
    requires DispatchOk(w.db) && PoolsOk(dist, w.db.pools)
    requires s.OpenPool? || s.JoinPool?
    ensures DispatchOk(Apply(dist, w, s).db)
  {
    OpenPoolsUnclaimed(dist, w.db.pools);
    match s
    case OpenPool(pool, maxSeats, q) => OpenPoolKeeps(w.db, pool, maxSeats, q);
    case JoinPool(pool, q) => JoinPoolKeeps(dist, w.db, pool, q);
  }

  lemma StepDispatch(dist: Distance, w: World, s: Step)
    requires DispatchOk(w.db) && R.Informed(w, s) && RidesOk(w.db.rides) && PoolsOk(dist, w.db.pools)
    ensures DispatchOk(Apply(dist, w, s).db)
  {
    if s.OpenPool? || s.JoinPool? {
      SeatStepKeeps(dist, w, s);
    } else if s.ExpirePool? || s.AbortPool? || s.ConfirmStop? {
      PoolStepKeeps(dist, w, s);
    } else if OnTrips(s) {
      RideStepKeeps(dist, w, s);
    } else {
      OfferStepKeeps(dist, w, s);
    }
  }
}
