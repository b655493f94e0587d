/** Every step keeps each row consistent, and moves it only forward. */
module RowProofs {
  import opened Types
  import opened Protocol
  import opened Invariants
  import I = Itinerary
  import T = Trips
  import P = Pools
  import PoolProofs

  // ── one row at a time ─────────────────────────────────────────────────────

  lemma RideRowStep(dist: Distance, a: Db, b: Db, r: Id)
    requires RowsOk(dist, a) && r in b.rides && b.rides == a.rides[r := b.rides[r]] && b.pools == a.pools
    requires RideOk(b.rides[r]) && r !in a.pools
    requires r in a.rides ==> RideFollows(a.rides[r], b.rides[r])
    ensures RowsOk(dist, b) && RowsFollow(a, b)
  {
    PoolsStay(a.pools);
    RideMoves(a.rides, r, b.rides[r]);
  }

  lemma PoolRowStep(dist: Distance, a: Db, b: Db, p: Id)
    requires RowsOk(dist, a) && p in b.pools && b.pools == a.pools[p := b.pools[p]] && b.rides == a.rides
    requires PoolOk(dist, b.pools[p]) && p !in a.rides
    requires p in a.pools ==> PoolFollows(a.pools[p], b.pools[p])
    ensures RowsOk(dist, b) && RowsFollow(a, b)
  {
    RidesStay(a.rides);
    PoolMoves(dist, a.pools, p, b.pools[p]);
  }

  lemma SameRows(dist: Distance, a: Db, b: Db)
    requires RowsOk(dist, a) && b.rides == a.rides && b.pools == a.pools
    ensures RowsOk(dist, b) && RowsFollow(a, b)
  {
    RidesStay(a.rides);
    PoolsStay(a.pools);
  }

  lemma RidesStay(rides: map<Id, Ride>)
    ensures RidesFollow(rides, rides)
  {
  }

  lemma PoolsStay(pools: map<Id, Pool>)
    ensures PoolsFollow(pools, pools)
  {
  }

  lemma RideMoves(rides: map<Id, Ride>, r: Id, row: Ride)
    requires RidesOk(rides) && RideOk(row) && (r in rides ==> RideFollows(rides[r], row))
    ensures RidesOk(rides[r := row]) && RidesFollow(rides, rides[r := row])
  {
  }

  lemma PoolMoves(dist: Distance, pools: map<Id, Pool>, p: Id, row: Pool)
    requires PoolsOk(dist, pools) && PoolOk(dist, row) && (p in pools ==> PoolFollows(pools[p], row))
    ensures PoolsOk(dist, pools[p := row]) && PoolsFollow(pools, pools[p := row])
  {
    PoolMovesForward(pools, p, row);
  }

  lemma PoolMovesForward(pools: map<Id, Pool>, p: Id, row: Pool)
    requires p in pools ==> PoolFollows(pools[p], row)
    ensures PoolsFollow(pools, pools[p := row])
  {
  }

  // ── rides ─────────────────────────────────────────────────────────────────

  lemma CreateRideRows(dist: Distance, db: Db, id: Id, passenger: Id, scheduled: bool, booking: Booking)
    requires RowsOk(dist, db)
    ensures var b := T.CreateRide(db, id, passenger, scheduled, booking); RowsOk(dist, b) && RowsFollow(db, b)
  {
    var b := T.CreateRide(db, id, passenger, scheduled, booking);
    if b.rides != db.rides {
      RideRowStep(dist, db, b, id);
    } else {
      SameRows(dist, db, b);
    }
  }

  lemma WakeRows(dist: Distance, db: Db, id: Id)
    requires RowsOk(dist, db)
    ensures var b := T.Wake(db, id, 1); RowsOk(dist, b) && RowsFollow(db, b)
  {
    var b := T.Wake(db, id, 1);
    if b.rides != db.rides {
      RideRowStep(dist, db, b, id);
    } else {
      SameRows(dist, db, b);
    }
  }

  lemma DirectClaimRows(dist: Distance, db: Db, id: Id, driver: Id)
    requires RowsOk(dist, db) && T.DirectClaim(db, id, driver).Some?
    ensures var b := T.DirectClaim(db, id, driver).value; RowsOk(dist, b) && RowsFollow(db, b)
  {
    RideRowStep(dist, db, T.DirectClaim(db, id, driver).value, id);
  }

  lemma MarkNoDriverRows(dist: Distance, db: Db, id: Id, g: nat)
    requires RowsOk(dist, db)
    requires id in db.rides ==> !db.rides[id].scheduled
    ensures var b := T.MarkNoDriver(db, id, g); RowsOk(dist, b) && RowsFollow(db, b)
  {
    var b := T.MarkNoDriver(db, id, g);
    if b.rides != db.rides {
      RideRowStep(dist, db, b, id);
    } else {
      SameRows(dist, db, b);
    }
  }

  lemma RearmRows(dist: Distance, db: Db, id: Id, g: nat)
    requires RowsOk(dist, db)
    ensures var b := T.RearmScheduled(db, id, g); RowsOk(dist, b) && RowsFollow(db, b)
  {
    var b := T.RearmScheduled(db, id, g);
    if T.CanRearm(db, id, g) {
      RideRowStep(dist, db, b, id);
    } else {
      SameRows(dist, db, b);
    }
  }

  lemma TransitionRows(dist: Distance, db: Db, id: Id, driver: Id, e: T.RideEvent, now: Time)
    requires RowsOk(dist, db)
    ensures var b := T.Transition(db, id, driver, e, now).0; RowsOk(dist, b) && RowsFollow(db, b)
  {
    var (b, r) := T.Transition(db, id, driver, e, now);
    if r == T.RideMoved {
      RideRowStep(dist, db, b, id);
    } else {
      SameRows(dist, db, b);
    }
  }

  lemma CancelRows(dist: Distance, db: Db, id: Id, q: T.CancelRequest, now: Time)
    requires RowsOk(dist, db)
    ensures var b := T.Cancel(db, id, q, now).0; RowsOk(dist, b) && RowsFollow(db, b)
  {
    var (b, r) := T.Cancel(db, id, q, now);
    if r == T.RideMoved {
      RideRowStep(dist, db, b, id);
    } else {
      SameRows(dist, db, b);
    }
  }

  // ── binding ───────────────────────────────────────────────────────────────

  lemma BindRows(dist: Distance, a: Db, b: Db, t: TripRef, driver: Id, g: nat)
    requires RowsOk(dist, a) && T.TripExists(a, t) && g == T.Generation(a, t) && g >= 1
    requires T.Bind(a, t, driver, g) == Some(b)
    ensures RowsOk(dist, b) && RowsFollow(a, b)
  {
    match t
    case Solo(r) => RideRowStep(dist, a, b, r);
    case Shared(p) =>
      PoolProofs.ClaimKeepsRow(dist, a.pools[p], driver);
      PoolRowStep(dist, a, b, p);
  }

  /** Going through with it binds the trip; offers change beside. */
  lemma AcceptLiveIs(db: Db, id: Id, driver: Id, trip: TripRef)
    requires T.TripExists(db, trip) && id in db.offers
    ensures var b := T.AcceptLive(db, id, driver, trip).0;
      var guarded := db.(guards := db.guards[driver := Guard(trip, Some(id), db.offers[id].generation)]);
      || b == db
      || match T.Bind(guarded, trip, driver, db.offers[id].generation)
         case None => false
         case Some(bound) => b == bound.(offers := b.offers)
  {
  }

  lemma AcceptLiveRows(dist: Distance, db: Db, id: Id, driver: Id, trip: TripRef)
    requires RowsOk(dist, db) && T.TripExists(db, trip) && id in db.offers
    requires 1 <= db.offers[id].generation == T.Generation(db, trip)
    ensures var b := T.AcceptLive(db, id, driver, trip).0; RowsOk(dist, b) && RowsFollow(db, b)
  {
    AcceptLiveIs(db, id, driver, trip);
    var guarded := db.(guards := db.guards[driver := Guard(trip, Some(id), db.offers[id].generation)]);
    BoundRows(dist, db, guarded, T.AcceptLive(db, id, driver, trip).0, trip, driver, db.offers[id].generation);
  }

  lemma BoundRows(dist: Distance, db: Db, guarded: Db, b: Db, trip: TripRef, driver: Id, g: nat)
    requires RowsOk(dist, db) && T.TripExists(db, trip) && 1 <= g == T.Generation(db, trip)
    requires guarded == db.(guards := guarded.guards)
    requires b == db
      || match T.Bind(guarded, trip, driver, g)
         case None => false
         case Some(bound) => b == bound.(offers := b.offers)
    ensures RowsOk(dist, b) && RowsFollow(db, b)
  {
    SameRows(dist, db, db);
    if b != db {
      var bound := T.Bind(guarded, trip, driver, g).value;
      BindRows(dist, guarded, bound, trip, driver, g);
      SameRows(dist, bound, b);
    }
  }

  /** The transaction returns what it found, resolves the one offer, or goes through with it. */
  lemma AcceptIs(db: Db, id: Id, driver: Id, trip: TripRef, now: Time, vehicle: Option<nat>)
    ensures var b := T.AcceptInTx(db, id, driver, trip, now, vehicle).0;
      || b == db.(offers := T.Resolve(db.offers, id, Expired))
      || b == db.(offers := T.Resolve(db.offers, id, Revoked))
      || b == db
      || (T.TripExists(db, trip) && id in db.offers && db.offers[id].generation == T.Generation(db, trip)
          && b == T.AcceptLive(db, id, driver, trip).0)
  {
  }

  lemma AcceptRows(dist: Distance, db: Db, b: Db, id: Id, driver: Id, trip: TripRef)
    requires RowsOk(dist, db)
    requires id in db.offers ==> 1 <= db.offers[id].generation
    requires || b == db.(offers := b.offers)
             || (T.TripExists(db, trip) && id in db.offers && db.offers[id].generation == T.Generation(db, trip)
                 && b == T.AcceptLive(db, id, driver, trip).0)
    ensures RowsOk(dist, b) && RowsFollow(db, b)
  {
    if b == db.(offers := b.offers) {
      SameRows(dist, db, b);
    } else {
      AcceptLiveRows(dist, db, id, driver, trip);
    }
  }

  // ── pools ─────────────────────────────────────────────────────────────────

  lemma OpenPoolRows(dist: Distance, db: Db, id: Id, maxSeats: nat, q: P.SeatRequest)
    requires RowsOk(dist, db)
    ensures var b := P.OpenPool(db, id, maxSeats, q).0; RowsOk(dist, b) && RowsFollow(db, b)
  {
    var (b, r) := P.OpenPool(db, id, maxSeats, q);
    if r.SeatTaken? {
      var empty := Pool(Open, 0, maxSeats, None, 0, 0, q.rider.origin, [], []);
      PoolProofs.InsertKeepsRow(dist, db.pools[id := empty], id, q, q.fare.value);
      PoolRowStep(dist, db, b, id);
    } else {
      SameRows(dist, db, b);
    }
  }

  lemma PoolStepsCompose(a: Pool, b: Pool, c: Pool)
    requires PoolFollows(a, b) && PoolFollows(b, c)
    ensures PoolFollows(a, c)
  {
    forall i | 0 <= i < |a.members| ensures SeatKept(a.members[i], c.members[i]) {
      assert SeatKept(a.members[i], b.members[i]) && SeatKept(b.members[i], c.members[i]);
    }
    if a.state != Open {
      forall i | 0 <= i < |a.stops| ensures StopKept(a.stops[i], c.stops[i]) {
        assert StopKept(a.stops[i], b.stops[i]) && StopKept(b.stops[i], c.stops[i]);
      }
    }
  }

  lemma FillingRow(dist: Distance, pools: map<Id, Pool>, id: Id, q: P.SeatRequest, fare: nat)
    requires id in pools && PoolOk(dist, pools[id]) && P.InsertMember(pools, id, q, fare).Inserted?
    ensures var seated := P.InsertMember(pools, id, q, fare).pool;
      && P.CloseRow(dist, seated, ClosedFull).Some?
      && var closed := P.CloseRow(dist, seated, ClosedFull).value;
        PoolOk(dist, closed) && PoolFollows(pools[id], closed)
  {
    PoolProofs.InsertKeepsRow(dist, pools, id, q, fare);
    var seated := P.InsertMember(pools, id, q, fare).pool;
    CloseSeated(dist, pools[id], seated);
  }

  lemma CloseSeated(dist: Distance, a: Pool, seated: Pool)
    requires PoolFollows(a, seated) && PoolOk(dist, seated) && seated.state == Open
    ensures P.CloseRow(dist, seated, ClosedFull).Some?
    ensures var closed := P.CloseRow(dist, seated, ClosedFull).value;
      PoolOk(dist, closed) && PoolFollows(a, closed)
  {
    PoolProofs.CloseKeepsRow(dist, seated, ClosedFull);
    PoolStepsCompose(a, seated, P.CloseRow(dist, seated, ClosedFull).value);
  }

  /** The row a taken seat leaves. */
  function JoinedRow(dist: Distance, db: Db, id: Id, q: P.SeatRequest, full: bool): Option<Pool> {
    if id !in db.pools || q.fare == None then None
    else match P.InsertMember(db.pools, id, q, q.fare.value)
      case NotInserted(_) => None
      case Inserted(seated) => if full then P.CloseRow(dist, seated, ClosedFull) else Some(seated)
  }

  lemma JoinIs(dist: Distance, db: Db, id: Id, q: P.SeatRequest)
    ensures var (b, r) := P.JoinPool(dist, db, id, q);
      if r.SeatTaken? then
        var row := JoinedRow(dist, db, id, q, r.closedFull);
        && r.pool == id && q.fare == Some(r.fare) && row.Some?
        && b.pools == db.pools[id := row.value]
        && b == db.(pools := b.pools, records := b.records, outbox := b.outbox)
        && b.outbox ==
             (if r.closedFull then db.outbox + {Intent(PoolDispatch, id, row.value.generation)} else db.outbox)
        && b.records == P.CompleteKeyed(db.records, q.rider.passenger, q.key, SeatAnswer(id, r.fare))
      else b == db
  {
  }

  lemma JoinedKeepsRow(dist: Distance, db: Db, id: Id, q: P.SeatRequest, full: bool)
    requires JoinedRow(dist, db, id, q, full).Some? && PoolOk(dist, db.pools[id])
    ensures var row := JoinedRow(dist, db, id, q, full).value; PoolOk(dist, row) && PoolFollows(db.pools[id], row)
  {
    if full {
      FillingRow(dist, db.pools, id, q, q.fare.value);
    } else {
      PoolProofs.InsertKeepsRow(dist, db.pools, id, q, q.fare.value);
    }
  }

  lemma JoinPoolRows(dist: Distance, db: Db, id: Id, q: P.SeatRequest)
    requires RowsOk(dist, db)
    ensures var b := P.JoinPool(dist, db, id, q).0; RowsOk(dist, b) && RowsFollow(db, b)
  {
    JoinIs(dist, db, id, q);
    var (b, r) := P.JoinPool(dist, db, id, q);
    if r.SeatTaken? {
      JoinedKeepsRow(dist, db, id, q, r.closedFull);
      PoolRowStep(dist, db, b, id);
    } else {
      SameRows(dist, db, b);
    }
  }

  lemma ExpirePoolRows(dist: Distance, db: Db, id: Id)
    requires RowsOk(dist, db)
    ensures var b := P.CloseIfOpen(dist, db, id).0; RowsOk(dist, b) && RowsFollow(db, b)
  {
    var (b, r) := P.CloseIfOpen(dist, db, id);
    if r == P.ClosedNow {
      PoolProofs.CloseKeepsRow(dist, db.pools[id], ClosedTimeout);
      PoolRowStep(dist, db, b, id);
    } else if id in db.pools {
      assert PoolOk(dist, db.pools[id]);
      SameRows(dist, db, b);
    } else {
      SameRows(dist, db, b);
    }
  }

  lemma AbortPoolRows(dist: Distance, db: Db, id: Id, g: nat)
    requires RowsOk(dist, db)
    ensures var b := P.AbortUnclaimed(db, id, g); RowsOk(dist, b) && RowsFollow(db, b)
  {
    var b := P.AbortUnclaimed(db, id, g);
    if b.pools != db.pools {
      PoolProofs.AbortKeepsRow(dist, db.pools[id]);
      PoolRowStep(dist, db, b, id);
    } else {
      SameRows(dist, db, b);
    }
  }

  /** A confirmation writes the confirmed row, or writes nothing. */
  ghost predicate ConfirmedOnly(db: Db, b: Db, r: P.ConfirmResult, id: Id, driver: Id, index: nat, kind: StopKind) {
    if id in db.pools && P.ConfirmVerdict(db.pools[id], driver, index, kind) == None then
      && index == P.FirstPending(db.pools[id].stops) < |db.pools[id].stops|
      && var row := PoolProofs.Confirmed(db.pools[id], kind);
        && r == P.Confirmed(|row.stops| - index - 1, row.state == Finished)
        && b == db.(pools := db.pools[id := row],
                    guards := if row.state == Finished then T.Release(db.guards, driver, Shared(id)) else db.guards)
    else b == db && !r.Confirmed?
  }

  lemma ConfirmWrites(db: Db, id: Id, driver: Id, index: nat, kind: StopKind)
    requires id in db.pools && P.ConfirmVerdict(db.pools[id], driver, index, kind) == None
    requires var a := db.pools[id];
      && index == P.FirstPending(a.stops) && P.Pending(a.stops) == |a.stops| - index
      && a.state != Finished
      && P.Completed(P.Started(a, kind).(stops := P.Confirm(a.stops, index))).Some?
    ensures var (b, r) := P.ConfirmStop(db, id, driver, index, kind); ConfirmedOnly(db, b, r, id, driver, index, kind)
  {
  }

  lemma ConfirmIs(dist: Distance, db: Db, id: Id, driver: Id, index: nat, kind: StopKind)
    requires id in db.pools ==> PoolOk(dist, db.pools[id])
    ensures var (b, r) := P.ConfirmStop(db, id, driver, index, kind); ConfirmedOnly(db, b, r, id, driver, index, kind)
  {
    if id in db.pools && P.ConfirmVerdict(db.pools[id], driver, index, kind) == None {
      PoolProofs.ConfirmKeepsRow(dist, db.pools[id], driver, index, kind);
      ConfirmWrites(db, id, driver, index, kind);
    }
  }

  lemma ConfirmRows(dist: Distance, db: Db, id: Id, driver: Id, index: nat, kind: StopKind)
    requires RowsOk(dist, db)
    ensures var b := P.ConfirmStop(db, id, driver, index, kind).0; RowsOk(dist, b) && RowsFollow(db, b)
  {
    ConfirmIs(dist, db, id, driver, index, kind);
    var b := P.ConfirmStop(db, id, driver, index, kind).0;
    if b == db {
      SameRows(dist, db, b);
    } else {
      PoolProofs.ConfirmKeepsRow(dist, db.pools[id], driver, index, kind);
      PoolRowStep(dist, db, b, id);
    }
  }

  // ── any step ──────────────────────────────────────────────────────────────

  /** What a worker brings to a step from an earlier one is still true. */
  ghost predicate Informed(w: World, s: Step) {
    match s
    case Wake(ride, g) => Intent(RideWake, ride, g) in w.db.outbox ==> g == 1
    case Accept(seen, _, _) => seen in w.mem.offers ==>
      && seen.offer in w.db.offers && w.db.offers[seen.offer].generation >= 1
      && w.db.offers[seen.offer].driver == seen.driver && w.db.offers[seen.offer].trip == seen.trip
    case HardFailRide(seen, _) =>
      seen in w.mem.rides ==> seen.ride in w.db.rides && w.db.rides[seen.ride].scheduled == seen.scheduled
    case _ => true
  }

  lemma InvInforms(dist: Distance, w: World, s: Step)
    requires Inv(dist, w)
    ensures Informed(w, s)
  {
    match s
    case Wake(ride, g) => assert Intent(RideWake, ride, g) in w.db.outbox ==> IntentOk(w.db, Intent(RideWake, ride, g));
    case Accept(seen, _, _) =>
      if seen in w.mem.offers {
        assert OfferOk(w.db, seen.offer);
      }
    case _ =>
  }

  predicate OnRides(s: Step) {
    s.CreateRide? || s.Wake? || s.DirectClaim? || s.MoveRide? || s.CancelRide? || s.HardFailRide? || s.Rearm?
  }

  lemma RideStepRows(dist: Distance, w: World, s: Step)
    requires RowsOk(dist, w.db) && Informed(w, s) && OnRides(s)
    ensures var v := Apply(dist, w, s); RowsOk(dist, v.db) && RowsFollow(w.db, v.db)
  {
    SameRows(dist, w.db, w.db);
    match s
    case CreateRide(id, passenger, scheduled, booking) => CreateRideRows(dist, w.db, id, passenger, scheduled, booking);
    case Wake(ride, g) =>
      if g == 1 {
        WakeRows(dist, w.db, ride);
      }
    case DirectClaim(ride, driver) =>
      if T.DirectClaim(w.db, ride, driver).Some? {
        DirectClaimRows(dist, w.db, ride, driver);
      }
    case MoveRide(ride, driver, event, now) => TransitionRows(dist, w.db, ride, driver, event, now);
    case CancelRide(ride, q, now) => CancelRows(dist, w.db, ride, q, now);
    case HardFailRide(seen, g) =>
      RearmRows(dist, w.db, seen.ride, g);
      if seen in w.mem.rides && !seen.scheduled {
        MarkNoDriverRows(dist, w.db, seen.ride, g);
      }
    case Rearm(ride, g) => RearmRows(dist, w.db, ride, g);
  }

  lemma AcceptStepRows(dist: Distance, w: World, s: Step)
    requires RowsOk(dist, w.db) && Informed(w, s) && s.Accept?
    ensures var v := Apply(dist, w, s); RowsOk(dist, v.db) && RowsFollow(w.db, v.db)
  {
    SameRows(dist, w.db, w.db);
    if s.seen in w.mem.offers {
      AcceptIs(w.db, s.seen.offer, s.seen.driver, s.seen.trip, s.now, s.vehicle);
      AcceptRows(dist, w.db, Apply(dist, w, s).db, s.seen.offer, s.seen.driver, s.seen.trip);
    }
  }

  predicate OnPools(s: Step) {
    s.OpenPool? || s.JoinPool? || s.ExpirePool? || s.AbortPool? || s.ConfirmStop?
  }

  lemma PoolStepRows(dist: Distance, w: World, s: Step)
    requires RowsOk(dist, w.db) && OnPools(s)
    ensures var v := Apply(dist, w, s); RowsOk(dist, v.db) && RowsFollow(w.db, v.db)
  {
    match s
    case OpenPool(pool, maxSeats, q) =>
      SameRows(dist, w.db, w.db);
      OpenPoolRows(dist, w.db, pool, maxSeats, q);
    case JoinPool(pool, q) =>
      SameRows(dist, w.db, w.db);
      JoinPoolRows(dist, w.db, pool, q);
    case ExpirePool(pool) => ExpirePoolRows(dist, w.db, pool);
    case AbortPool(pool, g) => AbortPoolRows(dist, w.db, pool, g);
    case ConfirmStop(pool, driver, index, kind) => ConfirmRows(dist, w.db, pool, driver, index, kind);
  }

  lemma OtherStepKeepsRows(dist: Distance, w: World, s: Step)
    requires !OnRides(s) && !OnPools(s) && !s.Accept?
    ensures Apply(dist, w, s).db.rides == w.db.rides && Apply(dist, w, s).db.pools == w.db.pools
  {
  }

  lemma StepRows(dist: Distance, w: World, s: Step)
    requires RowsOk(dist, w.db) && Informed(w, s)
    ensures var v := Apply(dist, w, s); RowsOk(dist, v.db) && RowsFollow(w.db, v.db)
  {
    if OnRides(s) {
      RideStepRows(dist, w, s);
    } else if s.Accept? {
      AcceptStepRows(dist, w, s);
    } else if OnPools(s) {
      PoolStepRows(dist, w, s);
    } else {
      OtherStepKeepsRows(dist, w, s);
      SameRows(dist, w.db, Apply(dist, w, s).db);
    }
  }
}
