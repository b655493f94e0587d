/** Work that is owed is always written down, and what is written down names real work. */
module IntentProofs {
  import opened Types
  import opened Protocol
  import opened Invariants
  import T = Trips
  import P = Pools
  import R = RowProofs

  ghost predicate SameRow(a: Db, b: Db, t: TripRef) {
    match t
    case Solo(r) => (r in a.rides <==> r in b.rides) && (r in a.rides ==> a.rides[r] == b.rides[r])
    case Shared(p) => (p in a.pools <==> p in b.pools) && (p in a.pools ==> a.pools[p] == b.pools[p])
  }

  /** One trip changed, and what it is owed is written. */
  ghost predicate PaysFor(a: Db, b: Db, t: TripRef) {
    && a.outbox <= b.outbox
    && (forall u :: u != t ==> SameRow(a, b, u))
    && (T.TripExists(b, t) ==> OwedIsWritten(b, t))
  }

  lemma PaidOwed(a: Db, b: Db, t: TripRef)
    requires OwedOk(a) && PaysFor(a, b, t)
    ensures OwedOk(b)
  {
    forall r | r in b.rides ensures OwedIsWritten(b, Solo(r)) {
      if Solo(r) != t {
        assert SameRow(a, b, Solo(r)) && OwedIsWritten(a, Solo(r));
      }
    }
    forall p | p in b.pools ensures OwedIsWritten(b, Shared(p)) {
      if Shared(p) != t {
        assert SameRow(a, b, Shared(p)) && OwedIsWritten(a, Shared(p));
      }
    }
  }

  lemma SameOwed(a: Db, b: Db)
    requires OwedOk(a) && b.rides == a.rides && b.pools == a.pools && a.outbox <= b.outbox
    ensures OwedOk(b)
  {
    forall r | r in b.rides ensures OwedIsWritten(b, Solo(r)) {
      assert OwedIsWritten(a, Solo(r));
    }
    forall p | p in b.pools ensures OwedIsWritten(b, Shared(p)) {
      assert OwedIsWritten(a, Shared(p));
    }
  }

  lemma IntentStays(a: Db, b: Db, i: Intent)
    requires RowsFollow(a, b) && IntentOk(a, i)
    ensures IntentOk(b, i)
  {
    if i.topic == PoolDispatch || i.topic == PoolExpire {
      assert PoolFollows(a.pools[i.aggregate], b.pools[i.aggregate]);
    } else {
      assert RideFollows(a.rides[i.aggregate], b.rides[i.aggregate]);
    }
  }

  // ── single transactions ───────────────────────────────────────────────────

  /** A transaction changes at most one trip, writes what that trip is then owed, and writes nothing that names no
      work. */
  ghost predicate Pays(a: Db, b: Db, t: TripRef) {
    PaysFor(a, b, t) && forall i :: i in b.outbox && i !in a.outbox ==> IntentOk(b, i)
  }

  lemma CreatePays(db: Db, id: Id, passenger: Id, scheduled: bool, booking: Booking)
    requires OwedOk(db)
    ensures Pays(db, T.CreateRide(db, id, passenger, scheduled, booking), Solo(id))
  {
    assert id in db.rides ==> OwedIsWritten(db, Solo(id));
  }

  lemma WakePays(db: Db, id: Id)
    requires OwedOk(db)
    ensures Pays(db, T.Wake(db, id, 1), Solo(id))
  {
    assert id in db.rides ==> OwedIsWritten(db, Solo(id));
  }

  lemma RearmPays(db: Db, id: Id, g: nat)
    requires OwedOk(db)
    ensures Pays(db, T.RearmScheduled(db, id, g), Solo(id))
  {
    assert id in db.rides ==> OwedIsWritten(db, Solo(id));
  }

  /** A ride that left `requested` is owed nothing. */
  lemma LeavingPays(a: Db, b: Db, id: Id)
    requires OwedOk(a) && b.outbox == a.outbox && b.pools == a.pools
    requires b.rides == a.rides
      || (id in b.rides && b.rides == a.rides[id := b.rides[id]] && b.rides[id].status != Requested)
    ensures Pays(a, b, Solo(id))
  {
    assert id in a.rides ==> OwedIsWritten(a, Solo(id));
  }

  lemma BoundRide(db: Db, id: Id, driver: Id, trip: TripRef, now: Time, vehicle: Option<nat>)
    ensures var b := T.AcceptInTx(db, id, driver, trip, now, vehicle).0;
      && b.outbox == db.outbox
      && match trip
         case Solo(r) =>
           && b.pools == db.pools
           && (b.rides == db.rides
                || (r in b.rides && b.rides == db.rides[r := b.rides[r]] && b.rides[r].status != Requested))
         case Shared(p) =>
           && b.rides == db.rides
           && (b.pools == db.pools
                || (p in b.pools && b.pools == db.pools[p := b.pools[p]] && b.pools[p].claimedBy != None
                     && b.pools[p].state != Open))
  {
  }

  /** A pool that is claimed or terminal is owed nothing. */
  lemma ClaimedPays(a: Db, b: Db, id: Id)
    requires OwedOk(a) && b.outbox == a.outbox && b.rides == a.rides
    requires
      || b.pools == a.pools
      || (id in b.pools && b.pools == a.pools[id := b.pools[id]] && b.pools[id].state != Open
          && (b.pools[id].claimedBy != None || !T.ClaimableState(b.pools[id].state)))
    ensures Pays(a, b, Shared(id))
  {
    assert id in a.pools ==> OwedIsWritten(a, Shared(id));
  }

  lemma OpenPays(db: Db, id: Id, maxSeats: nat, q: P.SeatRequest)
    requires OwedOk(db)
    ensures Pays(db, P.OpenPool(db, id, maxSeats, q).0, Shared(id))
  {
    assert id in db.pools ==> OwedIsWritten(db, Shared(id));
  }

  lemma JoinPays(dist: Distance, db: Db, id: Id, q: P.SeatRequest)
    requires OwedOk(db) && (id in db.pools && db.pools[id].state == Open ==> db.pools[id].generation == 0)
    ensures Pays(db, P.JoinPool(dist, db, id, q).0, Shared(id))
  {
    R.JoinIs(dist, db, id, q);
    assert id in db.pools ==> OwedIsWritten(db, Shared(id));
  }

  lemma ExpireIs(dist: Distance, db: Db, id: Id)
    ensures var b := P.CloseIfOpen(dist, db, id).0;
      || b == db
      || (id in db.pools && db.pools[id].state == Open
          && (b == db.(pools := db.pools[id := P.AbortRow(db.pools[id])])
              || (P.CloseRow(dist, db.pools[id], ClosedTimeout).Some?
                  && var row := P.CloseRow(dist, db.pools[id], ClosedTimeout).value;
                    b == db.(pools := db.pools[id := row],
                             outbox := db.outbox + {Intent(PoolDispatch, id, row.generation)}))))
  {
  }

  lemma ExpirePays(dist: Distance, db: Db, id: Id)
    requires OwedOk(db) && (id in db.pools && db.pools[id].state == Open ==> db.pools[id].generation == 0)
    ensures Pays(db, P.CloseIfOpen(dist, db, id).0, Shared(id))
  {
    ExpireIs(dist, db, id);
    assert id in db.pools ==> OwedIsWritten(db, Shared(id));
  }

  lemma ConfirmPays(a: Db, b: Db, r: P.ConfirmResult, id: Id, driver: Id, index: nat, kind: StopKind)
    requires OwedOk(a) && R.ConfirmedOnly(a, b, r, id, driver, index, kind)
    requires id in a.pools && a.pools[id].state == Open ==> a.pools[id].claimedBy == None
    ensures Pays(a, b, Shared(id))
  {
    ClaimedPays(a, b, id);
  }

  lemma SelectedIsOk(db: Db, t: TripRef)
    requires RidesOk(db.rides) && T.TripExists(db, t) && SelectedIntent(db, t).Some?
    requires t.Shared? && db.pools[t.id].state != Open ==> db.pools[t.id].generation == 1
    ensures IntentOk(db, SelectedIntent(db, t).value)
  {
    assert t.Solo? ==> RideOk(db.rides[t.id]);
  }

  // ── any step ──────────────────────────────────────────────────────────────

  /** The trip a step may change. */
  function Target(s: Step): TripRef {
    match s
    case CreateRide(id, _, _, _) => Solo(id)
    case Wake(ride, _) => Solo(ride)
    case Accept(seen, _, _) => seen.trip
    case DirectClaim(ride, _) => Solo(ride)
    case MoveRide(ride, _, _, _) => Solo(ride)
    case CancelRide(ride, _, _) => Solo(ride)
    case HardFailRide(seen, _) => Solo(seen.ride)
    case Rearm(ride, _) => Solo(ride)
    case OpenPool(pool, _, _) => Shared(pool)
    case JoinPool(pool, _) => Shared(pool)
    case ExpirePool(pool) => Shared(pool)
    case AbortPool(pool, _) => Shared(pool)
    case ConfirmStop(pool, _, _, _) => Shared(pool)
    case _ => Solo(0)
  }

  lemma RideStepPays(dist: Distance, w: World, s: Step)
    requires OwedOk(w.db) && R.Informed(w, s)
    requires s.CreateRide? || s.Wake? || s.HardFailRide? || s.Rearm?
    ensures Pays(w.db, Apply(dist, w, s).db, Target(s))
  {
    LeavingPays(w.db, w.db, Target(s).id);
    match s
    case CreateRide(id, passenger, scheduled, booking) => CreatePays(w.db, id, passenger, scheduled, booking);
    case Wake(ride, g) =>
      if g == 1 {
        WakePays(w.db, ride);
      }
    case HardFailRide(seen, g) =>
      RearmPays(w.db, seen.ride, g);
      LeavingPays(w.db, T.MarkNoDriver(w.db, seen.ride, g), seen.ride);
    case Rearm(ride, g) => RearmPays(w.db, ride, g);
  }

  lemma LeavingStepPays(dist: Distance, w: World, s: Step)
    requires OwedOk(w.db)
    requires s.DirectClaim? || s.MoveRide? || s.CancelRide?
    ensures Pays(w.db, Apply(dist, w, s).db, Target(s))
  {
    match s
    case DirectClaim(ride, driver) => LeavingPays(w.db, Apply(dist, w, s).db, ride);
    case MoveRide(ride, driver, event, now) => LeavingPays(w.db, T.Transition(w.db, ride, driver, event, now).0, ride);
    case CancelRide(ride, q, now) => LeavingPays(w.db, T.Cancel(w.db, ride, q, now).0, ride);
  }

  lemma AcceptPays(dist: Distance, w: World, s: Step)
    requires OwedOk(w.db) && s.Accept?
    ensures Pays(w.db, Apply(dist, w, s).db, Target(s))
  {
    var b := T.AcceptInTx(w.db, s.seen.offer, s.seen.driver, s.seen.trip, s.now, s.vehicle).0;
    BoundRide(w.db, s.seen.offer, s.seen.driver, s.seen.trip, s.now, s.vehicle);
    match s.seen.trip
    case Solo(r) =>
      LeavingPays(w.db, b, r);
      LeavingPays(w.db, w.db, r);
    case Shared(p) =>
      ClaimedPays(w.db, b, p);
      ClaimedPays(w.db, w.db, p);
  }

  predicate FreshWhenOpen(p: Pool) {
    p.state == Open ==> p.generation == 0 && p.claimedBy == None
  }

  lemma OpenPoolsFresh(dist: Distance, pools: map<Id, Pool>)
    requires PoolsOk(dist, pools)
    ensures forall p :: p in pools ==> FreshWhenOpen(pools[p])
  {
  }

  lemma SeatStepPays(dist: Distance, w: World, s: Step)
    requires OwedOk(w.db) && (forall p :: p in w.db.pools ==> FreshWhenOpen(w.db.pools[p]))
    requires s.OpenPool? || s.JoinPool?
    ensures Pays(w.db, Apply(dist, w, s).db, Target(s))
  {
    ClaimedPays(w.db, w.db, Target(s).id);
    match s
    case OpenPool(pool, maxSeats, q) => OpenPays(w.db, pool, maxSeats, q);
    case JoinPool(pool, q) => JoinPays(dist, w.db, pool, q);
  }

  lemma PoolStepPays(dist: Distance, w: World, s: Step)
    requires OwedOk(w.db) && (forall p :: p in w.db.pools ==> FreshWhenOpen(w.db.pools[p]))
    requires s.ConfirmStop? && s.pool in w.db.pools ==> PoolOk(dist, w.db.pools[s.pool])
    requires s.ExpirePool? || s.AbortPool? || s.ConfirmStop?
    ensures Pays(w.db, Apply(dist, w, s).db, Target(s))
  {
    match s
    case ExpirePool(pool) => ExpirePays(dist, w.db, pool);
    case AbortPool(pool, g) => ClaimedPays(w.db, P.AbortUnclaimed(w.db, pool, g), pool);
    case ConfirmStop(pool, driver, index, kind) =>
      R.ConfirmIs(dist, w.db, pool, driver, index, kind);
      var (b, r) := P.ConfirmStop(w.db, pool, driver, index, kind);
      ConfirmPays(w.db, b, r, pool, driver, index, kind);
  }

  predicate OnATrip(s: Step) {
    || s.CreateRide? || s.Wake? || s.HardFailRide? || s.Rearm? || s.DirectClaim? || s.MoveRide? || s.CancelRide?
         || s.Accept?
    || s.OpenPool? || s.JoinPool? || s.ExpirePool? || s.AbortPool? || s.ConfirmStop?
  }

  lemma TripStepPays(dist: Distance, w: World, s: Step)
    requires OwedOk(w.db) && PoolsOk(dist, w.db.pools) && R.Informed(w, s) && OnATrip(s)
    ensures Pays(w.db, Apply(dist, w, s).db, Target(s))
  {
    OpenPoolsFresh(dist, w.db.pools);
    if s.OpenPool? || s.JoinPool? {
      SeatStepPays(dist, w, s);
    } else if s.ExpirePool? || s.AbortPool? || s.ConfirmStop? {
      PoolStepPays(dist, w, s);
    } else if s.Accept? {
      AcceptPays(dist, w, s);
    } else if s.DirectClaim? || s.MoveRide? || s.CancelRide? {
      LeavingStepPays(dist, w, s);
    } else {
      RideStepPays(dist, w, s);
    }
  }

  lemma TripStepMemory(dist: Distance, w: World, s: Step)
    requires OnATrip(s)
    ensures Apply(dist, w, s).mem.intents == w.mem.intents
  {
  }

  lemma QuietStep(dist: Distance, w: World, s: Step)
    requires !OnATrip(s) && !s.SelectTrip? && !s.WriteIntent?
    ensures var v := Apply(dist, w, s);
      && v.db.rides == w.db.rides && v.db.pools == w.db.pools
      && v.db.outbox == w.db.outbox && v.mem.intents == w.mem.intents
  {
  }

  lemma SelectStep(dist: Distance, w: World, t: TripRef)
    ensures var v := Apply(dist, w, SelectTrip(t));
      && v.db == w.db
      && v.mem.intents <= w.mem.intents
           + (if T.TripExists(w.db, t) && SelectedIntent(w.db, t).Some? then {SelectedIntent(w.db, t).value} else {})
  {
  }

  lemma ReconcilerStep(dist: Distance, w: World, s: Step)
    requires IntentsOk(w) && RidesOk(w.db.rides) && (s.SelectTrip? || s.WriteIntent?)
    requires s.SelectTrip? && s.trip.Shared? && s.trip.id in w.db.pools ==> PoolOk(dist, w.db.pools[s.trip.id])
    ensures var v := Apply(dist, w, s);
      && v.db.rides == w.db.rides && v.db.pools == w.db.pools && w.db.outbox <= v.db.outbox
      && forall i :: i in v.db.outbox || i in v.mem.intents ==> IntentOk(w.db, i)
  {
    if s.SelectTrip? {
      SelectStep(dist, w, s.trip);
      if T.TripExists(w.db, s.trip) && SelectedIntent(w.db, s.trip).Some? {
        SelectedIsOk(w.db, s.trip);
      }
    }
  }

  lemma OtherStepIntents(dist: Distance, w: World, s: Step)
    requires IntentsOk(w) && RidesOk(w.db.rides) && PoolsOk(dist, w.db.pools) && !OnATrip(s)
    ensures var v := Apply(dist, w, s);
      && v.db.rides == w.db.rides && v.db.pools == w.db.pools && w.db.outbox <= v.db.outbox
      && forall i :: i in v.db.outbox || i in v.mem.intents ==> IntentOk(w.db, i)
  {
    if s.SelectTrip? || s.WriteIntent? {
      ReconcilerStep(dist, w, s);
    } else {
      QuietStep(dist, w, s);
    }
  }

  lemma StepIntents(dist: Distance, w: World, s: Step)
    requires IntentsOk(w) && RidesOk(w.db.rides) && PoolsOk(dist, w.db.pools) && R.Informed(w, s)
    requires RowsFollow(w.db, Apply(dist, w, s).db)
    ensures IntentsOk(Apply(dist, w, s)) && w.db.outbox <= Apply(dist, w, s).db.outbox
  {
    var v := Apply(dist, w, s);
    if OnATrip(s) {
      TripStepPays(dist, w, s);
      TripStepMemory(dist, w, s);
      PaidOwed(w.db, v.db, Target(s));
    } else {
      OtherStepIntents(dist, w, s);
      SameOwed(w.db, v.db);
    }
    forall i | i in v.db.outbox || i in v.mem.intents ensures IntentOk(v.db, i) {
      if IntentOk(w.db, i) {
        IntentStays(w.db, v.db, i);
      }
    }
  }
}
