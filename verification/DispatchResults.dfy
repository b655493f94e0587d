/** What holds of offers, assignments and scheduled rides over whole runs. */
module DispatchResults {
  import opened Types
  import opened Protocol
  import opened Invariants
  import T = Trips
  import P = Pools
  import Preservation
  import opened Runs

  // ── the guard table ───────────────────────────────────────────────────────

  /** The trip is bound to the driver and not finished. */
  predicate Serves(db: Db, d: Id, t: TripRef) {
    match t
    case Solo(r) =>
      r in db.rides && db.rides[r].driver == Some(d) && db.rides[r].status in {Accepted, EnRoute, Arrived, InProgress}
    case Shared(p) => p in db.pools && db.pools[p].claimedBy == Some(d) && db.pools[p].state != Finished
  }

  lemma GuardsAreExact(dist: Distance, h: History, n: nat, d: Id, t: TripRef)
    requires IsRun(dist, h) && n < |h.states|
    ensures var db := h.states[n].db; HasGuard(db, d, t) <==> Serves(db, d, t)
  {
    var w := h.states[n];
    RunKeeps(dist, h, n);
    if HasGuard(w.db, d, t) {
      assert GuardOk(w.db, d);
    }
    if T.TripExists(w.db, t) {
      BoundIsServed(dist, w.db, d, t);
      assert BoundIsGuarded(w.db, t);
    }
  }

  lemma BoundIsServed(dist: Distance, db: Db, d: Id, t: TripRef)
    requires RowsOk(dist, db) && T.TripExists(db, t)
    ensures Bound(db, t) == Some(d) <==> Serves(db, d, t)
  {
    match t
    case Solo(r) =>
    case Shared(p) => assert PoolOk(dist, db.pools[p]);
  }

  lemma OneTripPerDriver(dist: Distance, h: History, n: nat, d: Id, t: TripRef, u: TripRef)
    requires IsRun(dist, h) && n < |h.states|
    requires Serves(h.states[n].db, d, t) && Serves(h.states[n].db, d, u)
    ensures t == u
  {
    GuardsAreExact(dist, h, n, d, t);
    GuardsAreExact(dist, h, n, d, u);
  }

  lemma OneDriverPerTrip(dist: Distance, h: History, n: nat, d: Id, e: Id, t: TripRef)
    requires IsRun(dist, h) && n < |h.states|
    requires HasGuard(h.states[n].db, d, t) && HasGuard(h.states[n].db, e, t)
    ensures d == e
  {
    RunKeeps(dist, h, n);
    assert GuardOk(h.states[n].db, d) && GuardOk(h.states[n].db, e);
  }

  // ── offers ────────────────────────────────────────────────────────────────

  /** Whoever still has an offer in hand holds one for a trip that can still be claimed, at its current generation. */
  lemma LiveOffersAreCurrent(dist: Distance, h: History, n: nat, o: Id)
    requires IsRun(dist, h) && n < |h.states|
    requires o in h.states[n].db.offers && h.states[n].db.offers[o].state == Offered
    ensures var db := h.states[n].db;
      && T.Dispatchable(db, db.offers[o].trip)
      && db.offers[o].generation == T.Generation(db, db.offers[o].trip) >= 1
  {
    RunKeeps(dist, h, n);
    assert OfferOk(h.states[n].db, o);
  }

  lemma OneLiveOfferPerDriver(dist: Distance, h: History, n: nat, o: Id, f: Id)
    requires IsRun(dist, h) && n < |h.states|
    requires var offers := h.states[n].db.offers;
      && o in offers
      && f in offers
      && offers[o].driver == offers[f].driver
      && offers[o].state == Offered == offers[f].state
    ensures o == f
  {
    RunKeeps(dist, h, n);
  }

  /** Of all the offers ever made for a trip, over all its generations, at most one is accepted. */
  lemma AcceptedOnce(dist: Distance, h: History, n: nat, o: Id, f: Id)
    requires IsRun(dist, h) && n < |h.states|
    requires var offers := h.states[n].db.offers;
      && o in offers
      && f in offers
      && offers[o].trip == offers[f].trip
      && offers[o].state == OfferAccepted == offers[f].state
    ensures o == f
  {
    RunKeeps(dist, h, n);
    assert OfferOk(h.states[n].db, o) && OfferOk(h.states[n].db, f);
  }

  /** Waves may start from stale reads and be repeated at will: once a driver was offered a generation, no insert
      offers it again. */
  lemma NeverOfferedAgain(dist: Distance, h: History, m: nat, n: nat, o: Id, id: Id, q: T.OfferRequest, now: Time,
                          locked: set<Id>)
    requires IsRun(dist, h) && m <= n < |h.states| && o in h.states[m].db.offers
    requires var f := h.states[m].db.offers[o]; f.trip == q.trip && f.driver == q.driver && f.generation == q.generation
    ensures T.CreateOffer(h.states[n].db, id, q, now, locked).offers.Keys == h.states[n].db.offers.Keys
  {
    RunFollows(dist, h, m, n);
    RepeatInsertsNothing(h.states[n].db, o, id, q, now, locked);
  }

  lemma RepeatInsertsNothing(db: Db, o: Id, id: Id, q: T.OfferRequest, now: Time, locked: set<Id>)
    requires o in db.offers && db.offers[o].trip == q.trip && db.offers[o].driver == q.driver
    requires db.offers[o].generation == q.generation
    ensures T.CreateOffer(db, id, q, now, locked).offers.Keys == db.offers.Keys
  {
    var offers := T.ExpireLapsed(db.offers, Some(q.driver), now, locked);
    assert o in offers && offers[o].trip == q.trip && offers[o].driver == q.driver
      && offers[o].generation == q.generation;
  }

  lemma OfferedOnce(dist: Distance, h: History, n: nat, o: Id, f: Id)
    requires IsRun(dist, h) && n < |h.states|
    requires var offers := h.states[n].db.offers;
      && o in offers && f in offers
      && offers[o].trip == offers[f].trip
      && offers[o].driver == offers[f].driver
      && offers[o].generation == offers[f].generation
    ensures o == f
  {
    RunKeeps(dist, h, n);
  }

  /** Declining succeeds exactly for the driver's own live offer. */
  lemma DeclineAnswers(db: Db, o: Id, d: Id)
    ensures var (b, r) := T.Decline(db, o, d);
      if o in db.offers && db.offers[o].driver == d then
        if db.offers[o].state == Offered
        then r == T.DeclinedNow && b == db.(offers := db.offers[o := db.offers[o].(state := Declined)])
        else r == T.DeclineNotLive && b == db
      else r == T.DeclineNotFound && b == db
  {
  }

  /** After a sweep nobody is in its way, no offer is live past its end, and none was ended early. */
  lemma SweepLeavesNoneLapsed(offers: map<Id, Offer>, now: Time, locked: set<Id>)
    ensures var swept := T.ExpireLapsed(offers, None, now, locked);
      && swept.Keys == offers.Keys
      && (forall o :: o in swept && swept[o].state == Offered && o !in locked ==> now < swept[o].expiresAt)
      && (forall o :: o in offers && swept[o] != offers[o] ==>
           swept[o] == offers[o].(state := Expired) && offers[o].state == Offered && offers[o].expiresAt <= now)
  {
  }

  // ── binding ───────────────────────────────────────────────────────────────

  /** A trip is bound at most once: whoever owns it at some point owns it from then on. */
  lemma BoundForGood(dist: Distance, h: History, m: nat, n: nat, t: TripRef)
    requires IsRun(dist, h) && m <= n < |h.states| && T.TripExists(h.states[m].db, t)
    ensures var was, now := h.states[m].db, h.states[n].db;
      T.TripExists(now, t) && (T.Owner(was, t) != None ==> T.Owner(now, t) == T.Owner(was, t))
  {
    RunFollows(dist, h, m, n);
    RowStays(h.states[m].db, h.states[n].db, t);
  }

  lemma RowStays(a: Db, b: Db, t: TripRef)
    requires RowsFollow(a, b) && T.TripExists(a, t)
    ensures T.TripExists(b, t)
    ensures T.Owner(a, t) != None ==> T.Owner(b, t) == T.Owner(a, t)
  {
    match t
    case Solo(r) => assert RideFollows(a.rides[r], b.rides[r]);
    case Shared(p) => assert PoolFollows(a.pools[p], b.pools[p]);
  }

  /** A driver released from a trip never serves it again. */
  lemma ReleasedForGood(dist: Distance, h: History, m: nat, n: nat, t: TripRef, d: Id)
    requires IsRun(dist, h) && m <= n < |h.states| && T.TripExists(h.states[m].db, t)
    requires T.Owner(h.states[m].db, t) == Some(d) && !HasGuard(h.states[m].db, d, t)
    ensures !HasGuard(h.states[n].db, d, t)
  {
    RunFollows(dist, h, m, n);
    RunKeeps(dist, h, m);
    GuardsAreExact(dist, h, m, d, t);
    GuardsAreExact(dist, h, n, d, t);
    FinishedForGood(dist, h.states[m].db, h.states[n].db, t, d);
  }

  lemma FinishedForGood(dist: Distance, a: Db, b: Db, t: TripRef, d: Id)
    requires RowsOk(dist, a) && RowsFollow(a, b) && T.TripExists(a, t) && T.Owner(a, t) == Some(d) && !Serves(a, d, t)
    ensures !Serves(b, d, t)
  {
    match t
    case Solo(r) => assert RideOk(a.rides[r]) && RideFollows(a.rides[r], b.rides[r]);
    case Shared(p) => assert PoolFollows(a.pools[p], b.pools[p]);
  }

  // ── accepting ─────────────────────────────────────────────────────────────

  predicate OwnedByAnother(db: Db, t: TripRef, d: Id) {
    T.TripExists(db, t) && T.Owner(db, t) != None && T.Owner(db, t) != Some(d)
  }

  /** What accepting comes down to: of the transaction's branches, only these are ever reached. */
  function Decision(db: Db, id: Id, now: Time, vehicle: Option<nat>): T.AcceptResult
    requires id in db.offers
  {
    var f := db.offers[id];
    match f.state
    case OfferAccepted =>
      if HasGuard(db, f.driver, f.trip) then T.Granted(f.generation, true) else T.Refused(T.TripNotClaimable, 3)
    case Revoked => T.Refused(if OwnedByAnother(db, f.trip, f.driver) then T.TripTakenBy else T.OfferRevoked, 3)
    case Declined => T.Refused(T.OfferDeclined, 3)
    case Expired => T.Refused(T.OfferExpired, 3)
    case Offered =>
      if f.expiresAt <= now then T.Refused(T.OfferExpired, 4)
      else if vehicle == None then T.Refused(T.DriverIneligible, 6)
      else if f.trip.Shared? && f.trip.id in db.pools && vehicle.value < |db.pools[f.trip.id].members|
        then T.Refused(T.VehicleCapacity, 6)
      else if f.trip.Solo? && vehicle.value == 0 then T.Refused(T.VehicleCapacity, 6)
      else if f.driver in db.guards then T.Refused(T.BusyDriver, 7)
      else T.Granted(f.generation, false)
  }

  lemma LiveOfferIsClaimable(dist: Distance, db: Db, id: Id)
    requires RowsOk(dist, db) && DispatchOk(db) && id in db.offers && db.offers[id].state == Offered
    ensures var f := db.offers[id];
      && T.TripExists(db, f.trip) && T.ClaimRefusal(db, f.trip) == None && f.generation == T.Generation(db, f.trip)
      && (f.trip.Shared? ==> db.pools[f.trip.id].seatCount == |db.pools[f.trip.id].members|)
      && T.Dispatchable(db, f.trip)
  {
    assert OfferOk(db, id);
    var f := db.offers[id];
    if f.trip.Shared? {
      assert PoolOk(dist, db.pools[f.trip.id]);
    }
  }

  lemma LiveOfferIsUncontested(db: Db, id: Id)
    requires DispatchOk(db) && id in db.offers && db.offers[id].state == Offered
    ensures var f := db.offers[id];
      && (forall d :: d in db.guards ==> db.guards[d].trip != f.trip)
      && !T.AlreadyAccepted(db.offers, f.trip, f.generation)
  {
    assert OfferOk(db, id);
    var f := db.offers[id];
    forall d | d in db.guards ensures db.guards[d].trip != f.trip {
      assert GuardOk(db, d);
    }
    forall o | o in db.offers && db.offers[o].state == OfferAccepted ensures db.offers[o].trip != f.trip {
      assert OfferOk(db, o);
    }
  }

  /** For a live offer the last two steps can only find the driver busy, or succeed. */
  lemma LiveAcceptDecides(dist: Distance, db: Db, id: Id)
    requires RowsOk(dist, db) && DispatchOk(db) && id in db.offers && db.offers[id].state == Offered
    ensures T.TripExists(db, db.offers[id].trip)
    ensures var f := db.offers[id];
      T.AcceptLive(db, id, f.driver, f.trip).1 ==
        if f.driver in db.guards then T.Refused(T.BusyDriver, 7) else T.Granted(f.generation, false)
  {
    LiveOfferIsClaimable(dist, db, id);
    LiveOfferIsUncontested(db, id);
  }

  lemma SeenIsThere(dist: Distance, h: History, n: nat, seen: SeenOffer)
    requires IsRun(dist, h) && n < |h.states|
    requires seen in h.states[n].mem.offers
    ensures seen.offer in h.states[n].db.offers
    ensures var f := h.states[n].db.offers[seen.offer]; f.driver == seen.driver && f.trip == seen.trip
  {
    RunKeeps(dist, h, n);
  }

  /** Whatever happened since the offer was read, the transaction answers as the short decision does. */
  lemma AcceptDecides(dist: Distance, h: History, n: nat, seen: SeenOffer, now: Time, vehicle: Option<nat>)
    requires IsRun(dist, h) && n < |h.states|
    requires seen in h.states[n].mem.offers
    ensures seen.offer in h.states[n].db.offers
    ensures var db := h.states[n].db;
      T.AcceptInTx(db, seen.offer, seen.driver, seen.trip, now, vehicle).1 == Decision(db, seen.offer, now, vehicle)
  {
    RunKeeps(dist, h, n);
    SeenIsThere(dist, h, n, seen);
    AcceptDecidesIn(dist, h.states[n].db, seen.offer, now, vehicle);
  }

  lemma AcceptDecidesIn(dist: Distance, db: Db, id: Id, now: Time, vehicle: Option<nat>)
    requires RowsOk(dist, db) && DispatchOk(db) && id in db.offers
    ensures var f := db.offers[id];
      T.AcceptInTx(db, id, f.driver, f.trip, now, vehicle).1 == Decision(db, id, now, vehicle)
  {
    if db.offers[id].state == Offered {
      LiveOfferIsReady(dist, db, id);
      ReadyAcceptDecides(db, id, now, vehicle);
    } else {
      SettledAcceptDecides(db, id, now, vehicle);
    }
  }

  /** What the invariant says of a live offer when it is accepted. */
  ghost predicate Ready(db: Db, id: Id) {
    && id in db.offers && db.offers[id].state == Offered
    && var f := db.offers[id];
      && T.Dispatchable(db, f.trip) && T.ClaimRefusal(db, f.trip) == None && f.generation == T.Generation(db, f.trip)
      && (f.trip.Shared? ==> db.pools[f.trip.id].seatCount == |db.pools[f.trip.id].members|)
      && T.AcceptLive(db, id, f.driver, f.trip).1 ==
           (if f.driver in db.guards then T.Refused(T.BusyDriver, 7) else T.Granted(f.generation, false))
  }

  lemma LiveOfferIsReady(dist: Distance, db: Db, id: Id)
    requires RowsOk(dist, db) && DispatchOk(db) && id in db.offers && db.offers[id].state == Offered
    ensures Ready(db, id)
  {
    LiveOfferIsClaimable(dist, db, id);
    LiveAcceptDecides(dist, db, id);
  }

  lemma ReadyAcceptDecides(db: Db, id: Id, now: Time, vehicle: Option<nat>)
    requires Ready(db, id)
    ensures var f := db.offers[id];
      T.AcceptInTx(db, id, f.driver, f.trip, now, vehicle).1 == Decision(db, id, now, vehicle)
  {
  }

  lemma SettledAcceptDecides(db: Db, id: Id, now: Time, vehicle: Option<nat>)
    requires DispatchOk(db) && id in db.offers && db.offers[id].state != Offered
    ensures var f := db.offers[id];
      T.AcceptInTx(db, id, f.driver, f.trip, now, vehicle) == (db, Decision(db, id, now, vehicle))
  {
    var f := db.offers[id];
    assert OfferOk(db, id);
    if f.state == OfferAccepted && HasGuard(db, f.driver, f.trip) {
      assert GuardOk(db, f.driver);
    }
  }

  /** What an accept writes: everything when granted for the first time, else at most the lapse of its own offer. */
  ghost predicate AcceptWrites(a: Db, b: Db, id: Id, r: T.AcceptResult)
    requires id in a.offers
  {
    var f := a.offers[id];
    if r.Granted? && !r.replay then
      && Serves(b, f.driver, f.trip)
      && b.guards == a.guards[f.driver := Guard(f.trip, Some(id), f.generation)]
      && b.offers.Keys == a.offers.Keys && b.offers[id] == f.(state := OfferAccepted)
      && (forall o :: o in a.offers && o != id ==>
            b.offers[o] ==
              if a.offers[o].trip == f.trip && a.offers[o].state == Offered then a.offers[o].(state := Revoked)
                else a.offers[o])
      && b.outbox == a.outbox && b.records == a.records
      && match f.trip
         case Solo(r) =>
           && b.pools == a.pools
           && r in a.rides
           && b.rides == a.rides[r := a.rides[r].(status := Accepted, driver := Some(f.driver))]
         case Shared(p) =>
           && b.rides == a.rides
           && p in a.pools
           && b.pools == a.pools[p := a.pools[p].(claimedBy := Some(f.driver), version := a.pools[p].version + 1)]
    else if r == T.Refused(T.OfferExpired, 4) then b == a.(offers := a.offers[id := f.(state := Expired)])
    else b == a
  }

  lemma LiveAcceptWrites(db: Db, id: Id)
    requires id in db.offers && db.offers[id].state == Offered && T.Dispatchable(db, db.offers[id].trip)
    requires db.offers[id].generation == T.Generation(db, db.offers[id].trip)
    ensures var f := db.offers[id];
      var (b, r) := T.AcceptLive(db, id, f.driver, f.trip);
      if r == T.Granted(f.generation, false) then AcceptWrites(db, b, id, r) else b == db
  {
  }

  ghost predicate WritesRight(db: Db, id: Id, now: Time, vehicle: Option<nat>)
    requires id in db.offers
  {
    var f := db.offers[id];
    var (b, r) := T.AcceptInTx(db, id, f.driver, f.trip, now, vehicle);
    AcceptWrites(db, b, id, r)
  }

  lemma AcceptWritesIn(dist: Distance, db: Db, id: Id, now: Time, vehicle: Option<nat>)
    requires RowsOk(dist, db) && DispatchOk(db) && id in db.offers
    ensures WritesRight(db, id, now, vehicle)
  {
    if db.offers[id].state == Offered {
      LiveOfferIsReady(dist, db, id);
      ReadyAcceptWrites(db, id, now, vehicle);
    } else {
      SettledAcceptWrites(db, id, now, vehicle);
    }
  }

  lemma ReadyAcceptWrites(db: Db, id: Id, now: Time, vehicle: Option<nat>)
    requires Ready(db, id)
    ensures WritesRight(db, id, now, vehicle)
  {
    LiveAcceptWrites(db, id);
  }

  lemma SettledAcceptWrites(db: Db, id: Id, now: Time, vehicle: Option<nat>)
    requires DispatchOk(db) && id in db.offers && db.offers[id].state != Offered
    ensures WritesRight(db, id, now, vehicle)
  {
    SettledAcceptDecides(db, id, now, vehicle);
  }

  lemma AcceptWritesExactly(dist: Distance, h: History, n: nat, seen: SeenOffer, now: Time, vehicle: Option<nat>)
    requires IsRun(dist, h) && n < |h.states|
    requires seen in h.states[n].mem.offers
    ensures seen.offer in h.states[n].db.offers
    ensures var db := h.states[n].db;
      var (b, r) := T.AcceptInTx(db, seen.offer, seen.driver, seen.trip, now, vehicle);
      AcceptWrites(db, b, seen.offer, r)
  {
    RunKeeps(dist, h, n);
    SeenIsThere(dist, h, n, seen);
    AcceptWritesIn(dist, h.states[n].db, seen.offer, now, vehicle);
  }

  /** Accepting again what was accepted changes nothing; it is answered as the first time while the guard stands. */
  lemma RepeatReplays(dist: Distance, h: History, m: nat, n: nat, id: Id, now: Time, vehicle: Option<nat>)
    requires IsRun(dist, h) && m <= n < |h.states| && id in h.states[m].db.offers
    requires h.states[m].db.offers[id].state == OfferAccepted
    ensures var db, f := h.states[n].db, h.states[m].db.offers[id];
      T.AcceptInTx(db, id, f.driver, f.trip, now, vehicle)
      == (db, if Serves(db, f.driver, f.trip) then T.Granted(f.generation, true) else T.Refused(T.TripNotClaimable, 3))
  {
    RunFollows(dist, h, m, n);
    RunKeeps(dist, h, n);
    var db, f := h.states[n].db, h.states[m].db.offers[id];
    GuardsAreExact(dist, h, n, f.driver, f.trip);
    SettledAcceptDecides(db, id, now, vehicle);
  }

  /** ... and refused for ever after the trip ends. */
  lemma RefusedForEver(dist: Distance, h: History, m: nat, n: nat, id: Id, now: Time, vehicle: Option<nat>)
    requires IsRun(dist, h) && m <= n < |h.states| && id in h.states[m].db.offers
    requires h.states[m].db.offers[id].state == OfferAccepted
    requires var db := h.states[m].db; !HasGuard(db, db.offers[id].driver, db.offers[id].trip)
    ensures var db, f := h.states[n].db, h.states[m].db.offers[id];
      T.AcceptInTx(db, id, f.driver, f.trip, now, vehicle) == (db, T.Refused(T.TripNotClaimable, 3))
  {
    var was := h.states[m].db;
    RunKeeps(dist, h, m);
    assert OfferOk(was, id);
    ReleasedForGood(dist, h, m, n, was.offers[id].trip, was.offers[id].driver);
    GuardsAreExact(dist, h, n, was.offers[id].driver, was.offers[id].trip);
    RepeatReplays(dist, h, m, n, id, now, vehicle);
  }
}
