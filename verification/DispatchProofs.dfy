/** Every transaction on offers, guards and rides keeps the dispatch invariant. */
module DispatchProofs {
  import opened Types
  import opened Invariants
  import T = Trips
  import P = Pools

  // ── one trip at a time ────────────────────────────────────────────────────

  /** Offers only ever leave `offered`. */
  ghost predicate OffersShrink(a: map<Id, Offer>, b: map<Id, Offer>) {
    && a.Keys == b.Keys
    && forall o :: o in a ==>
         OfferFollows(a[o], b[o]) && (b[o].state == OfferAccepted || b[o].state == Revoked ==> b[o].state == a[o].state)
  }

  /** What offers and guards depend on of a trip. */
  ghost predicate SameTrip(a: Db, b: Db, t: TripRef) {
    && (T.TripExists(a, t) <==> T.TripExists(b, t))
    && (T.TripExists(a, t) ==>
         && T.Generation(a, t) == T.Generation(b, t)
         && T.Owner(a, t) == T.Owner(b, t)
         && T.TripOpen(a, t) == T.TripOpen(b, t)
         && Bound(a, t) == Bound(b, t))
  }

  ghost predicate TripsElsewhere(a: Db, b: Db, t: TripRef) {
    forall u :: u != t ==> SameTrip(a, b, u)
  }

  ghost predicate OffersElsewhere(a: map<Id, Offer>, b: map<Id, Offer>, t: TripRef) {
    && a.Keys == b.Keys
    && (forall o :: o in b ==> OfferFollows(a[o], b[o]))
    && (forall o :: o in b && b[o].trip != t ==> b[o] == a[o])
  }

  ghost predicate GuardsElsewhere(a: map<Id, Guard>, b: map<Id, Guard>, t: TripRef) {
    && (forall d :: d in a && a[d].trip != t ==> d in b && b[d] == a[d])
    && (forall d :: d in b && b[d].trip != t ==> d in a && a[d] == b[d])
  }

  /** Nothing about any other trip has changed. */
  ghost predicate OnlyTrip(a: Db, b: Db, t: TripRef) {
    TripsElsewhere(a, b, t) && OffersElsewhere(a.offers, b.offers, t) && GuardsElsewhere(a.guards, b.guards, t)
  }

  ghost predicate OffersOnTripOk(db: Db, t: TripRef) {
    forall o :: o in db.offers && db.offers[o].trip == t ==> OfferOk(db, o)
  }

  ghost predicate GuardsOnTripOk(db: Db, t: TripRef) {
    && (forall d :: d in db.guards && db.guards[d].trip == t ==> GuardOk(db, d))
    && (T.TripExists(db, t) ==> BoundIsGuarded(db, t))
  }

  /** To re-establish the invariant it is enough to look at the trip that changed. */
  lemma CheckOffersOfOneTrip(a: Db, b: Db, t: TripRef)
    requires OffersOk(a) && OnlyTrip(a, b, t) && OffersOnTripOk(b, t)
    ensures OffersOk(b)
  {
    forall o | o in b.offers ensures OfferOk(b, o) {
      if b.offers[o].trip != t {
        assert OfferOk(a, o) && SameTrip(a, b, b.offers[o].trip);
      }
    }
  }

  lemma CheckGuardsOfOneTrip(a: Db, b: Db, t: TripRef)
    requires GuardsOk(a) && OnlyTrip(a, b, t) && GuardsOnTripOk(b, t)
    ensures GuardsOk(b)
  {
    forall d | d in b.guards ensures GuardOk(b, d) {
      if b.guards[d].trip != t {
        assert GuardOk(a, d) && SameTrip(a, b, b.guards[d].trip);
      }
    }
    forall r | r in b.rides ensures BoundIsGuarded(b, Solo(r)) {
      if Solo(r) != t {
        assert SameTrip(a, b, Solo(r)) && BoundIsGuarded(a, Solo(r));
      }
    }
    forall p | p in b.pools ensures BoundIsGuarded(b, Shared(p)) {
      if Shared(p) != t {
        assert SameTrip(a, b, Shared(p)) && BoundIsGuarded(a, Shared(p));
      }
    }
  }

  lemma UniqueWhenOffersFollow(a: map<Id, Offer>, b: map<Id, Offer>)
    requires OffersUnique(a)
    requires forall o :: o in b ==> o in a && OfferFollows(a[o], b[o])
    ensures OffersUnique(b)
  {
  }

  // ── offers alone ──────────────────────────────────────────────────────────

  lemma GuardsSurvive(a: Db, b: Db)
    requires GuardsOk(a) && b == a.(offers := b.offers)
    requires forall o :: o in a.offers && a.offers[o].state == OfferAccepted ==>
      o in b.offers && b.offers[o] == a.offers[o]
    ensures GuardsOk(b)
  {
    forall d | d in b.guards ensures GuardOk(b, d) {
      assert GuardOk(a, d);
    }
    forall r | r in b.rides ensures BoundIsGuarded(b, Solo(r)) {
      assert BoundIsGuarded(a, Solo(r));
    }
    forall p | p in b.pools ensures BoundIsGuarded(b, Shared(p)) {
      assert BoundIsGuarded(a, Shared(p));
    }
  }

  lemma ShrinkKeeps(db: Db, offers: map<Id, Offer>)
    requires DispatchOk(db) && OffersShrink(db.offers, offers)
    ensures DispatchOk(db.(offers := offers))
  {
    var b := db.(offers := offers);
    forall o | o in offers ensures OfferOk(b, o) {
      assert OfferOk(db, o);
    }
    GuardsSurvive(db, b);
    UniqueWhenOffersFollow(db.offers, offers);
  }

  lemma InsertOfferKeeps(db: Db, id: Id, offer: Offer)
    requires DispatchOk(db) && id !in db.offers
    requires offer.state == Offered && offer.offeredAt < offer.expiresAt && T.Dispatchable(db, offer.trip)
    requires 1 <= offer.generation == T.Generation(db, offer.trip)
    requires !T.OfferConflicts(db.offers, offer.trip, offer.driver, offer.generation)
    ensures DispatchOk(db.(offers := db.offers[id := offer]))
  {
    var b := db.(offers := db.offers[id := offer]);
    forall o | o in b.offers ensures OfferOk(b, o) {
      if o != id {
        assert OfferOk(db, o);
      }
    }
    GuardsSurvive(db, b);
  }

  lemma CreateOfferKeeps(db: Db, id: Id, q: T.OfferRequest, now: Time, locked: set<Id>)
    requires DispatchOk(db)
    ensures DispatchOk(T.CreateOffer(db, id, q, now, locked))
  {
    var offers := T.ExpireLapsed(db.offers, Some(q.driver), now, locked);
    ShrinkKeeps(db, offers);
    var b := T.CreateOffer(db, id, q, now, locked);
    if b != db && b != db.(offers := offers) {
      InsertOfferKeeps(db.(offers := offers), id, b.offers[id]);
    }
  }

  lemma DeclineKeeps(db: Db, offer: Id, driver: Id)
    requires DispatchOk(db)
    ensures DispatchOk(T.Decline(db, offer, driver).0)
  {
    ShrinkKeeps(db, T.Resolve(db.offers, offer, Declined));
  }

  lemma SweepKeeps(db: Db, now: Time, locked: set<Id>)
    requires DispatchOk(db)
    ensures DispatchOk(db.(offers := T.ExpireLapsed(db.offers, None, now, locked)))
  {
    ShrinkKeeps(db, T.ExpireLapsed(db.offers, None, now, locked));
  }

  // ── what can happen to a trip ─────────────────────────────────────────────

  lemma OneTripKeeps(a: Db, b: Db, t: TripRef)
    requires DispatchOk(a) && OnlyTrip(a, b, t) && OffersOnTripOk(b, t) && GuardsOnTripOk(b, t)
    ensures DispatchOk(b)
  {
    CheckOffersOfOneTrip(a, b, t);
    CheckGuardsOfOneTrip(a, b, t);
    UniqueWhenOffersFollow(a.offers, b.offers);
  }

  /** Nobody is bound to an ownerless trip, and no offer for it was ever accepted. */
  lemma OwnerlessIsFree(a: Db, t: TripRef)
    requires GuardsOk(a) && OffersOk(a)
    requires T.TripExists(a, t) ==> T.Owner(a, t) == None
    ensures forall d :: d in a.guards ==> a.guards[d].trip != t
    ensures forall o :: o in a.offers && a.offers[o].trip == t ==> a.offers[o].state != OfferAccepted
    ensures !T.TripExists(a, t) ==> forall o :: o in a.offers ==> a.offers[o].trip != t
  {
    forall d | d in a.guards ensures a.guards[d].trip != t {
      assert GuardOk(a, d);
    }
    forall o | o in a.offers && a.offers[o].trip == t
      ensures a.offers[o].state != OfferAccepted && T.TripExists(a, t)
    {
      assert OfferOk(a, o);
    }
  }

  lemma ReleasedIsFree(a: Db, t: TripRef)
    requires GuardsOk(a) && T.TripExists(a, t) && T.Owner(a, t) != None
    ensures var guards := T.Release(a.guards, T.Owner(a, t).value, t);
      GuardsElsewhere(a.guards, guards, t) && forall d :: d in guards ==> guards[d].trip != t
  {
    forall d | d in a.guards && a.guards[d].trip == t ensures T.Owner(a, t) == Some(d) {
      assert GuardOk(a, d);
    }
  }

  lemma RevokedElsewhere(offers: map<Id, Offer>, t: TripRef, except: Option<Id>)
    ensures OffersElsewhere(offers, T.RevokeLive(offers, t, except), t)
  {
  }

  /** The offers after an accept, or after a direct claim: on this trip nothing is live and at most `offer` is
      accepted. */
  lemma BoundOffers(a: map<Id, Offer>, t: TripRef, offer: Option<Id>)
    requires offer != None ==> offer.value in a && a[offer.value].trip == t && a[offer.value].state == Offered
    ensures var b := T.RevokeLive(if offer == None then a else T.Resolve(a, offer.value, OfferAccepted), t, offer);
      && OffersElsewhere(a, b, t)
      && (forall o :: o in b && b[o].trip == t ==> b[o].state != Offered)
      && (forall o :: o in b && b[o].trip == t && Some(o) != offer && b[o].state == OfferAccepted ==> b[o] == a[o])
      && (offer != None ==> b[offer.value] == a[offer.value].(state := OfferAccepted))
  {
  }

  lemma RideRowElsewhere(a: Db, b: Db, r: Id, row: Ride)
    requires b.rides == a.rides[r := row] && b.pools == a.pools
    ensures TripsElsewhere(a, b, Solo(r))
  {
  }

  lemma PoolRowElsewhere(a: Db, b: Db, p: Id, row: Pool)
    requires b.pools == a.pools[p := row] && b.rides == a.rides
    ensures TripsElsewhere(a, b, Shared(p))
  {
  }

  /** It is bound to a free driver, by an offer or directly. */
  lemma BindKeeps(a: Db, b: Db, t: TripRef, driver: Id, offer: Option<Id>)
    requires DispatchOk(a) && T.Dispatchable(a, t) && driver !in a.guards
    requires TripsElsewhere(a, b, t)
    requires T.TripExists(b, t) && T.Owner(b, t) == Some(driver) == Bound(b, t)
    requires T.Generation(a, t) <= T.Generation(b, t)
    requires offer != None ==>
      && offer.value in a.offers && a.offers[offer.value].driver == driver && a.offers[offer.value].trip == t
      && a.offers[offer.value].state == Offered && T.Generation(a, t) == T.Generation(b, t)
    requires b.guards == a.guards[driver := Guard(t, offer, T.Generation(b, t))]
    requires b.offers
      == T.RevokeLive(if offer == None then a.offers else T.Resolve(a.offers, offer.value, OfferAccepted), t, offer)
    ensures DispatchOk(b)
  {
    OwnerlessIsFree(a, t);
    BoundOffers(a.offers, t, offer);
    forall o | o in b.offers && b.offers[o].trip == t ensures OfferOk(b, o) {
      assert OfferOk(a, o);
    }
    OneTripKeeps(a, b, t);
  }

  lemma OffersOfLiveTrip(a: Db, b: Db, t: TripRef)
    requires OffersOk(a) && T.TripExists(a, t) && T.TripExists(b, t)
    requires T.Owner(b, t) == T.Owner(a, t) && T.Generation(b, t) == T.Generation(a, t)
    requires forall d :: HasGuard(b, d, t) ==> HasGuard(a, d, t) && b.guards[d] == a.guards[d]
    requires OffersElsewhere(a.offers, b.offers, t)
    requires !T.Dispatchable(b, t)
    requires forall o :: o in b.offers && b.offers[o].trip == t ==>
      b.offers[o].state != Offered && (b.offers[o].state == OfferAccepted ==> b.offers[o] == a.offers[o])
    ensures OffersOnTripOk(b, t)
  {
    forall o | o in b.offers && b.offers[o].trip == t ensures OfferOk(b, o) {
      assert OfferOk(a, o);
    }
  }

  lemma NothingOnOffer(a: Db, t: TripRef)
    requires OffersOk(a) && !T.Dispatchable(a, t)
    ensures forall o :: o in a.offers && a.offers[o].trip == t ==> a.offers[o].state != Offered
  {
    forall o | o in a.offers && a.offers[o].trip == t ensures a.offers[o].state != Offered {
      assert OfferOk(a, o);
    }
  }

  /** It ends, or its last dispatch fails: whoever was bound to it is free, and nothing is on offer for it. */
  lemma RetireKeeps(a: Db, b: Db, t: TripRef)
    requires DispatchOk(a) && T.TripExists(a, t) && T.TripExists(b, t)
    requires TripsElsewhere(a, b, t)
    requires !T.Dispatchable(b, t) && Bound(b, t) == None && T.Owner(b, t) == T.Owner(a, t)
    requires T.Generation(b, t) == T.Generation(a, t)
    requires b.guards == if T.Owner(a, t) == None then a.guards else T.Release(a.guards, T.Owner(a, t).value, t)
    requires b.offers == T.RevokeLive(a.offers, t, None) || (b.offers == a.offers && !T.Dispatchable(a, t))
    ensures DispatchOk(b)
  {
    if T.Owner(a, t) == None {
      OwnerlessIsFree(a, t);
    } else {
      ReleasedIsFree(a, t);
    }
    RevokedElsewhere(a.offers, t, None);
    if b.offers == a.offers && !T.Dispatchable(a, t) {
      NothingOnOffer(a, t);
    }
    OffersOfLiveTrip(a, b, t);
    OneTripKeeps(a, b, t);
  }

  /** It moves along, bound as before. */
  lemma AdvanceKeeps(a: Db, b: Db, t: TripRef)
    requires DispatchOk(a) && b.offers == a.offers && b.guards == a.guards
    requires T.TripExists(a, t) && T.TripExists(b, t) && !T.Dispatchable(a, t) && !T.Dispatchable(b, t)
    requires TripsElsewhere(a, b, t)
    requires T.Owner(b, t) == T.Owner(a, t) && Bound(b, t) == Bound(a, t) && T.Generation(b, t) == T.Generation(a, t)
    ensures DispatchOk(b)
  {
    NothingOnOffer(a, t);
    OffersOfLiveTrip(a, b, t);
    forall d | d in b.guards && b.guards[d].trip == t ensures GuardOk(b, d) {
      assert GuardOk(a, d);
    }
    OneTripKeeps(a, b, t);
  }

  /** An unassigned trip enters a generation with no offer of an older one left alive. */
  lemma RegenerateKeeps(a: Db, b: Db, t: TripRef)
    requires DispatchOk(a) && b.guards == a.guards
    requires T.TripExists(a, t) && T.TripExists(b, t) && T.Owner(a, t) == None == T.Owner(b, t)
    requires TripsElsewhere(a, b, t)
    requires T.Generation(a, t) <= T.Generation(b, t)
    requires (b.offers == T.RevokeLive(a.offers, t, None) && T.Generation(a, t) < T.Generation(b, t))
      || (b.offers == a.offers && T.Generation(a, t) == 0)
    ensures DispatchOk(b)
  {
    OwnerlessIsFree(a, t);
    RevokedElsewhere(a.offers, t, None);
    forall o | o in b.offers && b.offers[o].trip == t ensures OfferOk(b, o) {
      assert OfferOk(a, o);
    }
    OneTripKeeps(a, b, t);
  }

  lemma NewTripKeeps(a: Db, b: Db, t: TripRef)
    requires DispatchOk(a) && b.offers == a.offers && b.guards == a.guards
    requires !T.TripExists(a, t) && T.TripExists(b, t) && T.Owner(b, t) == None
    requires TripsElsewhere(a, b, t)
    ensures DispatchOk(b)
  {
    OwnerlessIsFree(a, t);
    OneTripKeeps(a, b, t);
  }

  /** A change that offers and guards cannot see: a seat taken in an open pool. */
  lemma UnseenChangeKeeps(a: Db, b: Db, t: TripRef)
    requires DispatchOk(a) && b.offers == a.offers && b.guards == a.guards
    requires TripsElsewhere(a, b, t) && SameTrip(a, b, t)
    ensures DispatchOk(b)
  {
    forall o | o in b.offers && b.offers[o].trip == t ensures OfferOk(b, o) {
      assert OfferOk(a, o);
    }
    forall d | d in b.guards && b.guards[d].trip == t ensures GuardOk(b, d) {
      assert GuardOk(a, d);
    }
    assert T.TripExists(a, t) ==> BoundIsGuarded(a, t);
    OneTripKeeps(a, b, t);
  }

  // ── the transactions on rides ─────────────────────────────────────────────

  lemma CreateRideKeeps(db: Db, id: Id, passenger: Id, scheduled: bool, booking: Booking)
    requires DispatchOk(db)
    ensures DispatchOk(T.CreateRide(db, id, passenger, scheduled, booking))
  {
    if id !in db.rides && id !in db.pools && !T.Booked(db.rides, passenger, scheduled, booking.key) {
      var b := T.CreateRide(db, id, passenger, scheduled, booking);
      RideRowElsewhere(db, b, id, b.rides[id]);
      NewTripKeeps(db, b, Solo(id));
    }
  }

  lemma WakeKeeps(db: Db, id: Id)
    requires DispatchOk(db) && (id in db.rides ==> RideOk(db.rides[id]))
    ensures DispatchOk(T.Wake(db, id, 1))
  {
    var b := T.Wake(db, id, 1);
    if b.rides != db.rides {
      RideRowElsewhere(db, b, id, b.rides[id]);
      RegenerateKeeps(db, b, Solo(id));
    }
  }

  lemma DirectClaimKeeps(db: Db, id: Id, driver: Id)
    requires DispatchOk(db) && T.DirectClaim(db, id, driver).Some?
    ensures DispatchOk(T.DirectClaim(db, id, driver).value)
  {
    var b := T.DirectClaim(db, id, driver).value;
    RideRowElsewhere(db, b, id, b.rides[id]);
    BindKeeps(db, b, Solo(id), driver, None);
  }

  lemma MarkNoDriverKeeps(db: Db, id: Id, g: nat)
    requires DispatchOk(db)
    ensures DispatchOk(T.MarkNoDriver(db, id, g))
  {
    var b := T.MarkNoDriver(db, id, g);
    if b != db {
      RideRowElsewhere(db, b, id, b.rides[id]);
      RetireKeeps(db, b, Solo(id));
    }
  }

  lemma RearmKeeps(db: Db, id: Id, g: nat)
    requires DispatchOk(db)
    ensures DispatchOk(T.RearmScheduled(db, id, g))
  {
    if T.CanRearm(db, id, g) {
      var b := T.RearmScheduled(db, id, g);
      RideRowElsewhere(db, b, id, b.rides[id]);
      RegenerateKeeps(db, b, Solo(id));
    }
  }

  lemma TransitionKeeps(db: Db, id: Id, driver: Id, e: T.RideEvent, now: Time)
    requires DispatchOk(db)
    ensures DispatchOk(T.Transition(db, id, driver, e, now).0)
  {
    var (b, r) := T.Transition(db, id, driver, e, now);
    if r == T.RideMoved {
      RideRowElsewhere(db, b, id, b.rides[id]);
      if e == T.EndRide {
        RetireKeeps(db, b, Solo(id));
      } else {
        AdvanceKeeps(db, b, Solo(id));
      }
    }
  }

  lemma CancelKeeps(db: Db, id: Id, q: T.CancelRequest, now: Time)
    requires DispatchOk(db)
    ensures DispatchOk(T.Cancel(db, id, q, now).0)
  {
    var (b, r) := T.Cancel(db, id, q, now);
    if r == T.RideMoved {
      RideRowElsewhere(db, b, id, b.rides[id]);
      RetireKeeps(db, b, Solo(id));
    }
  }

  // ── accepting ─────────────────────────────────────────────────────────────

  lemma BindElsewhere(a: Db, b: Db, t: TripRef, driver: Id, g: nat)
    requires T.TripExists(a, t) && T.Bind(a, t, driver, g) == Some(b)
    ensures TripsElsewhere(a, b, t)
    ensures b.offers == a.offers && b.guards == a.guards
    ensures T.Owner(b, t) == Some(driver) == Bound(b, t)
    ensures T.Generation(a, t) == g ==> T.Generation(b, t) == g
  {
    match t
    case Solo(r) => RideRowElsewhere(a, b, r, b.rides[r]);
    case Shared(p) => PoolRowElsewhere(a, b, p, b.pools[p]);
  }

  lemma AcceptLiveKeeps(db: Db, id: Id, driver: Id, trip: TripRef)
    requires DispatchOk(db)
    requires id in db.offers && db.offers[id].driver == driver && db.offers[id].trip == trip
    requires db.offers[id].state == Offered
    requires T.TripExists(db, trip)
    ensures DispatchOk(T.AcceptLive(db, id, driver, trip).0)
  {
    var (b, r) := T.AcceptLive(db, id, driver, trip);
    if r.Granted? {
      assert OfferOk(db, id);
      var g := db.offers[id].generation;
      var guarded := db.(guards := db.guards[driver := Guard(trip, Some(id), g)]);
      var bound := T.Bind(guarded, trip, driver, g).value;
      BindElsewhere(guarded, bound, trip, driver, g);
      BoundTripKeeps(db, guarded, bound, b, trip, driver, id);
    }
  }

  lemma BoundTripKeeps(a: Db, guarded: Db, bound: Db, b: Db, t: TripRef, driver: Id, id: Id)
    requires DispatchOk(a) && T.Dispatchable(a, t) && driver !in a.guards
    requires id in a.offers && a.offers[id].driver == driver && a.offers[id].trip == t && a.offers[id].state == Offered
    requires guarded == a.(guards := a.guards[driver := Guard(t, Some(id), T.Generation(a, t))])
    requires bound.guards == guarded.guards && TripsElsewhere(guarded, bound, t)
    requires T.TripExists(bound, t) && T.Owner(bound, t) == Some(driver) == Bound(bound, t)
    requires T.Generation(bound, t) == T.Generation(a, t)
    requires b == bound.(offers := T.RevokeLive(T.Resolve(a.offers, id, OfferAccepted), t, Some(id)))
    ensures DispatchOk(b)
  {
    forall u | u != t ensures SameTrip(a, b, u) {
      assert SameTrip(guarded, bound, u);
    }
    BindKeeps(a, b, t, driver, Some(id));
  }

  lemma AcceptKeeps(db: Db, id: Id, driver: Id, trip: TripRef, now: Time, vehicle: Option<nat>)
    requires DispatchOk(db)
    requires id in db.offers && db.offers[id].driver == driver && db.offers[id].trip == trip
    ensures DispatchOk(T.AcceptInTx(db, id, driver, trip, now, vehicle).0)
  {
    assert OfferOk(db, id);
    AcceptIsNotStale(db, id, driver, trip, now, vehicle);
    AnyAcceptKeeps(db, T.AcceptInTx(db, id, driver, trip, now, vehicle).0, id, driver, trip);
  }

  lemma AcceptIsNotStale(db: Db, id: Id, driver: Id, trip: TripRef, now: Time, vehicle: Option<nat>)
    requires id in db.offers && T.TripExists(db, trip)
    requires db.offers[id].state == Offered ==> db.offers[id].generation == T.Generation(db, trip)
    ensures var b := T.AcceptInTx(db, id, driver, trip, now, vehicle).0;
      || b == db
      || (db.offers[id].state == Offered
           && (b == db.(offers := T.Resolve(db.offers, id, Expired)) || b == T.AcceptLive(db, id, driver, trip).0))
  {
  }

  lemma AnyAcceptKeeps(db: Db, b: Db, id: Id, driver: Id, trip: TripRef)
    requires DispatchOk(db) && T.TripExists(db, trip)
    requires id in db.offers && db.offers[id].driver == driver && db.offers[id].trip == trip
    requires
      || b == db
      || (db.offers[id].state == Offered
           && (b == db.(offers := T.Resolve(db.offers, id, Expired)) || b == T.AcceptLive(db, id, driver, trip).0))
    ensures DispatchOk(b)
  {
    if b == db.(offers := T.Resolve(db.offers, id, Expired)) {
      ShrinkKeeps(db, T.Resolve(db.offers, id, Expired));
    } else if b != db {
      AcceptLiveKeeps(db, id, driver, trip);
    }
  }
}
