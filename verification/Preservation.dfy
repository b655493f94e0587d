/** The invariant holds after every step, and every step leads forward. */
module Preservation {
  import opened Types
  import opened Protocol
  import opened Invariants
  import T = Trips
  import P = Pools
  import R = RowProofs
  import D = DispatchSteps
  import N = IntentProofs
  import S = SeatProofs

  // ── offers and memory ─────────────────────────────────────────────────────

  lemma AcceptLiveOffers(db: Db, id: Id, driver: Id, trip: TripRef)
    requires T.TripExists(db, trip) && id in db.offers
    ensures OffersFollow(db.offers, T.AcceptLive(db, id, driver, trip).0.offers)
  {
  }

  lemma AcceptOffers(db: Db, id: Id, driver: Id, trip: TripRef, now: Time, vehicle: Option<nat>)
    ensures OffersFollow(db.offers, T.AcceptInTx(db, id, driver, trip, now, vehicle).0.offers)
  {
    R.AcceptIs(db, id, driver, trip, now, vehicle);
    AnyAcceptOffers(db, T.AcceptInTx(db, id, driver, trip, now, vehicle).0, id, driver, trip);
  }

  lemma AnyAcceptOffers(db: Db, b: Db, id: Id, driver: Id, trip: TripRef)
    requires
      || b.offers == T.Resolve(db.offers, id, Expired)
      || b.offers == T.Resolve(db.offers, id, Revoked)
      || b == db
      || (T.TripExists(db, trip) && id in db.offers && b == T.AcceptLive(db, id, driver, trip).0)
    ensures OffersFollow(db.offers, b.offers)
  {
    if T.TripExists(db, trip) && id in db.offers {
      AcceptLiveOffers(db, id, driver, trip);
    }
  }

  lemma DirectClaimOffers(db: Db, id: Id, driver: Id)
    ensures match T.DirectClaim(db, id, driver) case None => true case Some(b) => OffersFollow(db.offers, b.offers)
  {
  }

  lemma AbortPoolOffers(db: Db, id: Id, g: nat)
    ensures OffersFollow(db.offers, P.AbortUnclaimed(db, id, g).offers)
  {
  }

  lemma CreateOfferFollows(db: Db, id: Id, q: T.OfferRequest, now: Time, locked: set<Id>)
    ensures OffersFollow(db.offers, T.CreateOffer(db, id, q, now, locked).offers)
  {
  }

  lemma HardFailOffers(db: Db, id: Id, g: nat)
    ensures OffersFollow(db.offers, T.RearmScheduled(db, id, g).offers)
    ensures OffersFollow(db.offers, T.MarkNoDriver(db, id, g).offers)
  {
  }

  lemma CancelOffers(db: Db, id: Id, q: T.CancelRequest, now: Time)
    ensures OffersFollow(db.offers, T.Cancel(db, id, q, now).0.offers)
  {
  }

  lemma RideStepOffers(dist: Distance, w: World, s: Step)
    requires s.DirectClaim? || s.CancelRide? || s.HardFailRide? || s.Rearm? || s.AbortPool?
    ensures OffersFollow(w.db.offers, Apply(dist, w, s).db.offers)
  {
    match s
    case CancelRide(ride, q, now) => CancelOffers(w.db, ride, q, now);
    case HardFailRide(seen, g) => HardFailOffers(w.db, seen.ride, g);
    case Rearm(ride, g) => HardFailOffers(w.db, ride, g);
    case DirectClaim(ride, driver) => DirectClaimOffers(w.db, ride, driver);
    case AbortPool(pool, g) => AbortPoolOffers(w.db, pool, g);
  }

  lemma OfferStepOffers(dist: Distance, w: World, s: Step)
    requires s.CreateOffer? || s.Accept? || s.DeclineOffer? || s.SweepOffers?
    ensures OffersFollow(w.db.offers, Apply(dist, w, s).db.offers)
  {
    match s
    case CreateOffer(offer, q, now, locked) => CreateOfferFollows(w.db, offer, q, now, locked);
    case Accept(seen, now, vehicle) => AcceptOffers(w.db, seen.offer, seen.driver, seen.trip, now, vehicle);
    case _ =>
  }

  predicate OnOffers(s: Step) {
    || s.DirectClaim? || s.CancelRide? || s.HardFailRide? || s.Rearm? || s.AbortPool?
    || s.CreateOffer? || s.Accept? || s.DeclineOffer? || s.SweepOffers?
  }

  lemma OtherStepOffers(dist: Distance, w: World, s: Step)
    requires !OnOffers(s)
    ensures Apply(dist, w, s).db.offers == w.db.offers
  {
  }

  lemma StepOffers(dist: Distance, w: World, s: Step)
    ensures OffersFollow(w.db.offers, Apply(dist, w, s).db.offers)
  {
    if s.CreateOffer? || s.Accept? || s.DeclineOffer? || s.SweepOffers? {
      OfferStepOffers(dist, w, s);
    } else if OnOffers(s) {
      RideStepOffers(dist, w, s);
    } else {
      OtherStepOffers(dist, w, s);
    }
  }

  lemma SeenStays(a: World, b: World)
    requires SeenOk(a) && OffersFollow(a.db.offers, b.db.offers) && RidesFollow(a.db.rides, b.db.rides)
    requires b.mem.offers == a.mem.offers && b.mem.rides == a.mem.rides
    ensures SeenOk(b)
  {
  }

  lemma ReadsAreTrue(dist: Distance, w: World, s: Step)
    requires SeenOk(w) && (s.ReadOffer? || s.ReadRide?)
    ensures SeenOk(Apply(dist, w, s))
  {
  }

  lemma OtherStepMemory(dist: Distance, w: World, s: Step)
    requires !s.ReadOffer? && !s.ReadRide?
    ensures Apply(dist, w, s).mem.offers == w.mem.offers && Apply(dist, w, s).mem.rides == w.mem.rides
  {
  }

  lemma StepSeen(dist: Distance, w: World, s: Step)
    requires SeenOk(w) && OffersFollow(w.db.offers, Apply(dist, w, s).db.offers)
    requires RidesFollow(w.db.rides, Apply(dist, w, s).db.rides)
    ensures SeenOk(Apply(dist, w, s))
  {
    if s.ReadOffer? || s.ReadRide? {
      ReadsAreTrue(dist, w, s);
    } else {
      OtherStepMemory(dist, w, s);
      SeenStays(w, Apply(dist, w, s));
    }
  }

  // ── the invariant ─────────────────────────────────────────────────────────

  lemma StartOk(dist: Distance)
    ensures Inv(dist, Start)
  {
  }

  /** Whichever step comes next, the invariant holds after it and everything decided stays decided. */
  lemma StepKeeps(dist: Distance, w: World, s: Step)
    requires Inv(dist, w)
    ensures Inv(dist, Apply(dist, w, s)) && Follows(w, Apply(dist, w, s))
  {
    R.InvInforms(dist, w, s);
    R.StepRows(dist, w, s);
    D.StepDispatch(dist, w, s);
    N.StepIntents(dist, w, s);
    S.StepSeats(dist, w, s);
    S.StepRecords(dist, w, s);
    StepOffers(dist, w, s);
    StepSeen(dist, w, s);
  }
}
