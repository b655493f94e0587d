/**
 * What one committed transaction does to offers, guards and solo rides, as functions on the database.
 * A transaction that throws rolls back, so its result is the database it started from.
 */
module Trips {
  import opened Types

  // ── reading a trip ────────────────────────────────────────────────────────

  predicate TripExists(db: Db, t: TripRef) {
    match t
    case Solo(r) => r in db.rides
    case Shared(p) => p in db.pools
  }

  function Generation(db: Db, t: TripRef): nat
    requires TripExists(db, t)
  {
    match t
    case Solo(r) => db.rides[r].generation
    case Shared(p) => db.pools[p].generation
  }

  /** `rides.driver_id` or `shared_rides.claimed_by_driver_id`. */
  function Owner(db: Db, t: TripRef): Option<Id>
    requires TripExists(db, t)
  {
    match t
    case Solo(r) => db.rides[r].driver
    case Shared(p) => db.pools[p].claimedBy
  }

  /** Closed to new members, not yet started or terminal. */
  predicate ClaimableState(s: PoolState) {
    s == ClosedFull || s == ClosedTimeout
  }

  predicate TripOpen(db: Db, t: TripRef)
    requires TripExists(db, t)
  {
    match t
    case Solo(r) => db.rides[r].status == Requested
    case Shared(p) => ClaimableState(db.pools[p].state)
  }

  predicate Dispatchable(db: Db, t: TripRef) {
    TripExists(db, t) && TripOpen(db, t) && Owner(db, t) == None
  }

  // ── dispatch_offer ────────────────────────────────────────────────────────

  function Resolve(offers: map<Id, Offer>, id: Id, to: OfferState): map<Id, Offer> {
    if id in offers && offers[id].state == Offered then offers[id := offers[id].(state := to)] else offers
  }

  /** Every live offer of the trip, of any generation, except one. */
  function RevokeLive(offers: map<Id, Offer>, trip: TripRef, except: Option<Id>): map<Id, Offer> {
    map o | o in offers ::
      if offers[o].trip == trip && offers[o].state == Offered && except != Some(o)
      then offers[o].(state := Revoked) else offers[o]
  }

  predicate Lapsed(offer: Offer, now: Time) {
    offer.expiresAt <= now
  }

  /** `SKIP LOCKED`: offers another transaction holds are left for the next sweep. */
  function ExpireLapsed(offers: map<Id, Offer>, driver: Option<Id>, now: Time, locked: set<Id>): map<Id, Offer> {
    map o | o in offers ::
      if && offers[o].state == Offered && Lapsed(offers[o], now) && o !in locked
         && (driver == None || driver == Some(offers[o].driver))
      then offers[o].(state := Expired) else offers[o]
  }

  /** The unique indexes an insert of a live offer can hit. */
  predicate OfferConflicts(offers: map<Id, Offer>, trip: TripRef, driver: Id, generation: nat) {
    exists o :: o in offers && offers[o].driver == driver &&
      (offers[o].state == Offered || (offers[o].trip == trip && offers[o].generation == generation))
  }

  datatype OfferRequest = OfferRequest(trip: TripRef, driver: Id, generation: nat, wave: nat, ttl: nat)

  /** `id` is the key the insert generates. A wave throws before it offers generation 0. */
  function CreateOffer(db: Db, id: Id, q: OfferRequest, now: Time, locked: set<Id>): Db {
    if q.generation < 1 || id in db.offers then db
    else if !Dispatchable(db, q.trip) || Generation(db, q.trip) != q.generation then db
    else
      var offers := ExpireLapsed(db.offers, Some(q.driver), now, locked);
      if OfferConflicts(offers, q.trip, q.driver, q.generation) then db.(offers := offers)
      else
        var ttl := if q.ttl < 1 then 1 else q.ttl;
        db.(offers := offers[id := Offer(q.trip, q.driver, q.generation, q.wave, Offered, now, now + ttl)])
  }

  datatype DeclineResult = DeclinedNow | DeclineNotFound | DeclineNotLive

  function Decline(db: Db, offer: Id, driver: Id): (Db, DeclineResult) {
    if offer !in db.offers || db.offers[offer].driver != driver then (db, DeclineNotFound)
    else if db.offers[offer].state != Offered then (db, DeclineNotLive)
    else (db.(offers := Resolve(db.offers, offer, Declined)), DeclinedNow)
  }

  // ── driver_active_assignment ──────────────────────────────────────────────

  datatype AcquireResult = Acquired | DriverBusy | TripTaken

  /** The primary key is checked before the unique trip columns. */
  function Acquire(guards: map<Id, Guard>, driver: Id, trip: TripRef): AcquireResult {
    if driver in guards then DriverBusy
    else if exists d :: d in guards && guards[d].trip == trip then TripTaken
    else Acquired
  }

  /** Frees the driver only from this trip. */
  function Release(guards: map<Id, Guard>, driver: Id, trip: TripRef): map<Id, Guard> {
    if driver in guards && guards[driver].trip == trip then guards - {driver} else guards
  }

  // ── accepting an offer ────────────────────────────────────────────────────

  datatype AcceptFailure =
    | OfferNotFound | OfferExpired | OfferDeclined | OfferRevoked | OfferStale | TripTakenBy
    | TripNotClaimable | ItineraryMissing | BusyDriver | DriverIneligible | VehicleCapacity

  datatype AcceptThrow = SoloRowNotClaimable | SharedRowNotClaimable | OfferNotLive | SecondAcceptedOffer

  /** `step` is the numbered step of the transaction that decided. */
  datatype AcceptResult =
    | Granted(generation: nat, replay: bool)
    | Refused(reason: AcceptFailure, step: nat)
    | Threw(cause: AcceptThrow)

  function SeatsNeeded(db: Db, t: TripRef): nat
    requires TripExists(db, t)
  {
    match t
    case Solo(_) => 1
    case Shared(p) => db.pools[p].seatCount
  }

  /** `vehicle` is None for an inactive account, else the seats of the driver's largest active vehicle (0 for none). */
  function Eligibility(vehicle: Option<nat>, seats: nat): Option<AcceptFailure> {
    match vehicle
    case None => Some(DriverIneligible)
    case Some(n) => if n >= seats then None else Some(VehicleCapacity)
  }

  /** Step 5: why a locked trip cannot be claimed. */
  function ClaimRefusal(db: Db, t: TripRef): Option<AcceptFailure>
    requires TripExists(db, t)
  {
    if Owner(db, t) != None then Some(TripTakenBy)
    else if !TripOpen(db, t) then Some(TripNotClaimable)
    else match t
      case Solo(_) => None
      case Shared(p) =>
        var pool := db.pools[p];
        if pool.seatCount < 1 || |pool.stops| != 2 * pool.seatCount then Some(ItineraryMissing) else None
  }

  function ClaimSolo(ride: Ride, driver: Id, generation: nat): Ride {
    ride.(status := Accepted, driver := Some(driver),
          generation := if ride.generation < generation then generation else ride.generation)
  }

  function ClaimShared(pool: Pool, driver: Id): Pool {
    pool.(claimedBy := Some(driver), version := pool.version + 1)
  }

  /** Step 8: the guarded UPDATE of the trip row; None where it matches no row. */
  function Bind(db: Db, t: TripRef, driver: Id, generation: nat): Option<Db>
    requires TripExists(db, t)
  {
    match t
    case Solo(r) =>
      if db.rides[r].status == Requested && db.rides[r].driver == None
      then Some(db.(rides := db.rides[r := ClaimSolo(db.rides[r], driver, generation)])) else None
    case Shared(p) =>
      if ClaimableState(db.pools[p].state) && db.pools[p].claimedBy == None && db.pools[p].generation == generation
      then Some(db.(pools := db.pools[p := ClaimShared(db.pools[p], driver)])) else None
  }

  /** The partial unique index: one accepted offer per trip generation. */
  predicate AlreadyAccepted(offers: map<Id, Offer>, trip: TripRef, generation: nat) {
    exists o ::
      o in offers && offers[o].state == OfferAccepted && offers[o].trip == trip && offers[o].generation == generation
  }

  /** `trip` is what the unlocked read before the transaction saw on the offer. */
  function AcceptInTx(db: Db, id: Id, driver: Id, trip: TripRef, now: Time, vehicle: Option<nat>): (Db, AcceptResult) {
    if !TripExists(db, trip) then (db, Refused(TripNotClaimable, 1))
    else if id !in db.offers || db.offers[id].driver != driver then (db, Refused(OfferNotFound, 2))
    else
      var offer := db.offers[id];
      match offer.state
      case OfferAccepted =>
        if driver in db.guards && db.guards[driver].trip == trip && db.guards[driver].generation == offer.generation
        then (db, Granted(offer.generation, true)) else (db, Refused(TripNotClaimable, 3))
      case Revoked =>
        if Owner(db, trip) != None && Owner(db, trip) != Some(driver)
        then (db, Refused(TripTakenBy, 3)) else (db, Refused(OfferRevoked, 3))
      case Declined => (db, Refused(OfferDeclined, 3))
      case Expired => (db, Refused(OfferExpired, 3))
      case Offered =>
        if Lapsed(offer, now) then (db.(offers := Resolve(db.offers, id, Expired)), Refused(OfferExpired, 4))
        else if offer.generation != Generation(db, trip)
          then (db.(offers := Resolve(db.offers, id, Revoked)), Refused(OfferStale, 4))
        else if ClaimRefusal(db, trip) != None then (db, Refused(ClaimRefusal(db, trip).value, 5))
        else if Eligibility(vehicle, SeatsNeeded(db, trip)) != None
        then (db, Refused(Eligibility(vehicle, SeatsNeeded(db, trip)).value, 6))
        else AcceptLive(db, id, driver, trip)
  }

  /** Steps 7 and 8, for a live offer of a claimable trip and an eligible driver. */
  function AcceptLive(db: Db, id: Id, driver: Id, trip: TripRef): (Db, AcceptResult)
    requires TripExists(db, trip) && id in db.offers
  {
    var offer := db.offers[id];
    match Acquire(db.guards, driver, trip)
    case DriverBusy => (db, Refused(BusyDriver, 7))
    case TripTaken => (db, Refused(TripTakenBy, 7))
    case Acquired =>
      var guarded := db.(guards := db.guards[driver := Guard(trip, Some(id), offer.generation)]);
      match Bind(guarded, trip, driver, offer.generation)
      case None => (db, Threw(if trip.Solo? then SoloRowNotClaimable else SharedRowNotClaimable))
      case Some(bound) =>
        if offer.state != Offered then (db, Threw(OfferNotLive))
        else if AlreadyAccepted(db.offers, offer.trip, offer.generation) then (db, Threw(SecondAcceptedOffer))
        else (bound.(offers := RevokeLive(Resolve(db.offers, id, OfferAccepted), trip, Some(id))),
              Granted(offer.generation, false))
  }

  // ── solo rides ────────────────────────────────────────────────────────────

  /** A ride's key counts within its passenger and operation. */
  predicate BookedAs(r: Ride, passenger: Id, scheduled: bool, key: Key) {
    r.passenger == passenger && r.scheduled == scheduled && r.booking.key == key
  }

  predicate Booked(rides: map<Id, Ride>, passenger: Id, scheduled: bool, key: Key) {
    exists r :: r in rides && BookedAs(rides[r], passenger, scheduled, key)
  }

  /** A normal ride is dispatchable at once; a scheduled one waits at generation 0 for its wake. Ids are never reused
      across the two trip tables. A conflict of the unique scope inserts nothing and writes no intent. */
  function CreateRide(db: Db, id: Id, passenger: Id, scheduled: bool, booking: Booking): Db {
    if id in db.rides || id in db.pools || Booked(db.rides, passenger, scheduled, booking.key) then db
    else db.(
      rides := db.rides[id := Ride(passenger, scheduled, Requested, None, if scheduled then 0 else 1, None, booking)],
      outbox := db.outbox + {Intent(if scheduled then RideWake else RideDispatch, id, 1)})
  }

  /** The one guarded UPDATE of the wake. */
  function Wake(db: Db, id: Id, generation: nat): Db {
    if && id in db.rides && db.rides[id].scheduled && db.rides[id].status == Requested
       && (db.rides[id].generation == generation || db.rides[id].generation + 1 == generation)
    then db.(rides := db.rides[id := db.rides[id].(generation := generation)])
    else db
  }

  /** Offer-less assignment. None: not claimable, or the driver or the ride is already bound. */
  function DirectClaim(db: Db, id: Id, driver: Id): Option<Db> {
    if id !in db.rides || db.rides[id].status != Requested || db.rides[id].driver != None then None
    else
      var generation := if db.rides[id].generation < 1 then 1 else db.rides[id].generation;
      if Acquire(db.guards, driver, Solo(id)) != Acquired then None
      else Some(db.(
        rides := db.rides[id := ClaimSolo(db.rides[id], driver, generation)],
        guards := db.guards[driver := Guard(Solo(id), None, generation)],
        offers := RevokeLive(db.offers, Solo(id), None)))
  }

  /** The hard-fail of a normal ride. `generation` is the one the timer carries. */
  function MarkNoDriver(db: Db, id: Id, generation: nat): Db {
    if id !in db.rides || db.rides[id].status != Requested || db.rides[id].driver != None then db
    else if generation != db.rides[id].generation then db
    else db.(
      rides := db.rides[id := db.rides[id].(status := NoDriver)],
      offers := RevokeLive(db.offers, Solo(id), None))
  }

  predicate CanRearm(db: Db, id: Id, expected: nat) {
    && id in db.rides && db.rides[id].scheduled && db.rides[id].status == Requested && db.rides[id].driver == None
    && db.rides[id].generation >= 1 && expected == db.rides[id].generation
  }

  /** A scheduled ride whose window closed unanswered: a new generation, its intent, no live offers. */
  function RearmScheduled(db: Db, id: Id, expected: nat): Db {
    if !CanRearm(db, id, expected) then db
    else db.(
      rides := db.rides[id := db.rides[id].(generation := expected + 1)],
      offers := RevokeLive(db.offers, Solo(id), None),
      outbox := db.outbox + {Intent(RideDispatch, id, expected + 1)})
  }

  datatype RideEvent = StartEnRoute | MarkArrived | StartRide | EndRide

  function FromStatus(e: RideEvent): RideStatus {
    match e
    case StartEnRoute => Accepted
    case MarkArrived => EnRoute
    case StartRide => Arrived
    case EndRide => InProgress
  }

  function ToStatus(e: RideEvent): RideStatus {
    match e
    case StartEnRoute => EnRoute
    case MarkArrived => Arrived
    case StartRide => InProgress
    case EndRide => Completed
  }

  datatype RideResult = RideMoved | RideNotFound | RideNotOwner | InvalidTransition | NoShowTooEarly

  function Transition(db: Db, id: Id, driver: Id, event: RideEvent, now: Time): (Db, RideResult) {
    if id !in db.rides then (db, RideNotFound)
    else if db.rides[id].driver != Some(driver) then (db, RideNotOwner)
    else if db.rides[id].status != FromStatus(event) then (db, InvalidTransition)
    else
      var to := ToStatus(event);
      var arrivedAt := if to == Arrived then Some(now) else db.rides[id].arrivedAt;
      var moved := db.rides[id].(status := to, arrivedAt := arrivedAt);
      (db.(rides := db.rides[id := moved],
           guards := if to == Completed then Release(db.guards, driver, Solo(id)) else db.guards), RideMoved)
  }

  datatype Actor = Client | Driver

  predicate Cancellable(actor: Actor, status: RideStatus) {
    status in {Requested, Dispatching, Accepted, EnRoute, Arrived} || (actor == Driver && status == InProgress)
  }

  datatype CancelRequest = CancelRequest(actor: Actor, caller: Id, noShow: bool, waitMs: nat)

  /** RideMoved: the cancellation is allowed. */
  function CancelVerdict(ride: Ride, q: CancelRequest, now: Time): RideResult {
    if (if q.actor == Client then ride.passenger != q.caller else ride.driver != Some(q.caller)) then RideNotOwner
    else if q.noShow then
      if ride.status != Arrived then InvalidTransition
      else if ride.arrivedAt == None || now - ride.arrivedAt.value < q.waitMs then NoShowTooEarly
      else RideMoved
    else if Cancellable(q.actor, ride.status) then RideMoved
    else InvalidTransition
  }

  function Cancel(db: Db, id: Id, q: CancelRequest, now: Time): (Db, RideResult) {
    if id !in db.rides then (db, RideNotFound)
    else
      var ride := db.rides[id];
      var verdict := CancelVerdict(ride, q, now);
      if verdict != RideMoved then (db, verdict)
      else (db.(
        rides := db.rides[id := ride.(status := if q.noShow then NoShow else Cancelled)],
        offers := RevokeLive(db.offers, Solo(id), None),
        guards := if ride.driver == None then db.guards else Release(db.guards, ride.driver.value, Solo(id))),
          RideMoved)
  }
}
