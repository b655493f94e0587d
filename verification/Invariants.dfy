/** What holds in every reachable state, and how a later state relates to an earlier one. */
module Invariants {
  import opened Types
  import I = Itinerary
  import T = Trips
  import P = Pools
  import opened Protocol

  // ── single rows ───────────────────────────────────────────────────────────

  predicate Underway(s: RideStatus) {
    s == Accepted || s == EnRoute || s == Arrived || s == InProgress
  }

  predicate TerminalStatus(s: RideStatus) {
    s == Completed || s == Cancelled || s == NoDriver || s == NoShow
  }

  ghost predicate RideOk(r: Ride) {
    && r.status != Dispatching
    && (r.status == Requested || r.status == NoDriver ==> r.driver == None)
    && (Underway(r.status) || r.status == Completed || r.status == NoShow ==> r.driver != None)
    && (r.scheduled ==> r.status != NoDriver)
    && (!r.scheduled ==> r.generation == 1)
    && (r.driver != None ==> r.generation >= 1)
    && (r.status in {Arrived, InProgress, Completed, NoShow} ==> r.arrivedAt != None)
  }

  /** A claimed pool's stops are confirmed from the front; its state says how far the driver got. */
  ghost predicate ProgressOk(p: Pool) {
    var done := P.FirstPending(p.stops);
    && (forall i :: done <= i < |p.stops| ==> !p.stops[i].confirmed)
    && (p.state == ClosedStarted <==> 0 < done < |p.stops|)
    && (p.state == Finished <==> 0 < done == |p.stops|)
    && (done > 0 ==> p.claimedBy != None)
  }

  /** The persisted stops are the plan of the members, whatever has been confirmed since. */
  ghost predicate ItineraryOk(dist: Distance, p: Pool) {
    var rows := P.Rows(I.Plan(dist, p.anchor, P.Riders(p.members)));
    && |p.stops| == |rows| == 2 * |p.members|
    && forall i :: 0 <= i < |rows| ==>
         && p.stops[i].kind == rows[i].kind == (if i < |p.members| then Pickup else Dropoff)
         && p.stops[i].passenger == rows[i].passenger
  }

  ghost predicate MembersOk(p: Pool) {
    && 1 <= |p.members| == p.seatCount <= p.maxSeats
    && p.anchor == p.members[0].rider.origin
    && (forall i :: 0 <= i < |p.members| ==> (p.members[i].active <==> !P.Terminal(p.state)))
    && (forall i, j :: 0 <= i < j < |p.members| ==> p.members[i].rider.passenger != p.members[j].rider.passenger)
  }

  ghost predicate PoolOk(dist: Distance, p: Pool) {
    && MembersOk(p)
    && (if p.state == Open then p.stops == [] && p.generation == 0 && p.claimedBy == None
        else ItineraryOk(dist, p) && p.generation == 1)
    && (p.state == Aborted ==> p.claimedBy == None)
    && ProgressOk(p)
  }

  ghost predicate RidesOk(rides: map<Id, Ride>) {
    forall r :: r in rides ==> RideOk(rides[r])
  }

  ghost predicate PoolsOk(dist: Distance, pools: map<Id, Pool>) {
    forall p :: p in pools ==> PoolOk(dist, pools[p])
  }

  ghost predicate RowsOk(dist: Distance, db: Db) {
    RidesOk(db.rides) && PoolsOk(dist, db.pools) && db.rides.Keys !! db.pools.Keys
  }

  // ── guards and offers ─────────────────────────────────────────────────────

  /** The driver a trip is bound to and not finished with. */
  function Bound(db: Db, t: TripRef): Option<Id>
    requires T.TripExists(db, t)
  {
    match t
    case Solo(r) => if Underway(db.rides[r].status) then db.rides[r].driver else None
    case Shared(p) => if P.Terminal(db.pools[p].state) then None else db.pools[p].claimedBy
  }

  /** A guard row exists exactly for each bound, unfinished trip. */
  ghost predicate GuardsOk(db: Db) {
    && (forall d :: d in db.guards ==> GuardOk(db, d))
    && (forall r :: r in db.rides ==> BoundIsGuarded(db, Solo(r)))
    && (forall p :: p in db.pools ==> BoundIsGuarded(db, Shared(p)))
  }

  predicate BoundIsGuarded(db: Db, t: TripRef)
    requires T.TripExists(db, t)
  {
    Bound(db, t) != None ==> HasGuard(db, Bound(db, t).value, t)
  }

  ghost predicate GuardOk(db: Db, d: Id)
    requires d in db.guards
  {
    var g := db.guards[d];
    && T.TripExists(db, g.trip)
    && Bound(db, g.trip) == Some(d)
    && g.generation == T.Generation(db, g.trip)
    && (g.offer != None ==>
         && g.offer.value in db.offers
         && db.offers[g.offer.value].state == OfferAccepted
         && db.offers[g.offer.value].trip == g.trip
         && db.offers[g.offer.value].driver == d)
  }

  predicate HasGuard(db: Db, d: Id, t: TripRef) {
    d in db.guards && db.guards[d].trip == t
  }

  ghost predicate OfferOk(db: Db, o: Id)
    requires o in db.offers
  {
    var f := db.offers[o];
    && T.TripExists(db, f.trip)
    && 1 <= f.generation <= T.Generation(db, f.trip)
    && f.offeredAt < f.expiresAt
    && (f.state == Offered ==> T.Dispatchable(db, f.trip) && f.generation == T.Generation(db, f.trip))
    && (f.state == Revoked ==> !(T.Dispatchable(db, f.trip) && f.generation == T.Generation(db, f.trip)))
    && (f.state == OfferAccepted ==>
         && T.Owner(db, f.trip) == Some(f.driver)
         && f.generation == T.Generation(db, f.trip)
         && (HasGuard(db, f.driver, f.trip) ==> db.guards[f.driver].offer == Some(o)))
  }

  ghost predicate OffersOk(db: Db) {
    forall o :: o in db.offers ==> OfferOk(db, o)
  }

  /** One live offer per driver, and one offer ever per driver and trip generation. */
  ghost predicate OffersUnique(offers: map<Id, Offer>) {
    forall o, f :: o in offers && f in offers && o != f && offers[o].driver == offers[f].driver ==>
      && !(offers[o].state == Offered && offers[f].state == Offered)
      && !(offers[o].trip == offers[f].trip && offers[o].generation == offers[f].generation)
  }

  // ── durable intents ───────────────────────────────────────────────────────

  /** The intent that must exist for a trip still waiting for work. */
  function OwedIntent(db: Db, t: TripRef): Option<Intent>
    requires T.TripExists(db, t)
  {
    match t
    case Solo(r) =>
      var ride := db.rides[r];
      if ride.status != Requested then None
      else if ride.scheduled && ride.generation <= 1 then Some(Intent(RideWake, r, 1))
      else Some(Intent(RideDispatch, r, ride.generation))
    case Shared(p) =>
      var pool := db.pools[p];
      if pool.state == Open then Some(Intent(PoolExpire, p, 0))
      else if T.ClaimableState(pool.state) && pool.claimedBy == None then Some(Intent(PoolDispatch, p, pool.generation))
      else None
  }

  predicate OwedIsWritten(db: Db, t: TripRef)
    requires T.TripExists(db, t)
  {
    OwedIntent(db, t) != None ==> OwedIntent(db, t).value in db.outbox
  }

  ghost predicate IntentOk(db: Db, i: Intent) {
    match i.topic
    case RideDispatch => i.aggregate in db.rides && 1 <= i.generation <= db.rides[i.aggregate].generation
    case RideWake => i.aggregate in db.rides && db.rides[i.aggregate].scheduled && i.generation == 1
    case PoolDispatch => i.aggregate in db.pools && db.pools[i.aggregate].state != Open && i.generation == 1
    case PoolExpire => i.aggregate in db.pools && i.generation == 0
  }

  ghost predicate OwedOk(db: Db) {
    && (forall r :: r in db.rides ==> OwedIsWritten(db, Solo(r)))
    && (forall p :: p in db.pools ==> OwedIsWritten(db, Shared(p)))
  }

  ghost predicate IntentsOk(w: World) {
    && OwedOk(w.db)
    && (forall i :: i in w.db.outbox || i in w.mem.intents ==> IntentOk(w.db, i))
  }

  // ── seats and their keys ──────────────────────────────────────────────────

  ghost predicate SeatsOk(pools: map<Id, Pool>) {
    forall p, q, i, j ::
      p in pools && q in pools && 0 <= i < |pools[p].members| && 0 <= j < |pools[q].members| && (p != q || i != j)
      ==> Compatible(pools[p].members[i], pools[q].members[j])
  }

  /** Two different seats: not both active for one passenger, and not both from one key of one passenger. */
  predicate Compatible(a: Member, b: Member) {
    a.rider.passenger == b.rider.passenger ==> !(a.active && b.active) && (a.key == None || a.key != b.key)
  }

  ghost predicate RecordsOk(w: World) {
    && (forall s :: s in w.db.records && w.db.records[s].response != None ==>
         P.SeatFor(w.db.pools, s, w.db.records[s].response.value))
    && (forall r :: r in w.mem.lookups || r in w.mem.replies ==> P.SeatFor(w.db.pools, r.scope, r.answer))
  }

  // ── memory ────────────────────────────────────────────────────────────────

  ghost predicate SeenOk(w: World) {
    && (forall s :: s in w.mem.offers ==>
          s.offer in w.db.offers && w.db.offers[s.offer].driver == s.driver && w.db.offers[s.offer].trip == s.trip)
    && (forall s :: s in w.mem.rides ==> s.ride in w.db.rides && w.db.rides[s.ride].scheduled == s.scheduled)
  }

  /** Everything about drivers and offers. */
  ghost predicate DispatchOk(db: Db) {
    GuardsOk(db) && OffersOk(db) && OffersUnique(db.offers)
  }

  ghost predicate Inv(dist: Distance, w: World) {
    && RowsOk(dist, w.db)
    && DispatchOk(w.db)
    && IntentsOk(w)
    && SeatsOk(w.db.pools)
    && RecordsOk(w)
    && SeenOk(w)
  }

  // ── from one state to a later one ─────────────────────────────────────────

  /** The server's `rideStatusVersion`. */
  function StatusRank(s: RideStatus): nat {
    match s
    case Requested => 1
    case Dispatching => 2
    case Accepted => 3
    case EnRoute => 4
    case Arrived => 5
    case InProgress => 6
    case Completed => 10
    case Cancelled => 10
    case NoDriver => 10
    case NoShow => 10
  }

  ghost predicate RideFollows(a: Ride, b: Ride) {
    && a.passenger == b.passenger && a.scheduled == b.scheduled && a.booking == b.booking
    && (a.driver != None ==> b.driver == a.driver)
    && a.generation <= b.generation
    && (a.status != b.status ==> StatusRank(a.status) < StatusRank(b.status))
    && (a.status != Requested ==> b.generation == a.generation)
    && (TerminalStatus(a.status) ==> b == a)
  }

  function Stage(s: PoolState): nat {
    match s
    case Open => 0
    case ClosedFull => 1
    case ClosedTimeout => 1
    case ClosedStarted => 2
    case Aborted => 3
    case Finished => 3
  }

  ghost predicate SeatKept(a: Member, b: Member) {
    a.rider == b.rider && a.fare == b.fare && a.key == b.key && (b.active ==> a.active)
  }

  ghost predicate StopKept(a: StopRow, b: StopRow) {
    a.kind == b.kind && a.passenger == b.passenger && (a.confirmed ==> b.confirmed)
  }

  ghost predicate PoolFollows(a: Pool, b: Pool) {
    && a.maxSeats == b.maxSeats && a.anchor == b.anchor
    && (a.claimedBy != None ==> b.claimedBy == a.claimedBy)
    && a.version <= b.version && (a != b ==> a.version < b.version)
    && (a.state != b.state ==> Stage(a.state) < Stage(b.state))
    && |a.members| <= |b.members| && (forall i :: 0 <= i < |a.members| ==> SeatKept(a.members[i], b.members[i]))
    && (a.state != Open ==>
         && |b.members| == |a.members| && a.generation == b.generation && |b.stops| == |a.stops|
         && forall i :: 0 <= i < |a.stops| ==> StopKept(a.stops[i], b.stops[i]))
    && (P.Terminal(a.state) ==> b == a)
  }

  ghost predicate OfferFollows(a: Offer, b: Offer) {
    && b == a.(state := b.state)
    && (a.state != Offered ==> b == a)
  }

  ghost predicate RidesFollow(a: map<Id, Ride>, b: map<Id, Ride>) {
    forall r :: r in a ==> r in b && RideFollows(a[r], b[r])
  }

  ghost predicate PoolsFollow(a: map<Id, Pool>, b: map<Id, Pool>) {
    forall p :: p in a ==> p in b && PoolFollows(a[p], b[p])
  }

  ghost predicate RowsFollow(a: Db, b: Db) {
    RidesFollow(a.rides, b.rides) && PoolsFollow(a.pools, b.pools)
  }

  ghost predicate OffersFollow(a: map<Id, Offer>, b: map<Id, Offer>) {
    forall o :: o in a ==> o in b && OfferFollows(a[o], b[o])
  }

  /** A completed record stays as it is. */
  ghost predicate RecordsFollow(a: map<Scope, Record>, b: map<Scope, Record>) {
    forall s :: s in a && a[s].response != None ==> s in b && b[s] == a[s]
  }

  ghost predicate Follows(a: World, b: World) {
    && RowsFollow(a.db, b.db)
    && OffersFollow(a.db.offers, b.db.offers)
    && a.db.outbox <= b.db.outbox
    && RecordsFollow(a.db.records, b.db.records)
    && a.mem.replies <= b.mem.replies
  }
}
