/** Solo and scheduled creates: one ride for each key of a passenger and operation, and what every request with it is
    answered. */
module Bookings {
  import opened Types
  import opened Protocol
  import opened Invariants
  import opened Database
  import T = Trips
  import R = RowProofs
  import Preservation
  import opened Runs

  // ── one request ───────────────────────────────────────────────────────────

  datatype Outcome = Replied(ride: Id) | DifferentIntent | NotAdmissible | Threw

  /** The stored fingerprint is the request's. Only a scheduled one holds a pickup time. */
  predicate SameIntent(r: Ride, booking: Booking) {
    r.booking.route == booking.route && (r.scheduled ==> r.booking.pickupAt == booking.pickupAt)
  }

  ghost predicate UniqueBookings(rides: map<Id, Ride>) {
    forall r, u :: r in rides && u in rides && r != u ==>
      !T.BookedAs(rides[u], rides[r].passenger, rides[r].scheduled, rides[r].booking.key)
  }

  /** What the ride of the scope, once there is one, makes of a request. */
  function ReplyFor(rides: map<Id, Ride>, r: Id, booking: Booking): Outcome
    requires r in rides
  {
    if SameIntent(rides[r], booking) then Replied(r) else DifferentIntent
  }

  /** `admissible`: the quote token is good, and a pickup time lies in its window. Neither matters to a replay. */
  method CreateSolo(tables: Tables, id: Id, passenger: Id, scheduled: bool, booking: Booking, admissible: bool)
    returns (o: Outcome)
    requires tables.Valid() && UniqueBookings(tables.rides)
    modifies tables
    ensures tables.Valid() && UniqueBookings(tables.rides)
    ensures forall r ::
      r in old(tables.rides) && T.BookedAs(old(tables.rides)[r], passenger, scheduled, booking.key) ==>
      o == ReplyFor(old(tables.rides), r, booking) && tables.View() == old(tables.View())
    ensures !T.Booked(old(tables.rides), passenger, scheduled, booking.key) ==>
      && (o == NotAdmissible <==> !admissible)
      && (o == Threw <==> admissible && (id in old(tables.rides) || id in tables.pools))
      && (o.Replied? || o == NotAdmissible || o == Threw)
      && (o.Replied? ==>
           o.ride == id && tables.View() == T.CreateRide(old(tables.View()), id, passenger, scheduled, booking))
      && (!o.Replied? ==> tables.View() == old(tables.View()))
  {
    var existing := tables.FindByIdempotencyScope(passenger, scheduled, booking.key);
    if existing != None {
      return ReplyFor(tables.rides, existing.value, booking);
    }
    if !admissible {
      return NotAdmissible;
    }
    var ride, created := tables.CreateRide(id, passenger, scheduled, booking);
    if ride == None {
      return Threw;
    }
    o := ReplyFor(tables.rides, ride.value, booking);
  }

  /** A request for this route, and for a scheduled ride this pickup time. */
  function BookingFor(key: Key, origin: Point, dest: Point, pickupAt: Option<Time>): Booking {
    Booking(key, FingerprintOf(Rider(0, origin, dest)), pickupAt)
  }

  /** More than a millionth of a degree apart. */
  predicate Apart(x: real, y: real) {
    x - y > 0.000001 || y - x > 0.000001
  }

  /** The same request is replayed whatever else it carries; one for another pickup time, or for a place that differs
      in any coordinate, is rejected. */
  lemma AnotherIntentIsRejected(rides: map<Id, Ride>, r: Id, origin: Point, dest: Point, pickupAt: Option<Time>,
                                key: Key, o: Point, d: Point, at: Option<Time>)
    requires r in rides && rides[r].booking == BookingFor(key, origin, dest, pickupAt)
    ensures o == origin && d == dest && (rides[r].scheduled ==> at == pickupAt) ==>
      ReplyFor(rides, r, BookingFor(key, o, d, at)) == Replied(r)
    ensures rides[r].scheduled && at != pickupAt ==> ReplyFor(rides, r, BookingFor(key, o, d, at)) == DifferentIntent
    ensures Apart(o.lat, origin.lat) || Apart(o.lng, origin.lng) || Apart(d.lat, dest.lat) || Apart(d.lng, dest.lng) ==>
      ReplyFor(rides, r, BookingFor(key, o, d, at)) == DifferentIntent
  {
    ApartIsTold(o.lat, origin.lat);
    ApartIsTold(o.lng, origin.lng);
    ApartIsTold(d.lat, dest.lat);
    ApartIsTold(d.lng, dest.lng);
  }

  lemma ApartIsTold(x: real, y: real)
    ensures Apart(x, y) ==> ToFixed6(x) != ToFixed6(y)
  {
  }

  /** A first request writes its ride as it was asked for, and the one intent that makes it move: a scheduled ride
      waits for its wake at generation 0, any other is dispatched at once. */
  lemma CreateWrites(db: Db, id: Id, passenger: Id, scheduled: bool, booking: Booking)
    requires id !in db.rides && id !in db.pools
    requires forall r :: r in db.rides && db.rides[r].passenger == passenger && db.rides[r].scheduled == scheduled ==>
      db.rides[r].booking.key != booking.key
    ensures var b := T.CreateRide(db, id, passenger, scheduled, booking);
      && b == db.(rides := db.rides[id := b.rides[id]], outbox := b.outbox)
      && b.rides[id].passenger == passenger && b.rides[id].scheduled == scheduled && b.rides[id].booking == booking
      && b.rides[id].status == Requested && b.rides[id].driver == None && b.rides[id].arrivedAt == None
      && (if scheduled then b.rides[id].generation == 0 && b.outbox == db.outbox + {Intent(RideWake, id, 1)}
          else b.rides[id].generation == 1 && b.outbox == db.outbox + {Intent(RideDispatch, id, 1)})
  {
  }

  // ── over whole runs ───────────────────────────────────────────────────────

  lemma OnlyCreateAddsRides(dist: Distance, w: World, s: Step)
    requires !s.CreateRide?
    ensures Apply(dist, w, s).db.rides.Keys == w.db.rides.Keys
  {
    if s.JoinPool? {
      R.JoinIs(dist, w.db, s.pool, s.seat);
    }
  }

  lemma StepKeepsBookings(dist: Distance, w: World, s: Step)
    requires Inv(dist, w) && UniqueBookings(w.db.rides)
    ensures UniqueBookings(Apply(dist, w, s).db.rides)
  {
    Preservation.StepKeeps(dist, w, s);
    if !s.CreateRide? {
      OnlyCreateAddsRides(dist, w, s);
      FollowsKeepsBookings(w.db.rides, Apply(dist, w, s).db.rides);
    }
  }

  lemma FollowsKeepsBookings(a: map<Id, Ride>, b: map<Id, Ride>)
    requires UniqueBookings(a) && RidesFollow(a, b) && b.Keys == a.Keys
    ensures UniqueBookings(b)
  {
    forall r, u | r in b && u in b && r != u
      ensures !T.BookedAs(b[u], b[r].passenger, b[r].scheduled, b[r].booking.key)
    {
      assert RideFollows(a[r], b[r]) && RideFollows(a[u], b[u]);
    }
  }

  /** No key of a passenger and operation ever has two rides. */
  lemma {:induction false} OneRidePerKey(dist: Distance, h: History, n: nat)
    requires IsRun(dist, h) && n < |h.states|
    ensures UniqueBookings(h.states[n].db.rides)
  {
    if n > 0 {
      OneRidePerKey(dist, h, n - 1);
      BookingsAfter(dist, h, n - 1);
    }
  }

  lemma BookingsAfter(dist: Distance, h: History, n: nat)
    requires IsRun(dist, h) && n < |h.steps| && UniqueBookings(h.states[n].db.rides)
    ensures UniqueBookings(h.states[n + 1].db.rides)
  {
    RunKeeps(dist, h, n);
    StepKeepsBookings(dist, h.states[n], h.steps[n]);
    assert StepAt(dist, h, n);
  }

  /** Once a key has its ride, every request with the key is answered by that ride's intent, at any later point and
      under any interleaving: replayed when it is the same, rejected otherwise. No further ride and no further intent
      is written. */
  lemma KeyIsAnsweredForGood(dist: Distance, h: History, m: nat, n: nat, r: Id, id: Id, booking: Booking)
    requires IsRun(dist, h) && m <= n < |h.states| && r in h.states[m].db.rides
    requires booking.key == h.states[m].db.rides[r].booking.key
    ensures var was, db := h.states[m].db.rides[r], h.states[n].db;
      && T.CreateRide(db, id, was.passenger, was.scheduled, booking) == db
      && forall x :: x in db.rides && T.BookedAs(db.rides[x], was.passenger, was.scheduled, booking.key) <==> x == r
    ensures r in h.states[n].db.rides
    ensures ReplyFor(h.states[n].db.rides, r, booking) == ReplyFor(h.states[m].db.rides, r, booking)
  {
    RunFollows(dist, h, m, n);
    assert RideFollows(h.states[m].db.rides[r], h.states[n].db.rides[r]);
    OneRidePerKey(dist, h, n);
  }

  /** Whoever inserts, and whoever loses the race to another insert, finds the one ride of the key afterwards. */
  lemma CreateFindsItsRide(dist: Distance, h: History, k: nat, n: nat) returns (r: Id)
    requires IsRun(dist, h) && k < n < |h.states| && h.steps[k].CreateRide?
    requires h.steps[k].id !in h.states[k].db.rides && h.steps[k].id !in h.states[k].db.pools
    ensures r in h.states[k + 1].db.rides
    ensures var s, rides := h.steps[k], h.states[n].db.rides;
      forall x :: x in rides && T.BookedAs(rides[x], s.passenger, s.scheduled, s.booking.key) <==> x == r
  {
    assert StepAt(dist, h, k);
    var s, rides := h.steps[k], h.states[k + 1].db.rides;
    if T.Booked(h.states[k].db.rides, s.passenger, s.scheduled, s.booking.key) {
      r :| r in rides && T.BookedAs(rides[r], s.passenger, s.scheduled, s.booking.key);
    } else {
      r := s.id;
    }
    KeyIsAnsweredForGood(dist, h, k + 1, n, r, s.id, s.booking);
  }
}
