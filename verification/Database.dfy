/**
 * The repositories as they run: tables updated in place, statement by statement, inside one transaction.
 * Every transaction is proved to leave exactly the database its specification function describes.
 */
module Database {
  import opened Types
  import I = Itinerary
  import T = Trips
  import P = Pools

  class Tables {
    var rides: map<Id, Ride>
    var pools: map<Id, Pool>
    var offers: map<Id, Offer>
    var guards: map<Id, Guard>
    var outbox: seq<Intent>      // one row per dedupe key
    var records: map<Scope, Record>

    /** The unique indexes on the outbox and on the trip columns of the guard table. */
    ghost predicate Valid() reads this {
      && (forall i, j :: 0 <= i < j < |outbox| ==> outbox[i] != outbox[j])
      && OneGuardPerTrip(guards)
    }

    static ghost predicate OneGuardPerTrip(guards: map<Id, Guard>) {
      forall d, e :: d in guards && e in guards && guards[d].trip == guards[e].trip ==> d == e
    }

    ghost function View(): Db reads this {
      Db(rides, pools, offers, guards, (set i | i in outbox), records)
    }

    constructor ()
      ensures Valid() && View() == Db(map[], map[], map[], map[], {}, map[])
    {
      rides, pools, offers, guards, outbox, records := map[], map[], map[], map[], [], map[];
    }

    // ── outbox.writer ───────────────────────────────────────────────────────

    /** Insert, or do nothing where the dedupe key exists. */
    method EnqueueOutbox(intent: Intent) returns (created: bool)
      requires Valid()
      modifies this`outbox
      ensures Valid() && View() == old(View()).(outbox := old(View()).outbox + {intent})
      ensures created <==> intent !in old(View()).outbox
      ensures |outbox| == |old(outbox)| + (if created then 1 else 0)
    {
      created := intent !in outbox;
      if created {
        outbox := outbox + [intent];
      }
    }

    // ── offer.repository ────────────────────────────────────────────────────

    method ResolveLive(id: Id, to: OfferState) returns (live: bool)
      modifies this`offers
      ensures offers == T.Resolve(old(offers), id, to)
      ensures live <==> id in old(offers) && old(offers)[id].state == Offered
    {
      live := id in offers && offers[id].state == Offered;
      if live {
        offers := offers[id := offers[id].(state := to)];
      }
    }

    /** Throws where the offer is not live, or where the trip generation already has an accepted offer. */
    method MarkAccepted(id: Id) returns (cause: Option<T.AcceptThrow>)
      requires id in offers
      modifies this`offers
      ensures cause == (
        if old(offers)[id].state != Offered then Some(T.OfferNotLive)
        else if T.AlreadyAccepted(old(offers), old(offers)[id].trip, old(offers)[id].generation)
          then Some(T.SecondAcceptedOffer)
        else None)
      ensures cause == None ==> offers == T.Resolve(old(offers), id, OfferAccepted)
    {
      var trip, generation := offers[id].trip, offers[id].generation;
      var taken := T.AlreadyAccepted(offers, trip, generation);
      var live := ResolveLive(id, OfferAccepted);
      cause := if !live then Some(T.OfferNotLive) else if taken then Some(T.SecondAcceptedOffer) else None;
    }

    method RevokeLiveForTrip(trip: TripRef, except: Option<Id>) returns (revoked: set<Id>)
      modifies this`offers
      ensures offers == T.RevokeLive(old(offers), trip, except)
      ensures revoked == set o | o in old(offers) && old(offers)[o] != offers[o]
    {
      revoked := set o | o in offers && offers[o].trip == trip && offers[o].state == Offered && except != Some(o);
      offers := map o | o in offers :: if o in revoked then offers[o].(state := Revoked) else offers[o];
    }

    method ExpireLapsed(driver: Option<Id>, now: Time, locked: set<Id>) returns (count: nat)
      modifies this`offers
      ensures offers == T.ExpireLapsed(old(offers), driver, now, locked)
      ensures count == |set o | o in old(offers) && offers[o] != old(offers)[o]|
    {
      var lapsed := set o | o in offers && offers[o].state == Offered && offers[o].expiresAt <= now && o !in locked
                            && (driver == None || driver == Some(offers[o].driver));
      offers := map o | o in offers :: if o in lapsed then offers[o].(state := Expired) else offers[o];
      assert lapsed == set o | o in old(offers) && offers[o] != old(offers)[o];
      count := |lapsed|;
    }

    /** `id` is the key the insert generates; a used key is no insert. */
    method CreateOffer(id: Id, q: T.OfferRequest, now: Time, locked: set<Id>) returns (created: bool)
      requires Valid()
      modifies this`offers
      ensures Valid() && View() == T.CreateOffer(old(View()), id, q, now, locked)
      ensures created <==> id !in old(offers) && id in offers
      ensures offers.Keys == if created then old(offers).Keys + {id} else old(offers).Keys
    {
      created := false;
      if q.generation < 1 || id in offers {
        return;
      }
      var dispatchable := false;
      match q.trip {
        case Solo(r) =>
          dispatchable := r in rides && rides[r].status == Requested && rides[r].driver == None
            && rides[r].generation == q.generation;
        case Shared(p) =>
          dispatchable := p in pools && pools[p].state in {ClosedFull, ClosedTimeout} && pools[p].claimedBy == None
            && pools[p].generation == q.generation;
      }
      if !dispatchable {
        return;
      }
      var _ := ExpireLapsed(Some(q.driver), now, locked);
      if !T.OfferConflicts(offers, q.trip, q.driver, q.generation) {
        var ttl := if q.ttl < 1 then 1 else q.ttl;
        offers := offers[id := Offer(q.trip, q.driver, q.generation, q.wave, Offered, now, now + ttl)];
        created := true;
      }
    }

    method Decline(offer: Id, driver: Id) returns (r: T.DeclineResult)
      modifies this`offers
      ensures (View(), r) == T.Decline(old(View()), offer, driver)
    {
      if offer !in offers || offers[offer].driver != driver {
        r := T.DeclineNotFound;
      } else {
        var live := ResolveLive(offer, Declined);
        r := if live then T.DeclinedNow else T.DeclineNotLive;
      }
    }

    // ── assignment.repository ───────────────────────────────────────────────

    /** The insert into the guard table: its primary key is checked before the unique trip columns. */
    method Acquire(driver: Id, trip: TripRef, offer: Option<Id>, generation: nat) returns (r: T.AcquireResult)
      requires Valid()
      modifies this`guards
      ensures Valid() && r == T.Acquire(old(guards), driver, trip)
      ensures guards == if r == T.Acquired then old(guards)[driver := Guard(trip, offer, generation)] else old(guards)
    {
      if driver in guards {
        r := T.DriverBusy;
      } else if exists d :: d in guards && guards[d].trip == trip {
        r := T.TripTaken;
      } else {
        guards := guards[driver := Guard(trip, offer, generation)];
        r := T.Acquired;
      }
    }

    method Release(driver: Id, trip: TripRef) returns (released: bool)
      requires Valid()
      modifies this`guards
      ensures Valid() && guards == T.Release(old(guards), driver, trip)
      ensures released <==> driver in old(guards) && driver !in guards
    {
      released := driver in guards && guards[driver].trip == trip;
      if released {
        guards := guards - {driver};
      }
    }

    method FindByTrip(trip: TripRef) returns (found: Option<Id>)
      requires Valid()
      ensures match found
        case Some(d) => d in guards && guards[d].trip == trip
        case None => forall d :: d in guards ==> guards[d].trip != trip
    {
      found := None;
      if exists d :: d in guards && guards[d].trip == trip {
        var d :| d in guards && guards[d].trip == trip;
        found := Some(d);
      }
    }

    /** False: no row matched, and the caller throws. */
    method ClaimSoloRow(ride: Id, driver: Id, generation: nat) returns (claimed: bool)
      requires ride in rides
      modifies this`rides
      ensures claimed <==> old(rides)[ride].status == Requested && old(rides)[ride].driver == None
      ensures rides ==
        if claimed then old(rides)[ride := T.ClaimSolo(old(rides)[ride], driver, generation)] else old(rides)
    {
      var row := rides[ride];
      claimed := row.status == Requested && row.driver == None;
      if claimed {
        var greatest := if row.generation < generation then generation else row.generation;
        rides := rides[ride := row.(status := Accepted, driver := Some(driver), generation := greatest)];
      }
    }

    method ClaimSharedRow(pool: Id, driver: Id, generation: nat) returns (claimed: bool)
      requires pool in pools
      modifies this`pools
      ensures claimed <==>
        && old(pools)[pool].claimedBy == None
        && T.ClaimableState(old(pools)[pool].state)
        && old(pools)[pool].generation == generation
      ensures pools == if claimed then old(pools)[pool := T.ClaimShared(old(pools)[pool], driver)] else old(pools)
    {
      var row := pools[pool];
      claimed := row.claimedBy == None && row.state in {ClosedFull, ClosedTimeout} && row.generation == generation;
      if claimed {
        pools := pools[pool := row.(claimedBy := Some(driver), version := row.version + 1)];
      }
    }

    // ── dispatch.service: accepting an offer ────────────────────────────────

    /** One transaction. A throw rolls every statement back. */
    method AcceptOffer(id: Id, driver: Id, trip: TripRef, now: Time, vehicle: Option<nat>) returns (r: T.AcceptResult)
      requires Valid()
      modifies this
      ensures Valid() && (View(), r) == T.AcceptInTx(old(View()), id, driver, trip, now, vehicle)
      ensures outbox == old(outbox)
    {
      if (trip.Solo? && trip.id !in rides) || (trip.Shared? && trip.id !in pools) {
        r := T.Refused(T.TripNotClaimable, 1);
        return;
      }
      if id !in offers || offers[id].driver != driver {
        r := T.Refused(T.OfferNotFound, 2);
        return;
      }
      var offer := offers[id];
      if offer.state != Offered {
        r := SettledOffer(offer, driver, trip);
        return;
      }
      var generation := if trip.Solo? then rides[trip.id].generation else pools[trip.id].generation;
      if offer.expiresAt <= now {
        var _ := ResolveLive(id, Expired);
        r := T.Refused(T.OfferExpired, 4);
        return;
      }
      if offer.generation != generation {
        var _ := ResolveLive(id, Revoked);
        r := T.Refused(T.OfferStale, 4);
        return;
      }
      r := ClaimTrip(id, driver, trip, vehicle);
    }

    /** Step 3: an offer that was answered before. */
    method SettledOffer(offer: Offer, driver: Id, trip: TripRef) returns (r: T.AcceptResult)
      requires Valid() && T.TripExists(View(), trip) && offer.state != Offered
      ensures r == match offer.state
        case OfferAccepted =>
          if driver in guards && guards[driver].trip == trip && guards[driver].generation == offer.generation
          then T.Granted(offer.generation, true) else T.Refused(T.TripNotClaimable, 3)
        case Revoked =>
          if T.Owner(View(), trip) != None && T.Owner(View(), trip) != Some(driver)
          then T.Refused(T.TripTakenBy, 3) else T.Refused(T.OfferRevoked, 3)
        case Declined => T.Refused(T.OfferDeclined, 3)
        case Expired => T.Refused(T.OfferExpired, 3)
        case Offered => r
    {
      if offer.state == OfferAccepted {
        var holder := FindByTrip(trip);
        if holder == Some(driver) && guards[driver].generation == offer.generation {
          r := T.Granted(offer.generation, true);
        } else {
          r := T.Refused(T.TripNotClaimable, 3);
        }
        return;
      }
      var takenBy := if trip.Solo? then rides[trip.id].driver else pools[trip.id].claimedBy;
      if offer.state == Revoked && takenBy != None && takenBy != Some(driver) {
        r := T.Refused(T.TripTakenBy, 3);
      } else {
        var reason :=
          if offer.state == Revoked then T.OfferRevoked
          else if offer.state == Declined then T.OfferDeclined
          else T.OfferExpired;
        r := T.Refused(reason, 3);
      }
    }

    /** Steps 5 to 8, for a live offer of the trip's generation. */
    method ClaimTrip(id: Id, driver: Id, trip: TripRef, vehicle: Option<nat>) returns (r: T.AcceptResult)
      requires Valid() && T.TripExists(View(), trip) && id in offers && offers[id].state == Offered
      modifies this
      ensures Valid() && outbox == old(outbox)
      ensures (View(), r) == (
        var db := old(View());
        if T.ClaimRefusal(db, trip) != None then (db, T.Refused(T.ClaimRefusal(db, trip).value, 5))
        else if T.Eligibility(vehicle, T.SeatsNeeded(db, trip)) != None
        then (db, T.Refused(T.Eligibility(vehicle, T.SeatsNeeded(db, trip)).value, 6))
        else T.AcceptLive(db, id, driver, trip))
    {
      var seatsNeeded := 1;
      match trip {
        case Solo(ride) =>
          if rides[ride].driver != None {
            r := T.Refused(T.TripTakenBy, 5);
            return;
          }
          if rides[ride].status != Requested {
            r := T.Refused(T.TripNotClaimable, 5);
            return;
          }
        case Shared(pool) =>
          if pools[pool].claimedBy != None {
            r := T.Refused(T.TripTakenBy, 5);
            return;
          }
          if pools[pool].state !in {ClosedFull, ClosedTimeout} {
            r := T.Refused(T.TripNotClaimable, 5);
            return;
          }
          var stopCount := |pools[pool].stops|;
          if pools[pool].seatCount < 1 || stopCount != 2 * pools[pool].seatCount {
            r := T.Refused(T.ItineraryMissing, 5);
            return;
          }
          seatsNeeded := pools[pool].seatCount;
      }
      if vehicle == None {
        r := T.Refused(T.DriverIneligible, 6);
      } else if vehicle.value < seatsNeeded {
        r := T.Refused(T.VehicleCapacity, 6);
      } else {
        r := BindTrip(id, driver, trip);
      }
    }

    /** Steps 7 and 8. */
    method BindTrip(id: Id, driver: Id, trip: TripRef) returns (r: T.AcceptResult)
      requires Valid() && T.TripExists(View(), trip) && id in offers
      modifies this
      ensures Valid() && outbox == old(outbox)
      ensures (View(), r) == T.AcceptLive(old(View()), id, driver, trip)
    {
      var savedRides, savedPools, savedOffers, savedGuards := rides, pools, offers, guards;
      var generation := offers[id].generation;
      var guard := Acquire(driver, trip, Some(id), generation);
      if guard != T.Acquired {
        r := T.Refused(if guard == T.DriverBusy then T.BusyDriver else T.TripTakenBy, 7);
        return;
      }
      var cause: Option<T.AcceptThrow> := None;
      var bound;
      match trip {
        case Solo(ride) =>
          bound := ClaimSoloRow(ride, driver, generation);
          cause := if bound then None else Some(T.SoloRowNotClaimable);
        case Shared(pool) =>
          bound := ClaimSharedRow(pool, driver, generation);
          cause := if bound then None else Some(T.SharedRowNotClaimable);
      }
      if cause == None {
        cause := MarkAccepted(id);
      }
      if cause != None {
        rides, pools, offers, guards := savedRides, savedPools, savedOffers, savedGuards;
        r := T.Threw(cause.value);
        return;
      }
      var _ := RevokeLiveForTrip(trip, Some(id));
      r := T.Granted(generation, false);
    }

    // ── dispatch.service: waves ─────────────────────────────────────────────

    /**
     * One wave over the drivers that discovery found: each gets an offer of its own transaction, or is skipped.
     * `ids` are the keys the inserts generate and `now` what their clocks read.
     */
    method RunWave(q: T.OfferRequest, candidates: seq<Id>, ids: seq<Id>, now: seq<Time>, locked: set<Id>)
      returns (offered: nat)
      requires Valid() && |ids| == |candidates| == |now|
      modifies this`offers
      ensures Valid() && View() == Waved(old(View()), q, candidates, ids, now, locked, |candidates|)
      ensures offered == |offers| - |old(offers)|
    {
      offered := 0;
      for i := 0 to |candidates|
        invariant Valid() && View() == Waved(old(View()), q, candidates, ids, now, locked, i)
        invariant offered == |offers| - |old(offers)|
      {
        ghost var before := offers;
        var created := CreateOffer(ids[i], q.(driver := candidates[i]), now[i], locked);
        OfferAdds(before, offers, ids[i], created);
        if created {
          offered := offered + 1;
        }
      }
    }

    // ── rides.repository ────────────────────────────────────────────────────

    method FindByIdempotencyScope(passenger: Id, scheduled: bool, key: Key) returns (ride: Option<Id>)
      ensures ride == None <==> !T.Booked(rides, passenger, scheduled, key)
      ensures ride.Some? ==> ride.value in rides && T.BookedAs(rides[ride.value], passenger, scheduled, key)
    {
      ride := None;
      if r :| r in rides && T.BookedAs(rides[r], passenger, scheduled, key) {
        ride := Some(r);
      }
    }

    /** The ride of this scope, just inserted or found. None: the id the insert generates is taken, and it throws. */
    method CreateRide(id: Id, passenger: Id, scheduled: bool, booking: Booking)
      returns (ride: Option<Id>, created: bool)
      requires Valid()
      modifies this
      ensures Valid() && View() == T.CreateRide(old(View()), id, passenger, scheduled, booking)
      ensures created <==> id !in old(rides) && id !in pools && !T.Booked(old(rides), passenger, scheduled, booking.key)
      ensures created ==> ride == Some(id)
      ensures ride == None <==>
        (id in old(rides) || id in pools) && !T.Booked(old(rides), passenger, scheduled, booking.key)
      ensures ride.Some? ==> ride.value in rides && T.BookedAs(rides[ride.value], passenger, scheduled, booking.key)
      ensures created ==> rides[id].booking == booking
    {
      created := id !in rides && id !in pools && !T.Booked(rides, passenger, scheduled, booking.key);
      if !created {
        ride := FindByIdempotencyScope(passenger, scheduled, booking.key);
        return;
      }
      ride := Some(id);
      rides := rides[id := Ride(passenger, scheduled, Requested, None, if scheduled then 0 else 1, None, booking)];
      var _ := EnqueueOutbox(Intent(if scheduled then RideWake else RideDispatch, id, 1));
    }

    method WakeScheduled(id: Id, generation: nat) returns (woken: bool)
      modifies this`rides
      ensures View() == T.Wake(old(View()), id, generation)
      ensures woken <==> (
        && id in old(rides) && old(rides)[id].scheduled && old(rides)[id].status == Requested
        && (old(rides)[id].generation == generation || old(rides)[id].generation + 1 == generation))
      ensures if woken then id in rides && rides[id].scheduled && rides[id].generation == generation
        else View() == old(View())
    {
      woken := id in rides && rides[id].scheduled && rides[id].status == Requested
               && (rides[id].generation == generation || rides[id].generation + 1 == generation);
      if woken {
        rides := rides[id := rides[id].(generation := generation)];
      }
    }

    method ClaimSolo(id: Id, driver: Id) returns (claimed: bool)
      requires Valid()
      modifies this
      ensures Valid() && outbox == old(outbox)
      ensures match T.DirectClaim(old(View()), id, driver)
        case None => !claimed && View() == old(View())
        case Some(db) => claimed && View() == db
    {
      if id !in rides || rides[id].status != Requested || rides[id].driver != None {
        return false;
      }
      var generation := if rides[id].generation < 1 then 1 else rides[id].generation;
      var guard := Acquire(driver, Solo(id), None, generation);
      if guard != T.Acquired {
        return false;
      }
      claimed := ClaimSoloRow(id, driver, generation);
      var _ := RevokeLiveForTrip(Solo(id), None);
    }

    method MarkNoDriver(id: Id, generation: nat) returns (failed: bool)
      requires Valid()
      modifies this
      ensures Valid() && View() == T.MarkNoDriver(old(View()), id, generation)
      ensures failed <==> T.Dispatchable(old(View()), Solo(id)) && generation == old(rides)[id].generation
    {
      if id !in rides || rides[id].status != Requested || rides[id].driver != None
        || generation != rides[id].generation {
        return false;
      }
      rides := rides[id := rides[id].(status := NoDriver)];
      var _ := RevokeLiveForTrip(Solo(id), None);
      failed := true;
    }

    /** `rearmScheduledRide`: all of it, or nothing. */
    method RearmScheduled(id: Id, expected: nat) returns (rearmed: bool)
      requires Valid()
      modifies this
      ensures Valid() && View() == T.RearmScheduled(old(View()), id, expected)
      ensures rearmed <==> T.CanRearm(old(View()), id, expected)
    {
      if id !in rides || !rides[id].scheduled || rides[id].status != Requested || rides[id].driver != None {
        return false;
      }
      if rides[id].generation < 1 || expected != rides[id].generation {
        return false;
      }
      var generation := rides[id].generation + 1;
      rides := rides[id := rides[id].(generation := generation)];
      var _ := RevokeLiveForTrip(Solo(id), None);
      var _ := EnqueueOutbox(Intent(RideDispatch, id, generation));
      rearmed := true;
    }

    method Transition(id: Id, driver: Id, from: RideStatus, to: RideStatus, now: Time) returns (r: T.RideResult)
      requires Valid() && exists e :: from == T.FromStatus(e) && to == T.ToStatus(e)
      modifies this
      ensures Valid()
      ensures forall e :: from == T.FromStatus(e) ==> (View(), r) == T.Transition(old(View()), id, driver, e, now)
    {
      if id !in rides {
        return T.RideNotFound;
      }
      var current := rides[id];
      if current.driver != Some(driver) {
        return T.RideNotOwner;
      }
      if current.status != from {
        return T.InvalidTransition;
      }
      rides := rides[id := current.(status := to, arrivedAt := if to == Arrived then Some(now) else current.arrivedAt)];
      if to in {Completed, Cancelled, NoShow} {
        var _ := Release(driver, Solo(id));
      }
      r := T.RideMoved;
    }

    /** `RideStateMachineService.apply` over the constant transition table. */
    method ApplyEvent(id: Id, driver: Id, event: T.RideEvent, now: Time) returns (r: T.RideResult)
      requires Valid()
      modifies this
      ensures Valid() && (View(), r) == T.Transition(old(View()), id, driver, event, now)
    {
      var table := map[T.StartEnRoute := (Accepted, EnRoute), T.MarkArrived := (EnRoute, Arrived),
                       T.StartRide := (Arrived, InProgress), T.EndRide := (InProgress, Completed)];
      var (from, to) := table[event];
      assert from == T.FromStatus(event) && to == T.ToStatus(event);
      r := Transition(id, driver, from, to, now);
    }

    method CancelRide(id: Id, q: T.CancelRequest, now: Time) returns (r: T.RideResult)
      requires Valid()
      modifies this
      ensures Valid() && (View(), r) == T.Cancel(old(View()), id, q, now)
    {
      if id !in rides {
        return T.RideNotFound;
      }
      var current := rides[id];
      var owns := if q.actor == T.Client then current.passenger == q.caller else current.driver == Some(q.caller);
      if !owns {
        return T.RideNotOwner;
      }
      var to := Cancelled;
      if q.noShow {
        if current.status != Arrived {
          return T.InvalidTransition;
        }
        if current.arrivedAt == None || now - current.arrivedAt.value < q.waitMs {
          return T.NoShowTooEarly;
        }
        to := NoShow;
      } else if !T.Cancellable(q.actor, current.status) {
        return T.InvalidTransition;
      }
      rides := rides[id := current.(status := to)];
      var _ := RevokeLiveForTrip(Solo(id), None);
      if current.driver != None {
        var _ := Release(current.driver.value, Solo(id));
      }
      r := T.RideMoved;
    }

    // ── pool-membership.repository, shared-ride.repository ──────────────────

    /** The insert: the open check, the unique indexes and the capacity of the derived seat count, in that order. */
    method InsertMember(pool: Id, q: P.SeatRequest, fare: nat) returns (refusal: Option<P.SeatFailure>)
      requires pool in pools
      modifies this`pools
      ensures match P.InsertMember(old(pools), pool, q, fare)
        case Inserted(row) => refusal == None && pools == old(pools)[pool := row]
        case NotInserted(reason) => refusal == Some(reason) && pools == old(pools)
    {
      var row := pools[pool];
      if row.state != Open {
        refusal := Some(P.PoolClosed);
      } else if P.SeatConflicts(pools, pool, q) {
        refusal := Some(P.ClassifyDuplicate(pools, pool, q));
      } else if row.seatCount + 1 > row.maxSeats {
        refusal := Some(P.PoolFull);
      } else {
        pools := pools[pool := row.(
          members := row.members + [Member(q.rider, fare, q.key, true)],
          seatCount := row.seatCount + 1,
          version := row.version + 1)];
        refusal := None;
      }
    }

    /** `open -> closed_*`, the itinerary of the committed members, and the intent to dispatch them. Throws where
        stops exist. */
    method CloseInTxn(dist: Distance, pool: Id, reason: PoolState) returns (generation: Option<nat>, threw: bool)
      requires Valid() && pool in pools
      modifies this
      ensures Valid() && records == old(records) && offers == old(offers) && guards == old(guards)
      ensures rides == old(rides)
      ensures if old(pools)[pool].state != Open then !threw && generation == None && View() == old(View())
        else match P.CloseRow(dist, old(pools)[pool], reason)
          case None => threw
          case Some(row) =>
            && !threw && generation == Some(row.generation)
            && View() == old(View()).(
                 pools := old(pools)[pool := row],
                 outbox := old(View()).outbox + {Intent(PoolDispatch, pool, row.generation)})
    {
      generation, threw := None, false;
      var row := pools[pool];
      if row.state != Open {
        return;
      }
      pools := pools[pool := row.(state := reason, generation := row.generation + 1, version := row.version + 1)];
      var members := P.Riders(pools[pool].members);
      var stops := I.ComputeStops(dist, row.anchor, members);
      if row.stops != [] {
        threw := true;
        return;
      }
      pools := pools[pool := pools[pool].(stops := P.Rows(stops))];
      var _ := EnqueueOutbox(Intent(PoolDispatch, pool, row.generation + 1));
      generation := Some(row.generation + 1);
    }

    // ── idempotency.repository ──────────────────────────────────────────────

    method CompleteIn(scope: Scope, answer: SeatAnswer)
      modifies this`records
      ensures records == P.CompleteIn(old(records), scope, answer)
    {
      if scope in records {
        records := records[scope := records[scope].(response := Some(answer))];
      }
    }

    /** Restamps an abandoned claim of the same intent. */
    method ReclaimStale(scope: Scope, fingerprint: Fingerprint, now: Time) returns (reclaimed: bool)
      requires scope in records
      modifies this`records
      ensures var r := old(records)[scope];
        && (reclaimed <==> r.response == None && r.fingerprint == fingerprint && r.createdAt < now - P.RECLAIM_AFTER_MS)
        && records == if reclaimed then old(records)[scope := r.(createdAt := now)] else old(records)
    {
      var r := records[scope];
      var cutoff := now - P.RECLAIM_AFTER_MS;
      reclaimed := r.response == None && r.fingerprint == fingerprint && r.createdAt < cutoff;
      if reclaimed {
        records := records[scope := r.(createdAt := now)];
      }
    }

    method ClaimKey(scope: Scope, fingerprint: Fingerprint, now: Time) returns (r: P.ClaimResult)
      modifies this`records
      ensures (View(), r) == P.Claim(old(View()), scope, fingerprint, now)
    {
      if scope !in records {
        records := records[scope := Record(fingerprint, None, now)];
        return P.Claimed;
      }
      var reclaimed := ReclaimStale(scope, fingerprint, now);
      if reclaimed {
        return P.Reclaimed;
      }
      var existing := records[scope];
      if existing.fingerprint != fingerprint {
        r := P.KeyConflict;
      } else if existing.response != None {
        r := P.Replayed(existing.response.value);
      } else {
        r := P.StillPending;
      }
    }

    method ReleaseKey(scope: Scope)
      modifies this`records
      ensures View() == P.ReleaseClaim(old(View()), scope)
    {
      if scope in records && records[scope].response == None {
        records := records - {scope};
      }
    }

    // ── pool-lifecycle.service ──────────────────────────────────────────────

    /** A refused opener, or a quote that throws, takes the whole pool back. */
    method OpenPool(id: Id, maxSeats: nat, q: P.SeatRequest) returns (r: P.SeatResult)
      requires Valid()
      modifies this
      ensures Valid() && (View(), r) == P.OpenPool(old(View()), id, maxSeats, q)
    {
      if id in pools || id in rides || maxSeats < 1 {
        return P.RolledBack;
      }
      var saved := pools;
      pools := pools[id := Pool(Open, 0, maxSeats, None, 0, 0, q.rider.origin, [], [])];
      if q.fare == None {
        pools := saved;
        return P.RolledBack;
      }
      var refusal := InsertMember(id, q, q.fare.value);
      if refusal != None {
        pools := saved;
        return P.SeatRefused(refusal.value);
      }
      assert pools == saved[id := pools[id]];
      var _ := EnqueueOutbox(Intent(PoolExpire, id, 0));
      CompleteKeyed(q.rider.passenger, q.key, SeatAnswer(id, q.fare.value));
      r := P.SeatTaken(id, q.fare.value, false);
    }

    method JoinPool(dist: Distance, id: Id, q: P.SeatRequest) returns (r: P.SeatResult)
      requires Valid()
      modifies this
      ensures Valid() && (View(), r) == P.JoinPool(dist, old(View()), id, q)
    {
      if id !in pools {
        return P.PoolNotFound;
      }
      if pools[id].state != Open {
        return P.SeatRefused(P.PoolClosed);
      }
      if pools[id].seatCount >= pools[id].maxSeats {
        return P.SeatRefused(P.PoolFull);
      }
      if q.fare == None {
        return P.RolledBack;
      }
      r := SeatJoiner(dist, id, q, q.fare.value);
    }

    /** Closes the pool where its last seat was taken. */
    method CloseWhenFull(dist: Distance, id: Id) returns (closedFull: bool, threw: bool)
      requires Valid() && id in pools && pools[id].state == Open
      modifies this
      ensures Valid() && records == old(records) && offers == old(offers) && guards == old(guards)
      ensures rides == old(rides)
      ensures if old(pools)[id].seatCount < old(pools)[id].maxSeats then !closedFull && !threw && View() == old(View())
        else match P.CloseRow(dist, old(pools)[id], ClosedFull)
          case None => threw
          case Some(row) =>
            && closedFull && !threw
            && pools == old(pools)[id := row]
            && View().outbox == old(View()).outbox + {Intent(PoolDispatch, id, row.generation)}
    {
      closedFull, threw := false, false;
      if pools[id].seatCount >= pools[id].maxSeats {
        var generation;
        generation, threw := CloseInTxn(dist, id, ClosedFull);
        closedFull := generation != None;
      }
    }

    method CompleteKeyed(passenger: Id, key: Option<Key>, answer: SeatAnswer)
      modifies this`records
      ensures records == P.CompleteKeyed(old(records), passenger, key, answer)
    {
      if key != None {
        CompleteIn(Scope(passenger, key.value), answer);
      }
    }

    method SeatJoiner(dist: Distance, id: Id, q: P.SeatRequest, fare: nat) returns (r: P.SeatResult)
      requires Valid() && id in pools && pools[id].state == Open && pools[id].seatCount < pools[id].maxSeats
      requires q.fare == Some(fare)
      modifies this
      ensures Valid() && (View(), r) == P.JoinPool(dist, old(View()), id, q)
    {
      var savedPools, savedOutbox := pools, outbox;
      var refusal := InsertMember(id, q, fare);
      if refusal != None {
        return P.SeatRefused(refusal.value);
      }
      var closedFull, threw := CloseWhenFull(dist, id);
      if threw {
        pools, outbox := savedPools, savedOutbox;
        return P.RolledBack;
      }
      assert pools == savedPools[id := pools[id]];
      CompleteKeyed(q.rider.passenger, q.key, SeatAnswer(id, fare));
      r := P.SeatTaken(id, fare, closedFull);
    }

    method CloseIfOpen(dist: Distance, id: Id) returns (r: P.CloseResult)
      requires Valid()
      modifies this
      ensures Valid() && (View(), r) == P.CloseIfOpen(dist, old(View()), id)
    {
      if id !in pools || pools[id].state != Open {
        return P.NotOpen;
      }
      if pools[id].seatCount == 0 {
        pools := pools[id := P.AbortRow(pools[id])];
        return P.AbortedEmpty;
      }
      var savedPools, savedOutbox := pools, outbox;
      var generation, threw := CloseInTxn(dist, id, ClosedTimeout);
      if threw {
        pools, outbox := savedPools, savedOutbox;
        return P.CloseThrew;
      }
      r := P.ClosedNow;
    }

    /** The pool half of the hard-fail timer. */
    method AbortUnclaimed(id: Id, generation: nat) returns (aborted: bool)
      requires Valid()
      modifies this
      ensures Valid() && View() == P.AbortUnclaimed(old(View()), id, generation)
      ensures aborted <==>
        T.Dispatchable(old(View()), Shared(id)) && generation == old(pools)[id].generation && generation >= 1
    {
      aborted := false;
      if id !in pools || generation != pools[id].generation || generation < 1 {
        return;
      }
      var row := pools[id];
      if row.claimedBy == None && row.state in {ClosedFull, ClosedTimeout} {
        pools := pools[id := row.(state := Aborted, version := row.version + 1,
                                  members := P.ReleaseMembers(row.members))];
        var _ := RevokeLiveForTrip(Shared(id), None);
        aborted := true;
      }
    }

    // ── ride-lifecycle.service, ride-stop.repository ────────────────────────

    method CountPending(stops: seq<StopRow>) returns (pending: nat)
      ensures pending == P.Pending(stops)
    {
      pending := 0;
      var i := |stops|;
      while i > 0
        invariant 0 <= i <= |stops| && pending == P.Pending(stops[i..])
      {
        i := i - 1;
        assert stops[i..][1..] == stops[i + 1..];
        if !stops[i].confirmed {
          pending := pending + 1;
        }
      }
      assert stops[0..] == stops;
    }

    method FindFirstPending(stops: seq<StopRow>) returns (i: nat)
      ensures i == P.FirstPending(stops)
    {
      i := 0;
      while i < |stops| && stops[i].confirmed
        invariant i <= |stops| && P.FirstPending(stops) == i + P.FirstPending(stops[i..])
      {
        i := i + 1;
      }
    }

    method ConfirmStop(id: Id, driver: Id, index: nat, kind: StopKind) returns (r: P.ConfirmResult)
      requires Valid()
      modifies this
      ensures Valid() && (View(), r) == P.ConfirmStop(old(View()), id, driver, index, kind)
    {
      if id !in pools {
        return P.StopNotFound;
      }
      var pool := pools[id];
      if pool.claimedBy != Some(driver) {
        return P.StopNotOwner;
      }
      if index >= |pool.stops| {
        return P.StopNotFound;
      }
      if pool.stops[index].kind != kind {
        return P.WrongType;
      }
      var pending := CountPending(pool.stops);
      if pool.stops[index].confirmed {
        return P.Duplicate(pending, pool.state == Finished);
      }
      var firstPending := FindFirstPending(pool.stops);
      if firstPending != index {
        return P.OutOfOrder;
      }
      r := StampStop(id, driver, index, kind, pending);
    }

    method MarkRideStarted(id: Id)
      requires id in pools
      modifies this`pools
      ensures pools == old(pools)[id := if T.ClaimableState(old(pools)[id].state)
        then old(pools)[id].(state := ClosedStarted, version := old(pools)[id].version + 1) else old(pools)[id]]
    {
      if pools[id].state in {ClosedFull, ClosedTimeout} {
        pools := pools[id := pools[id].(state := ClosedStarted, version := pools[id].version + 1)];
      }
    }

    method MarkRideCompleted(id: Id) returns (completed: bool)
      requires id in pools
      modifies this`pools
      ensures completed <==> P.Completed(old(pools)[id]) != None
      ensures pools == if completed then old(pools)[id := P.Completed(old(pools)[id]).value] else old(pools)
    {
      completed := pools[id].state in {ClosedFull, ClosedTimeout, ClosedStarted};
      if completed {
        pools := pools[id := pools[id].(state := Finished, version := pools[id].version + 1,
                                        members := P.ReleaseMembers(pools[id].members))];
      }
    }

    method TouchPool(id: Id)
      requires id in pools
      modifies this`pools
      ensures pools == old(pools)[id := old(pools)[id].(version := old(pools)[id].version + 1)]
    {
      pools := pools[id := pools[id].(version := pools[id].version + 1)];
    }

    /** From here on the statements write. A throw rolls them back. */
    method StampStop(id: Id, driver: Id, index: nat, kind: StopKind, pending: nat) returns (r: P.ConfirmResult)
      requires Valid() && id in pools && index < |pools[id].stops| && pending == P.Pending(pools[id].stops)
      requires P.ConfirmVerdict(pools[id], driver, index, kind) == None
      modifies this
      ensures Valid() && (View(), r) == P.ConfirmStop(old(View()), id, driver, index, kind)
    {
      var pool := pools[id];
      var saved := pools;
      pools := pools[id := pool.(stops := pool.stops[index := pool.stops[index].(confirmed := true)])];
      if kind == Pickup && pending == |pool.stops| {
        MarkRideStarted(id);
      }
      if pending - 1 == 0 {
        var completed := MarkRideCompleted(id);
        if !completed {
          pools := saved;
          return P.ConfirmThrew;
        }
        var _ := Release(driver, Shared(id));
      }
      TouchPool(id);
      assert pools == saved[id := pools[id]];
      r := P.Confirmed(pending - 1, pending - 1 == 0);
    }
  }

  // ── what the loops compute ────────────────────────────────────────────────

  /** The database after the first `n` candidates of a wave. */
  function Waved(db: Db, q: T.OfferRequest, candidates: seq<Id>, ids: seq<Id>, now: seq<Time>, locked: set<Id>,
                 n: nat): Db
    requires n <= |candidates| == |ids| == |now|
  {
    if n == 0 then db
    else T.CreateOffer(Waved(db, q, candidates, ids, now, locked, n - 1), ids[n - 1], q.(driver := candidates[n - 1]),
                       now[n - 1], locked)
  }

  lemma OfferAdds(before: map<Id, Offer>, after: map<Id, Offer>, id: Id, created: bool)
    requires after.Keys == if created then before.Keys + {id} else before.Keys
    requires created ==> id !in before
    ensures |after| == |before| + (if created then 1 else 0)
  {
    assert |after.Keys| == |after| && |before.Keys| == |before|;
  }
}
