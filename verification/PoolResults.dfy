/** What holds of pools, their seats and their stops over whole runs. */
module PoolResults {
  import opened Types
  import opened Protocol
  import opened Invariants
  import I = Itinerary
  import T = Trips
  import P = Pools
  import PoolProofs
  import R = RowProofs
  import S = SeatProofs
  import Preservation
  import opened Runs

  // ── seats ─────────────────────────────────────────────────────────────────

  /** The derived seat count is the number of members, within the maximum, and an aborted pool was never empty. */
  lemma SeatCountIsExact(dist: Distance, h: History, n: nat, p: Id)
    requires IsRun(dist, h) && n < |h.states|
    requires p in h.states[n].db.pools
    ensures var pool := h.states[n].db.pools[p]; 1 <= |pool.members| == pool.seatCount <= pool.maxSeats
  {
    RunKeeps(dist, h, n);
    assert PoolOk(dist, h.states[n].db.pools[p]);
  }

  // ── full pools ────────────────────────────────────────────────────────────

  /** A pool that fills up by a join closes with it; opening does not close. */
  predicate RoomOk(p: Pool) {
    p.state == Open && p.seatCount == p.maxSeats ==> p.maxSeats == 1
  }

  predicate AllRoomOk(pools: map<Id, Pool>) {
    forall p :: p in pools ==> RoomOk(pools[p])
  }

  lemma OpenedRoom(db: Db, id: Id, maxSeats: nat, q: P.SeatRequest)
    requires AllRoomOk(db.pools)
    ensures AllRoomOk(P.OpenPool(db, id, maxSeats, q).0.pools)
  {
  }

  lemma JoinedRoom(dist: Distance, db: Db, id: Id, q: P.SeatRequest)
    requires AllRoomOk(db.pools)
    ensures AllRoomOk(P.JoinPool(dist, db, id, q).0.pools)
  {
  }

  /** Where nobody is seated, a pool that is still open is as full as before. */
  lemma SameRoom(dist: Distance, a: map<Id, Pool>, b: map<Id, Pool>)
    requires AllRoomOk(a) && PoolsFollow(a, b) && S.NobodySeated(a, b) && CountsOk(a) && CountsOk(b)
    ensures AllRoomOk(b)
  {
    forall p | p in b ensures RoomOk(b[p]) {
      assert PoolFollows(a[p], b[p]) && S.SameSeats(a[p], b[p]);
    }
  }

  predicate CountsOk(pools: map<Id, Pool>) {
    forall p :: p in pools ==> pools[p].seatCount == |pools[p].members|
  }

  lemma CountsAreOk(dist: Distance, pools: map<Id, Pool>)
    requires PoolsOk(dist, pools)
    ensures CountsOk(pools)
  {
  }

  lemma RoomStep(dist: Distance, w: World, s: Step)
    requires Inv(dist, w) && AllRoomOk(w.db.pools)
    ensures AllRoomOk(Apply(dist, w, s).db.pools)
  {
    if s.OpenPool? {
      OpenedRoom(w.db, s.pool, s.maxSeats, s.seat);
    } else if s.JoinPool? {
      JoinedRoom(dist, w.db, s.pool, s.seat);
    } else {
      RoomStays(dist, w, s);
    }
  }

  lemma RoomStays(dist: Distance, w: World, s: Step)
    requires Inv(dist, w) && AllRoomOk(w.db.pools) && !s.OpenPool? && !s.JoinPool?
    ensures AllRoomOk(Apply(dist, w, s).db.pools)
  {
    Preservation.StepKeeps(dist, w, s);
    S.OtherStepsSeatNobody(dist, w, s);
    CountsAreOk(dist, w.db.pools);
    CountsAreOk(dist, Apply(dist, w, s).db.pools);
    SameRoom(dist, w.db.pools, Apply(dist, w, s).db.pools);
  }

  lemma {:induction false} RoomHolds(dist: Distance, h: History, n: nat)
    requires IsRun(dist, h) && n < |h.states|
    ensures AllRoomOk(h.states[n].db.pools)
  {
    if n > 0 {
      RoomHolds(dist, h, n - 1);
      RunKeeps(dist, h, n - 1);
      assert StepAt(dist, h, n - 1);
      RoomStep(dist, h.states[n - 1], h.steps[n - 1]);
    }
  }

  /** An open pool is full exactly when it was opened for one. */
  lemma OpenIsFullExactlyWhen(dist: Distance, h: History, n: nat, p: Id)
    requires IsRun(dist, h) && n < |h.states|
    requires p in h.states[n].db.pools && h.states[n].db.pools[p].state == Open
    ensures var pool := h.states[n].db.pools[p]; pool.seatCount == pool.maxSeats <==> pool.maxSeats == 1
  {
    RoomHolds(dist, h, n);
    SeatCountIsExact(dist, h, n, p);
  }

  /** The configuration admits a maximum of one, and then a pool is open and full. */
  lemma OpenedFull(dist: Distance, h: History, q: P.SeatRequest)
    requires IsRun(dist, h) && |h.steps| >= 1 && h.steps[0] == OpenPool(1, 1, q)
    requires q.key == None && q.fare != None
    ensures var pools := h.states[1].db.pools;
      1 in pools && pools[1].state == Open && pools[1].seatCount == pools[1].maxSeats
  {
    assert StepAt(dist, h, 0);
  }

  // ── timeouts and passengers ───────────────────────────────────────────────

  /** The empty-pool branch of the timeout never runs. */
  lemma NeverAbortedEmpty(dist: Distance, h: History, n: nat, p: Id)
    requires IsRun(dist, h) && n < |h.states|
    ensures var (b, r) := P.CloseIfOpen(dist, h.states[n].db, p);
      r == if p in h.states[n].db.pools && h.states[n].db.pools[p].state == Open then P.ClosedNow else P.NotOpen
  {
    RunKeeps(dist, h, n);
    if p in h.states[n].db.pools {
      assert PoolOk(dist, h.states[n].db.pools[p]);
    }
  }

  lemma OneActivePoolPerPassenger(dist: Distance, h: History, n: nat, passenger: Id, p: Id, q: Id)
    requires IsRun(dist, h) && n < |h.states|
    requires var pools := h.states[n].db.pools;
      p in pools && q in pools && P.ActivelySeated(pools[p], passenger) && P.ActivelySeated(pools[q], passenger)
    ensures p == q
  {
    RunKeeps(dist, h, n);
    var pools := h.states[n].db.pools;
    var i :| 0 <= i < |pools[p].members| && pools[p].members[i].rider.passenger == passenger
      && pools[p].members[i].active;
    var j :| 0 <= j < |pools[q].members| && pools[q].members[j].rider.passenger == passenger
      && pools[q].members[j].active;
  }

  /** A seat is active exactly until its pool is over. */
  lemma SeatsAreActiveUntilTheEnd(dist: Distance, h: History, n: nat, p: Id, i: nat)
    requires IsRun(dist, h) && n < |h.states|
    requires p in h.states[n].db.pools && i < |h.states[n].db.pools[p].members|
    ensures var pool := h.states[n].db.pools[p];
      pool.members[i].active <==> pool.state != Aborted && pool.state != Finished
  {
    RunKeeps(dist, h, n);
    assert PoolOk(dist, h.states[n].db.pools[p]);
  }

  // ── closing ───────────────────────────────────────────────────────────────

  /** A pool leaves `open` once; its riders, their fares and its itinerary are then fixed. */
  lemma ClosedIsFrozen(dist: Distance, h: History, m: nat, n: nat, p: Id)
    requires IsRun(dist, h) && m <= n < |h.states| && p in h.states[m].db.pools && h.states[m].db.pools[p].state != Open
    ensures p in h.states[n].db.pools
    ensures var was, now := h.states[m].db.pools[p], h.states[n].db.pools[p];
      && now.state != Open && |now.members| == |was.members| && |now.stops| == |was.stops|
      && (forall i :: 0 <= i < |was.members| ==> now.members[i] == was.members[i].(active := now.members[i].active))
      && (forall i :: 0 <= i < |was.stops| ==> now.stops[i] == was.stops[i].(confirmed := now.stops[i].confirmed))
  {
    RunFollows(dist, h, m, n);
    Frozen(h.states[m].db.pools, h.states[n].db.pools, p);
  }

  lemma Frozen(a: map<Id, Pool>, b: map<Id, Pool>, p: Id)
    requires PoolsFollow(a, b) && p in a && a[p].state != Open
    ensures p in b && b[p].state != Open && |b[p].members| == |a[p].members| && |b[p].stops| == |a[p].stops|
    ensures forall i :: 0 <= i < |a[p].members| ==>
      b[p].members[i] == a[p].members[i].(active := b[p].members[i].active)
    ensures forall i :: 0 <= i < |a[p].stops| ==> b[p].stops[i] == a[p].stops[i].(confirmed := b[p].stops[i].confirmed)
  {
    assert PoolFollows(a[p], b[p]);
    assert forall i :: 0 <= i < |a[p].members| ==> SeatKept(a[p].members[i], b[p].members[i]);
    assert forall i :: 0 <= i < |a[p].stops| ==> StopKept(a[p].stops[i], b[p].stops[i]);
  }

  /** A closed pool has a pickup and then a dropoff for every member, in the order of the one itinerary its members
      have. */
  lemma ClosedPoolsAreComplete(dist: Distance, h: History, n: nat, p: Id)
    requires IsRun(dist, h) && n < |h.states|
    requires p in h.states[n].db.pools && h.states[n].db.pools[p].state != Open
    ensures var pool := h.states[n].db.pools[p];
      var n := |pool.members|;
      && pool.generation == 1 && |pool.stops| == 2 * n
      && (forall i :: 0 <= i < 2 * n ==> pool.stops[i].kind == if i < n then Pickup else Dropoff)
      && FollowsPlan(dist, pool, I.Plan(dist, pool.anchor, P.Riders(pool.members)))
  {
    RunKeeps(dist, h, n);
    ClosedFollowsPlan(dist, h.states[n].db.pools[p]);
  }

  ghost predicate FollowsPlan(dist: Distance, pool: Pool, plan: seq<I.OfferStop>) {
    && I.IsItinerary(dist, pool.anchor, multiset(P.Riders(pool.members)), plan)
    && |plan| == |pool.stops|
    && forall i :: 0 <= i < |plan| ==>
         pool.stops[i].kind == plan[i].kind && pool.stops[i].passenger == plan[i].passenger
  }

  lemma ClosedFollowsPlan(dist: Distance, pool: Pool)
    requires PoolOk(dist, pool) && pool.state != Open
    ensures var n := |pool.members|;
      && pool.generation == 1 && |pool.stops| == 2 * n
      && (forall i :: 0 <= i < 2 * n ==> pool.stops[i].kind == if i < n then Pickup else Dropoff)
    ensures FollowsPlan(dist, pool, I.Plan(dist, pool.anchor, P.Riders(pool.members)))
  {
    PoolProofs.MembersAreDistinct(pool.members);
    I.PlanIsTheItinerary(dist, pool.anchor, P.Riders(pool.members), I.Plan(dist, pool.anchor, P.Riders(pool.members)));
  }

  /** A trip still waiting for work has the row that will get it worked on. */
  lemma WaitingWorkIsWritten(dist: Distance, h: History, n: nat, t: TripRef)
    requires IsRun(dist, h) && n < |h.states|
    requires T.TripExists(h.states[n].db, t)
    ensures var db := h.states[n].db;
      match t
      case Solo(r) => db.rides[r].status == Requested ==>
        (if db.rides[r].scheduled && db.rides[r].generation <= 1 then Intent(RideWake, r, 1)
          else Intent(RideDispatch, r, db.rides[r].generation)) in db.outbox
      case Shared(p) =>
        && (db.pools[p].state == Open ==> Intent(PoolExpire, p, 0) in db.outbox)
        && (T.Dispatchable(db, t) ==> Intent(PoolDispatch, p, 1) in db.outbox)
  {
    RunKeeps(dist, h, n);
    assert OwedIsWritten(h.states[n].db, t);
    assert t.Shared? ==> PoolOk(dist, h.states[n].db.pools[t.id]);
  }

  // ── stops ─────────────────────────────────────────────────────────────────

  /** Confirmed stops are a prefix of the itinerary, and the state of a claimed pool says how long it is. */
  lemma ConfirmedIsAPrefix(dist: Distance, h: History, n: nat, p: Id)
    requires IsRun(dist, h) && n < |h.states|
    requires p in h.states[n].db.pools
    ensures var pool := h.states[n].db.pools[p];
      var done := P.FirstPending(pool.stops);
      && (forall i :: 0 <= i < |pool.stops| ==> (pool.stops[i].confirmed <==> i < done))
      && (pool.state == ClosedStarted <==> 0 < done < |pool.stops|)
      && (pool.state == Finished <==> 0 < done == |pool.stops|)
      && (done > 0 ==> pool.claimedBy != None)
  {
    RunKeeps(dist, h, n);
    assert PoolOk(dist, h.states[n].db.pools[p]);
  }

  /** Nobody is dropped off before being picked up. */
  lemma PickupPrecedesDropoff(dist: Distance, h: History, n: nat, p: Id, i: nat)
    requires IsRun(dist, h) && n < |h.states|
    requires p in h.states[n].db.pools
    requires var stops := h.states[n].db.pools[p].stops; i < |stops| && stops[i].kind == Dropoff && stops[i].confirmed
    ensures var stops := h.states[n].db.pools[p].stops;
      exists k ::
        0 <= k < i && stops[k].kind == Pickup && stops[k].passenger == stops[i].passenger && stops[k].confirmed
  {
    RunKeeps(dist, h, n);
    PickedUpFirst(dist, h.states[n].db.pools[p], i);
  }

  lemma PickedUpFirst(dist: Distance, pool: Pool, i: nat)
    requires PoolOk(dist, pool) && i < |pool.stops| && pool.stops[i].kind == Dropoff && pool.stops[i].confirmed
    ensures exists k ::
      && 0 <= k < i
      && pool.stops[k].kind == Pickup
      && pool.stops[k].passenger == pool.stops[i].passenger
      && pool.stops[k].confirmed
  {
    var riders, n := P.Riders(pool.members), |pool.members|;
    var plan := I.Plan(dist, pool.anchor, riders);
    PoolProofs.MembersAreDistinct(pool.members);
    var k := PickupOf(dist, pool.anchor, riders, i);
    assert pool.stops[k].passenger == plan[k].passenger;
  }

  /** Where the plan picks up the passenger it drops at `i`. */
  lemma PickupOf(dist: Distance, anchor: Point, riders: seq<Rider>, i: nat) returns (k: nat)
    requires I.Distinct(multiset(riders)) && |riders| <= i < |I.Plan(dist, anchor, riders)|
    ensures k < |riders| && I.Plan(dist, anchor, riders)[k].passenger == I.Plan(dist, anchor, riders)[i].passenger
  {
    var ups := I.Pickups(dist, anchor, riders);
    var downs := I.Dropoffs(dist, ups);
    I.PlanVisits(dist, anchor, riders);
    I.SameLength(ups, riders);
    var r := downs[i - |ups|];
    assert r in multiset(ups);
    k :| 0 <= k < |ups| && ups[k] == r;
  }

  /** The step stamps a stop of the pool. */
  predicate Stamps(w: World, s: Step, p: Id) {
    s.ConfirmStop? && s.pool == p && P.ConfirmStop(w.db, p, s.driver, s.index, s.kind).1.Confirmed?
  }

  function Stamped(h: History, n: nat, p: Id): nat
    requires n <= |h.steps| < |h.states|
  {
    if n == 0 then 0
    else Stamped(h, n - 1, p) + (if Stamps(h.states[n - 1], h.steps[n - 1], p) then 1 else 0)
  }

  function DoneOf(db: Db, p: Id): nat {
    if p in db.pools then P.FirstPending(db.pools[p].stops) else 0
  }

  /** The step moves the confirmed prefix of the pool by one where it stamps, and not otherwise. */
  predicate Counts(w: World, v: World, s: Step, p: Id) {
    DoneOf(v.db, p) == DoneOf(w.db, p) + (if Stamps(w, s, p) then 1 else 0)
  }

  lemma StopsBarelyMove(dist: Distance, a: Pool, b: Pool)
    requires PoolOk(dist, a) && PoolOk(dist, b)
    requires b.stops == a.stops || (a.stops == [] && b.claimedBy == None)
    ensures P.FirstPending(b.stops) == P.FirstPending(a.stops)
  {
  }

  lemma ConfirmCounts(dist: Distance, db: Db, id: Id, driver: Id, index: nat, kind: StopKind, p: Id)
    requires PoolsOk(dist, db.pools)
    ensures var (b, r) := P.ConfirmStop(db, id, driver, index, kind);
      DoneOf(b, p) == DoneOf(db, p) + (if p == id && r.Confirmed? then 1 else 0)
  {
    R.ConfirmIs(dist, db, id, driver, index, kind);
    var (b, r) := P.ConfirmStop(db, id, driver, index, kind);
    if r.Confirmed? {
      StampAdvances(dist, db.pools[id], driver, index, kind);
    }
  }

  lemma StampAdvances(dist: Distance, a: Pool, driver: Id, index: nat, kind: StopKind)
    requires PoolOk(dist, a) && P.ConfirmVerdict(a, driver, index, kind) == None
    ensures P.FirstPending(a.stops) < |a.stops|
    ensures P.FirstPending(PoolProofs.Confirmed(a, kind).stops) == P.FirstPending(a.stops) + 1
  {
    PoolProofs.ConfirmKeepsRow(dist, a, driver, index, kind);
    PoolProofs.ConfirmAdvances(a.stops);
  }

  /** No other step touches a confirmation. */
  ghost predicate StopsStay(a: map<Id, Pool>, b: map<Id, Pool>) {
    && (forall p :: p in a ==> p in b && (b[p].stops == a[p].stops || (a[p].stops == [] && b[p].claimedBy == None)))
    && (forall p :: p in b && p !in a ==> b[p].stops == [])
  }

  lemma JoinStopsStay(dist: Distance, db: Db, id: Id, q: P.SeatRequest)
    requires id in db.pools && db.pools[id].state == Open ==> db.pools[id].claimedBy == None
    ensures StopsStay(db.pools, P.JoinPool(dist, db, id, q).0.pools)
  {
    R.JoinIs(dist, db, id, q);
  }

  lemma ExpireStopsStay(dist: Distance, db: Db, id: Id)
    requires id in db.pools && db.pools[id].state == Open ==> db.pools[id].claimedBy == None
    ensures StopsStay(db.pools, P.CloseIfOpen(dist, db, id).0.pools)
  {
  }

  lemma AcceptStopsStay(db: Db, id: Id, driver: Id, trip: TripRef, now: Time, vehicle: Option<nat>)
    ensures StopsStay(db.pools, T.AcceptInTx(db, id, driver, trip, now, vehicle).0.pools)
  {
  }

  lemma OpenStopsStay(db: Db, id: Id, maxSeats: nat, q: P.SeatRequest)
    ensures StopsStay(db.pools, P.OpenPool(db, id, maxSeats, q).0.pools)
  {
  }

  lemma AbortStopsStay(db: Db, id: Id, g: nat)
    ensures StopsStay(db.pools, P.AbortUnclaimed(db, id, g).pools)
  {
  }

  lemma StepStopsStay(dist: Distance, w: World, s: Step)
    requires !s.ConfirmStop?
    requires forall p :: p in w.db.pools && w.db.pools[p].state == Open ==> w.db.pools[p].claimedBy == None
    ensures StopsStay(w.db.pools, Apply(dist, w, s).db.pools)
  {
    if s.JoinPool? {
      JoinStopsStay(dist, w.db, s.pool, s.seat);
    } else if s.ExpirePool? {
      ExpireStopsStay(dist, w.db, s.pool);
    } else if s.Accept? {
      AcceptStopsStay(w.db, s.seen.offer, s.seen.driver, s.seen.trip, s.now, s.vehicle);
    } else if s.OpenPool? {
      OpenStopsStay(w.db, s.pool, s.maxSeats, s.seat);
    } else if s.AbortPool? {
      AbortStopsStay(w.db, s.pool, s.generation);
    } else {
      S.OtherStepsKeepPools(dist, w, s);
    }
  }

  lemma OpenIsUnclaimed(dist: Distance, pools: map<Id, Pool>)
    requires PoolsOk(dist, pools)
    ensures forall p :: p in pools && pools[p].state == Open ==> pools[p].claimedBy == None
  {
  }

  lemma StepCounts(dist: Distance, w: World, s: Step, p: Id)
    requires Inv(dist, w) && Inv(dist, Apply(dist, w, s))
    ensures Counts(w, Apply(dist, w, s), s, p)
  {
    var v := Apply(dist, w, s);
    if s.ConfirmStop? {
      ConfirmCounts(dist, w.db, s.pool, s.driver, s.index, s.kind, p);
    } else {
      OpenIsUnclaimed(dist, w.db.pools);
      StepStopsStay(dist, w, s);
      if p in v.db.pools && p in w.db.pools {
        StopsBarelyMove(dist, w.db.pools[p], v.db.pools[p]);
      }
    }
  }

  lemma CountOfStep(dist: Distance, w: World, s: Step, p: Id)
    requires Inv(dist, w)
    ensures Counts(w, Apply(dist, w, s), s, p)
  {
    Preservation.StepKeeps(dist, w, s);
    StepCounts(dist, w, s, p);
  }

  lemma CountAt(dist: Distance, h: History, n: nat, p: Id)
    requires IsRun(dist, h) && n < |h.steps|
    ensures Counts(h.states[n], h.states[n + 1], h.steps[n], p)
  {
    RunKeeps(dist, h, n);
    CountOfStep(dist, h.states[n], h.steps[n], p);
    assert StepAt(dist, h, n);
  }

  /** Over a run, the confirmed prefix is exactly as long as the number of confirmations that took effect. */
  lemma {:induction false} StampsAreCounted(dist: Distance, h: History, n: nat, p: Id)
    requires IsRun(dist, h) && n < |h.states|
    ensures Stamped(h, n, p) == DoneOf(h.states[n].db, p)
  {
    if n > 0 {
      StampsAreCounted(dist, h, n - 1, p);
      CountAt(dist, h, n - 1, p);
    }
  }

  /** A pool completes, and its driver is free, after exactly two confirmations for every seat. */
  lemma CompletesAfterEveryStop(dist: Distance, h: History, n: nat, p: Id)
    requires IsRun(dist, h) && n < |h.states|
    requires p in h.states[n].db.pools
    ensures var db := h.states[n].db;
      && Stamped(h, n, p) <= 2 * db.pools[p].seatCount
      && (db.pools[p].state == Finished <==> Stamped(h, n, p) == 2 * db.pools[p].seatCount)
      && (db.pools[p].state == Finished ==> forall d :: !HasGuard(db, d, Shared(p)))
  {
    var db := h.states[n].db;
    RunKeeps(dist, h, n);
    StampsAreCounted(dist, h, n, p);
    assert PoolOk(dist, db.pools[p]);
    forall d | HasGuard(db, d, Shared(p)) ensures db.pools[p].state != Finished {
      assert GuardOk(db, d);
    }
  }

  lemma StillStamped(dist: Distance, was: Db, next: Db, now: Db, p: Id, driver: Id, index: nat, kind: StopKind)
    requires PoolsOk(dist, was.pools) && PoolsOk(dist, now.pools) && PoolsFollow(next.pools, now.pools)
    requires P.ConfirmStop(was, p, driver, index, kind).1.Confirmed?
    requires next == P.ConfirmStop(was, p, driver, index, kind).0
    ensures p in now.pools
    ensures P.ConfirmStop(now, p, driver, index, kind)
      == (now, P.Duplicate(P.Pending(now.pools[p].stops), now.pools[p].state == Finished))
    ensures now.pools[p].stops != []
    ensures P.Pending(now.pools[p].stops) == |now.pools[p].stops| - P.FirstPending(now.pools[p].stops)
  {
    R.ConfirmIs(dist, was, p, driver, index, kind);
    StampedStopStays(dist, was.pools[p], next.pools[p], now.pools[p], driver, index, kind);
    PoolProofs.PendingIsTheRest(now.pools[p].stops);
  }

  lemma StampApplies(dist: Distance, h: History, m: nat)
    requires IsRun(dist, h) && m < |h.steps| && h.steps[m].ConfirmStop?
    ensures var s := h.steps[m];
      h.states[m + 1].db == P.ConfirmStop(h.states[m].db, s.pool, s.driver, s.index, s.kind).0
  {
    assert StepAt(dist, h, m);
  }

  /** Confirming again what was confirmed changes nothing and says how much is left. */
  lemma RepeatConfirmIsDuplicate(dist: Distance, h: History, m: nat, n: nat, p: Id)
    requires IsRun(dist, h) && m < n < |h.states| && Stamps(h.states[m], h.steps[m], p)
    ensures p in h.states[n].db.pools
    ensures var db, s, left := h.states[n].db, h.steps[m], P.Pending(h.states[n].db.pools[p].stops);
      && left + Stamped(h, n, p) == 2 * db.pools[p].seatCount
      && P.ConfirmStop(db, p, s.driver, s.index, s.kind) == (db, P.Duplicate(left, left == 0))
  {
    var s := h.steps[m];
    RunKeeps(dist, h, m);
    RunKeeps(dist, h, n);
    RunFollows(dist, h, m + 1, n);
    StampApplies(dist, h, m);
    StillStamped(dist, h.states[m].db, h.states[m + 1].db, h.states[n].db, p, s.driver, s.index, s.kind);
    CompletesAfterEveryStop(dist, h, n, p);
    StopsOfStampedPool(dist, h, n, p);
  }

  lemma StopsOfStampedPool(dist: Distance, h: History, n: nat, p: Id)
    requires IsRun(dist, h) && n < |h.states|
    requires p in h.states[n].db.pools && h.states[n].db.pools[p].stops != []
    ensures |h.states[n].db.pools[p].stops| == 2 * h.states[n].db.pools[p].seatCount
    ensures Stamped(h, n, p) == P.FirstPending(h.states[n].db.pools[p].stops)
  {
    RunKeeps(dist, h, n);
    StampsAreCounted(dist, h, n, p);
    assert PoolOk(dist, h.states[n].db.pools[p]);
  }

  lemma StampedStopStays(dist: Distance, a: Pool, b: Pool, c: Pool, driver: Id, index: nat, kind: StopKind)
    requires PoolOk(dist, a) && PoolOk(dist, c) && P.ConfirmVerdict(a, driver, index, kind) == None
    requires P.FirstPending(a.stops) < |a.stops| && b == PoolProofs.Confirmed(a, kind) && PoolFollows(b, c)
    ensures P.ConfirmVerdict(c, driver, index, kind) == Some(P.Duplicate(P.Pending(c.stops), c.state == Finished))
    ensures PoolProofs.Prefixed(c.stops) && c.stops != []
  {
    PoolProofs.ConfirmKeepsRow(dist, a, driver, index, kind);
    assert StopKept(b.stops[index], c.stops[index]);
  }
}
