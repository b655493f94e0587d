/** Solo rides over whole runs: which moves are allowed, who makes them, and that a bound ride can always be
    finished. */
module RideResults {
  import opened Types
  import opened Protocol
  import opened Invariants
  import T = Trips
  import R = RowProofs
  import Preservation
  import DispatchResults
  import OfferHistories
  import D = Dispatch
  import opened Runs

  // ── the driver's events ───────────────────────────────────────────────────

  /** Where each event takes a ride from, and where to. */
  predicate Follows(from: RideStatus, event: T.RideEvent, to: RideStatus) {
    || (from == Accepted && event == T.StartEnRoute && to == EnRoute)
    || (from == EnRoute && event == T.MarkArrived && to == Arrived)
    || (from == Arrived && event == T.StartRide && to == InProgress)
    || (from == InProgress && event == T.EndRide && to == Completed)
  }

  /** What an event leaves of a ride it moves: its status, the stamp of an arrival, and at the end a free driver. */
  ghost predicate Moved(a: Db, b: Db, id: Id, driver: Id, event: T.RideEvent, to: RideStatus, now: Time) {
    && id in a.rides && Follows(a.rides[id].status, event, to)
    && var stamp := if to == Arrived then Some(now) else a.rides[id].arrivedAt;
       b == a.(rides := a.rides[id := a.rides[id].(status := to, arrivedAt := stamp)],
               guards := if to == Completed then a.guards - {driver} else a.guards)
  }

  /** An event succeeds exactly for the ride's own driver and from the one status it starts from. */
  ghost predicate MoveAnswered(a: Db, b: Db, r: T.RideResult, id: Id, driver: Id, event: T.RideEvent, now: Time) {
    if id !in a.rides then r == T.RideNotFound && b == a
    else if a.rides[id].driver != Some(driver) then r == T.RideNotOwner && b == a
    else if exists to :: Follows(a.rides[id].status, event, to) then
      r == T.RideMoved && exists to :: Moved(a, b, id, driver, event, to, now)
    else r == T.InvalidTransition && b == a
  }

  lemma MoveAnsweredIn(db: Db, id: Id, driver: Id, event: T.RideEvent, now: Time)
    requires id in db.rides && db.rides[id].driver == Some(driver) && db.rides[id].status == InProgress ==>
      HasGuard(db, driver, Solo(id))
    ensures var (b, r) := T.Transition(db, id, driver, event, now); MoveAnswered(db, b, r, id, driver, event, now)
  {
    var (b, r) := T.Transition(db, id, driver, event, now);
    if id in db.rides && db.rides[id].driver == Some(driver) {
      var to := T.ToStatus(event);
      assert Follows(db.rides[id].status, event, to) ==> Moved(db, b, id, driver, event, to, now);
    }
  }

  lemma EventAnswers(dist: Distance, h: History, n: nat, id: Id, driver: Id, event: T.RideEvent, now: Time)
    requires IsRun(dist, h) && n < |h.states|
    ensures var db := h.states[n].db;
      var (b, r) := T.Transition(db, id, driver, event, now); MoveAnswered(db, b, r, id, driver, event, now)
  {
    DispatchResults.GuardsAreExact(dist, h, n, driver, Solo(id));
    MoveAnsweredIn(h.states[n].db, id, driver, event, now);
  }

  // ── cancelling ────────────────────────────────────────────────────────────

  predicate IsParty(ride: Ride, q: T.CancelRequest) {
    match q.actor
    case Client => q.caller == ride.passenger
    case Driver => Some(q.caller) == ride.driver
  }

  /** A passenger may cancel until the ride starts, its driver until it is over. */
  predicate MayCancel(ride: Ride, q: T.CancelRequest) {
    match q.actor
    case Client => ride.status in {Requested, Accepted, EnRoute, Arrived}
    case Driver => ride.status in {Accepted, EnRoute, Arrived, InProgress}
  }

  predicate WaitedLongEnough(ride: Ride, q: T.CancelRequest, now: Time) {
    ride.arrivedAt.Some? && ride.arrivedAt.value + q.waitMs <= now
  }

  /** What a cancellation leaves: the ride over, none of its offers live, and nobody bound to it. */
  ghost predicate CalledOff(a: Db, b: Db, id: Id, to: RideStatus) {
    && id in a.rides
    && b == a.(rides := a.rides[id := a.rides[id].(status := to)], offers := b.offers, guards := b.guards)
    && b.offers.Keys == a.offers.Keys
    && (forall o :: o in a.offers ==> b.offers[o] == D.Withdrawn(a.offers[o], Solo(id)))
    && (forall d :: d in b.guards <==> d in a.guards && a.guards[d].trip != Solo(id))
    && (forall d :: d in b.guards ==> b.guards[d] == a.guards[d])
  }

  /** A missing ride, then a stranger, then the status, then the wait: nothing else stands in the way of a
      cancellation. */
  ghost predicate CancelAnswered(a: Db, b: Db, r: T.RideResult, id: Id, q: T.CancelRequest, now: Time) {
    if id !in a.rides then r == T.RideNotFound && b == a
    else if !IsParty(a.rides[id], q) then r == T.RideNotOwner && b == a
    else if !q.noShow then
      if MayCancel(a.rides[id], q) then r == T.RideMoved && CalledOff(a, b, id, Cancelled)
      else r == T.InvalidTransition && b == a
    else if a.rides[id].status != Arrived then r == T.InvalidTransition && b == a
    else if !WaitedLongEnough(a.rides[id], q, now) then r == T.NoShowTooEarly && b == a
    else r == T.RideMoved && CalledOff(a, b, id, NoShow)
  }

  lemma CancelAnsweredIn(db: Db, id: Id, q: T.CancelRequest, now: Time)
    requires id in db.rides ==> RideOk(db.rides[id])
    requires forall d :: d in db.guards && db.guards[d].trip == Solo(id) ==>
      id in db.rides && db.rides[id].driver == Some(d)
    ensures var (b, r) := T.Cancel(db, id, q, now); CancelAnswered(db, b, r, id, q, now)
  {
  }

  lemma CancelAnswers(dist: Distance, h: History, n: nat, id: Id, q: T.CancelRequest, now: Time)
    requires IsRun(dist, h) && n < |h.states|
    ensures var db := h.states[n].db;
      var (b, r) := T.Cancel(db, id, q, now); CancelAnswered(db, b, r, id, q, now)
  {
    RunKeeps(dist, h, n);
    GuardsNameOwners(dist, h, n, id);
    CancelAnsweredIn(h.states[n].db, id, q, now);
  }

  lemma GuardsNameOwners(dist: Distance, h: History, n: nat, id: Id)
    requires IsRun(dist, h) && n < |h.states|
    ensures var db := h.states[n].db;
      forall d :: d in db.guards && db.guards[d].trip == Solo(id) ==> id in db.rides && db.rides[id].driver == Some(d)
  {
    forall d | d in h.states[n].db.guards && h.states[n].db.guards[d].trip == Solo(id)
      ensures id in h.states[n].db.rides && h.states[n].db.rides[id].driver == Some(d)
    {
      DispatchResults.GuardsAreExact(dist, h, n, d, Solo(id));
    }
  }

  // ── the direct assignment ─────────────────────────────────────────────────

  /** A requested ride is assigned to any driver without a trip, and only so. */
  ghost predicate ClaimAnswered(a: Db, claimed: Option<Db>, id: Id, driver: Id) {
    if id in a.rides && a.rides[id].status == Requested && driver !in a.guards then
      && claimed.Some?
      && var b := claimed.value;
         var g := if a.rides[id].generation == 0 then 1 else a.rides[id].generation;
         && b == a.(rides := a.rides[id := a.rides[id].(status := Accepted, driver := Some(driver), generation := g)],
                    guards := a.guards[driver := Guard(Solo(id), None, g)], offers := b.offers)
         && b.offers.Keys == a.offers.Keys
         && forall o :: o in a.offers ==> b.offers[o] == D.Withdrawn(a.offers[o], Solo(id))
    else claimed == None
  }

  lemma ClaimAnsweredIn(db: Db, id: Id, driver: Id)
    requires id in db.rides && db.rides[id].status == Requested ==>
      db.rides[id].driver == None && forall d :: d in db.guards ==> db.guards[d].trip != Solo(id)
    ensures ClaimAnswered(db, T.DirectClaim(db, id, driver), id, driver)
  {
  }

  lemma DirectClaimAnswers(dist: Distance, h: History, n: nat, id: Id, driver: Id)
    requires IsRun(dist, h) && n < |h.states|
    ensures var db := h.states[n].db; ClaimAnswered(db, T.DirectClaim(db, id, driver), id, driver)
  {
    RunKeeps(dist, h, n);
    GuardsNameOwners(dist, h, n, id);
    assert id in h.states[n].db.rides ==> RideOk(h.states[n].db.rides[id]);
    ClaimAnsweredIn(h.states[n].db, id, driver);
  }

  // ── every status has its cause ────────────────────────────────────────────

  /** The step brought the ride to the status it has in `b`, and was entitled to. */
  predicate Causes(a: map<Id, Ride>, b: map<Id, Ride>, s: Step, r: Id) {
    && r in a && r in b
    && match b[r].status
       case Requested => false
       case Dispatching => false
       case Accepted =>
         && a[r].status == Requested && a[r].driver == None && b[r].driver.Some?
         && ((s.Accept? && s.seen.trip == Solo(r) && s.seen.driver == b[r].driver.value)
              || s == DirectClaim(r, b[r].driver.value))
       case EnRoute => MovedBy(a, b, s, r, Accepted, T.StartEnRoute)
       case Arrived => MovedBy(a, b, s, r, EnRoute, T.MarkArrived)
       case InProgress => MovedBy(a, b, s, r, Arrived, T.StartRide)
       case Completed => MovedBy(a, b, s, r, InProgress, T.EndRide)
       case Cancelled =>
         && s.CancelRide? && s.ride == r && !s.cancel.noShow && IsParty(a[r], s.cancel) && MayCancel(a[r], s.cancel)
         && b[r] == a[r].(status := Cancelled)
       case NoShow =>
         && s.CancelRide? && s.ride == r && s.cancel.noShow && IsParty(a[r], s.cancel)
         && a[r].status == Arrived && WaitedLongEnough(a[r], s.cancel, s.now) && b[r] == a[r].(status := NoShow)
       case NoDriver =>
         && s.HardFailRide? && s.read.ride == r && s.generation == a[r].generation
         && a[r].status == Requested && !a[r].scheduled && b[r] == a[r].(status := NoDriver)
  }

  /** Its own driver's event. */
  predicate MovedBy(a: map<Id, Ride>, b: map<Id, Ride>, s: Step, r: Id, from: RideStatus, event: T.RideEvent)
    requires r in a && r in b
  {
    && s.MoveRide? && s.ride == r && s.event == event && a[r].driver == Some(s.driver)
    && a[r].status == from && b[r] == a[r].(status := b[r].status, arrivedAt := b[r].arrivedAt)
    && b[r].arrivedAt == if event == T.MarkArrived then Some(s.now) else a[r].arrivedAt
  }

  predicate CausedOrKept(a: map<Id, Ride>, b: map<Id, Ride>, s: Step, r: Id) {
    r in b && b[r].status != Requested ==> (r in a && b[r].status == a[r].status) || Causes(a, b, s, r)
  }

  lemma AcceptCauses(db: Db, s: Step, r: Id)
    requires s.Accept?
    ensures CausedOrKept(db.rides,
                         T.AcceptInTx(db, s.seen.offer, s.seen.driver, s.seen.trip, s.now, s.vehicle).0.rides, s, r)
  {
  }

  lemma PartyCauses(dist: Distance, w: World, s: Step, r: Id)
    requires s.MoveRide? || s.CancelRide?
    requires r in w.db.rides ==> RideOk(w.db.rides[r])
    ensures CausedOrKept(w.db.rides, Apply(dist, w, s).db.rides, s, r)
  {
  }

  lemma RideStepCauses(dist: Distance, w: World, s: Step, r: Id)
    requires R.OnRides(s) && R.Informed(w, s) && (r in w.db.rides ==> RideOk(w.db.rides[r]))
    ensures CausedOrKept(w.db.rides, Apply(dist, w, s).db.rides, s, r)
  {
    if s.MoveRide? || s.CancelRide? {
      PartyCauses(dist, w, s, r);
    }
  }

  lemma StepCauses(dist: Distance, w: World, s: Step, r: Id)
    requires R.Informed(w, s) && (r in w.db.rides ==> RideOk(w.db.rides[r]))
    ensures CausedOrKept(w.db.rides, Apply(dist, w, s).db.rides, s, r)
  {
    if R.OnRides(s) {
      RideStepCauses(dist, w, s, r);
    } else if s.Accept? {
      AcceptCauses(w.db, s, r);
    } else if R.OnPools(s) {
      OfferHistories.PoolStepKeepsRides(dist, w, s);
    } else {
      R.OtherStepKeepsRows(dist, w, s);
    }
  }

  predicate CausesAt(h: History, k: nat, r: Id)
    requires k < |h.steps| < |h.states|
  {
    Causes(h.states[k].db.rides, h.states[k + 1].db.rides, h.steps[k], r)
  }

  lemma CauseAt(dist: Distance, h: History, n: nat, r: Id)
    requires IsRun(dist, h) && n < |h.steps|
    ensures CausedOrKept(h.states[n].db.rides, h.states[n + 1].db.rides, h.steps[n], r)
  {
    RunKeeps(dist, h, n);
    R.InvInforms(dist, h.states[n], h.steps[n]);
    assert StepAt(dist, h, n);
    StepCauses(dist, h.states[n], h.steps[n], r);
  }

  /** Behind every ride that is no longer waiting is a step of the run that brought it to its status: a driver's
      accept or a direct assignment, its own driver's event, a party's cancellation, or the hard-fail of its
      generation. */
  lemma {:induction false} EveryStatusHasItsCause(dist: Distance, h: History, n: nat, r: Id)
    requires IsRun(dist, h) && n < |h.states| && r in h.states[n].db.rides
    requires h.states[n].db.rides[r].status != Requested
    ensures exists k ::
      0 <= k < n && CausesAt(h, k, r) && h.states[k + 1].db.rides[r].status == h.states[n].db.rides[r].status
  {
    if n > 0 {
      CauseAt(dist, h, n - 1, r);
      if r in h.states[n - 1].db.rides && h.states[n - 1].db.rides[r].status == h.states[n].db.rides[r].status {
        EveryStatusHasItsCause(dist, h, n - 1, r);
      } else {
        assert CausesAt(h, n - 1, r);
      }
    }
  }

  // ── a bound ride can be finished ──────────────────────────────────────────

  function EventFrom(s: RideStatus): T.RideEvent
    requires Underway(s)
  {
    if s == Accepted then T.StartEnRoute else if s == EnRoute then T.MarkArrived
    else if s == Arrived then T.StartRide else T.EndRide
  }

  function EventsLeft(s: RideStatus): nat
    requires Underway(s)
  {
    if s == Accepted then 4 else if s == EnRoute then 3 else if s == Arrived then 2 else 1
  }

  lemma NextEvent(dist: Distance, h: History, r: Id, d: Id, now: Time) returns (longer: History)
    requires IsRun(dist, h) && r in h.states[|h.steps|].db.rides
    requires var ride := h.states[|h.steps|].db.rides[r]; ride.driver == Some(d) && Underway(ride.status)
    ensures IsRun(dist, longer) && |longer.steps| == |h.steps| + 1 && h.steps <= longer.steps
    ensures longer.steps[|h.steps|].MoveRide? && longer.steps[|h.steps|].driver == d
    ensures longer.steps[|h.steps|].ride == r
    ensures r in longer.states[|longer.steps|].db.rides
    ensures var was, next := h.states[|h.steps|].db.rides[r], longer.states[|longer.steps|].db.rides[r];
      && next.driver == Some(d)
      && (if was.status == InProgress then next.status == Completed && d !in longer.states[|longer.steps|].db.guards
          else Underway(next.status) && EventsLeft(next.status) == EventsLeft(was.status) - 1)
  {
    var n := |h.steps|;
    var event := EventFrom(h.states[n].db.rides[r].status);
    EventAnswers(dist, h, n, r, d, event, now);
    longer := Extend(dist, h, MoveRide(r, d, event, now));
    Advances(h.states[n].db, r, d, event, now);
  }

  lemma Advances(db: Db, r: Id, d: Id, event: T.RideEvent, now: Time)
    requires r in db.rides && db.rides[r].driver == Some(d) && Underway(db.rides[r].status)
    requires event == EventFrom(db.rides[r].status)
    requires var (b, answer) := T.Transition(db, r, d, event, now); MoveAnswered(db, b, answer, r, d, event, now)
    ensures var b := T.Transition(db, r, d, event, now).0;
      && r in b.rides && b.rides[r].driver == Some(d)
      && (if db.rides[r].status == InProgress then b.rides[r].status == Completed && d !in b.guards
          else Underway(b.rides[r].status) && EventsLeft(b.rides[r].status) == EventsLeft(db.rides[r].status) - 1)
  {
    var (b, answer) := T.Transition(db, r, d, event, now);
    var ahead := if event == T.StartEnRoute then EnRoute else if event == T.MarkArrived then Arrived
                 else if event == T.StartRide then InProgress else Completed;
    assert Follows(db.rides[r].status, event, ahead);
    var to :| Moved(db, b, r, d, event, to, now);
  }

  /** From any point of any run, a ride's driver completes it with the events that are left, and is then free. */
  lemma {:induction false} RideCanBeCompleted(dist: Distance, h: History, r: Id, d: Id, now: Time)
    returns (after: History)
    requires IsRun(dist, h) && r in h.states[|h.steps|].db.rides
    requires var ride := h.states[|h.steps|].db.rides[r]; ride.driver == Some(d) && Underway(ride.status)
    ensures IsRun(dist, after) && h.steps <= after.steps
    ensures |after.steps| == |h.steps| + EventsLeft(h.states[|h.steps|].db.rides[r].status)
    ensures forall i :: |h.steps| <= i < |after.steps| ==>
      after.steps[i].MoveRide? && after.steps[i].ride == r && after.steps[i].driver == d
    ensures var db := after.states[|after.steps|].db;
      r in db.rides && db.rides[r].status == Completed && d !in db.guards
    decreases EventsLeft(h.states[|h.steps|].db.rides[r].status)
  {
    var longer := NextEvent(dist, h, r, d, now);
    if h.states[|h.steps|].db.rides[r].status == InProgress {
      after := longer;
    } else {
      after := RideCanBeCompleted(dist, longer, r, d, now);
      assert after.steps[|h.steps|] == longer.steps[|h.steps|];
    }
  }
}
