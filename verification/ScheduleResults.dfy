/** Statuses and generations of rides over whole runs. */
module ScheduleResults {
  import opened Types
  import opened Protocol
  import opened Invariants
  import T = Trips
  import P = Pools
  import R = RowProofs
  import opened Runs

  /** Statuses only move up the ranks, so one rank can stand for every terminal status. */
  lemma RankIsSound(dist: Distance, h: History, m: nat, n: nat, r: Id)
    requires IsRun(dist, h) && m <= n < |h.states| && r in h.states[m].db.rides
    ensures r in h.states[n].db.rides
    ensures var was, now := h.states[m].db.rides[r], h.states[n].db.rides[r];
      && StatusRank(was.status) <= StatusRank(now.status)
      && (StatusRank(was.status) == StatusRank(now.status) <==> was.status == now.status)
      && (StatusRank(was.status) == 10 ==> now == was)
  {
    RunFollows(dist, h, m, n);
    RanksOrder(h.states[m].db.rides, h.states[n].db.rides, r);
  }

  lemma RanksOrder(a: map<Id, Ride>, b: map<Id, Ride>, r: Id)
    requires RidesFollow(a, b) && r in a
    ensures r in b && StatusRank(a[r].status) <= StatusRank(b[r].status)
    ensures StatusRank(a[r].status) == StatusRank(b[r].status) <==> a[r].status == b[r].status
    ensures StatusRank(a[r].status) == 10 ==> b[r] == a[r]
  {
    assert RideFollows(a[r], b[r]);
  }

  lemma ScheduledNeverFails(dist: Distance, h: History, n: nat, r: Id)
    requires IsRun(dist, h) && n < |h.states|
    requires r in h.states[n].db.rides && h.states[n].db.rides[r].scheduled
    ensures h.states[n].db.rides[r].status != NoDriver
  {
    RunKeeps(dist, h, n);
    assert RideOk(h.states[n].db.rides[r]);
  }

  // ── re-arms ───────────────────────────────────────────────────────────────

  /** The step ends generation `g` of a scheduled ride unanswered and opens the next. */
  predicate Rearms(w: World, s: Step, r: Id, g: nat) {
    && T.CanRearm(w.db, r, g)
    && match s
       case Rearm(ride, expected) => ride == r && expected == g
       case HardFailRide(seen, expected) => seen in w.mem.rides && seen.scheduled && seen.ride == r && expected == g
       case _ => false
  }

  /** How often generation `g` of the ride was re-armed during the run. */
  function RearmCount(h: History, n: nat, r: Id, g: nat): nat
    requires n <= |h.steps| < |h.states|
  {
    if n == 0 then 0
    else RearmCount(h, n - 1, r, g) + (if Rearms(h.states[n - 1], h.steps[n - 1], r, g) then 1 else 0)
  }

  function GenerationOf(db: Db, r: Id): nat {
    if r in db.rides then db.rides[r].generation else 0
  }

  /** A ride's generation starts at most at 1 and after that only a re-arm moves it, by one. */
  ghost predicate GenerationStep(w: World, v: World, s: Step, r: Id) {
    var was, now := GenerationOf(w.db, r), GenerationOf(v.db, r);
    if was == 0 then now <= 1
    else now == if Rearms(w, s, r, was) then was + 1 else was
  }

  lemma AcceptGeneration(db: Db, id: Id, driver: Id, trip: TripRef, now: Time, vehicle: Option<nat>, r: Id)
    requires id in db.offers ==> db.offers[id].generation >= 1
    ensures GenerationOf(T.AcceptInTx(db, id, driver, trip, now, vehicle).0, r) == GenerationOf(db, r)
  {
  }

  lemma RideStepGeneration(dist: Distance, w: World, s: Step, r: Id)
    requires R.Informed(w, s)
    requires s.CreateRide? || s.Wake? || s.DirectClaim? || s.HardFailRide? || s.Rearm?
    requires r in w.db.rides && w.db.rides[r].generation == 0 ==> w.db.rides[r].scheduled
    ensures GenerationStep(w, Apply(dist, w, s), s, r)
  {
  }

  lemma MoveKeepsGeneration(dist: Distance, w: World, s: Step, r: Id)
    requires s.MoveRide? || s.CancelRide?
    ensures GenerationOf(Apply(dist, w, s).db, r) == GenerationOf(w.db, r)
  {
  }

  lemma ConfirmKeepsRides(db: Db, id: Id, driver: Id, index: nat, kind: StopKind)
    ensures P.ConfirmStop(db, id, driver, index, kind).0.rides == db.rides
  {
  }

  lemma OtherStepKeepsRides(dist: Distance, w: World, s: Step)
    requires !s.CreateRide? && !s.Wake? && !s.DirectClaim? && !s.HardFailRide? && !s.Rearm? && !s.MoveRide?
    requires !s.CancelRide? && !s.Accept?
    ensures Apply(dist, w, s).db.rides == w.db.rides
  {
    if s.ConfirmStop? {
      ConfirmKeepsRides(w.db, s.pool, s.driver, s.index, s.kind);
    } else if s.JoinPool? {
      R.JoinIs(dist, w.db, s.pool, s.seat);
    }
  }

  lemma StepGeneration(dist: Distance, w: World, s: Step, r: Id)
    requires Inv(dist, w)
    ensures GenerationStep(w, Apply(dist, w, s), s, r)
  {
    R.InvInforms(dist, w, s);
    if s.CreateRide? || s.Wake? || s.DirectClaim? || s.HardFailRide? || s.Rearm? {
      assert r in w.db.rides ==> RideOk(w.db.rides[r]);
      RideStepGeneration(dist, w, s, r);
    } else if s.MoveRide? || s.CancelRide? {
      MoveKeepsGeneration(dist, w, s, r);
    } else if s.Accept? {
      if s.seen in w.mem.offers {
        AcceptGeneration(w.db, s.seen.offer, s.seen.driver, s.seen.trip, s.now, s.vehicle, r);
      }
    } else {
      OtherStepKeepsRides(dist, w, s);
    }
  }

  /** Hard-fail timers, wave timers and reconciler passes may race and repeat: each generation is re-armed once or
      not yet. */
  lemma {:induction false} RearmedOnce(dist: Distance, h: History, n: nat, r: Id, g: nat)
    requires IsRun(dist, h) && n < |h.states| && g >= 1
    ensures RearmCount(h, n, r, g) == if g < GenerationOf(h.states[n].db, r) then 1 else 0
  {
    if n > 0 {
      RearmedOnce(dist, h, n - 1, r, g);
      RunKeeps(dist, h, n - 1);
      assert StepAt(dist, h, n - 1);
      StepGeneration(dist, h.states[n - 1], h.steps[n - 1], r);
    }
  }

  function TotalRearms(h: History, n: nat, r: Id, upTo: nat): nat
    requires n <= |h.steps| < |h.states|
  {
    if upTo == 0 then 0 else TotalRearms(h, n, r, upTo - 1) + RearmCount(h, n, r, upTo)
  }

  lemma {:induction false} RearmsAddUp(dist: Distance, h: History, n: nat, r: Id, upTo: nat)
    requires IsRun(dist, h) && n < |h.states|
    ensures var g := GenerationOf(h.states[n].db, r);
      TotalRearms(h, n, r, upTo) == if upTo < g then upTo else if g == 0 then 0 else g - 1
  {
    if upTo > 0 {
      RearmsAddUp(dist, h, n, r, upTo - 1);
      RearmedOnce(dist, h, n, r, upTo);
    }
  }

  /** Once awake, a ride's generation is 1 plus the number of times it was re-armed. */
  lemma GenerationCountsRearms(dist: Distance, h: History, n: nat, r: Id, bound: nat)
    requires IsRun(dist, h) && n < |h.states| && 1 <= GenerationOf(h.states[n].db, r) <= bound
    ensures GenerationOf(h.states[n].db, r) == 1 + TotalRearms(h, n, r, bound)
  {
    RearmsAddUp(dist, h, n, r, bound);
  }

  // ── a scheduled ride waits for its wake ───────────────────────────────────

  /** The step took the ride out of generation 0: its wake, or a direct assignment. */
  predicate Wakes(w: World, v: World, s: Step, r: Id) {
    && r in w.db.rides && w.db.rides[r].status == Requested && w.db.rides[r].generation == 0
    && r in v.db.rides && v.db.rides[r].generation == 1
    && ((s == Wake(r, 1) && Intent(RideWake, r, 1) in w.db.outbox && v.db.rides[r].status == Requested)
        || (s.DirectClaim? && s.ride == r && v.db.rides[r].driver == Some(s.driver)))
  }

  predicate WakesAt(h: History, k: nat, r: Id)
    requires k < |h.steps| < |h.states|
  {
    Wakes(h.states[k], h.states[k + 1], h.steps[k], r)
  }

  predicate AsleepOrWoken(w: World, v: World, s: Step, r: Id) {
    r in v.db.rides && v.db.rides[r].scheduled && v.db.rides[r].generation > 0 ==>
      GenerationOf(w.db, r) > 0 || Wakes(w, v, s, r)
  }

  lemma RideStepWakes(dist: Distance, w: World, s: Step, r: Id)
    requires R.Informed(w, s) && (r in w.db.rides ==> RideOk(w.db.rides[r]))
    requires s.CreateRide? || s.Wake? || s.DirectClaim? || s.HardFailRide? || s.Rearm?
    ensures AsleepOrWoken(w, Apply(dist, w, s), s, r)
  {
  }

  lemma StepWakes(dist: Distance, w: World, s: Step, r: Id)
    requires Inv(dist, w)
    ensures AsleepOrWoken(w, Apply(dist, w, s), s, r)
  {
    R.InvInforms(dist, w, s);
    if s.CreateRide? || s.Wake? || s.DirectClaim? || s.HardFailRide? || s.Rearm? {
      RideStepWakes(dist, w, s, r);
    } else if s.MoveRide? || s.CancelRide? {
      MoveKeepsGeneration(dist, w, s, r);
    } else if s.Accept? {
      if s.seen in w.mem.offers {
        AcceptGeneration(w.db, s.seen.offer, s.seen.driver, s.seen.trip, s.now, s.vehicle, r);
      }
    } else {
      OtherStepKeepsRides(dist, w, s);
    }
  }

  lemma WakeAt(dist: Distance, h: History, n: nat, r: Id)
    requires IsRun(dist, h) && n < |h.steps|
    ensures AsleepOrWoken(h.states[n], h.states[n + 1], h.steps[n], r)
  {
    RunKeeps(dist, h, n);
    StepWakes(dist, h.states[n], h.steps[n], r);
    assert StepAt(dist, h, n);
  }

  /** No scheduled ride is offered to anyone ahead of time: one that has a dispatch generation was woken by the job
      of its wake row, or assigned directly. */
  lemma {:induction false} ScheduledWaitsForItsWake(dist: Distance, h: History, n: nat, r: Id)
    requires IsRun(dist, h) && n < |h.states| && r in h.states[n].db.rides
    requires h.states[n].db.rides[r].scheduled && h.states[n].db.rides[r].generation > 0
    ensures exists k :: 0 <= k < n && WakesAt(h, k, r)
  {
    if n > 0 {
      WakeAt(dist, h, n - 1, r);
      if GenerationOf(h.states[n - 1].db, r) > 0 {
        RunFollows(dist, h, n - 1, n);
        assert RideFollows(h.states[n - 1].db.rides[r], h.states[n].db.rides[r]);
        ScheduledWaitsForItsWake(dist, h, n - 1, r);
      } else {
        assert WakesAt(h, n - 1, r);
      }
    }
  }

  /** In every reachable state the wake of a ride takes it to generation 1, where it can be dispatched, if it is
      requested and unwoken; there and later it changes nothing. */
  lemma WakeAnswers(dist: Distance, h: History, n: nat, r: Id)
    requires IsRun(dist, h) && n < |h.states|
    ensures var db := h.states[n].db;
      if r in db.rides && db.rides[r].scheduled && db.rides[r].status == Requested && db.rides[r].generation == 0
      then
        && T.Wake(db, r, 1) == db.(rides := db.rides[r := db.rides[r].(generation := 1)])
        && T.Dispatchable(T.Wake(db, r, 1), Solo(r))
      else T.Wake(db, r, 1) == db
  {
    RunKeeps(dist, h, n);
    var db := h.states[n].db;
    assert r in db.rides ==> RideOk(db.rides[r]);
    WakeAnsweredIn(db, r);
  }

  lemma WakeAnsweredIn(db: Db, r: Id)
    requires r in db.rides && db.rides[r].status == Requested ==> db.rides[r].driver == None
    ensures if r in db.rides && db.rides[r].scheduled && db.rides[r].status == Requested && db.rides[r].generation == 0
      then
        && T.Wake(db, r, 1) == db.(rides := db.rides[r := db.rides[r].(generation := 1)])
        && T.Dispatchable(T.Wake(db, r, 1), Solo(r))
      else T.Wake(db, r, 1) == db
  {
    if r in db.rides && db.rides[r].generation == 1 {
      assert db.rides[r := db.rides[r].(generation := 1)] == db.rides;
    }
  }

  /** Every end is rank 10; the six statuses on the way have the ranks from 1 to 6. */
  lemma RanksTellStatusesApart(s: RideStatus, t: RideStatus)
    ensures StatusRank(s) == 10 <==> s in {Completed, Cancelled, NoDriver, NoShow}
    ensures StatusRank(s) != 10 ==> 1 <= StatusRank(s) <= 6
    ensures StatusRank(s) == StatusRank(t) != 10 ==> s == t
  {
  }
}
