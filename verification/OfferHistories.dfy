/** Why an offer, or a ride, is in the state it is in: each change goes back to a step that had every right to make
    it. */
module OfferHistories {
  import opened Types
  import opened Protocol
  import opened Invariants
  import T = Trips
  import P = Pools
  import R = RowProofs
  import Preservation
  import DispatchResults
  import D = Dispatch
  import opened Database
  import opened Runs

  // ── offers ────────────────────────────────────────────────────────────────

  function SeatsOf(db: Db, t: TripRef): nat {
    if t.Shared? && t.id in db.pools then |db.pools[t.id].members| else 1
  }

  /** This step turned the live offer into an answered one. */
  predicate Turns(w: World, v: World, o: Id, to: OfferState) {
    && o in w.db.offers && w.db.offers[o].state == Offered
    && o in v.db.offers && v.db.offers[o] == w.db.offers[o].(state := to) && to != Offered
  }

  /** The step answered the offer, and was entitled to. */
  predicate Answers(w: World, v: World, s: Step, o: Id, to: OfferState) {
    Turns(w, v, o, to) &&
    var f := w.db.offers[o];
    match to
    case Offered => false
    case OfferAccepted =>
      && s.Accept? && s.seen == SeenOffer(o, f.driver, f.trip) && s.now < f.expiresAt
      && s.vehicle.Some? && s.vehicle.value >= SeatsOf(w.db, f.trip) && f.driver !in w.db.guards
      && HasGuard(v.db, f.driver, f.trip)
    case Declined => s == DeclineOffer(o, f.driver)
    case Expired =>
      || (s.Accept? && s.seen == SeenOffer(o, f.driver, f.trip) && f.expiresAt <= s.now)
      || (s.CreateOffer? && s.request.driver == f.driver && f.expiresAt <= s.now && o !in s.locked)
      || (s.SweepOffers? && f.expiresAt <= s.now && o !in s.locked)
    case Revoked => Ends(w, v, s, f)
  }

  /** The trip could be claimed at the offer's generation, and the step, on this trip, put an end to that. */
  predicate Ends(w: World, v: World, s: Step, f: Offer) {
    && Claimable(w.db, f) && !Claimable(v.db, f)
    && match s
       case Accept(seen, _, _) =>
         seen.trip == f.trip && BoundBy(w.db, v.db, f.trip, seen.driver) && Turns(w, v, seen.offer, OfferAccepted)
       case DirectClaim(ride, driver) => f.trip == Solo(ride) && BoundBy(w.db, v.db, f.trip, driver)
       case CancelRide(ride, q, _) =>
         f.trip == Solo(ride) && ride in v.db.rides && v.db.rides[ride].status == if q.noShow then NoShow else Cancelled
       case HardFailRide(seen, g) =>
         && f.trip == Solo(seen.ride) && g == f.generation && seen.ride in v.db.rides
         && (if seen.scheduled then v.db.rides[seen.ride].generation == g + 1
              else v.db.rides[seen.ride].status == NoDriver)
       case Rearm(ride, g) =>
         f.trip == Solo(ride) && g == f.generation && ride in v.db.rides && v.db.rides[ride].generation == g + 1
       case AbortPool(pool, g) =>
         f.trip == Shared(pool) && g == f.generation && pool in v.db.pools && v.db.pools[pool].state == Aborted
       case _ => false
  }

  predicate Claimable(db: Db, f: Offer) {
    T.Dispatchable(db, f.trip) && T.Generation(db, f.trip) == f.generation
  }

  predicate BoundBy(a: Db, b: Db, t: TripRef, d: Id) {
    T.TripExists(a, t) && T.TripExists(b, t) && T.Owner(a, t) == None && T.Owner(b, t) == Some(d)
  }

  lemma AcceptAnswersIn(dist: Distance, db: Db, id: Id, now: Time, vehicle: Option<nat>, o: Id)
    requires RowsOk(dist, db) && DispatchOk(db) && id in db.offers && o in db.offers && db.offers[o].state == Offered
    ensures var f := db.offers[id];
      AcceptedHonestly(db, T.AcceptInTx(db, id, f.driver, f.trip, now, vehicle).0, id, now, vehicle, o)
  {
    var f := db.offers[id];
    var (b, r) := T.AcceptInTx(db, id, f.driver, f.trip, now, vehicle);
    DispatchResults.AcceptDecidesIn(dist, db, id, now, vehicle);
    DispatchResults.AcceptWritesIn(dist, db, id, now, vehicle);
    if f.state == Offered {
      assert OfferOk(db, id);
    }
    DecisionIsHonest(db, b, id, now, vehicle, r, o);
  }

  /** What the accept of offer `id` may do to offer `o`. */
  ghost predicate AcceptedHonestly(db: Db, b: Db, id: Id, now: Time, vehicle: Option<nat>, o: Id)
    requires id in db.offers && o in db.offers
  {
    var f := db.offers[id];
    && o in b.offers && id in b.offers
    && (b.offers[o] != db.offers[o] ==>
          if o != id then
            && b.offers[o] == db.offers[o].(state := Revoked) && db.offers[o].trip == f.trip
            && f.state == Offered && b.offers[id] == f.(state := OfferAccepted) && BoundBy(db, b, f.trip, f.driver)
          else if b.offers[o].state == Expired then b.offers[o] == f.(state := Expired) && f.expiresAt <= now
          else
            && b.offers[o] == f.(state := OfferAccepted)
            && now < f.expiresAt
            && f.driver !in db.guards
            && HasGuard(b, f.driver, f.trip)
            && vehicle.Some? && vehicle.value >= SeatsOf(db, f.trip))
  }

  lemma DecisionIsHonest(db: Db, b: Db, id: Id, now: Time, vehicle: Option<nat>, r: T.AcceptResult, o: Id)
    requires id in db.offers && o in db.offers && db.offers[o].state == Offered
    requires db.offers[id].state == Offered ==> T.Dispatchable(db, db.offers[id].trip)
    requires r == DispatchResults.Decision(db, id, now, vehicle) && DispatchResults.AcceptWrites(db, b, id, r)
    ensures AcceptedHonestly(db, b, id, now, vehicle, o)
  {
  }

  lemma AcceptAnswers(dist: Distance, w: World, s: Step, o: Id)
    requires Inv(dist, w) && s.Accept? && o in w.db.offers && w.db.offers[o].state == Offered
    requires o in Apply(dist, w, s).db.offers && Apply(dist, w, s).db.offers[o] != w.db.offers[o]
    ensures Answers(w, Apply(dist, w, s), s, o, Apply(dist, w, s).db.offers[o].state)
  {
    if s.seen in w.mem.offers {
      LiveIsClaimable(dist, w, o);
      AcceptAnswersIn(dist, w.db, s.seen.offer, s.now, s.vehicle, o);
      HonestAnswers(w, Apply(dist, w, s), s, o);
    }
  }

  lemma LiveIsClaimable(dist: Distance, w: World, o: Id)
    requires Inv(dist, w) && o in w.db.offers && w.db.offers[o].state == Offered
    ensures Claimable(w.db, w.db.offers[o])
  {
    assert OfferOk(w.db, o);
  }

  lemma HonestAnswers(w: World, v: World, s: Step, o: Id)
    requires s.Accept? && s.seen.offer in w.db.offers && o in w.db.offers && w.db.offers[o].state == Offered
    requires s.seen == SeenOffer(s.seen.offer, w.db.offers[s.seen.offer].driver, w.db.offers[s.seen.offer].trip)
    requires Claimable(w.db, w.db.offers[o])
    requires AcceptedHonestly(w.db, v.db, s.seen.offer, s.now, s.vehicle, o) && v.db.offers[o] != w.db.offers[o]
    ensures Answers(w, v, s, o, v.db.offers[o].state)
  {
  }

  lemma OfferStepAnswers(dist: Distance, w: World, s: Step, o: Id)
    requires (s.CreateOffer? || s.DeclineOffer? || s.SweepOffers?) && o in w.db.offers
    requires w.db.offers[o].state == Offered
    requires o in Apply(dist, w, s).db.offers && Apply(dist, w, s).db.offers[o] != w.db.offers[o]
    ensures Answers(w, Apply(dist, w, s), s, o, Apply(dist, w, s).db.offers[o].state)
  {
  }

  /** A transaction that revokes a trip's offers touches no other. */
  lemma RevokedIsOfTrip(offers: map<Id, Offer>, t: TripRef, o: Id)
    requires o in offers && offers[o].state == Offered && T.RevokeLive(offers, t, None)[o] != offers[o]
    ensures offers[o].trip == t && T.RevokeLive(offers, t, None)[o] == offers[o].(state := Revoked)
  {
  }

  lemma HardFailEnds(dist: Distance, w: World, s: Step, o: Id)
    requires (s.HardFailRide? || s.Rearm?) && o in w.db.offers && w.db.offers[o].state == Offered
    requires Claimable(w.db, w.db.offers[o])
    requires o in Apply(dist, w, s).db.offers && Apply(dist, w, s).db.offers[o] != w.db.offers[o]
    ensures Answers(w, Apply(dist, w, s), s, o, Revoked)
  {
    RevokedIsOfTrip(w.db.offers, Solo(if s.Rearm? then s.ride else s.read.ride), o);
  }

  lemma CancelEnds(dist: Distance, w: World, s: Step, o: Id)
    requires (s.DirectClaim? || s.CancelRide?) && o in w.db.offers && w.db.offers[o].state == Offered
    requires Claimable(w.db, w.db.offers[o])
    requires o in Apply(dist, w, s).db.offers && Apply(dist, w, s).db.offers[o] != w.db.offers[o]
    ensures Answers(w, Apply(dist, w, s), s, o, Revoked)
  {
    RevokedIsOfTrip(w.db.offers, Solo(s.ride), o);
  }

  lemma AbortEnds(dist: Distance, w: World, s: Step, o: Id)
    requires s.AbortPool? && o in w.db.offers && w.db.offers[o].state == Offered && Claimable(w.db, w.db.offers[o])
    requires o in Apply(dist, w, s).db.offers && Apply(dist, w, s).db.offers[o] != w.db.offers[o]
    ensures Answers(w, Apply(dist, w, s), s, o, Revoked)
  {
    RevokedIsOfTrip(w.db.offers, Shared(s.pool), o);
  }

  lemma StepAnswers(dist: Distance, w: World, s: Step, o: Id)
    requires Inv(dist, w) && o in w.db.offers && w.db.offers[o].state == Offered
    requires o in Apply(dist, w, s).db.offers && Apply(dist, w, s).db.offers[o] != w.db.offers[o]
    ensures Answers(w, Apply(dist, w, s), s, o, Apply(dist, w, s).db.offers[o].state)
  {
    LiveIsClaimable(dist, w, o);
    if s.Accept? {
      AcceptAnswers(dist, w, s, o);
    } else if s.CreateOffer? || s.DeclineOffer? || s.SweepOffers? {
      OfferStepAnswers(dist, w, s, o);
    } else if s.HardFailRide? || s.Rearm? {
      HardFailEnds(dist, w, s, o);
    } else if s.DirectClaim? || s.CancelRide? {
      CancelEnds(dist, w, s, o);
    } else if s.AbortPool? {
      AbortEnds(dist, w, s, o);
    } else {
      Preservation.OtherStepOffers(dist, w, s);
    }
  }

  lemma NewOffersAreLive(dist: Distance, w: World, s: Step, o: Id)
    requires o !in w.db.offers && o in Apply(dist, w, s).db.offers
    ensures Apply(dist, w, s).db.offers[o].state == Offered
  {
    if !s.CreateOffer? {
      KeysStay(dist, w, s);
    }
  }

  lemma KeysStay(dist: Distance, w: World, s: Step)
    requires !s.CreateOffer?
    ensures Apply(dist, w, s).db.offers.Keys == w.db.offers.Keys
  {
    if s.Accept? {
      R.AcceptIs(w.db, s.seen.offer, s.seen.driver, s.seen.trip, s.now, s.vehicle);
    } else if !Preservation.OnOffers(s) {
      Preservation.OtherStepOffers(dist, w, s);
    }
  }

  /** The step from point `k` answered the offer. */
  predicate AnswersAt(h: History, k: nat, o: Id, to: OfferState)
    requires k < |h.steps| < |h.states|
  {
    Answers(h.states[k], h.states[k + 1], h.steps[k], o, to)
  }

  lemma AnswerStays(a: map<Id, Offer>, b: map<Id, Offer>, o: Id)
    requires OffersFollow(a, b) && o in a && a[o].state != Offered
    ensures o in b && b[o] == a[o]
  {
  }

  /** An answered offer was answered before, or by this step. */
  lemma CauseOfStep(dist: Distance, w: World, s: Step, o: Id)
    requires Inv(dist, w) && o in Apply(dist, w, s).db.offers && Apply(dist, w, s).db.offers[o].state != Offered
    ensures var v := Apply(dist, w, s);
      o in w.db.offers && (w.db.offers[o] == v.db.offers[o] || Answers(w, v, s, o, v.db.offers[o].state))
  {
    Preservation.StepOffers(dist, w, s);
    if o !in w.db.offers {
      NewOffersAreLive(dist, w, s, o);
    } else if w.db.offers[o].state != Offered {
      AnswerStays(w.db.offers, Apply(dist, w, s).db.offers, o);
    } else {
      StepAnswers(dist, w, s, o);
    }
  }

  lemma CauseAt(dist: Distance, h: History, n: nat, o: Id)
    requires IsRun(dist, h) && n < |h.steps| && o in h.states[n + 1].db.offers
    requires h.states[n + 1].db.offers[o].state != Offered
    ensures o in h.states[n].db.offers
    ensures h.states[n].db.offers[o] == h.states[n + 1].db.offers[o]
      || AnswersAt(h, n, o, h.states[n + 1].db.offers[o].state)
  {
    RunKeeps(dist, h, n);
    assert StepAt(dist, h, n);
    CauseOfStep(dist, h.states[n], h.steps[n], o);
  }

  /** An answered offer was answered by a step of the run: its own driver accepting or declining in time, the clock,
      or what ended its trip's generation. */
  lemma {:induction false} AnsweredWithCause(dist: Distance, h: History, n: nat, o: Id)
    requires IsRun(dist, h) && n < |h.states| && o in h.states[n].db.offers && h.states[n].db.offers[o].state != Offered
    ensures exists k :: 0 <= k < n && AnswersAt(h, k, o, h.states[n].db.offers[o].state)
  {
    if n > 0 {
      CauseAt(dist, h, n - 1, o);
      if h.states[n - 1].db.offers[o] == h.states[n].db.offers[o] {
        AnsweredWithCause(dist, h, n - 1, o);
      }
    }
  }

  /** ... and by no other: an offer is answered once. */
  lemma AnsweredOnce(dist: Distance, h: History, j: nat, k: nat, o: Id, early: OfferState, late: OfferState)
    requires IsRun(dist, h) && j < |h.steps| && k < |h.steps| && AnswersAt(h, j, o, early) && AnswersAt(h, k, o, late)
    ensures j == k && early == late
  {
    if j < k {
      NotAnsweredAgain(dist, h, j, k, o, early);
    } else if k < j {
      NotAnsweredAgain(dist, h, k, j, o, late);
    }
  }

  lemma NotAnsweredAgain(dist: Distance, h: History, j: nat, k: nat, o: Id, early: OfferState)
    requires IsRun(dist, h) && j < k < |h.steps| && AnswersAt(h, j, o, early)
    ensures o in h.states[k].db.offers && h.states[k].db.offers[o].state == early
  {
    RunFollows(dist, h, j + 1, k);
    AnswerStays(h.states[j + 1].db.offers, h.states[k].db.offers, o);
  }

  /** A revoked offer could not have been accepted any more: its trip is taken, over, or in a later generation. */
  lemma RevokedIsOver(dist: Distance, h: History, n: nat, o: Id)
    requires IsRun(dist, h) && n < |h.states|
    requires o in h.states[n].db.offers && h.states[n].db.offers[o].state == Revoked
    ensures var db := h.states[n].db;
      T.Dispatchable(db, db.offers[o].trip) ==> db.offers[o].generation < T.Generation(db, db.offers[o].trip)
  {
    RunKeeps(dist, h, n);
    assert OfferOk(h.states[n].db, o);
  }

  // ── waves ─────────────────────────────────────────────────────────────────

  /** What a wave leaves behind is what a run of single offers leaves behind, so everything proved of runs holds
      after waves. */
  lemma {:induction false} WaveIsARun(dist: Distance, h: History, q: T.OfferRequest, candidates: seq<Id>,
                                      ids: seq<Id>, now: seq<Time>, locked: set<Id>, n: nat)
    returns (after: History)
    requires IsRun(dist, h) && n <= |candidates| == |ids| == |now|
    ensures IsRun(dist, after) && |after.steps| == |h.steps| + n && h.steps <= after.steps
    ensures forall i :: 0 <= i < n ==>
      after.steps[|h.steps| + i] == Step.CreateOffer(ids[i], q.(driver := candidates[i]), now[i], locked)
    ensures after.states[|after.steps|].db == Waved(h.states[|h.steps|].db, q, candidates, ids, now, locked, n)
  {
    if n == 0 {
      after := h;
    } else {
      var before := WaveIsARun(dist, h, q, candidates, ids, now, locked, n - 1);
      after := Extend(dist, before, Step.CreateOffer(ids[n - 1], q.(driver := candidates[n - 1]), now[n - 1], locked));
    }
  }

  // ── an offer is good until it ends ────────────────────────────────────────

  /** A step that neither declines the offer nor reads a clock past its end. */
  predicate LetsStand(s: Step, o: Id, d: Id, end: Time) {
    match s
    case DeclineOffer(offer, driver) => offer != o || driver != d
    case CreateOffer(_, _, now, _) => now < end
    case Accept(_, now, _) => now < end
    case SweepOffers(now, _) => now < end
    case _ => true
  }

  /** The step at `m` made the offer. */
  predicate MadeAt(h: History, m: nat, o: Id)
    requires m < |h.steps| < |h.states|
  {
    h.steps[m].CreateOffer? && h.steps[m].offer == o && o !in h.states[m].db.offers && o in h.states[m + 1].db.offers
  }

  /** When an offer made by this step ends: never at once. */
  function EndOf(s: Step): Time
    requires s.CreateOffer?
  {
    s.now + if s.request.ttl > 0 then s.request.ttl else 1
  }

  lemma MadeAsAsked(dist: Distance, w: World, s: Step)
    requires s.CreateOffer? && s.offer !in w.db.offers && s.offer in Apply(dist, w, s).db.offers
    ensures var q := s.request;
      Apply(dist, w, s).db.offers[s.offer] == Offer(q.trip, q.driver, q.generation, q.wave, Offered, s.now, EndOf(s))
  {
  }

  lemma MadeOffer(dist: Distance, h: History, m: nat, n: nat, o: Id)
    requires IsRun(dist, h) && m < n < |h.states| && MadeAt(h, m, o)
    ensures o in h.states[n].db.offers
    ensures var q, f := h.steps[m].request, h.states[n].db.offers[o];
      f == Offer(q.trip, q.driver, q.generation, q.wave, f.state, h.steps[m].now, EndOf(h.steps[m]))
  {
    RunFollows(dist, h, m + 1, n);
    assert StepAt(dist, h, m);
    MadeAsAsked(dist, h.states[m], h.steps[m]);
  }

  lemma NotAnsweredBefore(dist: Distance, h: History, m: nat, k: nat, o: Id, to: OfferState)
    requires IsRun(dist, h) && m < |h.steps| && k < |h.steps| && MadeAt(h, m, o) && AnswersAt(h, k, o, to)
    ensures m < k
  {
    if k <= m {
      RunFollows(dist, h, k, m);
    }
  }

  /** While its trip waits in its generation, an offer its driver has not declined stands until it ends. */
  lemma OfferStands(dist: Distance, h: History, m: nat, n: nat, o: Id)
    requires IsRun(dist, h) && m < n < |h.states| && MadeAt(h, m, o)
    requires var q := h.steps[m].request;
      && Waits(h.states[n].db, q.trip, q.generation)
      && forall k :: m < k < n ==> LetsStand(h.steps[k], o, q.driver, EndOf(h.steps[m]))
    ensures o in h.states[n].db.offers && h.states[n].db.offers[o].state == Offered
  {
    MadeOffer(dist, h, m, n, o);
    var to := h.states[n].db.offers[o].state;
    if to != Offered {
      AnsweredWithCause(dist, h, n, o);
      var k :| 0 <= k < n && AnswersAt(h, k, o, to);
      NotAnsweredBefore(dist, h, m, k, o, to);
      MadeOffer(dist, h, m, k, o);
      StandingIsNotAnswered(h, m, k, o, to);
      NotWaitingAfter(dist, h, n, o);
    }
  }

  predicate Waits(db: Db, t: TripRef, g: nat) {
    T.Dispatchable(db, t) && T.Generation(db, t) == g
  }

  lemma StandingIsNotAnswered(h: History, m: nat, k: nat, o: Id, to: OfferState)
    requires m < k < |h.steps| < |h.states| && h.steps[m].CreateOffer? && AnswersAt(h, k, o, to)
    requires h.states[k].db.offers[o].expiresAt == EndOf(h.steps[m])
    requires LetsStand(h.steps[k], o, h.states[k].db.offers[o].driver, EndOf(h.steps[m]))
    ensures to == OfferAccepted || to == Revoked
  {
  }

  lemma NotWaitingAfter(dist: Distance, h: History, n: nat, o: Id)
    requires IsRun(dist, h) && n < |h.states| && o in h.states[n].db.offers
    requires h.states[n].db.offers[o].state == OfferAccepted || h.states[n].db.offers[o].state == Revoked
    ensures !Waits(h.states[n].db, h.states[n].db.offers[o].trip, h.states[n].db.offers[o].generation)
  {
    RunKeeps(dist, h, n);
    assert OfferOk(h.states[n].db, o);
  }

  /** ... and accepting it before then is granted to a driver with seats enough and no other trip, whatever else
      happened in between. */
  lemma StandingOfferIsGranted(dist: Distance, h: History, m: nat, n: nat, o: Id, at: Time, vehicle: Option<nat>)
    requires IsRun(dist, h) && m < n < |h.states| && MadeAt(h, m, o)
    requires var q := h.steps[m].request;
      && Waits(h.states[n].db, q.trip, q.generation)
      && (forall k :: m < k < n ==> LetsStand(h.steps[k], o, q.driver, EndOf(h.steps[m])))
      && at < EndOf(h.steps[m]) && q.driver !in h.states[n].db.guards
      && vehicle.Some? && vehicle.value >= SeatsOf(h.states[n].db, q.trip)
    ensures var q, db := h.steps[m].request, h.states[n].db;
      T.AcceptInTx(db, o, q.driver, q.trip, at, vehicle).1 == T.Granted(q.generation, false)
  {
    OfferStands(dist, h, m, n, o);
    MadeOffer(dist, h, m, n, o);
    OrderAt(dist, h, n);
    LiveOfferIsGranted(dist, h.states[n].db, o, at, vehicle);
  }

  lemma OrderAt(dist: Distance, h: History, n: nat)
    requires IsRun(dist, h) && n < |h.states|
    ensures RowsOk(dist, h.states[n].db) && DispatchOk(h.states[n].db)
  {
    RunKeeps(dist, h, n);
  }

  lemma LiveOfferIsGranted(dist: Distance, db: Db, o: Id, at: Time, vehicle: Option<nat>)
    requires RowsOk(dist, db) && DispatchOk(db) && o in db.offers && db.offers[o].state == Offered
    requires at < db.offers[o].expiresAt && db.offers[o].driver !in db.guards
    requires vehicle.Some? && vehicle.value >= SeatsOf(db, db.offers[o].trip)
    ensures var f := db.offers[o];
      T.AcceptInTx(db, o, f.driver, f.trip, at, vehicle).1 == T.Granted(f.generation, false)
  {
    DispatchResults.AcceptDecidesIn(dist, db, o, at, vehicle);
  }

  /** Selection, wave and answer together: uninterrupted, a chosen driver who accepts within twelve seconds of the
      offer is granted the trip. */
  lemma ChosenDriverIsGranted(dist: Distance, h: History, t: TripRef, wave: nat, g: nat, seats: nat,
                              vehicle: Id -> Option<nat>, now: Time, raw: seq<Id>, k: nat, chosen: seq<Id>,
                              offers: D.Inserts, i: nat, at: Time)
    requires IsRun(dist, h) && g >= 1 && Waits(h.states[|h.steps|].db, t, g)
    requires var db := h.states[|h.steps|].db;
      && D.Selected(db, t, g, seats, vehicle, now, raw, k, chosen) && seats >= SeatsOf(db, t)
      && |offers.ids| == |chosen| == |offers.now| && D.NoRepeats(offers.ids)
      && (forall j :: 0 <= j < |chosen| ==> offers.ids[j] !in db.offers && now <= offers.now[j])
      && i < |chosen| && !D.Blocked(db.offers, offers.locked, chosen[i]) && at < offers.now[i] + 12_000
    ensures var b := D.Wave(h.states[|h.steps|].db, t, wave, g, chosen, offers);
      T.AcceptInTx(b, offers.ids[i], chosen[i], t, at, vehicle(chosen[i])).1 == T.Granted(g, false)
  {
    var db := h.states[|h.steps|].db;
    D.NearestDriversAreOffered(db, t, wave, g, seats, vehicle, now, raw, k, chosen, offers);
    WaveKeepsOrder(dist, h, t, wave, g, chosen, offers);
    assert chosen[i] in chosen;
    LiveOfferIsGranted(dist, D.Wave(db, t, wave, g, chosen, offers), offers.ids[i], at, vehicle(chosen[i]));
  }

  lemma WaveKeepsOrder(dist: Distance, h: History, t: TripRef, wave: nat, g: nat, chosen: seq<Id>, offers: D.Inserts)
    requires IsRun(dist, h) && |offers.ids| == |chosen| == |offers.now|
    ensures var b := D.Wave(h.states[|h.steps|].db, t, wave, g, chosen, offers); RowsOk(dist, b) && DispatchOk(b)
  {
    var q := T.OfferRequest(t, 0, g, wave, D.OFFER_TTL_MS);
    var after := WaveIsARun(dist, h, q, chosen, offers.ids, offers.now, offers.locked, |chosen|);
    OrderAt(dist, after, |after.steps|);
  }

  // ── no-shows ──────────────────────────────────────────────────────────────

  /** The driver's step brings the ride from `en_route` to `arrived` and stamps when. */
  predicate Arrives(a: map<Id, Ride>, b: map<Id, Ride>, s: Step, r: Id) {
    && r in a && r in b && s.MoveRide? && s.ride == r && s.event == T.MarkArrived
    && a[r].status == EnRoute && a[r].driver == Some(s.driver)
    && b[r] == a[r].(status := Arrived, arrivedAt := Some(s.now))
  }

  /** A party's step turns the ride, `arrived` long enough ago, into a no-show. */
  predicate GivesUp(a: map<Id, Ride>, b: map<Id, Ride>, s: Step, r: Id) {
    && r in a && r in b && s.CancelRide? && s.ride == r && s.cancel.noShow
    && (if s.cancel.actor == T.Client then a[r].passenger == s.cancel.caller else a[r].driver == Some(s.cancel.caller))
    && a[r].status == Arrived && a[r].arrivedAt.Some? && s.now - a[r].arrivedAt.value >= s.cancel.waitMs
    && b[r] == a[r].(status := NoShow)
  }

  /** Once stamped, a ride's arrival stands; only an arrival stamps one, and only giving up makes a no-show. */
  predicate StampStep(a: map<Id, Ride>, b: map<Id, Ride>, s: Step, r: Id) {
    && (r in b && b[r].arrivedAt.Some? ==> (r in a && b[r].arrivedAt == a[r].arrivedAt) || Arrives(a, b, s, r))
    && (r in b && b[r].status == NoShow ==> (r in a && b[r] == a[r]) || GivesUp(a, b, s, r))
  }

  lemma AcceptStamps(db: Db, id: Id, driver: Id, trip: TripRef, now: Time, vehicle: Option<nat>, s: Step, r: Id)
    ensures StampStep(db.rides, T.AcceptInTx(db, id, driver, trip, now, vehicle).0.rides, s, r)
  {
  }

  lemma MoveStamps(dist: Distance, w: World, s: Step, r: Id)
    requires s.MoveRide? || s.CancelRide?
    ensures StampStep(w.db.rides, Apply(dist, w, s).db.rides, s, r)
  {
  }

  lemma RideStepStamps(dist: Distance, w: World, s: Step, r: Id)
    requires R.OnRides(s)
    ensures StampStep(w.db.rides, Apply(dist, w, s).db.rides, s, r)
  {
    if s.MoveRide? || s.CancelRide? {
      MoveStamps(dist, w, s, r);
    }
  }

  lemma PoolStepKeepsRides(dist: Distance, w: World, s: Step)
    requires R.OnPools(s)
    ensures Apply(dist, w, s).db.rides == w.db.rides
  {
    if s.JoinPool? {
      R.JoinIs(dist, w.db, s.pool, s.seat);
    }
  }

  lemma StepStamps(dist: Distance, w: World, s: Step, r: Id)
    ensures StampStep(w.db.rides, Apply(dist, w, s).db.rides, s, r)
  {
    if R.OnRides(s) {
      RideStepStamps(dist, w, s, r);
    } else if s.Accept? {
      AcceptStamps(w.db, s.seen.offer, s.seen.driver, s.seen.trip, s.now, s.vehicle, s, r);
    } else if R.OnPools(s) {
      PoolStepKeepsRides(dist, w, s);
    } else {
      R.OtherStepKeepsRows(dist, w, s);
    }
  }

  predicate ArrivesAt(h: History, k: nat, r: Id, at: Time)
    requires k < |h.steps| < |h.states|
  {
    Arrives(h.states[k].db.rides, h.states[k + 1].db.rides, h.steps[k], r) && h.steps[k].now == at
  }

  predicate GivesUpAt(h: History, k: nat, r: Id)
    requires k < |h.steps| < |h.states|
  {
    GivesUp(h.states[k].db.rides, h.states[k + 1].db.rides, h.steps[k], r)
  }

  lemma StampAt(dist: Distance, h: History, n: nat, r: Id)
    requires IsRun(dist, h) && n < |h.steps|
    ensures StampStep(h.states[n].db.rides, h.states[n + 1].db.rides, h.steps[n], r)
  {
    assert StepAt(dist, h, n);
    StepStamps(dist, h.states[n], h.steps[n], r);
  }

  /** The stamp of a ride is the time of the step that brought it to `arrived`. */
  lemma {:induction false} StampedByArrival(dist: Distance, h: History, n: nat, r: Id)
    requires IsRun(dist, h) && n < |h.states| && r in h.states[n].db.rides && h.states[n].db.rides[r].arrivedAt.Some?
    ensures exists k :: 0 <= k < n && ArrivesAt(h, k, r, h.states[n].db.rides[r].arrivedAt.value)
  {
    if n > 0 {
      StampAt(dist, h, n - 1, r);
      if r in h.states[n - 1].db.rides && h.states[n - 1].db.rides[r].arrivedAt == h.states[n].db.rides[r].arrivedAt {
        StampedByArrival(dist, h, n - 1, r);
      } else {
        assert ArrivesAt(h, n - 1, r, h.states[n].db.rides[r].arrivedAt.value);
      }
    }
  }

  lemma {:induction false} NoShowWasGivenUp(dist: Distance, h: History, n: nat, r: Id)
    requires IsRun(dist, h) && n < |h.states| && r in h.states[n].db.rides && h.states[n].db.rides[r].status == NoShow
    ensures exists k :: 0 <= k < n && GivesUpAt(h, k, r)
  {
    if n > 0 {
      StampAt(dist, h, n - 1, r);
      if r in h.states[n - 1].db.rides && h.states[n - 1].db.rides[r] == h.states[n].db.rides[r] {
        NoShowWasGivenUp(dist, h, n - 1, r);
      } else {
        assert GivesUpAt(h, n - 1, r);
      }
    }
  }

  /** The driver arrived at step `j`, and a party gave up on the passenger at step `k`, no less than the wait after
      the arrival. */
  predicate WaitedFor(h: History, j: nat, k: nat, r: Id)
    requires j < k < |h.steps| < |h.states|
  {
    && r in h.states[k].db.rides && h.states[k].db.rides[r].arrivedAt.Some?
    && ArrivesAt(h, j, r, h.states[k].db.rides[r].arrivedAt.value)
    && GivesUpAt(h, k, r)
    && h.steps[k].now - h.steps[j].now >= h.steps[k].cancel.waitMs
  }

  /** Nobody is marked a no-show before the driver had arrived and waited. */
  lemma NoShowWasWaitedFor(dist: Distance, h: History, n: nat, r: Id)
    requires IsRun(dist, h) && n < |h.states| && r in h.states[n].db.rides && h.states[n].db.rides[r].status == NoShow
    ensures exists j, k :: 0 <= j < k < n && WaitedFor(h, j, k, r)
  {
    NoShowWasGivenUp(dist, h, n, r);
    var k :| 0 <= k < n && GivesUpAt(h, k, r);
    StampedByArrival(dist, h, k, r);
    var j :| 0 <= j < k && ArrivesAt(h, j, r, h.states[k].db.rides[r].arrivedAt.value);
    assert WaitedFor(h, j, k, r);
  }
}
