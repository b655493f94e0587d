/** Stop confirmations over whole runs: which are taken, what they leave, and that a claimed pool can always be
    finished. */
module StopResults {
  import opened Types
  import opened Protocol
  import opened Invariants
  import T = Trips
  import P = Pools
  import R = RowProofs
  import PoolProofs
  import DispatchResults
  import opened Runs

  // ── one confirmation ──────────────────────────────────────────────────────

  /** Exactly the last `left` stops are still to be confirmed. */
  predicate LeftOver(stops: seq<StopRow>, left: int) {
    0 <= left <= |stops| && forall i :: 0 <= i < |stops| ==> (stops[i].confirmed <==> i < |stops| - left)
  }

  /** What a confirmation leaves: the stop confirmed, the pool started, or over with its riders and its driver free. */
  ghost predicate StopTaken(a: Db, b: Db, p: Id, driver: Id, index: nat)
    requires p in a.pools && index < |a.pools[p].stops|
  {
    var pool, last := a.pools[p], index + 1 == |a.pools[p].stops|;
    && p in b.pools
    && b == a.(pools := a.pools[p := b.pools[p]], guards := if last then a.guards - {driver} else a.guards)
    && b.pools[p] == pool.(
         stops := pool.stops[index := pool.stops[index].(confirmed := true)],
         state := if last then Finished else ClosedStarted,
         version := b.pools[p].version,
         members := if last then b.pools[p].members else pool.members)
    && |b.pools[p].members| == |pool.members|
    && forall i :: 0 <= i < |pool.members| ==>
         b.pools[p].members[i] == pool.members[i].(active := !last && pool.members[i].active)
  }

  /** A confirmation is taken exactly from the pool's own driver for the first stop that is left, under its own kind. */
  ghost predicate ConfirmAnswered(a: Db, b: Db, r: P.ConfirmResult, p: Id, driver: Id, index: nat, kind: StopKind) {
    if p !in a.pools then r == P.StopNotFound && b == a
    else
      var stops := a.pools[p].stops;
      if a.pools[p].claimedBy != Some(driver) then r == P.StopNotOwner && b == a
      else if index >= |stops| then r == P.StopNotFound && b == a
      else if kind != stops[index].kind then r == P.WrongType && b == a
      else if stops[index].confirmed then
        b == a && r.Duplicate? && LeftOver(stops, r.pending) && (r.completed <==> r.pending == 0)
      else if exists j :: 0 <= j < index && !stops[j].confirmed then r == P.OutOfOrder && b == a
      else
        && r == P.Confirmed(|stops| - index - 1, index == |stops| - 1)
        && LeftOver(stops, |stops| - index) && StopTaken(a, b, p, driver, index)
  }

  lemma ConfirmAnsweredIn(dist: Distance, db: Db, p: Id, driver: Id, index: nat, kind: StopKind)
    requires p in db.pools ==> PoolOk(dist, db.pools[p])
    requires p in db.pools && db.pools[p].claimedBy == Some(driver) && db.pools[p].state != Finished ==>
      HasGuard(db, driver, Shared(p))
    ensures var (b, r) := P.ConfirmStop(db, p, driver, index, kind); ConfirmAnswered(db, b, r, p, driver, index, kind)
  {
    if p in db.pools && db.pools[p].claimedBy == Some(driver) {
      var pool := db.pools[p];
      PoolProofs.PendingIsTheRest(pool.stops);
      if P.ConfirmVerdict(pool, driver, index, kind) == None {
        TakenIsExact(dist, db, p, driver, index, kind);
      }
    }
  }

  lemma TakenIsExact(dist: Distance, db: Db, p: Id, driver: Id, index: nat, kind: StopKind)
    requires p in db.pools && PoolOk(dist, db.pools[p]) && P.ConfirmVerdict(db.pools[p], driver, index, kind) == None
    requires HasGuard(db, driver, Shared(p))
    ensures var (b, r) := P.ConfirmStop(db, p, driver, index, kind);
      && index < |db.pools[p].stops|
      && r == P.Confirmed(|db.pools[p].stops| - index - 1, index == |db.pools[p].stops| - 1)
      && StopTaken(db, b, p, driver, index)
  {
    R.ConfirmIs(dist, db, p, driver, index, kind);
    RowIsExact(dist, db.pools[p], driver, index, kind);
  }

  lemma RowIsExact(dist: Distance, a: Pool, driver: Id, index: nat, kind: StopKind)
    requires PoolOk(dist, a) && P.ConfirmVerdict(a, driver, index, kind) == None
    ensures index == P.FirstPending(a.stops) < |a.stops|
    ensures var b, last := PoolProofs.Confirmed(a, kind), index + 1 == |a.stops|;
      b == a.(stops := a.stops[index := a.stops[index].(confirmed := true)],
              state := if last then Finished else ClosedStarted,
              version := b.version, members := if last then P.ReleaseMembers(a.members) else a.members)
  {
    PoolProofs.ConfirmMoves(a, kind, index);
  }

  lemma ConfirmAnswers(dist: Distance, h: History, n: nat, p: Id, driver: Id, index: nat, kind: StopKind)
    requires IsRun(dist, h) && n < |h.states|
    ensures var db := h.states[n].db;
      var (b, r) := P.ConfirmStop(db, p, driver, index, kind); ConfirmAnswered(db, b, r, p, driver, index, kind)
  {
    RunKeeps(dist, h, n);
    DispatchResults.GuardsAreExact(dist, h, n, driver, Shared(p));
    ConfirmAnsweredIn(dist, h.states[n].db, p, driver, index, kind);
  }

  // ── a claimed pool can be finished ────────────────────────────────────────

  /** How many stops its driver still has to confirm. */
  function StopsLeft(pool: Pool): nat {
    |pool.stops| - P.FirstPending(pool.stops)
  }

  lemma ClaimedHasStopsLeft(dist: Distance, pool: Pool)
    requires PoolOk(dist, pool) && pool.claimedBy.Some? && pool.state != Finished
    ensures StopsLeft(pool) > 0
  {
  }

  lemma NextStop(dist: Distance, h: History, p: Id, d: Id) returns (longer: History)
    requires IsRun(dist, h) && p in h.states[|h.steps|].db.pools
    requires var pool := h.states[|h.steps|].db.pools[p]; pool.claimedBy == Some(d) && pool.state != Finished
    ensures IsRun(dist, longer) && |longer.steps| == |h.steps| + 1 && h.steps <= longer.steps
    ensures longer.steps[|h.steps|].ConfirmStop? && longer.steps[|h.steps|].pool == p
    ensures longer.steps[|h.steps|].driver == d
    ensures p in longer.states[|longer.steps|].db.pools
    ensures var was, db := h.states[|h.steps|].db.pools[p], longer.states[|longer.steps|].db;
      && StopsLeft(was) > 0 && db.pools[p].claimedBy == Some(d) && StopsLeft(db.pools[p]) == StopsLeft(was) - 1
      && (if StopsLeft(was) == 1 then db.pools[p].state == Finished && d !in db.guards
          else db.pools[p].state != Finished)
  {
    var n := |h.steps|;
    StopsAreLeft(dist, h, p, d);
    var pool := h.states[n].db.pools[p];
    var index := P.FirstPending(pool.stops);
    ConfirmAnswers(dist, h, n, p, d, index, pool.stops[index].kind);
    longer := Extend(dist, h, ConfirmStop(p, d, index, pool.stops[index].kind));
    OnlyConfirms(dist, h.states[n], p, d, index, pool.stops[index].kind);
    NextIsTaken(h.states[n].db, p, d, index);
  }

  lemma StopsAreLeft(dist: Distance, h: History, p: Id, d: Id)
    requires IsRun(dist, h) && p in h.states[|h.steps|].db.pools
    requires var pool := h.states[|h.steps|].db.pools[p]; pool.claimedBy == Some(d) && pool.state != Finished
    ensures StopsLeft(h.states[|h.steps|].db.pools[p]) > 0
  {
    RunKeeps(dist, h, |h.steps|);
    ClaimedHasStopsLeft(dist, h.states[|h.steps|].db.pools[p]);
  }

  lemma OnlyConfirms(dist: Distance, w: World, p: Id, d: Id, index: nat, kind: StopKind)
    ensures Apply(dist, w, ConfirmStop(p, d, index, kind)).db == P.ConfirmStop(w.db, p, d, index, kind).0
  {
  }

  lemma NextIsTaken(a: Db, p: Id, d: Id, index: nat)
    requires p in a.pools && index == P.FirstPending(a.pools[p].stops) < |a.pools[p].stops|
    requires a.pools[p].claimedBy == Some(d)
    requires var kind := a.pools[p].stops[index].kind;
      var (b, r) := P.ConfirmStop(a, p, d, index, kind); ConfirmAnswered(a, b, r, p, d, index, kind)
    ensures var b := P.ConfirmStop(a, p, d, index, a.pools[p].stops[index].kind).0;
      && p in b.pools && b.pools[p].claimedBy == Some(d) && StopsLeft(b.pools[p]) == StopsLeft(a.pools[p]) - 1
      && (if StopsLeft(a.pools[p]) == 1 then b.pools[p].state == Finished && d !in b.guards
          else b.pools[p].state != Finished)
  {
    OneStopFewer(a, P.ConfirmStop(a, p, d, index, a.pools[p].stops[index].kind).0, p, d, index);
  }

  lemma OneStopFewer(a: Db, b: Db, p: Id, d: Id, index: nat)
    requires p in a.pools && index == P.FirstPending(a.pools[p].stops) < |a.pools[p].stops|
    requires StopTaken(a, b, p, d, index) && LeftOver(a.pools[p].stops, |a.pools[p].stops| - index)
    ensures StopsLeft(b.pools[p]) == StopsLeft(a.pools[p]) - 1
  {
    PoolProofs.FirstPendingIs(b.pools[p].stops, index + 1);
  }

  /** From any point of any run, a pool's driver completes it by confirming the stops that are left in their order,
      and is then free. */
  lemma {:induction false} PoolCanBeCompleted(dist: Distance, h: History, p: Id, d: Id) returns (after: History)
    requires IsRun(dist, h) && p in h.states[|h.steps|].db.pools
    requires var pool := h.states[|h.steps|].db.pools[p]; pool.claimedBy == Some(d) && pool.state != Finished
    ensures IsRun(dist, after) && h.steps <= after.steps
    ensures |after.steps| == |h.steps| + StopsLeft(h.states[|h.steps|].db.pools[p])
    ensures forall i :: |h.steps| <= i < |after.steps| ==>
      after.steps[i].ConfirmStop? && after.steps[i].pool == p && after.steps[i].driver == d
    ensures var db := after.states[|after.steps|].db;
      p in db.pools && db.pools[p].state == Finished && d !in db.guards
    decreases StopsLeft(h.states[|h.steps|].db.pools[p])
  {
    var longer := NextStop(dist, h, p, d);
    if StopsLeft(h.states[|h.steps|].db.pools[p]) == 1 {
      after := longer;
    } else {
      after := PoolCanBeCompleted(dist, longer, p, d);
      assert after.steps[|h.steps|] == longer.steps[|h.steps|];
    }
  }
}
