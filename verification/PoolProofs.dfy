/** Every transaction on a pool row keeps the row consistent and only moves it forward. */
module PoolProofs {
  import opened Types
  import opened Invariants
  import I = Itinerary
  import T = Trips
  import P = Pools

  // ── stops ─────────────────────────────────────────────────────────────────

  ghost predicate Prefixed(stops: seq<StopRow>) {
    forall i :: P.FirstPending(stops) <= i < |stops| ==> !stops[i].confirmed
  }

  lemma FirstPendingIs(stops: seq<StopRow>, n: nat)
    requires n <= |stops|
    requires forall i :: 0 <= i < n ==> stops[i].confirmed
    requires n < |stops| ==> !stops[n].confirmed
    ensures P.FirstPending(stops) == n
  {
  }

  lemma {:induction false} PendingIsTheRest(stops: seq<StopRow>)
    requires Prefixed(stops)
    ensures P.Pending(stops) == |stops| - P.FirstPending(stops)
  {
    if stops != [] {
      var tail := stops[1..];
      if stops[0].confirmed {
        forall i | P.FirstPending(tail) <= i < |tail| ensures !tail[i].confirmed {
          assert tail[i] == stops[i + 1];
        }
      } else {
        forall i | 0 <= i < |tail| ensures !tail[i].confirmed {
          assert tail[i] == stops[i + 1];
        }
        FirstPendingIs(tail, 0);
      }
      PendingIsTheRest(tail);
    }
  }

  /** Confirming the first pending stop moves the front by one. */
  lemma ConfirmAdvances(stops: seq<StopRow>)
    requires Prefixed(stops) && P.FirstPending(stops) < |stops|
    ensures var next := P.Confirm(stops, P.FirstPending(stops));
      P.FirstPending(next) == P.FirstPending(stops) + 1 && Prefixed(next)
  {
    var i := P.FirstPending(stops);
    FirstPendingIs(P.Confirm(stops, i), i + 1);
  }

  // ── seats ─────────────────────────────────────────────────────────────────

  lemma MembersAreDistinct(members: seq<Member>)
    requires forall i, j :: 0 <= i < j < |members| ==> members[i].rider.passenger != members[j].rider.passenger
    ensures I.Distinct(multiset(P.Riders(members)))
  {
    I.DistinctFromPassengers(P.Riders(members));
  }

  lemma InsertKeepsRow(dist: Distance, pools: map<Id, Pool>, id: Id, q: P.SeatRequest, fare: nat)
    requires id in pools && P.InsertMember(pools, id, q, fare).Inserted?
    requires pools[id].members == [] || PoolOk(dist, pools[id])
    requires pools[id].members == [] ==>
      && pools[id].seatCount == 0
      && pools[id].anchor == q.rider.origin
      && pools[id].stops == []
      && pools[id].generation == 0
      && pools[id].claimedBy == None
    ensures var next := P.InsertMember(pools, id, q, fare).pool;
      PoolOk(dist, next) && PoolFollows(pools[id], next)
  {
    var a, b := pools[id], P.InsertMember(pools, id, q, fare).pool;
    assert !P.Seated(a, q.rider.passenger);
    FirstPendingIs(b.stops, 0);
  }

  // ── closing and failing ───────────────────────────────────────────────────

  lemma CloseKeepsRow(dist: Distance, a: Pool, reason: PoolState)
    requires PoolOk(dist, a) && a.state == Open && T.ClaimableState(reason)
    ensures P.CloseRow(dist, a, reason).Some?
    ensures var b := P.CloseRow(dist, a, reason).value;
      PoolOk(dist, b) && PoolFollows(a, b)
  {
    var b := P.CloseRow(dist, a, reason).value;
    PlannedItinerary(dist, b);
    FirstPendingIs(b.stops, 0);
  }

  lemma PlannedItinerary(dist: Distance, b: Pool)
    requires MembersOk(b) && b.stops == P.Rows(I.Plan(dist, b.anchor, P.Riders(b.members)))
    ensures ItineraryOk(dist, b) && forall i :: 0 <= i < |b.stops| ==> !b.stops[i].confirmed
  {
    MembersAreDistinct(b.members);
    I.PlanShape(dist, b.anchor, P.Riders(b.members));
  }

  lemma SameItinerary(dist: Distance, a: Pool, b: Pool)
    requires ItineraryOk(dist, a) && a.anchor == b.anchor
    requires |a.members| == |b.members| && forall i :: 0 <= i < |a.members| ==> SeatKept(a.members[i], b.members[i])
    requires |a.stops| == |b.stops| && forall i :: 0 <= i < |a.stops| ==> StopKept(a.stops[i], b.stops[i])
    ensures ItineraryOk(dist, b)
  {
    assert P.Riders(a.members) == P.Riders(b.members);
  }

  lemma AbortKeepsRow(dist: Distance, a: Pool)
    requires PoolOk(dist, a) && T.ClaimableState(a.state) && a.claimedBy == None
    ensures PoolOk(dist, P.AbortRow(a)) && PoolFollows(a, P.AbortRow(a))
  {
    SameItinerary(dist, a, P.AbortRow(a));
  }

  lemma ClaimKeepsRow(dist: Distance, a: Pool, driver: Id)
    requires PoolOk(dist, a) && T.ClaimableState(a.state) && a.claimedBy == None
    ensures PoolOk(dist, T.ClaimShared(a, driver)) && PoolFollows(a, T.ClaimShared(a, driver))
  {
    SameItinerary(dist, a, T.ClaimShared(a, driver));
  }

  // ── confirming ────────────────────────────────────────────────────────────

  /** The pool row a confirmation leaves. */
  function Confirmed(a: Pool, kind: StopKind): Pool
    requires P.FirstPending(a.stops) < |a.stops|
  {
    var started := P.Started(a, kind).(stops := P.Confirm(a.stops, P.FirstPending(a.stops)));
    if P.Pending(a.stops) - 1 != 0 || P.Completed(started) == None then started.(version := started.version + 1)
    else P.Completed(started).value.(version := P.Completed(started).value.version + 1)
  }

  /** A pickup comes first, so the first confirmation starts the pool and is never the last. */
  lemma ConfirmMoves(a: Pool, kind: StopKind, index: nat)
    requires MembersOk(a) && ProgressOk(a) && a.claimedBy != None && a.state != Open && a.state != Aborted
    requires |a.stops| == 2 * |a.members| && index == P.FirstPending(a.stops) < |a.stops|
    requires kind == if index < |a.members| then Pickup else Dropoff
    ensures P.Pending(a.stops) == |a.stops| - index
    ensures P.Completed(P.Started(a, kind).(stops := P.Confirm(a.stops, index))).Some?
    ensures var b := Confirmed(a, kind);
      && b.stops == P.Confirm(a.stops, index)
      && b.state == (if index + 1 == |a.stops| then Finished else ClosedStarted)
      && b == a.(stops := b.stops, state := b.state, version := b.version,
                 members := if b.state == Finished then P.ReleaseMembers(a.members) else a.members)
      && a.version < b.version
  {
    PendingIsTheRest(a.stops);
  }

  lemma ConfirmedRow(a: Pool, b: Pool)
    requires MembersOk(a) && ProgressOk(a) && a.claimedBy != None && a.state != Open && a.state != Aborted
    requires 2 <= |a.stops| && P.FirstPending(a.stops) < |a.stops|
    requires b.stops == P.Confirm(a.stops, P.FirstPending(a.stops))
    requires b.state == if P.FirstPending(a.stops) + 1 == |a.stops| then Finished else ClosedStarted
    requires b == a.(stops := b.stops, state := b.state, version := b.version,
                     members := if b.state == Finished then P.ReleaseMembers(a.members) else a.members)
    requires a.version < b.version
    ensures MembersOk(b) && ProgressOk(b) && PoolFollows(a, b)
  {
    ConfirmAdvances(a.stops);
  }

  /** With the lock held, a confirmation either advances the row or is refused; the completion guard never fails. */
  lemma ConfirmKeepsRow(dist: Distance, a: Pool, driver: Id, index: nat, kind: StopKind)
    requires PoolOk(dist, a) && P.ConfirmVerdict(a, driver, index, kind) == None
    ensures index == P.FirstPending(a.stops) && P.Pending(a.stops) == |a.stops| - index
    ensures P.Completed(P.Started(a, kind).(stops := P.Confirm(a.stops, index))).Some?
    ensures var b := Confirmed(a, kind);
      && b.stops == P.Confirm(a.stops, index)
      && b.state == (if index + 1 == |a.stops| then Finished else ClosedStarted)
      && PoolOk(dist, b) && PoolFollows(a, b)
  {
    ConfirmMoves(a, kind, index);
    ConfirmedRow(a, Confirmed(a, kind));
    SameItinerary(dist, a, Confirmed(a, kind));
  }
}
