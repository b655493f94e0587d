/** Seats over whole runs: who gets one, who is refused and why, and what a seat or a timeout leaves. */
module SeatResults {
  import opened Types
  import opened Protocol
  import opened Invariants
  import T = Trips
  import P = Pools
  import R = RowProofs
  import PoolProofs
  import opened Runs

  // ── who sits where ────────────────────────────────────────────────────────

  predicate IsSeat(pools: map<Id, Pool>, p: Id, i: int, passenger: Id) {
    p in pools && 0 <= i < |pools[p].members| && pools[p].members[i].rider.passenger == passenger
  }

  /** The passenger is on the way, or waits to be, in some pool. */
  ghost predicate Travels(pools: map<Id, Pool>, passenger: Id) {
    exists p, i :: IsSeat(pools, p, i, passenger) && pools[p].members[i].active
  }

  ghost predicate SitsIn(pools: map<Id, Pool>, p: Id, passenger: Id) {
    exists i :: IsSeat(pools, p, i, passenger)
  }

  /** The request's key produced a seat, in whatever pool and however long ago. */
  ghost predicate KeyHasSeat(pools: map<Id, Pool>, q: P.SeatRequest) {
    q.key.Some? && exists p, i :: IsSeat(pools, p, i, q.rider.passenger) && pools[p].members[i].key == q.key
  }

  // ── what a seat leaves ────────────────────────────────────────────────────

  /** A key whose claim is there is answered with the seat; no other record changes. */
  predicate Recorded(a: Db, b: Db, q: P.SeatRequest, answer: SeatAnswer) {
    match q.key
    case None => b.records == a.records
    case Some(key) =>
      var scope := Scope(q.rider.passenger, key);
      b.records ==
        if scope in a.records then a.records[scope := a.records[scope].(response := Some(answer))] else a.records
  }

  /** The rider sits behind the others; the last seat closes the pool, with its itinerary and the intent to dispatch
      it. */
  ghost predicate SeatGiven(dist: Distance, a: Db, b: Db, id: Id, q: P.SeatRequest, fare: nat, last: bool)
    requires id in a.pools
  {
    var pool := a.pools[id];
    && id in b.pools && Recorded(a, b, q, SeatAnswer(id, fare))
    && b == a.(pools := a.pools[id := b.pools[id]], records := b.records,
               outbox := if last then a.outbox + {Intent(PoolDispatch, id, 1)} else a.outbox)
    && b.pools[id].members == pool.members + [Member(q.rider, fare, q.key, true)]
    && b.pools[id].seatCount == |b.pools[id].members|
    && (if last then b.pools[id].state == ClosedFull && b.pools[id].generation == 1 && ItineraryOk(dist, b.pools[id])
        else
          var row := b.pools[id];
          row == pool.(members := row.members, seatCount := row.seatCount, version := row.version))
  }

  /** A new pool with its one rider, who anchors it, and its expiry written down. */
  ghost predicate PoolStarted(a: Db, b: Db, id: Id, maxSeats: nat, q: P.SeatRequest, fare: nat) {
    && id !in a.pools && id in b.pools && Recorded(a, b, q, SeatAnswer(id, fare))
    && b == a.(pools := a.pools[id := b.pools[id]], records := b.records,
               outbox := a.outbox + {Intent(PoolExpire, id, 0)})
    && b.pools[id] == Pool(Open, 1, maxSeats, None, 0, b.pools[id].version, q.rider.origin,
                           [Member(q.rider, fare, q.key, true)], [])
  }

  // ── joining and opening ───────────────────────────────────────────────────

  predicate RefusedWith(a: Db, b: Db, r: P.SeatResult, reason: P.SeatFailure) {
    r == P.SeatRefused(reason) && b == a
  }

  /** A rider with a price gets a seat in an open pool with room, unless the key has one already or the rider has a
      place in a pool that is not over. The first of these that fails is the reason. */
  ghost predicate JoinAnswered(dist: Distance, a: Db, b: Db, r: P.SeatResult, id: Id, q: P.SeatRequest) {
    var passenger := q.rider.passenger;
    if id !in a.pools then r == P.PoolNotFound && b == a
    else if a.pools[id].state != Open then RefusedWith(a, b, r, P.PoolClosed)
    else if |a.pools[id].members| >= a.pools[id].maxSeats then RefusedWith(a, b, r, P.PoolFull)
    else if q.fare == None then r == P.RolledBack && b == a
    else if KeyHasSeat(a.pools, q) then RefusedWith(a, b, r, P.IdempotentReplay)
    else if q.key == None && SitsIn(a.pools, id, passenger) then RefusedWith(a, b, r, P.AlreadyMember)
    else if Travels(a.pools, passenger) then RefusedWith(a, b, r, P.PassengerHasActivePool)
    else
      var last := |a.pools[id].members| + 1 == a.pools[id].maxSeats;
      r == P.SeatTaken(id, q.fare.value, last) && SeatGiven(dist, a, b, id, q, q.fare.value, last)
  }

  ghost predicate OpenAnswered(a: Db, b: Db, r: P.SeatResult, id: Id, maxSeats: nat, q: P.SeatRequest) {
    if id in a.pools || id in a.rides || maxSeats == 0 || q.fare == None then r == P.RolledBack && b == a
    else if KeyHasSeat(a.pools, q) then RefusedWith(a, b, r, P.IdempotentReplay)
    else if Travels(a.pools, q.rider.passenger) then RefusedWith(a, b, r, P.PassengerHasActivePool)
    else r == P.SeatTaken(id, q.fare.value, false) && PoolStarted(a, b, id, maxSeats, q, q.fare.value)
  }

  /** The indexes of the table say the same. */
  lemma IndexesAgree(pools: map<Id, Pool>, id: Id, q: P.SeatRequest)
    requires id in pools
    ensures P.KeyUsed(pools, q.rider.passenger, q.key) <==> KeyHasSeat(pools, q)
    ensures P.ActiveAnywhere(pools, q.rider.passenger) <==> Travels(pools, q.rider.passenger)
    ensures P.Seated(pools[id], q.rider.passenger) <==> SitsIn(pools, id, q.rider.passenger)
  {
    KeysAgree(pools, q);
    ActivesAgree(pools, q.rider.passenger);
    if P.Seated(pools[id], q.rider.passenger) {
      var i :| 0 <= i < |pools[id].members| && pools[id].members[i].rider.passenger == q.rider.passenger;
      assert IsSeat(pools, id, i, q.rider.passenger);
    }
  }

  lemma KeysAgree(pools: map<Id, Pool>, q: P.SeatRequest)
    ensures P.KeyUsed(pools, q.rider.passenger, q.key) <==> KeyHasSeat(pools, q)
  {
    if P.KeyUsed(pools, q.rider.passenger, q.key) {
      var p :| p in pools && P.SeatedByKey(pools[p], q.rider.passenger, q.key.value);
      var i :| 0 <= i < |pools[p].members| && pools[p].members[i].rider.passenger == q.rider.passenger
        && pools[p].members[i].key == Some(q.key.value);
      assert IsSeat(pools, p, i, q.rider.passenger);
    }
    if KeyHasSeat(pools, q) {
      var p, i :| IsSeat(pools, p, i, q.rider.passenger) && pools[p].members[i].key == q.key;
      assert P.SeatedByKey(pools[p], q.rider.passenger, q.key.value);
    }
  }

  lemma ActivesAgree(pools: map<Id, Pool>, passenger: Id)
    ensures P.ActiveAnywhere(pools, passenger) <==> Travels(pools, passenger)
  {
    if P.ActiveAnywhere(pools, passenger) {
      var p :| p in pools && P.ActivelySeated(pools[p], passenger);
      var i :| 0 <= i < |pools[p].members| && pools[p].members[i].rider.passenger == passenger
        && pools[p].members[i].active;
      assert IsSeat(pools, p, i, passenger);
    }
    if Travels(pools, passenger) {
      var p, i :| IsSeat(pools, p, i, passenger) && pools[p].members[i].active;
      assert P.ActivelySeated(pools[p], passenger);
    }
  }

  /** In an open pool whoever sits there travels. */
  lemma OpenSeatsTravel(dist: Distance, pools: map<Id, Pool>, id: Id, passenger: Id)
    requires id in pools && PoolOk(dist, pools[id]) && pools[id].state == Open && SitsIn(pools, id, passenger)
    ensures Travels(pools, passenger)
  {
    var i :| IsSeat(pools, id, i, passenger);
    assert pools[id].members[i].active;
  }

  lemma JoinAnsweredIn(dist: Distance, db: Db, id: Id, q: P.SeatRequest)
    requires id in db.pools ==> PoolOk(dist, db.pools[id])
    ensures var (b, r) := P.JoinPool(dist, db, id, q); JoinAnswered(dist, db, b, r, id, q)
  {
    if id in db.pools && db.pools[id].state == Open && q.fare.Some? {
      IndexesAgree(db.pools, id, q);
      if SitsIn(db.pools, id, q.rider.passenger) {
        OpenSeatsTravel(dist, db.pools, id, q.rider.passenger);
      }
      if P.InsertMember(db.pools, id, q, q.fare.value).Inserted? {
        SeatIsGiven(dist, db, id, q);
      }
    }
  }

  lemma SeatIsGiven(dist: Distance, db: Db, id: Id, q: P.SeatRequest)
    requires id in db.pools && PoolOk(dist, db.pools[id]) && q.fare.Some?
    requires P.InsertMember(db.pools, id, q, q.fare.value).Inserted?
    ensures var (b, r) := P.JoinPool(dist, db, id, q);
      var last := |db.pools[id].members| + 1 == db.pools[id].maxSeats;
      r == P.SeatTaken(id, q.fare.value, last) && SeatGiven(dist, db, b, id, q, q.fare.value, last)
  {
    PoolProofs.InsertKeepsRow(dist, db.pools, id, q, q.fare.value);
    var seated := P.InsertMember(db.pools, id, q, q.fare.value).pool;
    PoolProofs.CloseKeepsRow(dist, seated, ClosedFull);
  }

  lemma OpenAnsweredIn(db: Db, id: Id, maxSeats: nat, q: P.SeatRequest)
    ensures var (b, r) := P.OpenPool(db, id, maxSeats, q); OpenAnswered(db, b, r, id, maxSeats, q)
  {
    if id !in db.pools && id !in db.rides {
      var empty := Pool(Open, 0, maxSeats, None, 0, 0, q.rider.origin, [], []);
      EmptyPoolSeatsNobody(db.pools, id, empty, q);
      IndexesAgree(db.pools[id := empty], id, q);
    }
  }

  lemma EmptyPoolSeatsNobody(pools: map<Id, Pool>, id: Id, empty: Pool, q: P.SeatRequest)
    requires id !in pools && empty.members == []
    ensures KeyHasSeat(pools[id := empty], q) <==> KeyHasSeat(pools, q)
    ensures Travels(pools[id := empty], q.rider.passenger) <==> Travels(pools, q.rider.passenger)
    ensures !SitsIn(pools[id := empty], id, q.rider.passenger)
  {
    var more := pools[id := empty];
    assert forall p, i :: IsSeat(more, p, i, q.rider.passenger) <==> IsSeat(pools, p, i, q.rider.passenger);
  }

  lemma JoinAnswers(dist: Distance, h: History, n: nat, id: Id, q: P.SeatRequest)
    requires IsRun(dist, h) && n < |h.states|
    ensures var db := h.states[n].db;
      var (b, r) := P.JoinPool(dist, db, id, q); JoinAnswered(dist, db, b, r, id, q)
  {
    RunKeeps(dist, h, n);
    JoinAnsweredIn(dist, h.states[n].db, id, q);
  }

  lemma OpenAnswers(dist: Distance, h: History, n: nat, id: Id, maxSeats: nat, q: P.SeatRequest)
    requires IsRun(dist, h) && n < |h.states|
    ensures var db := h.states[n].db;
      var (b, r) := P.OpenPool(db, id, maxSeats, q); OpenAnswered(db, b, r, id, maxSeats, q)
  {
    OpenAnsweredIn(h.states[n].db, id, maxSeats, q);
  }

  // ── timeouts ──────────────────────────────────────────────────────────────

  /** A timeout closes an open pool for its riders, with their itinerary and the intent to dispatch them. */
  ghost predicate ExpireAnswered(dist: Distance, a: Db, b: Db, r: P.CloseResult, id: Id) {
    if id in a.pools && a.pools[id].state == Open then
      && r == P.ClosedNow && id in b.pools
      && b == a.(pools := a.pools[id := b.pools[id]], outbox := a.outbox + {Intent(PoolDispatch, id, 1)})
      && b.pools[id] == a.pools[id].(state := ClosedTimeout, generation := 1, version := b.pools[id].version,
                                     stops := b.pools[id].stops)
      && ItineraryOk(dist, b.pools[id])
    else r == P.NotOpen && b == a
  }

  lemma ExpireAnswers(dist: Distance, h: History, n: nat, id: Id)
    requires IsRun(dist, h) && n < |h.states|
    ensures var db := h.states[n].db;
      var (b, r) := P.CloseIfOpen(dist, db, id); ExpireAnswered(dist, db, b, r, id)
  {
    RunKeeps(dist, h, n);
    ExpireAnsweredIn(dist, h.states[n].db, id);
  }

  lemma ExpireAnsweredIn(dist: Distance, db: Db, id: Id)
    requires id in db.pools ==> PoolOk(dist, db.pools[id])
    ensures var (b, r) := P.CloseIfOpen(dist, db, id); ExpireAnswered(dist, db, b, r, id)
  {
    if id in db.pools && db.pools[id].state == Open {
      PoolProofs.CloseKeepsRow(dist, db.pools[id], ClosedTimeout);
    }
  }
}
