/** Seats and the answers recorded for their keys, across every step. */
module SeatProofs {
  import opened Types
  import opened Protocol
  import opened Invariants
  import T = Trips
  import P = Pools
  import R = RowProofs

  // ── seats ─────────────────────────────────────────────────────────────────

  ghost predicate SameSeats(a: Pool, b: Pool) {
    |a.members| == |b.members| && forall i :: 0 <= i < |a.members| ==> SeatKept(a.members[i], b.members[i])
  }

  lemma SeatsStay(a: map<Id, Pool>, b: map<Id, Pool>)
    requires SeatsOk(a)
    requires forall p :: p in b && b[p].members != [] ==> p in a && SameSeats(a[p], b[p])
    ensures SeatsOk(b)
  {
    forall p, q, i, j | p in b && q in b && 0 <= i < |b[p].members| && 0 <= j < |b[q].members| && (p != q || i != j)
      ensures Compatible(b[p].members[i], b[q].members[j])
    {
      assert SeatKept(a[p].members[i], b[p].members[i]) && SeatKept(a[q].members[j], b[q].members[j]);
      assert Compatible(a[p].members[i], a[q].members[j]);
    }
  }

  /** A seat that hits no unique index is compatible with every other. */
  lemma InsertedSeat(pools: map<Id, Pool>, id: Id, q: P.SeatRequest, fare: nat)
    requires SeatsOk(pools) && id in pools && P.InsertMember(pools, id, q, fare).Inserted?
    ensures SeatsOk(pools[id := P.InsertMember(pools, id, q, fare).pool])
  {
    var row := P.InsertMember(pools, id, q, fare).pool;
    var seat := Member(q.rider, fare, q.key, true);
    forall p, i | p in pools && 0 <= i < |pools[p].members|
      ensures Compatible(pools[p].members[i], seat) && Compatible(seat, pools[p].members[i])
    {
      assert !P.ActivelySeated(pools[p], q.rider.passenger);
      assert q.key.Some? ==> !P.SeatedByKey(pools[p], q.rider.passenger, q.key.value);
    }
    OneMoreSeat(pools, id, row, seat);
  }

  lemma OneMoreSeat(pools: map<Id, Pool>, id: Id, row: Pool, seat: Member)
    requires SeatsOk(pools) && id in pools && row.members == pools[id].members + [seat]
    requires forall p, i :: p in pools && 0 <= i < |pools[p].members| ==>
      Compatible(pools[p].members[i], seat) && Compatible(seat, pools[p].members[i])
    ensures SeatsOk(pools[id := row])
  {
  }

  lemma OpenPoolSeats(db: Db, id: Id, maxSeats: nat, q: P.SeatRequest)
    requires SeatsOk(db.pools)
    ensures SeatsOk(P.OpenPool(db, id, maxSeats, q).0.pools)
  {
    var r := P.OpenPool(db, id, maxSeats, q).1;
    if r.SeatTaken? {
      var empty := Pool(Open, 0, maxSeats, None, 0, 0, q.rider.origin, [], []);
      SeatsStay(db.pools, db.pools[id := empty]);
      InsertedSeat(db.pools[id := empty], id, q, q.fare.value);
      assert db.pools[id := empty][id := P.OpenPool(db, id, maxSeats, q).0.pools[id]]
        == P.OpenPool(db, id, maxSeats, q).0.pools;
    }
  }

  lemma JoinPoolSeats(dist: Distance, db: Db, id: Id, q: P.SeatRequest)
    requires SeatsOk(db.pools)
    ensures SeatsOk(P.JoinPool(dist, db, id, q).0.pools)
  {
    R.JoinIs(dist, db, id, q);
    var (b, r) := P.JoinPool(dist, db, id, q);
    if r.SeatTaken? {
      var seated := P.InsertMember(db.pools, id, q, q.fare.value).pool;
      InsertedSeat(db.pools, id, q, q.fare.value);
      SeatsStay(db.pools[id := seated], b.pools);
    }
  }

  lemma AcceptPools(db: Db, id: Id, driver: Id, trip: TripRef, now: Time, vehicle: Option<nat>)
    ensures var b := T.AcceptInTx(db, id, driver, trip, now, vehicle).0;
      b.pools == db.pools
        || (trip.Shared? && trip.id in db.pools
             && b.pools == db.pools[trip.id := T.ClaimShared(db.pools[trip.id], driver)])
  {
  }

  ghost predicate NobodySeated(a: map<Id, Pool>, b: map<Id, Pool>) {
    b.Keys == a.Keys && forall p :: p in b ==> SameSeats(a[p], b[p])
  }

  lemma ConfirmSeats(a: Db, b: Db, r: P.ConfirmResult, id: Id, driver: Id, index: nat, kind: StopKind)
    requires R.ConfirmedOnly(a, b, r, id, driver, index, kind)
    ensures NobodySeated(a.pools, b.pools)
  {
  }

  lemma ExpireSeatsNobody(dist: Distance, db: Db, id: Id)
    ensures NobodySeated(db.pools, P.CloseIfOpen(dist, db, id).0.pools)
  {
  }

  lemma AbortSeatsNobody(db: Db, id: Id, g: nat)
    ensures NobodySeated(db.pools, P.AbortUnclaimed(db, id, g).pools)
  {
  }

  lemma PoolStepsSeatNobody(dist: Distance, w: World, s: Step)
    requires PoolsOk(dist, w.db.pools) && (s.ExpirePool? || s.AbortPool? || s.ConfirmStop?)
    ensures NobodySeated(w.db.pools, Apply(dist, w, s).db.pools)
  {
    match s
    case ExpirePool(pool) => ExpireSeatsNobody(dist, w.db, pool);
    case AbortPool(pool, g) => AbortSeatsNobody(w.db, pool, g);
    case ConfirmStop(pool, driver, index, kind) =>
      R.ConfirmIs(dist, w.db, pool, driver, index, kind);
      var (b, r) := P.ConfirmStop(w.db, pool, driver, index, kind);
      ConfirmSeats(w.db, b, r, pool, driver, index, kind);
  }

  lemma AcceptSeatsNobody(db: Db, id: Id, driver: Id, trip: TripRef, now: Time, vehicle: Option<nat>)
    ensures NobodySeated(db.pools, T.AcceptInTx(db, id, driver, trip, now, vehicle).0.pools)
  {
    AcceptPools(db, id, driver, trip, now, vehicle);
  }

  lemma OtherStepsKeepPools(dist: Distance, w: World, s: Step)
    requires !s.OpenPool? && !s.JoinPool? && !s.Accept? && !s.ExpirePool? && !s.AbortPool? && !s.ConfirmStop?
    ensures Apply(dist, w, s).db.pools == w.db.pools
  {
  }

  /** Only a seat transaction adds a member or a pool. */
  lemma OtherStepsSeatNobody(dist: Distance, w: World, s: Step)
    requires PoolsOk(dist, w.db.pools) && !s.OpenPool? && !s.JoinPool?
    ensures NobodySeated(w.db.pools, Apply(dist, w, s).db.pools)
  {
    if s.Accept? {
      AcceptSeatsNobody(w.db, s.seen.offer, s.seen.driver, s.seen.trip, s.now, s.vehicle);
    } else if s.ExpirePool? || s.AbortPool? || s.ConfirmStop? {
      PoolStepsSeatNobody(dist, w, s);
    } else {
      OtherStepsKeepPools(dist, w, s);
    }
  }

  lemma SeatStepSeats(dist: Distance, w: World, s: Step)
    requires SeatsOk(w.db.pools) && (s.OpenPool? || s.JoinPool?)
    ensures SeatsOk(Apply(dist, w, s).db.pools)
  {
    match s
    case OpenPool(pool, maxSeats, q) => OpenPoolSeats(w.db, pool, maxSeats, q);
    case JoinPool(pool, q) => JoinPoolSeats(dist, w.db, pool, q);
  }

  lemma StepSeats(dist: Distance, w: World, s: Step)
    requires SeatsOk(w.db.pools) && PoolsOk(dist, w.db.pools)
    ensures SeatsOk(Apply(dist, w, s).db.pools)
  {
    if s.OpenPool? || s.JoinPool? {
      SeatStepSeats(dist, w, s);
    } else {
      OtherStepsSeatNobody(dist, w, s);
      SeatsStay(w.db.pools, Apply(dist, w, s).db.pools);
    }
  }

  // ── answers ───────────────────────────────────────────────────────────────

  /** A seat once named stays where it is, at its fare. */
  lemma SeatForStays(a: map<Id, Pool>, b: map<Id, Pool>, scope: Scope, answer: SeatAnswer)
    requires PoolsFollow(a, b) && P.SeatFor(a, scope, answer)
    ensures P.SeatFor(b, scope, answer)
  {
    var was, now := a[answer.pool], b[answer.pool];
    assert PoolFollows(was, now);
    var i :| 0 <= i < |was.members| && P.Carries(was.members[i], scope, answer.fare);
    assert SeatKept(was.members[i], now.members[i]);
    assert P.Carries(now.members[i], scope, answer.fare);
  }

  /** One key of one passenger names one seat. */
  lemma SeatForIsUnique(pools: map<Id, Pool>, scope: Scope, a: SeatAnswer, b: SeatAnswer)
    requires SeatsOk(pools) && P.SeatFor(pools, scope, a) && P.SeatFor(pools, scope, b)
    ensures a == b
  {
    var i :| 0 <= i < |pools[a.pool].members| && P.Carries(pools[a.pool].members[i], scope, a.fare);
    var j :| 0 <= j < |pools[b.pool].members| && P.Carries(pools[b.pool].members[j], scope, b.fare);
    assert a.pool != b.pool || i != j ==> Compatible(pools[a.pool].members[i], pools[b.pool].members[j]);
  }

  /** What a seat transaction that took a seat knows about its key. */
  lemma FreshKey(pools: map<Id, Pool>, id: Id, q: P.SeatRequest, fare: nat)
    requires id in pools && P.InsertMember(pools, id, q, fare).Inserted? && q.key.Some?
    ensures forall a :: !P.SeatFor(pools, Scope(q.rider.passenger, q.key.value), a)
    ensures var row := P.InsertMember(pools, id, q, fare).pool;
      exists i :: 0 <= i < |row.members| && P.Carries(row.members[i], Scope(q.rider.passenger, q.key.value), fare)
  {
    var scope := Scope(q.rider.passenger, q.key.value);
    forall a | P.SeatFor(pools, scope, a) ensures false {
      assert P.SeatedByKey(pools[a.pool], q.rider.passenger, q.key.value);
    }
    var row := P.InsertMember(pools, id, q, fare).pool;
    assert P.Carries(row.members[|row.members| - 1], scope, fare);
  }

  /** A keyed seat's transaction: no earlier answer existed, and the new one names the seat. */
  ghost predicate KeyAnswered(a: map<Id, Pool>, b: map<Id, Pool>, q: P.SeatRequest, r: P.SeatResult) {
    r.SeatTaken? && q.key.Some? ==>
      var scope := Scope(q.rider.passenger, q.key.value);
      P.SeatFor(b, scope, SeatAnswer(r.pool, r.fare)) && forall x :: !P.SeatFor(a, scope, x)
  }

  lemma OpenPoolAnswers(db: Db, id: Id, maxSeats: nat, q: P.SeatRequest)
    ensures var (b, r) := P.OpenPool(db, id, maxSeats, q);
      && KeyAnswered(db.pools, b.pools, q, r)
      && b.records ==
           if r.SeatTaken? then P.CompleteKeyed(db.records, q.rider.passenger, q.key, SeatAnswer(r.pool, r.fare))
             else db.records
  {
    var (b, r) := P.OpenPool(db, id, maxSeats, q);
    if r.SeatTaken? && q.key.Some? {
      var scope := Scope(q.rider.passenger, q.key.value);
      var empty := Pool(Open, 0, maxSeats, None, 0, 0, q.rider.origin, [], []);
      FreshKey(db.pools[id := empty], id, q, q.fare.value);
      forall x | P.SeatFor(db.pools, scope, x) ensures P.SeatFor(db.pools[id := empty], scope, x) {
      }
    }
  }

  lemma JoinPoolAnswers(dist: Distance, db: Db, id: Id, q: P.SeatRequest)
    ensures var (b, r) := P.JoinPool(dist, db, id, q);
      && KeyAnswered(db.pools, b.pools, q, r)
      && b.records ==
           if r.SeatTaken? then P.CompleteKeyed(db.records, q.rider.passenger, q.key, SeatAnswer(r.pool, r.fare))
             else db.records
  {
    R.JoinIs(dist, db, id, q);
    var (b, r) := P.JoinPool(dist, db, id, q);
    if r.SeatTaken? && q.key.Some? {
      FreshKey(db.pools, id, q, q.fare.value);
    }
  }

  lemma AnswersStay(a: World, b: World)
    requires RecordsOk(a) && PoolsFollow(a.db.pools, b.db.pools)
    ensures forall s :: s in a.db.records && a.db.records[s].response != None ==>
      P.SeatFor(b.db.pools, s, a.db.records[s].response.value)
    ensures forall r :: r in a.mem.lookups || r in a.mem.replies ==> P.SeatFor(b.db.pools, r.scope, r.answer)
  {
    forall s | s in a.db.records && a.db.records[s].response != None
      ensures P.SeatFor(b.db.pools, s, a.db.records[s].response.value)
    {
      SeatForStays(a.db.pools, b.db.pools, s, a.db.records[s].response.value);
    }
    forall r | r in a.mem.lookups || r in a.mem.replies ensures P.SeatFor(b.db.pools, r.scope, r.answer) {
      SeatForStays(a.db.pools, b.db.pools, r.scope, r.answer);
    }
  }

  lemma TakenSeatRecords(a: World, b: World, q: P.SeatRequest, r: P.SeatResult)
    requires RecordsOk(a) && PoolsFollow(a.db.pools, b.db.pools) && KeyAnswered(a.db.pools, b.db.pools, q, r)
    requires b.mem == SeatReply(a.mem, q, r)
    requires b.db.records ==
      if r.SeatTaken? then P.CompleteKeyed(a.db.records, q.rider.passenger, q.key, SeatAnswer(r.pool, r.fare))
        else a.db.records
    ensures RecordsOk(b) && RecordsFollow(a.db.records, b.db.records)
  {
    AnswersStay(a, b);
  }

  lemma CompletedClaimRecords(a: World, b: World, reply: Reply)
    requires RecordsOk(a) && SeatsOk(a.db.pools) && reply in a.mem.lookups
    requires b == a.(db := a.db.(records := P.CompleteIn(a.db.records, reply.scope, reply.answer)))
    ensures RecordsOk(b) && RecordsFollow(a.db.records, b.db.records)
  {
    if reply.scope in a.db.records && a.db.records[reply.scope].response != None {
      SeatForIsUnique(a.db.pools, reply.scope, reply.answer, a.db.records[reply.scope].response.value);
    }
  }

  predicate OnKeys(s: Step) {
    s.ClaimKey? || s.ReadRecord? || s.LookUpSeat? || s.CompleteClaim? || s.ReleaseKey?
  }

  lemma ClaimRecords(w: World, scope: Scope, f: Fingerprint, now: Time)
    requires RecordsOk(w)
    ensures var (b, r) := P.Claim(w.db, scope, f, now);
      && RecordsFollow(w.db.records, b.records) && b == w.db.(records := b.records)
      && (forall s :: s in b.records && b.records[s].response != None ==>
           P.SeatFor(b.pools, s, b.records[s].response.value))
      && (r.Replayed? ==> P.SeatFor(b.pools, scope, r.answer))
  {
  }

  lemma ClaimStepRecords(dist: Distance, w: World, s: Step)
    requires RecordsOk(w) && s.ClaimKey?
    ensures var v := Apply(dist, w, s);
      RecordsOk(v) && RecordsFollow(w.db.records, v.db.records) && w.mem.replies <= v.mem.replies
  {
    ClaimRecords(w, s.scope, s.fingerprint, s.now);
  }

  lemma KeyStepRecords(dist: Distance, w: World, s: Step)
    requires RecordsOk(w) && SeatsOk(w.db.pools) && OnKeys(s)
    ensures var v := Apply(dist, w, s);
      RecordsOk(v) && RecordsFollow(w.db.records, v.db.records) && w.mem.replies <= v.mem.replies
  {
    if s.CompleteClaim? {
      if s.reply in w.mem.lookups {
        CompletedClaimRecords(w, Apply(dist, w, s), s.reply);
      }
    } else if s.ClaimKey? {
      ClaimStepRecords(dist, w, s);
    }
  }

  lemma SeatStepRecords(dist: Distance, w: World, s: Step)
    requires RecordsOk(w) && PoolsFollow(w.db.pools, Apply(dist, w, s).db.pools) && (s.OpenPool? || s.JoinPool?)
    ensures var v := Apply(dist, w, s);
      RecordsOk(v) && RecordsFollow(w.db.records, v.db.records) && w.mem.replies <= v.mem.replies
  {
    var v := Apply(dist, w, s);
    match s
    case OpenPool(pool, maxSeats, q) =>
      if MayTakeSeat(w.mem, q) {
        OpenPoolAnswers(w.db, pool, maxSeats, q);
        TakenSeatRecords(w, v, q, P.OpenPool(w.db, pool, maxSeats, q).1);
      }
    case JoinPool(pool, q) =>
      if MayTakeSeat(w.mem, q) {
        JoinPoolAnswers(dist, w.db, pool, q);
        TakenSeatRecords(w, v, q, P.JoinPool(dist, w.db, pool, q).1);
      }
  }

  lemma AcceptRecords(db: Db, id: Id, driver: Id, trip: TripRef, now: Time, vehicle: Option<nat>)
    ensures T.AcceptInTx(db, id, driver, trip, now, vehicle).0.records == db.records
  {
  }

  lemma OtherStepsKeepRecords(dist: Distance, w: World, s: Step)
    requires !s.OpenPool? && !s.JoinPool? && !OnKeys(s)
    ensures var v := Apply(dist, w, s);
      v.db.records == w.db.records && v.mem.replies == w.mem.replies && v.mem.lookups == w.mem.lookups
  {
    if s.Accept? {
      AcceptRecords(w.db, s.seen.offer, s.seen.driver, s.seen.trip, s.now, s.vehicle);
    }
  }

  lemma StepRecords(dist: Distance, w: World, s: Step)
    requires RecordsOk(w) && SeatsOk(w.db.pools) && PoolsFollow(w.db.pools, Apply(dist, w, s).db.pools)
    ensures var v := Apply(dist, w, s);
      RecordsOk(v) && RecordsFollow(w.db.records, v.db.records) && w.mem.replies <= v.mem.replies
  {
    if OnKeys(s) {
      KeyStepRecords(dist, w, s);
    } else if s.OpenPool? || s.JoinPool? {
      SeatStepRecords(dist, w, s);
    } else {
      OtherStepsKeepRecords(dist, w, s);
      AnswersStay(w, Apply(dist, w, s));
    }
  }
}
