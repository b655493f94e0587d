/** The keyed shared create, from claim to answer. */
module SharedCreate {
  import opened Types
  import opened Invariants
  import opened Database
  import opened Matching
  import T = Trips
  import P = Pools
  import R = RowProofs
  import S = SeatProofs
  import opened Protocol
  import opened Runs

  datatype Outcome = Answered(answer: SeatAnswer) | DifferentIntent | StillInProgress | Failed

  /** What a reachable database says about seats and the answers recorded for them. */
  ghost predicate Ledger(dist: Distance, db: Db) {
    RowsOk(dist, db) && SeatsOk(db.pools) && AnswersNameSeats(db)
  }

  ghost predicate AnswersNameSeats(db: Db) {
    forall s :: s in db.records && db.records[s].response != None ==>
      P.SeatFor(db.pools, s, db.records[s].response.value)
  }

  /** ... and every one is such. */
  lemma ReachableIsLedger(dist: Distance, h: History, n: nat)
    requires IsRun(dist, h) && n < |h.states|
    ensures Ledger(dist, h.states[n].db)
  {
    RunKeeps(dist, h, n);
  }

  predicate Pending(db: Db, scope: Scope, fingerprint: Fingerprint) {
    scope in db.records && db.records[scope].fingerprint == fingerprint && db.records[scope].response == None
  }

  predicate HasAnswer(db: Db, scope: Scope, a: SeatAnswer) {
    scope in db.records && db.records[scope].response == Some(a)
  }

  ghost predicate NoSeat(db: Db, scope: Scope) {
    forall a :: !P.SeatFor(db.pools, scope, a)
  }

  // ── looking the seat up ───────────────────────────────────────────────────

  method FindByIdempotencyKey(tables: Tables, scope: Scope) returns (seat: Option<SeatAnswer>)
    ensures match seat
      case Some(a) => P.SeatFor(tables.pools, scope, a)
      case None => NoSeat(tables.View(), scope)
  {
    seat := None;
    if exists p :: p in tables.pools && P.SeatedByKey(tables.pools[p], scope.principal, scope.key) {
      var p :| p in tables.pools && P.SeatedByKey(tables.pools[p], scope.principal, scope.key);
      var members := tables.pools[p].members;
      var i :| 0 <= i < |members| && members[i].rider.passenger == scope.principal && members[i].key == Some(scope.key);
      seat := Some(SeatAnswer(p, members[i].fare));
      assert P.Carries(members[i], scope, members[i].fare);
    } else {
      forall a | P.SeatFor(tables.pools, scope, a)
        ensures P.SeatedByKey(tables.pools[a.pool], scope.principal, scope.key) {
      }
    }
  }

  /** The completed record's own answer, else the seat this key produced, recorded now. */
  method ExistingSharedSeat(dist: Distance, tables: Tables, scope: Scope) returns (found: Option<SeatAnswer>)
    requires tables.Valid() && Ledger(dist, tables.View()) && scope in tables.records
    modifies tables`records
    ensures tables.Valid() && Ledger(dist, tables.View())
    ensures tables.View() == old(tables.View()).(records := tables.records)
    ensures found.Some? ==> HasAnswer(tables.View(), scope, found.value) && P.SeatFor(tables.pools, scope, found.value)
    ensures found == None ==> tables.View() == old(tables.View()) && NoSeat(tables.View(), scope)
  {
    if tables.records[scope].response != None {
      return tables.records[scope].response;
    }
    found := FindByIdempotencyKey(tables, scope);
    if found != None {
      CompletionKeepsLedger(dist, tables.View(), scope, found.value);
      tables.CompleteIn(scope, found.value);
    }
  }

  lemma CompletionKeepsLedger(dist: Distance, db: Db, scope: Scope, a: SeatAnswer)
    requires Ledger(dist, db) && P.SeatFor(db.pools, scope, a)
    ensures Ledger(dist, db.(records := P.CompleteIn(db.records, scope, a)))
  {
    SameSeatsSameLedger(dist, db, db.(records := P.CompleteIn(db.records, scope, a)));
  }

  // ── allocating a seat ─────────────────────────────────────────────────────

  /** A match leaves the ledger in order. */
  lemma JoinKeepsLedger(dist: Distance, db: Db, id: Id, q: P.SeatRequest)
    requires Ledger(dist, db)
    ensures var (b, r) := P.JoinPool(dist, db, id, q);
      Ledger(dist, b) && SeatAnswered(db, b, q, r)
  {
    var (b, r) := P.JoinPool(dist, db, id, q);
    R.JoinPoolRows(dist, db, id, q);
    S.JoinPoolSeats(dist, db, id, q);
    S.JoinPoolAnswers(dist, db, id, q);
    AnswersKept(dist, db, b, q, r);
  }

  lemma OpenKeepsLedger(dist: Distance, db: Db, id: Id, maxSeats: nat, q: P.SeatRequest)
    requires Ledger(dist, db)
    ensures var (b, r) := P.OpenPool(db, id, maxSeats, q);
      Ledger(dist, b) && SeatAnswered(db, b, q, r)
  {
    var (b, r) := P.OpenPool(db, id, maxSeats, q);
    R.OpenPoolRows(dist, db, id, maxSeats, q);
    S.OpenPoolSeats(db, id, maxSeats, q);
    S.OpenPoolAnswers(db, id, maxSeats, q);
    AnswersKept(dist, db, b, q, r);
  }

  ghost predicate SeatAnswered(a: Db, b: Db, q: P.SeatRequest, r: P.SeatResult) {
    r.SeatTaken? && q.key.Some? ==>
      var scope, answer := Scope(q.rider.passenger, q.key.value), SeatAnswer(r.pool, r.fare);
      P.SeatFor(b.pools, scope, answer) && (scope in a.records ==> HasAnswer(b, scope, answer))
  }

  lemma AnswersKept(dist: Distance, a: Db, b: Db, q: P.SeatRequest, r: P.SeatResult)
    requires Ledger(dist, a) && RowsOk(dist, b) && SeatsOk(b.pools) && PoolsFollow(a.pools, b.pools)
    requires S.KeyAnswered(a.pools, b.pools, q, r)
    requires b.records ==
      if r.SeatTaken? then P.CompleteKeyed(a.records, q.rider.passenger, q.key, SeatAnswer(r.pool, r.fare))
        else a.records
    ensures Ledger(dist, b) && SeatAnswered(a, b, q, r)
  {
    forall s | s in a.records && a.records[s].response != None
      ensures P.SeatFor(b.pools, s, a.records[s].response.value)
    {
      S.SeatForStays(a.pools, b.pools, s, a.records[s].response.value);
    }
  }

  /** A keyed request is never taken for a member of the pool it tries: in an open pool every seat is active. */
  lemma KeyedIsNeverAlreadyMember(dist: Distance, db: Db, id: Id, q: P.SeatRequest)
    requires RowsOk(dist, db) && q.key.Some?
    ensures P.JoinPool(dist, db, id, q).1 != P.SeatRefused(P.AlreadyMember)
  {
    if id in db.pools {
      if db.pools[id].state == Open {
        OpenSeatsAreActive(dist, db.pools[id], q.rider.passenger);
      }
      ActiveIsNotAMember(dist, db, id, q);
    }
  }

  lemma OpenSeatsAreActive(dist: Distance, pool: Pool, passenger: Id)
    requires PoolOk(dist, pool) && pool.state == Open
    ensures P.Seated(pool, passenger) ==> P.ActivelySeated(pool, passenger)
  {
    if P.Seated(pool, passenger) {
      var i :| 0 <= i < |pool.members| && pool.members[i].rider.passenger == passenger;
      assert pool.members[i].active;
    }
  }

  lemma ActiveIsNotAMember(dist: Distance, db: Db, id: Id, q: P.SeatRequest)
    requires q.key.Some? && id in db.pools
    requires db.pools[id].state == Open && P.Seated(db.pools[id], q.rider.passenger) ==>
      P.ActivelySeated(db.pools[id], q.rider.passenger)
    ensures P.JoinPool(dist, db, id, q).1 != P.SeatRefused(P.AlreadyMember)
  {
  }

  /** What a match for a keyed request leaves behind: its seat and the answer to its key, or nothing. */
  ghost predicate MatchLeaves(a: Db, b: Db, q: Request, m: Match)
    requires q.key.Some?
  {
    var scope := Scope(q.rider.passenger, q.key.value);
    if m.Slotted? || m.Opened? then
      && P.SeatFor(b.pools, scope, SeatAnswer(m.pool, m.fare))
      && (scope in a.records ==> HasAnswer(b, scope, SeatAnswer(m.pool, m.fare)))
    else b == a
  }

  lemma DecidedLeaves(dist: Distance, a: Db, b: Db, qualified: seq<Candidate>, q: Request, m: Match, k: nat)
    requires Ledger(dist, a) && q.key.Some? && DecidedBy(dist, a, b, qualified, q, m, k)
    ensures Ledger(dist, b) && MatchLeaves(a, b, q, m) && (m.Existing? ==> m.replay)
  {
    JoinKeepsLedger(dist, a, qualified[k].pool, Seat(q, qualified[k].quote));
    KeyedIsNeverAlreadyMember(dist, a, qualified[k].pool, Seat(q, qualified[k].quote));
    JoinChangesOnlyWithASeat(dist, a, qualified[k].pool, Seat(q, qualified[k].quote));
    JoinTouchesOnePool(dist, a, qualified[k].pool, Seat(q, qualified[k].quote));
  }

  /** A replay is answered only where the key has a seat. */
  lemma ReplayHasSeat(dist: Distance, a: Db, b: Db, qualified: seq<Candidate>, q: Request, m: Match)
    requires q.key.Some? && IsMatch(dist, a, b, qualified, q, m) && m.Existing? && m.replay
    ensures !NoSeat(a, Scope(q.rider.passenger, q.key.value))
  {
    if k: nat :| DecidedBy(dist, a, b, qualified, q, m, k) {
      JoinReplays(dist, a, qualified[k].pool, Seat(q, qualified[k].quote));
    } else {
      OpenReplays(a, q.newId, q.maxSeats, Seat(q, q.openQuote));
    }
  }

  lemma JoinReplays(dist: Distance, db: Db, id: Id, q: P.SeatRequest)
    requires q.key.Some? && P.JoinPool(dist, db, id, q).1 == P.SeatRefused(P.IdempotentReplay)
    ensures !NoSeat(db, Scope(q.rider.passenger, q.key.value))
  {
    UsedKeyHasSeat(db, q.rider.passenger, q.key.value);
  }

  lemma OpenReplays(db: Db, id: Id, maxSeats: nat, q: P.SeatRequest)
    requires q.key.Some? && P.OpenPool(db, id, maxSeats, q).1 == P.SeatRefused(P.IdempotentReplay)
    ensures !NoSeat(db, Scope(q.rider.passenger, q.key.value))
  {
    var pools := db.pools[id := Pool(Open, 0, maxSeats, None, 0, 0, q.rider.origin, [], [])];
    assert P.KeyUsed(pools, q.rider.passenger, q.key);
    var p :| p in pools && P.SeatedByKey(pools[p], q.rider.passenger, q.key.value);
    assert p in db.pools && P.SeatedByKey(db.pools[p], q.rider.passenger, q.key.value);
    UsedKeyHasSeat(db, q.rider.passenger, q.key.value);
  }

  lemma UsedKeyHasSeat(db: Db, passenger: Id, key: Key)
    requires P.KeyUsed(db.pools, passenger, Some(key))
    ensures !NoSeat(db, Scope(passenger, key))
  {
    var p :| p in db.pools && P.SeatedByKey(db.pools[p], passenger, key);
    var i :| 0 <= i < |db.pools[p].members| && db.pools[p].members[i].rider.passenger == passenger
      && db.pools[p].members[i].key == Some(key);
    assert P.Carries(db.pools[p].members[i], Scope(passenger, key), db.pools[p].members[i].fare);
    assert P.SeatFor(db.pools, Scope(passenger, key), SeatAnswer(p, db.pools[p].members[i].fare));
  }

  /** The answer a match leads to. Only a conflict or an error leaves the request without one. */
  ghost predicate MatchAnswered(dist: Distance, a: Db, b: Db, candidates: seq<Candidate>, threshold: real, q: Request,
                                m: Match, qualified: seq<Candidate>, answer: Option<SeatAnswer>)
    requires q.key.Some?
  {
    var scope := Scope(q.rider.passenger, q.key.value);
    && Ranked(candidates, threshold, qualified)
    && IsMatch(dist, a, if m.Existing? then a else b, qualified, q, m)
    && (answer == None <==> m.Conflict? || m.Threw?)
    && (answer == None ==> b == a)
    && (m.Slotted? || m.Opened? ==> answer == Some(SeatAnswer(m.pool, m.fare)))
    && (m.Existing? ==> P.SeatFor(a.pools, scope, answer.value) && b == a.(records := b.records))
    && (answer.Some? ==> HasAnswer(b, scope, answer.value) && P.SeatFor(b.pools, scope, answer.value))
  }

  lemma MatchKeepsLedger(dist: Distance, a: Db, b: Db, qualified: seq<Candidate>, q: Request, m: Match)
    requires Ledger(dist, a) && q.key.Some? && IsMatch(dist, a, b, qualified, q, m)
    ensures Ledger(dist, b) && MatchLeaves(a, b, q, m) && (m.Existing? ==> m.replay)
  {
    if k: nat :| DecidedBy(dist, a, b, qualified, q, m, k) {
      DecidedLeaves(dist, a, b, qualified, q, m, k);
    } else {
      OpenKeepsLedger(dist, a, q.newId, q.maxSeats, Seat(q, q.openQuote));
    }
  }

  method AllocateSharedSeat(dist: Distance, tables: Tables, candidates: seq<Candidate>, threshold: real, q: Request,
                            scope: Scope)
    returns (answer: Option<SeatAnswer>, ghost m: Match, ghost qualified: seq<Candidate>)
    requires tables.Valid() && Ledger(dist, tables.View())
    requires q.key.Some? && scope == Scope(q.rider.passenger, q.key.value) && scope in tables.records
    modifies tables
    ensures tables.Valid() && Ledger(dist, tables.View())
    ensures MatchAnswered(dist, old(tables.View()), tables.View(), candidates, threshold, q, m, qualified, answer)
  {
    var found;
    found, qualified := FindOrCreatePool(dist, tables, candidates, threshold, q);
    m := found;
    MatchKeepsLedger(dist, old(tables.View()), tables.View(), qualified, q, m);
    match found
    case Slotted(pool, fare, _) => answer := Some(SeatAnswer(pool, fare));
    case Opened(pool, fare) => answer := Some(SeatAnswer(pool, fare));
    case Existing(_, _) =>
      ReplayHasSeat(dist, old(tables.View()), tables.View(), qualified, q, m);
      answer := ExistingSharedSeat(dist, tables, scope);
    case Conflict(_) => answer := None;
    case Threw => answer := None;
  }

  /** A reclaimed claim looks for the seat of the attempt before it; only without one is a match made. A match that
      finds no seat frees the key. */
  method SeatUnderClaim(dist: Distance, tables: Tables, candidates: seq<Candidate>, threshold: real, q: Request,
                        scope: Scope, reclaimed: bool)
    returns (r: Outcome, ghost m: Option<Match>, ghost qualified: seq<Candidate>)
    requires tables.Valid() && Ledger(dist, tables.View())
    requires q.key.Some? && scope == Scope(q.rider.passenger, q.key.value) && scope in tables.records
    modifies tables
    ensures tables.Valid() && Ledger(dist, tables.View())
    ensures m == None <==> reclaimed && !NoSeat(old(tables.View()), scope)
    ensures m == None ==> forall a :: P.SeatFor(old(tables.pools), scope, a) ==> r == Answered(a)
    ensures m.Some? ==>
      MatchAnswered(dist, old(tables.View()), if r == Failed then old(tables.View()) else tables.View(),
                    candidates, threshold, q, m.value, qualified, if r.Answered? then Some(r.answer) else None)
    ensures r == Failed <==> m.Some? && (m.value.Conflict? || m.value.Threw?)
    ensures r.Answered? ==> HasAnswer(tables.View(), scope, r.answer) && P.SeatFor(tables.pools, scope, r.answer)
    ensures !r.Answered? ==> r == Failed && tables.View() == P.ReleaseClaim(old(tables.View()), scope)
  {
    m, qualified := None, [];
    var held := None;
    if reclaimed {
      held := ExistingSharedSeat(dist, tables, scope);
    }
    if held == None {
      ghost var made;
      held, made, qualified := AllocateSharedSeat(dist, tables, candidates, threshold, q, scope);
      m := Some(made);
    } else {
      SeatIsTheSeat(tables.View(), scope, held.value);
    }
    if held != None {
      return Answered(held.value), m, qualified;
    }
    ReleaseKeepsLedger(dist, tables.View(), scope);
    tables.ReleaseKey(scope);
    r := Failed;
  }

  lemma SeatIsTheSeat(db: Db, scope: Scope, a: SeatAnswer)
    requires SeatsOk(db.pools) && P.SeatFor(db.pools, scope, a)
    ensures forall b :: P.SeatFor(db.pools, scope, b) ==> b == a
  {
    forall b | P.SeatFor(db.pools, scope, b) ensures b == a {
      S.SeatForIsUnique(db.pools, scope, a, b);
    }
  }

  lemma ReleaseKeepsLedger(dist: Distance, db: Db, scope: Scope)
    requires Ledger(dist, db)
    ensures Ledger(dist, P.ReleaseClaim(db, scope))
  {
  }

  lemma ClaimKeepsLedger(dist: Distance, db: Db, scope: Scope, f: Fingerprint, now: Time)
    requires Ledger(dist, db)
    ensures Ledger(dist, P.Claim(db, scope, f, now).0)
  {
    ClaimKeepsAnswers(db, scope, f, now);
    SameSeatsSameLedger(dist, db, P.Claim(db, scope, f, now).0);
  }

  lemma SameSeatsSameLedger(dist: Distance, a: Db, b: Db)
    requires Ledger(dist, a) && b == a.(records := b.records) && AnswersNameSeats(b)
    ensures Ledger(dist, b)
  {
    R.SameRows(dist, a, b);
  }

  lemma ClaimKeepsAnswers(db: Db, scope: Scope, f: Fingerprint, now: Time)
    requires AnswersNameSeats(db)
    ensures var b := P.Claim(db, scope, f, now).0;
      b == db.(records := b.records) && AnswersNameSeats(b)
  {
  }

  /** What each outcome of a claim says about the record it met. */
  lemma ClaimMeans(db: Db, scope: Scope, f: Fingerprint, now: Time)
    ensures var (claimed, claim) := P.Claim(db, scope, f, now);
      && (claim == P.Claimed <==> scope !in db.records)
      && (claim == P.KeyConflict <==> scope in db.records && db.records[scope].fingerprint != f)
      && (claim == P.StillPending <==> Pending(db, scope, f) && db.records[scope].createdAt >= now - 60_000)
      && (claim == P.Reclaimed <==> Pending(db, scope, f) && db.records[scope].createdAt < now - 60_000)
      && (claim.Replayed? ==> HasAnswer(db, scope, claim.answer) && db.records[scope].fingerprint == f)
      && (claim == P.Claimed || claim == P.Reclaimed ==>
            claimed == db.(records := db.records[scope := Record(f, None, now)]))
      && (claim != P.Claimed && claim != P.Reclaimed ==> claimed == db)
  {
  }

  lemma ReleasedClaim(db: Db, scope: Scope, f: Fingerprint, now: Time)
    ensures var (claimed, claim) := P.Claim(db, scope, f, now);
      claim == P.Claimed || claim == P.Reclaimed ==>
        P.ReleaseClaim(claimed, scope) == db.(records := db.records - {scope}) && claimed.pools == db.pools
  {
    var (claimed, claim) := P.Claim(db, scope, f, now);
    assert claim == P.Claimed || claim == P.Reclaimed ==> claimed.records - {scope} == db.records - {scope};
  }

  /** The outcome of a claim, and of the match made under it unless the key of a reclaimed claim has its seat
      already. */
  ghost predicate Created(dist: Distance, was: Db, b: Db, candidates: seq<Candidate>, threshold: real, q: Request,
                          now: Time, r: Outcome, m: Option<Match>, qualified: seq<Candidate>)
    requires q.key.Some?
  {
    var scope := Scope(q.rider.passenger, q.key.value);
    var (claimed, claim) := P.Claim(was, scope, FingerprintOf(q.rider), now);
    match claim
    case Replayed(a) => r == Answered(a) && m == None && b == was
    case KeyConflict => r == DifferentIntent && m == None && b == was
    case StillPending => r == StillInProgress && m == None && b == was
    case _ =>
      && (r.Answered? || r == Failed)
      && (m == None <==> claim == P.Reclaimed && !NoSeat(was, scope))
      && (m == None ==> forall a :: P.SeatFor(was.pools, scope, a) ==> r == Answered(a))
      && (m.Some? ==>
            MatchAnswered(dist, claimed, if r == Failed then claimed else b, candidates, threshold, q,
                          m.value, qualified, if r.Answered? then Some(r.answer) else None))
  }

  /** Uninterrupted, a keyed create answers with the key's one seat or refuses without a trace; only a match that
      found no seat makes it fail, and that frees the key again. */
  method CreateShared(dist: Distance, tables: Tables, candidates: seq<Candidate>, threshold: real, q: Request,
                      now: Time)
    returns (r: Outcome, ghost m: Option<Match>, ghost qualified: seq<Candidate>)
    requires tables.Valid() && Ledger(dist, tables.View()) && q.key.Some?
    modifies tables
    ensures tables.Valid() && Ledger(dist, tables.View())
    ensures Created(dist, old(tables.View()), tables.View(), candidates, threshold, q, now, r, m, qualified)
    ensures r == Failed <==> m.Some? && (m.value.Conflict? || m.value.Threw?)
    ensures r == Failed ==>
      tables.View() == old(tables.View()).(records := old(tables.records) - {Scope(q.rider.passenger, q.key.value)})
    ensures r.Answered? ==>
      var scope := Scope(q.rider.passenger, q.key.value);
      HasAnswer(tables.View(), scope, r.answer) && P.SeatFor(tables.pools, scope, r.answer)
  {
    var scope, fingerprint := Scope(q.rider.passenger, q.key.value), FingerprintOf(q.rider);
    ClaimKeepsLedger(dist, tables.View(), scope, fingerprint, now);
    ReleasedClaim(tables.View(), scope, fingerprint, now);
    m, qualified := None, [];
    var claim := tables.ClaimKey(scope, fingerprint, now);
    match claim {
      case Replayed(a) => r := Answered(a);
      case KeyConflict => r := DifferentIntent;
      case StillPending => r := StillInProgress;
      case _ =>
        r, m, qualified := SeatUnderClaim(dist, tables, candidates, threshold, q, scope, claim == P.Reclaimed);
    }
  }
}
