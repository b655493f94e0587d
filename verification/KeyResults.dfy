/** Idempotency keys of shared creates over whole runs: one seat, one answer, and which intent it answers. */
module KeyResults {
  import opened Types
  import opened Protocol
  import opened Invariants
  import T = Trips
  import P = Pools
  import R = RowProofs
  import S = SeatProofs
  import Preservation
  import opened Runs

  /** However often a key is claimed, reclaimed, released and retried, it produces at most one seat. */
  lemma OneSeatPerKey(dist: Distance, h: History, n: nat, scope: Scope, p: Id, q: Id, i: nat, j: nat)
    requires IsRun(dist, h) && n < |h.states|
    requires var pools := h.states[n].db.pools;
      && p in pools && q in pools && i < |pools[p].members| && j < |pools[q].members|
      && pools[p].members[i].rider.passenger == scope.principal == pools[q].members[j].rider.passenger
      && pools[p].members[i].key == Some(scope.key) == pools[q].members[j].key
    ensures p == q && i == j
  {
    RunKeeps(dist, h, n);
  }

  /** Every success ever answered for a key names that seat, with its pool and agreed fare, so any two are the same. */
  lemma RepliesAgree(dist: Distance, h: History, m: nat, n: nat, early: Reply, late: Reply)
    requires IsRun(dist, h) && m <= n < |h.states| && early in h.states[m].mem.replies
    requires late in h.states[n].mem.replies
    requires early.scope == late.scope
    ensures early.answer == late.answer && P.SeatFor(h.states[n].db.pools, early.scope, early.answer)
  {
    RunKeeps(dist, h, n);
    RunFollows(dist, h, m, n);
    S.SeatForIsUnique(h.states[n].db.pools, early.scope, early.answer, late.answer);
  }

  /** A completed record is never pending again, never released, and never answers anything else. */
  lemma CompletedForGood(dist: Distance, h: History, m: nat, n: nat, scope: Scope, f: Fingerprint, now: Time)
    requires IsRun(dist, h) && m <= n < |h.states| && scope in h.states[m].db.records
    requires h.states[m].db.records[scope].response != None
    ensures var db, was := h.states[n].db, h.states[m].db.records[scope];
      && scope in db.records && db.records[scope] == was
      && P.ReleaseClaim(db, scope) == db
      && P.Claim(db, scope, f, now)
           == (db, if f == was.fingerprint then P.Replayed(was.response.value) else P.KeyConflict)
      && P.SeatFor(db.pools, scope, was.response.value)
  {
    RunFollows(dist, h, m, n);
    RunKeeps(dist, h, n);
  }

  // ── one claim at a time ───────────────────────────────────────────────────

  /** The step obtains the claim of the scope. */
  predicate Wins(w: World, s: Step, scope: Scope) {
    s.ClaimKey? && s.scope == scope && P.Claim(w.db, scope, s.fingerprint, s.now).1 in {P.Claimed, P.Reclaimed}
  }

  /** Nobody gives the claim up from point `m` to point `n`. */
  predicate Unreleased(h: History, m: nat, n: nat, scope: Scope)
    requires n <= |h.steps|
  {
    forall k :: m <= k < n ==> h.steps[k] != ReleaseKey(scope)
  }

  /** A record that stays: its intent is fixed, and only a reclaim more than a minute later restamps it. */
  ghost predicate ClaimKept(a: Record, b: Record) {
    && b.fingerprint == a.fingerprint
    && (b.createdAt == a.createdAt || b.createdAt > a.createdAt + 60_000)
  }

  lemma SeatStepKeepsClaim(dist: Distance, w: World, s: Step, scope: Scope)
    requires (s.OpenPool? || s.JoinPool?) && scope in w.db.records
    ensures var now := Apply(dist, w, s).db.records; scope in now && ClaimKept(w.db.records[scope], now[scope])
  {
    match s
    case OpenPool(pool, maxSeats, q) => S.OpenPoolAnswers(w.db, pool, maxSeats, q);
    case JoinPool(pool, q) => S.JoinPoolAnswers(dist, w.db, pool, q);
  }

  lemma StepKeepsClaim(dist: Distance, w: World, s: Step, scope: Scope)
    requires scope in w.db.records && s != ReleaseKey(scope)
    ensures var now := Apply(dist, w, s).db.records; scope in now && ClaimKept(w.db.records[scope], now[scope])
  {
    if s.OpenPool? || s.JoinPool? {
      SeatStepKeepsClaim(dist, w, s, scope);
    } else if !S.OnKeys(s) {
      S.OtherStepsKeepRecords(dist, w, s);
    }
  }

  lemma {:induction false} ClaimStays(dist: Distance, h: History, m: nat, n: nat, scope: Scope)
    requires IsRun(dist, h) && m <= n < |h.states| && scope in h.states[m].db.records && Unreleased(h, m, n, scope)
    ensures scope in h.states[n].db.records && ClaimKept(h.states[m].db.records[scope], h.states[n].db.records[scope])
    decreases n
  {
    if m < n {
      ClaimStays(dist, h, m, n - 1, scope);
      ClaimKeptAt(dist, h, n - 1, scope);
    }
  }

  lemma ClaimKeptAt(dist: Distance, h: History, n: nat, scope: Scope)
    requires IsRun(dist, h) && n < |h.steps| && scope in h.states[n].db.records && h.steps[n] != ReleaseKey(scope)
    ensures scope in h.states[n + 1].db.records
    ensures ClaimKept(h.states[n].db.records[scope], h.states[n + 1].db.records[scope])
  {
    StepKeepsClaim(dist, h.states[n], h.steps[n], scope);
    assert StepAt(dist, h, n);
  }

  /** From a pending claim on, until it is released or completed, a claim of the key within the minute changes
      nothing and gets no seat. */
  lemma PendingClaimHolds(dist: Distance, h: History, m: nat, n: nat, scope: Scope, f: Fingerprint, now: Time)
    requires IsRun(dist, h) && m <= n < |h.states| && scope in h.states[m].db.records && Unreleased(h, m, n, scope)
    requires !Completed(h.states[n].db.records, scope)
    requires now <= h.states[m].db.records[scope].createdAt + 60_000
    ensures var was, db := h.states[m].db.records[scope], h.states[n].db;
      P.Claim(db, scope, f, now) == (db, if f == was.fingerprint then P.StillPending else P.KeyConflict)
  {
    ClaimStays(dist, h, m, n, scope);
  }

  lemma WinStamps(dist: Distance, h: History, n: nat, scope: Scope)
    requires IsRun(dist, h) && n < |h.steps| && Wins(h.states[n], h.steps[n], scope)
    ensures h.states[n + 1].db.records
      == h.states[n].db.records[scope := Record(h.steps[n].fingerprint, None, h.steps[n].now)]
  {
    assert StepAt(dist, h, n);
    var w, s := h.states[n], h.steps[n];
    assert P.Claim(w.db, scope, s.fingerprint, s.now).0.records
      == w.db.records[scope := Record(s.fingerprint, None, s.now)];
  }

  /** Of the retries of a key that is not released, at most one a minute obtains the claim, and always for the same
      intent. */
  lemma OneClaimAtATime(dist: Distance, h: History, j: nat, k: nat, scope: Scope)
    requires IsRun(dist, h) && j < k < |h.steps| && Unreleased(h, j, k, scope)
    requires Wins(h.states[j], h.steps[j], scope) && Wins(h.states[k], h.steps[k], scope)
    ensures h.steps[k].fingerprint == h.steps[j].fingerprint
    ensures h.steps[k].now > h.steps[j].now + 60_000
  {
    WinStamps(dist, h, j, scope);
    ClaimStays(dist, h, j + 1, k, scope);
  }

  // ── which intent an answer is for ─────────────────────────────────────────

  predicate Completed(records: map<Scope, Record>, scope: Scope) {
    scope in records && records[scope].response != None
  }

  /** The step takes the seat of this scope. */
  predicate Takes(dist: Distance, w: World, s: Step, scope: Scope) {
    match s
    case OpenPool(pool, maxSeats, q) =>
      && q.key.Some?
      && scope == Scope(q.rider.passenger, q.key.value)
      && MayTakeSeat(w.mem, q)
      && P.OpenPool(w.db, pool, maxSeats, q).1.SeatTaken?
    case JoinPool(pool, q) =>
      && q.key.Some?
      && scope == Scope(q.rider.passenger, q.key.value)
      && MayTakeSeat(w.mem, q)
      && P.JoinPool(dist, w.db, pool, q).1.SeatTaken?
    case _ => false
  }

  /** The promise for requests to come: a completed record is for the intent its seat was taken for. */
  ghost predicate AnswersItsIntent(db: Db) {
    forall scope :: Completed(db.records, scope) ==> P.TakenFor(db.pools, scope, db.records[scope].fingerprint)
  }

  /** ... and for those answered: every success named a seat taken for the intent of its request. */
  ghost predicate KeepsPromise(w: World) {
    AnswersItsIntent(w.db) && forall r :: r in w.mem.replies ==> P.TakenFor(w.db.pools, r.scope, r.fingerprint)
  }

  // ── the comparisons ───────────────────────────────────────────────────────

  /** A seat transaction that finds a claim: it is of the request's own intent. */
  predicate OwnClaim(records: map<Scope, Record>, q: P.SeatRequest)
    requires q.key.Some?
  {
    var scope := Scope(q.rider.passenger, q.key.value);
    scope in records ==> records[scope].fingerprint == FingerprintOf(q.rider)
  }

  /** The two steps that complete a record compare its intent: with the request's, or with the found seat's. */
  predicate CompletesOwn(dist: Distance, w: World, s: Step) {
    match s
    case OpenPool(_, _, q) =>
      q.key.Some? && Takes(dist, w, s, Scope(q.rider.passenger, q.key.value)) ==> OwnClaim(w.db.records, q)
    case JoinPool(_, q) =>
      q.key.Some? && Takes(dist, w, s, Scope(q.rider.passenger, q.key.value)) ==> OwnClaim(w.db.records, q)
    case CompleteClaim(reply) =>
      reply in w.mem.lookups && reply.scope in w.db.records && !Completed(w.db.records, reply.scope) ==>
        P.TakenFor(w.db.pools, reply.scope, w.db.records[reply.scope].fingerprint)
    case _ => true
  }

  /** The two reads that answer compare theirs: with the record's, or with the found seat's. */
  predicate AnswersOwn(w: World, s: Step) {
    match s
    case ReadRecord(scope, f) =>
      Attempt(scope, f) in w.mem.attempts && Completed(w.db.records, scope) ==> w.db.records[scope].fingerprint == f
    case LookUpSeat(scope, f, a) =>
      Attempt(scope, f) in w.mem.attempts && P.SeatFor(w.db.pools, scope, a) ==> P.TakenFor(w.db.pools, scope, f)
    case _ => true
  }

  // ── seats and their intents ───────────────────────────────────────────────

  lemma IntentStays(a: map<Id, Pool>, b: map<Id, Pool>, scope: Scope, f: Fingerprint)
    requires PoolsFollow(a, b) && P.TakenFor(a, scope, f)
    ensures P.TakenFor(b, scope, f)
  {
    var p :| p in a && P.SeatedFor(a[p], scope, f);
    assert PoolFollows(a[p], b[p]);
    var i :| 0 <= i < |a[p].members| && P.HasIntent(a[p].members[i], scope, f);
    assert SeatKept(a[p].members[i], b[p].members[i]);
    assert P.HasIntent(b[p].members[i], scope, f);
    assert P.SeatedFor(b[p], scope, f);
  }

  lemma IntentIsUnique(pools: map<Id, Pool>, scope: Scope, f: Fingerprint, g: Fingerprint)
    requires SeatsOk(pools) && P.TakenFor(pools, scope, f) && P.TakenFor(pools, scope, g)
    ensures f == g
  {
    var p :| p in pools && P.SeatedFor(pools[p], scope, f);
    var q :| q in pools && P.SeatedFor(pools[q], scope, g);
    var i :| 0 <= i < |pools[p].members| && P.HasIntent(pools[p].members[i], scope, f);
    var j :| 0 <= j < |pools[q].members| && P.HasIntent(pools[q].members[j], scope, g);
    assert p != q || i != j ==> Compatible(pools[p].members[i], pools[q].members[j]);
  }

  lemma SeatHasIntent(pools: map<Id, Pool>, scope: Scope, a: SeatAnswer) returns (f: Fingerprint)
    requires P.SeatFor(pools, scope, a)
    ensures P.TakenFor(pools, scope, f)
  {
    var i :| 0 <= i < |pools[a.pool].members| && P.Carries(pools[a.pool].members[i], scope, a.fare);
    f := FingerprintOf(pools[a.pool].members[i].rider);
    assert P.HasIntent(pools[a.pool].members[i], scope, f);
    assert P.SeatedFor(pools[a.pool], scope, f);
  }

  /** Of a seat that exists, no later state says anything else. */
  lemma IntentIsFixed(a: map<Id, Pool>, b: map<Id, Pool>, scope: Scope, answer: SeatAnswer, f: Fingerprint)
    requires PoolsFollow(a, b) && SeatsOk(b) && P.SeatFor(a, scope, answer)
    ensures P.TakenFor(a, scope, f) <==> P.TakenFor(b, scope, f)
  {
    var g := SeatHasIntent(a, scope, answer);
    IntentStays(a, b, scope, g);
    if P.TakenFor(b, scope, f) {
      IntentIsUnique(b, scope, f, g);
    }
  }

  lemma InsertedIntent(pools: map<Id, Pool>, id: Id, q: P.SeatRequest, fare: nat)
    requires id in pools && P.InsertMember(pools, id, q, fare).Inserted? && q.key.Some?
    ensures P.SeatedFor(P.InsertMember(pools, id, q, fare).pool, Scope(q.rider.passenger, q.key.value),
                        FingerprintOf(q.rider))
  {
    var row := P.InsertMember(pools, id, q, fare).pool;
    assert P.HasIntent(row.members[|row.members| - 1], Scope(q.rider.passenger, q.key.value), FingerprintOf(q.rider));
  }

  lemma OpenedIntent(db: Db, id: Id, maxSeats: nat, q: P.SeatRequest)
    requires q.key.Some? && P.OpenPool(db, id, maxSeats, q).1.SeatTaken?
    ensures P.TakenFor(P.OpenPool(db, id, maxSeats, q).0.pools, Scope(q.rider.passenger, q.key.value),
                       FingerprintOf(q.rider))
  {
    var empty := Pool(Open, 0, maxSeats, None, 0, 0, q.rider.origin, [], []);
    InsertedIntent(db.pools[id := empty], id, q, q.fare.value);
    var b := P.OpenPool(db, id, maxSeats, q).0;
    assert b.pools[id] == P.InsertMember(db.pools[id := empty], id, q, q.fare.value).pool;
    assert P.SeatedFor(b.pools[id], Scope(q.rider.passenger, q.key.value), FingerprintOf(q.rider));
  }

  lemma JoinedIntent(dist: Distance, db: Db, id: Id, q: P.SeatRequest)
    requires q.key.Some? && P.JoinPool(dist, db, id, q).1.SeatTaken?
    ensures P.TakenFor(P.JoinPool(dist, db, id, q).0.pools, Scope(q.rider.passenger, q.key.value),
                       FingerprintOf(q.rider))
  {
    R.JoinIs(dist, db, id, q);
    InsertedIntent(db.pools, id, q, q.fare.value);
    var (b, r) := P.JoinPool(dist, db, id, q);
    var seated := P.InsertMember(db.pools, id, q, q.fare.value).pool;
    assert b.pools[id].members == seated.members;
    SameMembersSameIntent(seated, b.pools[id], Scope(q.rider.passenger, q.key.value), FingerprintOf(q.rider));
  }

  lemma SameMembersSameIntent(a: Pool, b: Pool, scope: Scope, f: Fingerprint)
    requires a.members == b.members && P.SeatedFor(a, scope, f)
    ensures P.SeatedFor(b, scope, f)
  {
    var i :| 0 <= i < |a.members| && P.HasIntent(a.members[i], scope, f);
    assert P.HasIntent(b.members[i], scope, f);
  }

  lemma TakenIntent(dist: Distance, w: World, s: Step, scope: Scope)
    requires Takes(dist, w, s, scope)
    ensures P.TakenFor(Apply(dist, w, s).db.pools, scope, FingerprintOf(s.seat.rider))
  {
    match s
    case OpenPool(pool, maxSeats, q) => OpenedIntent(w.db, pool, maxSeats, q);
    case JoinPool(pool, q) => JoinedIntent(dist, w.db, pool, q);
  }

  // ── one step ──────────────────────────────────────────────────────────────

  /** Pending claims only get an answer: nothing else about a record changes when it completes. */
  lemma CompletionKeepsFingerprint(dist: Distance, w: World, s: Step, scope: Scope)
    requires Completed(Apply(dist, w, s).db.records, scope) && !Completed(w.db.records, scope)
    ensures scope in w.db.records && w.db.records[scope].fingerprint == Apply(dist, w, s).db.records[scope].fingerprint
  {
    if S.OnKeys(s) {
      KeyStepKeepsFingerprint(dist, w, s, scope);
    } else if s.OpenPool? || s.JoinPool? {
      SeatStepKeepsFingerprint(dist, w, s, scope);
    } else {
      S.OtherStepsKeepRecords(dist, w, s);
    }
  }

  lemma KeyStepKeepsFingerprint(dist: Distance, w: World, s: Step, scope: Scope)
    requires S.OnKeys(s) && Completed(Apply(dist, w, s).db.records, scope) && !Completed(w.db.records, scope)
    ensures scope in w.db.records && w.db.records[scope].fingerprint == Apply(dist, w, s).db.records[scope].fingerprint
  {
  }

  lemma SeatStepKeepsFingerprint(dist: Distance, w: World, s: Step, scope: Scope)
    requires (s.OpenPool? || s.JoinPool?) && Completed(Apply(dist, w, s).db.records, scope)
    requires !Completed(w.db.records, scope)
    ensures scope in w.db.records && w.db.records[scope].fingerprint == Apply(dist, w, s).db.records[scope].fingerprint
  {
    match s
    case OpenPool(pool, maxSeats, q) => S.OpenPoolAnswers(w.db, pool, maxSeats, q);
    case JoinPool(pool, q) => S.JoinPoolAnswers(dist, w.db, pool, q);
  }

  lemma NoSecondTaker(dist: Distance, w: World, s: Step, scope: Scope)
    requires RecordsOk(w) && Completed(w.db.records, scope)
    ensures !Takes(dist, w, s, scope)
  {
    match s
    case OpenPool(pool, maxSeats, q) => S.OpenPoolAnswers(w.db, pool, maxSeats, q);
    case JoinPool(pool, q) => S.JoinPoolAnswers(dist, w.db, pool, q);
    case _ =>
  }

  /** A seat transaction completes its own scope's claim, and no other. */
  lemma SeatCommitCompletes(dist: Distance, w: World, s: Step, scope: Scope)
    requires RecordsOk(w) && Takes(dist, w, s, scope)
    ensures !Completed(w.db.records, scope)
    ensures forall other :: Completed(Apply(dist, w, s).db.records, other) && !Completed(w.db.records, other) ==>
      other == scope
    ensures Completed(Apply(dist, w, s).db.records, scope) <==> scope in w.db.records
  {
    if Completed(w.db.records, scope) {
      NoSecondTaker(dist, w, s, scope);
    }
    match s
    case OpenPool(pool, maxSeats, q) => S.OpenPoolAnswers(w.db, pool, maxSeats, q);
    case JoinPool(pool, q) => S.JoinPoolAnswers(dist, w.db, pool, q);
  }

  /** Every record the step completes is for its seat's intent. */
  ghost predicate NewlyRight(w: World, v: World) {
    forall scope :: Completed(v.db.records, scope) && !Completed(w.db.records, scope) ==>
      scope in w.db.records && P.TakenFor(v.db.pools, scope, w.db.records[scope].fingerprint)
  }

  lemma SeatStepCompletesRight(dist: Distance, w: World, s: Step)
    requires RecordsOk(w) && SeatsOk(Apply(dist, w, s).db.pools) && (s.OpenPool? || s.JoinPool?)
    ensures NewlyRight(w, Apply(dist, w, s)) <==> CompletesOwn(dist, w, s)
  {
    var v := Apply(dist, w, s);
    var q := s.seat;
    if q.key.Some? && Takes(dist, w, s, Scope(q.rider.passenger, q.key.value)) {
      var scope := Scope(q.rider.passenger, q.key.value);
      SeatCommitCompletes(dist, w, s, scope);
      TakenIntent(dist, w, s, scope);
      if scope in w.db.records && P.TakenFor(v.db.pools, scope, w.db.records[scope].fingerprint) {
        IntentIsUnique(v.db.pools, scope, w.db.records[scope].fingerprint, FingerprintOf(q.rider));
      }
    } else {
      NoSeatNoAnswer(dist, w, s);
    }
  }

  lemma NoSeatNoAnswer(dist: Distance, w: World, s: Step)
    requires s.OpenPool? || s.JoinPool?
    requires s.seat.key.Some? ==> !Takes(dist, w, s, Scope(s.seat.rider.passenger, s.seat.key.value))
    ensures Apply(dist, w, s).db.records == w.db.records && Apply(dist, w, s).mem.replies == w.mem.replies
  {
    match s
    case OpenPool(pool, maxSeats, q) => S.OpenPoolAnswers(w.db, pool, maxSeats, q);
    case JoinPool(pool, q) => S.JoinPoolAnswers(dist, w.db, pool, q);
  }

  lemma StepCompletesRight(dist: Distance, w: World, s: Step)
    requires RecordsOk(w) && SeatsOk(Apply(dist, w, s).db.pools)
    ensures NewlyRight(w, Apply(dist, w, s)) <==> CompletesOwn(dist, w, s)
  {
    if s.OpenPool? || s.JoinPool? {
      SeatStepCompletesRight(dist, w, s);
    } else if S.OnKeys(s) {
      KeyStepCompletesRight(dist, w, s);
    } else {
      S.OtherStepsKeepRecords(dist, w, s);
    }
  }

  lemma KeyStepCompletesRight(dist: Distance, w: World, s: Step)
    requires S.OnKeys(s)
    ensures NewlyRight(w, Apply(dist, w, s)) <==> CompletesOwn(dist, w, s)
  {
    var v := Apply(dist, w, s);
    if s.CompleteClaim? && s.reply in w.mem.lookups && s.reply.scope in w.db.records
      && !Completed(w.db.records, s.reply.scope) {
      assert Completed(v.db.records, s.reply.scope);
    }
  }

  /** What was completed before is answered for the intent it was answered for. */
  lemma CompletedStep(dist: Distance, w: World, s: Step, scope: Scope)
    requires Inv(dist, w) && Completed(w.db.records, scope)
    ensures var v := Apply(dist, w, s);
      && Completed(v.db.records, scope) && v.db.records[scope] == w.db.records[scope]
      && (P.TakenFor(v.db.pools, scope, w.db.records[scope].fingerprint) <==>
           P.TakenFor(w.db.pools, scope, w.db.records[scope].fingerprint))
  {
    Preservation.StepKeeps(dist, w, s);
    IntentIsFixed(w.db.pools, Apply(dist, w, s).db.pools, scope, w.db.records[scope].response.value,
                  w.db.records[scope].fingerprint);
  }

  lemma SeatsKept(dist: Distance, w: World, s: Step)
    requires Inv(dist, w)
    ensures SeatsOk(Apply(dist, w, s).db.pools) && PoolsFollow(w.db.pools, Apply(dist, w, s).db.pools)
  {
    Preservation.StepKeeps(dist, w, s);
  }

  lemma RecordsStep(dist: Distance, w: World, s: Step)
    requires Inv(dist, w)
    ensures AnswersItsIntent(Apply(dist, w, s).db) <==> AnswersItsIntent(w.db) && CompletesOwn(dist, w, s)
  {
    var v := Apply(dist, w, s);
    SeatsKept(dist, w, s);
    StepCompletesRight(dist, w, s);
    forall scope | Completed(w.db.records, scope)
      ensures Completed(v.db.records, scope) && v.db.records[scope] == w.db.records[scope]
      ensures P.TakenFor(v.db.pools, scope, w.db.records[scope].fingerprint) <==>
        P.TakenFor(w.db.pools, scope, w.db.records[scope].fingerprint)
    {
      CompletedStep(dist, w, s, scope);
    }
    forall scope | Completed(v.db.records, scope) && !Completed(w.db.records, scope)
      ensures scope in w.db.records && w.db.records[scope].fingerprint == v.db.records[scope].fingerprint
    {
      CompletionKeepsFingerprint(dist, w, s, scope);
    }
    RecordwiseIff(w, v);
  }

  lemma RecordwiseIff(w: World, v: World)
    requires forall scope :: Completed(w.db.records, scope) ==>
      && Completed(v.db.records, scope) && v.db.records[scope] == w.db.records[scope]
      && (P.TakenFor(v.db.pools, scope, w.db.records[scope].fingerprint) <==>
           P.TakenFor(w.db.pools, scope, w.db.records[scope].fingerprint))
    requires forall scope :: Completed(v.db.records, scope) && !Completed(w.db.records, scope) ==>
      scope in w.db.records && w.db.records[scope].fingerprint == v.db.records[scope].fingerprint
    ensures AnswersItsIntent(v.db) <==> AnswersItsIntent(w.db) && NewlyRight(w, v)
  {
  }

  // ── answers given ─────────────────────────────────────────────────────────

  ghost predicate RepliesTrue(w: World) {
    forall r :: r in w.mem.replies ==> P.TakenFor(w.db.pools, r.scope, r.fingerprint)
  }

  lemma SeatStepReplies(dist: Distance, w: World, s: Step)
    requires s.OpenPool? || s.JoinPool?
    ensures forall r :: r in Apply(dist, w, s).mem.replies && r !in w.mem.replies ==>
      P.TakenFor(Apply(dist, w, s).db.pools, r.scope, r.fingerprint)
  {
    var q := s.seat;
    if q.key.Some? && Takes(dist, w, s, Scope(q.rider.passenger, q.key.value)) {
      TakenIntent(dist, w, s, Scope(q.rider.passenger, q.key.value));
    } else {
      NoSeatNoAnswer(dist, w, s);
    }
  }

  /** Where the records are right, a replay is; a read that answers is right exactly if it compares. */
  lemma KeyStepReplies(dist: Distance, w: World, s: Step)
    requires S.OnKeys(s) && SeatsOk(w.db.pools) && AnswersItsIntent(w.db) && RepliesTrue(w)
    ensures RepliesTrue(Apply(dist, w, s)) <==> AnswersOwn(w, s)
  {
    var v := Apply(dist, w, s);
    match s
    case ReadRecord(scope, f) =>
      if Attempt(scope, f) in w.mem.attempts && Completed(w.db.records, scope) {
        var r := Reply(scope, f, w.db.records[scope].response.value);
        assert r in v.mem.replies;
        if P.TakenFor(w.db.pools, scope, f) {
          IntentIsUnique(w.db.pools, scope, f, w.db.records[scope].fingerprint);
        }
      }
    case LookUpSeat(scope, f, a) =>
      if Attempt(scope, f) in w.mem.attempts && P.SeatFor(w.db.pools, scope, a) {
        assert Reply(scope, f, a) in v.mem.replies;
      }
    case _ =>
  }

  lemma OldReplies(dist: Distance, w: World, s: Step)
    requires Inv(dist, w)
    ensures forall r :: r in w.mem.replies ==> r in Apply(dist, w, s).mem.replies
    ensures forall r :: r in w.mem.replies ==>
      (P.TakenFor(Apply(dist, w, s).db.pools, r.scope, r.fingerprint) <==>
        P.TakenFor(w.db.pools, r.scope, r.fingerprint))
  {
    SeatsKept(dist, w, s);
    Preservation.StepKeeps(dist, w, s);
    forall r | r in w.mem.replies
      ensures P.TakenFor(Apply(dist, w, s).db.pools, r.scope, r.fingerprint) <==>
        P.TakenFor(w.db.pools, r.scope, r.fingerprint)
    {
      IntentIsFixed(w.db.pools, Apply(dist, w, s).db.pools, r.scope, r.answer, r.fingerprint);
    }
  }

  lemma RepliesStep(dist: Distance, w: World, s: Step)
    requires Inv(dist, w) && AnswersItsIntent(w.db)
    ensures RepliesTrue(Apply(dist, w, s)) <==> RepliesTrue(w) && AnswersOwn(w, s)
  {
    var v := Apply(dist, w, s);
    OldReplies(dist, w, s);
    if RepliesTrue(w) {
      if s.OpenPool? || s.JoinPool? {
        SeatStepReplies(dist, w, s);
      } else if S.OnKeys(s) {
        KeyStepReplies(dist, w, s);
      } else {
        S.OtherStepsKeepRecords(dist, w, s);
      }
    } else {
      var r :| r in w.mem.replies && !P.TakenFor(w.db.pools, r.scope, r.fingerprint);
      assert r in v.mem.replies;
    }
  }

  // ── whole runs ────────────────────────────────────────────────────────────

  lemma RecordsAt(dist: Distance, h: History, n: nat)
    requires IsRun(dist, h) && n < |h.steps|
    ensures AnswersItsIntent(h.states[n + 1].db) <==>
      AnswersItsIntent(h.states[n].db) && CompletesOwn(dist, h.states[n], h.steps[n])
  {
    RunKeeps(dist, h, n);
    RecordsStep(dist, h.states[n], h.steps[n]);
    assert StepAt(dist, h, n);
  }

  lemma PromiseAt(dist: Distance, h: History, n: nat)
    requires IsRun(dist, h) && n < |h.steps|
    ensures KeepsPromise(h.states[n + 1]) <==>
      KeepsPromise(h.states[n]) && CompletesOwn(dist, h.states[n], h.steps[n]) && AnswersOwn(h.states[n], h.steps[n])
  {
    RecordsAt(dist, h, n);
    if AnswersItsIntent(h.states[n].db) {
      RunKeeps(dist, h, n);
      RepliesStep(dist, h.states[n], h.steps[n]);
      assert StepAt(dist, h, n);
    }
  }

  /** The source makes neither comparison. Completed records are right exactly as long as every completing step would
      have passed its own. */
  lemma {:induction false} RecordsAreRightExactlyWhen(dist: Distance, h: History, n: nat)
    requires IsRun(dist, h) && n < |h.states|
    ensures AnswersItsIntent(h.states[n].db) <==> forall k :: 0 <= k < n ==> CompletesOwn(dist, h.states[k], h.steps[k])
  {
    if n > 0 {
      RecordsAreRightExactlyWhen(dist, h, n - 1);
      RecordsAt(dist, h, n - 1);
    }
  }

  /** The whole promise, for every answer given and every request to come, holds exactly as long as every step would
      have passed the four comparisons. */
  lemma {:induction false} PromiseHoldsExactlyWhen(dist: Distance, h: History, n: nat)
    requires IsRun(dist, h) && n < |h.states|
    ensures KeepsPromise(h.states[n]) <==>
      forall k :: 0 <= k < n ==> CompletesOwn(dist, h.states[k], h.steps[k]) && AnswersOwn(h.states[k], h.steps[k])
  {
    if n > 0 {
      PromiseHoldsExactlyWhen(dist, h, n - 1);
      PromiseAt(dist, h, n - 1);
    }
  }

  /** What the promise says to the next request: the intent the seat was taken for is replayed, any other is
      rejected. */
  lemma OtherIntentsAreRejected(dist: Distance, h: History, n: nat, scope: Scope, taken: Fingerprint, f: Fingerprint,
                                now: Time)
    requires IsRun(dist, h) && n < |h.states| && AnswersItsIntent(h.states[n].db)
    requires Completed(h.states[n].db.records, scope) && P.TakenFor(h.states[n].db.pools, scope, taken)
    ensures var db := h.states[n].db;
      P.Claim(db, scope, f, now)
        == (db, if f == taken then P.Replayed(db.records[scope].response.value) else P.KeyConflict)
  {
    RunKeeps(dist, h, n);
    IntentIsUnique(h.states[n].db.pools, scope, taken, h.states[n].db.records[scope].fingerprint);
  }

  // ── seats without a record ────────────────────────────────────────────────

  /** Every keyed seat has its completed record. */
  ghost predicate SeatsRecorded(w: World) {
    forall scope, a :: P.SeatFor(w.db.pools, scope, a) ==> Records(w.db.records, scope, a)
  }

  predicate Records(records: map<Scope, Record>, scope: Scope, a: SeatAnswer) {
    scope in records && records[scope].response == Some(a)
  }

  /** The completing UPDATE of a seat transaction matches a row. */
  predicate FindsRecord(dist: Distance, w: World, s: Step) {
    (s.OpenPool? || s.JoinPool?) && s.seat.key.Some? ==>
      var scope := Scope(s.seat.rider.passenger, s.seat.key.value);
      Takes(dist, w, s, scope) ==> scope in w.db.records
  }

  /** One more member is all that a seat transaction adds, whatever it closes. */
  lemma InsertedOnly(pools: map<Id, Pool>, id: Id, q: P.SeatRequest, fare: nat, row: Pool, scope: Scope, a: SeatAnswer)
    requires id in pools && P.InsertMember(pools, id, q, fare).Inserted?
    requires row.members == P.InsertMember(pools, id, q, fare).pool.members
    requires P.SeatFor(pools[id := row], scope, a)
    ensures P.SeatFor(pools, scope, a) || (q.key == Some(scope.key) && q.rider.passenger == scope.principal)
  {
    if a.pool == id {
      var i :| 0 <= i < |row.members| && P.Carries(row.members[i], scope, a.fare);
      if i < |pools[id].members| {
        assert P.Carries(pools[id].members[i], scope, a.fare);
      }
    }
  }

  lemma OpenedOnly(db: Db, id: Id, maxSeats: nat, q: P.SeatRequest, scope: Scope, a: SeatAnswer)
    requires var b := P.OpenPool(db, id, maxSeats, q).0; P.SeatFor(b.pools, scope, a) && !P.SeatFor(db.pools, scope, a)
    ensures P.OpenPool(db, id, maxSeats, q).1.SeatTaken? && q.key == Some(scope.key)
    ensures q.rider.passenger == scope.principal
  {
    var (b, r) := P.OpenPool(db, id, maxSeats, q);
    if r.SeatTaken? {
      var empty := Pool(Open, 0, maxSeats, None, 0, 0, q.rider.origin, [], []);
      var start := db.pools[id := empty];
      assert start[id := b.pools[id]] == b.pools;
      InsertedOnly(start, id, q, q.fare.value, b.pools[id], scope, a);
    }
  }

  lemma JoinedOnly(dist: Distance, db: Db, id: Id, q: P.SeatRequest, scope: Scope, a: SeatAnswer)
    requires var b := P.JoinPool(dist, db, id, q).0; P.SeatFor(b.pools, scope, a) && !P.SeatFor(db.pools, scope, a)
    ensures P.JoinPool(dist, db, id, q).1.SeatTaken? && q.key == Some(scope.key) && q.rider.passenger == scope.principal
  {
    R.JoinIs(dist, db, id, q);
    var (b, r) := P.JoinPool(dist, db, id, q);
    if r.SeatTaken? {
      InsertedOnly(db.pools, id, q, q.fare.value, b.pools[id], scope, a);
    }
  }

  lemma NewSeatIsTaken(dist: Distance, w: World, s: Step, scope: Scope, a: SeatAnswer)
    requires PoolsOk(dist, w.db.pools)
    requires P.SeatFor(Apply(dist, w, s).db.pools, scope, a) && !P.SeatFor(w.db.pools, scope, a)
    ensures Takes(dist, w, s, scope)
  {
    if s.OpenPool? {
      OpenedOnly(w.db, s.pool, s.maxSeats, s.seat, scope, a);
    } else if s.JoinPool? {
      JoinedOnly(dist, w.db, s.pool, s.seat, scope, a);
    } else {
      S.OtherStepsSeatNobody(dist, w, s);
      NobodyNew(w.db.pools, Apply(dist, w, s).db.pools, scope, a);
    }
  }

  lemma NobodyNew(a: map<Id, Pool>, b: map<Id, Pool>, scope: Scope, answer: SeatAnswer)
    requires S.NobodySeated(a, b) && P.SeatFor(b, scope, answer)
    ensures P.SeatFor(a, scope, answer)
  {
    var p := answer.pool;
    var i :| 0 <= i < |b[p].members| && P.Carries(b[p].members[i], scope, answer.fare);
    assert S.SameSeats(a[p], b[p]) && SeatKept(a[p].members[i], b[p].members[i]);
    assert P.Carries(a[p].members[i], scope, answer.fare);
  }

  /** The seat a transaction takes is recorded with it exactly if its record was there. */
  lemma TakenIsRecorded(dist: Distance, w: World, s: Step, scope: Scope, a: SeatAnswer)
    requires Inv(dist, w) && Takes(dist, w, s, scope) && P.SeatFor(Apply(dist, w, s).db.pools, scope, a)
    ensures Records(Apply(dist, w, s).db.records, scope, a) <==> scope in w.db.records
  {
    var v := Apply(dist, w, s);
    SeatCommitCompletes(dist, w, s, scope);
    SeatsKept(dist, w, s);
    if scope in w.db.records {
      RecordNamesSeat(dist, w, s, scope);
      S.SeatForIsUnique(v.db.pools, scope, a, v.db.records[scope].response.value);
    }
  }

  lemma RecordNamesSeat(dist: Distance, w: World, s: Step, scope: Scope)
    requires Inv(dist, w) && Completed(Apply(dist, w, s).db.records, scope)
    ensures P.SeatFor(Apply(dist, w, s).db.pools, scope, Apply(dist, w, s).db.records[scope].response.value)
  {
    Preservation.StepKeeps(dist, w, s);
  }

  lemma OldSeatStaysRecorded(dist: Distance, w: World, s: Step, scope: Scope, a: SeatAnswer)
    requires Inv(dist, w) && P.SeatFor(w.db.pools, scope, a) && Records(w.db.records, scope, a)
    ensures Records(Apply(dist, w, s).db.records, scope, a)
  {
    CompletedStep(dist, w, s, scope);
  }

  lemma RecordedStep(dist: Distance, w: World, s: Step)
    requires Inv(dist, w) && SeatsRecorded(w)
    ensures SeatsRecorded(Apply(dist, w, s)) <==> FindsRecord(dist, w, s)
  {
    var v := Apply(dist, w, s);
    forall scope, a | P.SeatFor(v.db.pools, scope, a)
      ensures Records(v.db.records, scope, a) || (Takes(dist, w, s, scope) && scope !in w.db.records)
    {
      if P.SeatFor(w.db.pools, scope, a) {
        OldSeatStaysRecorded(dist, w, s, scope, a);
      } else {
        NewSeatIsTaken(dist, w, s, scope, a);
        TakenIsRecorded(dist, w, s, scope, a);
      }
    }
    if !FindsRecord(dist, w, s) {
      var scope := Scope(s.seat.rider.passenger, s.seat.key.value);
      var a := TakenSeat(dist, w, s, scope);
      TakenIsRecorded(dist, w, s, scope, a);
    }
  }

  lemma TakenSeat(dist: Distance, w: World, s: Step, scope: Scope) returns (a: SeatAnswer)
    requires Takes(dist, w, s, scope)
    ensures P.SeatFor(Apply(dist, w, s).db.pools, scope, a)
  {
    match s
    case OpenPool(pool, maxSeats, q) =>
      S.OpenPoolAnswers(w.db, pool, maxSeats, q);
      var r := P.OpenPool(w.db, pool, maxSeats, q).1;
      a := SeatAnswer(r.pool, r.fare);
    case JoinPool(pool, q) =>
      S.JoinPoolAnswers(dist, w.db, pool, q);
      var r := P.JoinPool(dist, w.db, pool, q).1;
      a := SeatAnswer(r.pool, r.fare);
  }

  lemma RecordedAt(dist: Distance, h: History, n: nat)
    requires IsRun(dist, h) && n < |h.steps| && SeatsRecorded(h.states[n])
    ensures SeatsRecorded(h.states[n + 1]) <==> FindsRecord(dist, h.states[n], h.steps[n])
  {
    RunKeeps(dist, h, n);
    RecordedStep(dist, h.states[n], h.steps[n]);
    assert StepAt(dist, h, n);
  }

  lemma NothingToRecord(dist: Distance, h: History)
    requires IsRun(dist, h)
    ensures SeatsRecorded(h.states[0])
  {
  }

  /** A keyed seat and its record are one commit only if the record is there. All along a run every seat is recorded
      exactly if every seat transaction found its record. */
  lemma {:induction false} SeatsAreRecordedExactlyWhen(dist: Distance, h: History, n: nat)
    requires IsRun(dist, h) && n < |h.states|
    ensures (forall k :: 0 <= k <= n ==> SeatsRecorded(h.states[k])) <==>
      (forall k :: 0 <= k < n ==> FindsRecord(dist, h.states[k], h.steps[k]))
  {
    if n == 0 {
      NothingToRecord(dist, h);
    } else {
      SeatsAreRecordedExactlyWhen(dist, h, n - 1);
      if SeatsRecorded(h.states[n - 1]) {
        RecordedAt(dist, h, n - 1);
      }
      RecordedPrefix(dist, h, n);
    }
  }

  lemma RecordedPrefix(dist: Distance, h: History, n: nat)
    requires 0 < n < |h.states| == |h.steps| + 1
    ensures (forall k :: 0 <= k <= n ==> SeatsRecorded(h.states[k]))
      <==> (forall k :: 0 <= k <= n - 1 ==> SeatsRecorded(h.states[k])) && SeatsRecorded(h.states[n])
    ensures (forall k :: 0 <= k < n ==> FindsRecord(dist, h.states[k], h.steps[k]))
      <==> (forall k :: 0 <= k < n - 1 ==> FindsRecord(dist, h.states[k], h.steps[k]))
           && FindsRecord(dist, h.states[n - 1], h.steps[n - 1])
  {
  }

  // ── two runs that break the promise ───────────────────────────────────────

  const Rider7: Scope := Scope(7, 70)
  const Seat7: P.SeatRequest := P.SeatRequest(Rider(7, Point(0.0, 0.0), Point(1.0, 1.0)), Some(500), Some(70))

  /** The intent of that seat, and of a trip somewhere else. */
  const Here: Fingerprint := FingerprintOf(Seat7.rider)
  const There: Fingerprint := FingerprintOf(Rider(7, Point(0.0, 0.0), Point(2.0, 2.0)))

  /** One attempt stalls; a retry reclaims its key, fails and releases it; the key is reused for another intent; the
      stalled attempt commits. */
  const StalledAttempt: seq<Step> := [
    ClaimKey(Rider7, Here, 0),
    ClaimKey(Rider7, Here, 60_001),
    ReleaseKey(Rider7),
    ClaimKey(Rider7, There, 60_002),
    Step.OpenPool(3, 2, Seat7)]

  /** The stalled attempt commits while nobody holds the key; then the key is reused, and its new holder finds the
      seat. */
  const LateLookup: seq<Step> := [
    ClaimKey(Rider7, Here, 0),
    ClaimKey(Rider7, Here, 60_001),
    ReleaseKey(Rider7),
    Step.OpenPool(3, 2, Seat7),
    ClaimKey(Rider7, There, 60_002),
    LookUpSeat(Rider7, There, SeatAnswer(3, 500)),
    CompleteClaim(Reply(Rider7, There, SeatAnswer(3, 500)))]

  lemma IntentsDiffer()
    ensures Here != There
  {
    assert ToFixed6(1.0) == Micro(false, 1_000_000) && ToFixed6(2.0) == Micro(false, 2_000_000);
  }

  const Held: Memory := Memory({}, {}, {}, {Attempt(Rider7, Here)}, {}, {})

  function Holding(record: Record): World {
    World(Start.db.(records := map[Rider7 := record]), Held)
  }

  lemma FirstClaim(dist: Distance)
    ensures Apply(dist, Start, ClaimKey(Rider7, Here, 0)) == Holding(Record(Here, None, 0))
  {
  }

  lemma SecondClaim(dist: Distance)
    ensures Apply(dist, Holding(Record(Here, None, 0)), ClaimKey(Rider7, Here, 60_001))
      == Holding(Record(Here, None, 60_001))
  {
  }

  lemma ThenReleased(dist: Distance)
    ensures Apply(dist, Holding(Record(Here, None, 60_001)), ReleaseKey(Rider7)) == World(Start.db, Held)
  {
  }

  /** Both runs begin alike: the attempt still under way has lost its claim. */
  lemma ClaimIsLost(dist: Distance, h: History)
    requires IsRun(dist, h) && |h.steps| >= 3 && h.steps[..3] == StalledAttempt[..3]
    ensures h.states[3] == World(Start.db, Held)
  {
    assert h.steps[0] == h.steps[..3][0] && h.steps[1] == h.steps[..3][1] && h.steps[2] == h.steps[..3][2];
    assert StepAt(dist, h, 0) && StepAt(dist, h, 1) && StepAt(dist, h, 2);
    FirstClaim(dist);
    SecondClaim(dist);
    ThenReleased(dist);
  }

  lemma OpensFresh(db: Db)
    requires db.pools == map[] && db.rides == map[]
    ensures var (b, r) := P.OpenPool(db, 3, 2, Seat7);
      && r == P.SeatTaken(3, 500, false) && b.records == P.CompleteIn(db.records, Rider7, SeatAnswer(3, 500))
      && P.SeatFor(b.pools, Rider7, SeatAnswer(3, 500)) && P.TakenFor(b.pools, Rider7, Here)
  {
    OpenedIntent(db, 3, 2, Seat7);
    S.OpenPoolAnswers(db, 3, 2, Seat7);
  }

  /** The key is claimed for another intent before the stalled attempt commits. */
  lemma ReusedBeforeSeat(dist: Distance, h: History)
    requires IsRun(dist, h) && h.steps == StalledAttempt && h.states[3] == World(Start.db, Held)
    ensures h.states[4].db == Start.db.(records := map[Rider7 := Record(There, None, 60_002)])
    ensures Attempt(Rider7, Here) in h.states[4].mem.attempts
  {
    assert StepAt(dist, h, 3);
  }

  lemma StalledCommits(dist: Distance, h: History)
    requires IsRun(dist, h) && h.steps == StalledAttempt
    requires h.states[4].db == Start.db.(records := map[Rider7 := Record(There, None, 60_002)])
    requires Attempt(Rider7, Here) in h.states[4].mem.attempts
    ensures h.states[5].db.records == map[Rider7 := Record(There, Some(SeatAnswer(3, 500)), 60_002)]
    ensures P.TakenFor(h.states[5].db.pools, Rider7, Here) && Takes(dist, h.states[4], h.steps[4], Rider7)
  {
    assert StepAt(dist, h, 4);
    OpensFresh(h.states[4].db);
  }

  /** The key's second intent is not rejected: it is answered with the seat the first one took. */
  lemma ReusedKeyIsAnswered(dist: Distance, h: History)
    requires IsRun(dist, h) && h.steps == StalledAttempt
    ensures var db := h.states[5].db;
      && P.TakenFor(db.pools, Rider7, Here)
      && P.Claim(db, Rider7, There, 60_003) == (db, P.Replayed(SeatAnswer(3, 500)))
      && P.Claim(db, Rider7, Here, 60_003) == (db, P.KeyConflict)
      && !AnswersItsIntent(db) && !CompletesOwn(dist, h.states[4], h.steps[4])
  {
    ClaimIsLost(dist, h);
    ReusedBeforeSeat(dist, h);
    StalledCommits(dist, h);
    IntentsDiffer();
    NotTakenForThere(dist, h, 5);
    assert Completed(h.states[5].db.records, Rider7);
  }

  /** The seat is taken while its key is free, and then the key is claimed for another intent. */
  lemma SeatBeforeReuse(dist: Distance, h: History)
    requires IsRun(dist, h) && h.steps == LateLookup && h.states[3] == World(Start.db, Held)
    ensures var w := h.states[5];
      && w.db.records == map[Rider7 := Record(There, None, 60_002)] && Attempt(Rider7, There) in w.mem.attempts
      && P.SeatFor(w.db.pools, Rider7, SeatAnswer(3, 500)) && P.TakenFor(w.db.pools, Rider7, Here)
  {
    assert StepAt(dist, h, 3) && StepAt(dist, h, 4);
    OpensFresh(Start.db);
  }

  lemma LookedUp(dist: Distance, h: History)
    requires IsRun(dist, h) && h.steps == LateLookup
    requires h.states[5].db.records == map[Rider7 := Record(There, None, 60_002)]
    requires Attempt(Rider7, There) in h.states[5].mem.attempts
    requires P.SeatFor(h.states[5].db.pools, Rider7, SeatAnswer(3, 500))
    ensures h.states[6].db == h.states[5].db
    ensures var found := Reply(Rider7, There, SeatAnswer(3, 500));
      found in h.states[6].mem.lookups && found in h.states[6].mem.replies
  {
    assert StepAt(dist, h, 5);
  }

  lemma NotTakenForThere(dist: Distance, h: History, n: nat)
    requires IsRun(dist, h) && n < |h.states| && P.TakenFor(h.states[n].db.pools, Rider7, Here)
    ensures !P.TakenFor(h.states[n].db.pools, Rider7, There)
  {
    RunKeeps(dist, h, n);
    IntentsDiffer();
    if P.TakenFor(h.states[n].db.pools, Rider7, There) {
      IntentIsUnique(h.states[n].db.pools, Rider7, Here, There);
    }
  }

  /** A comparison in the seat transaction alone would not help: here it finds no claim, and the second intent is
      answered by looking the seat up. */
  lemma FoundSeatIsAnswered(dist: Distance, h: History)
    requires IsRun(dist, h) && h.steps == LateLookup
    ensures forall k :: 0 <= k < 6 ==> CompletesOwn(dist, h.states[k], h.steps[k])
    ensures Reply(Rider7, There, SeatAnswer(3, 500)) in h.states[6].mem.replies
    ensures P.TakenFor(h.states[6].db.pools, Rider7, Here)
    ensures !AnswersOwn(h.states[5], h.steps[5]) && !CompletesOwn(dist, h.states[6], h.steps[6])
    ensures AnswersItsIntent(h.states[6].db) && !AnswersItsIntent(h.states[7].db)
  {
    ClaimIsLost(dist, h);
    SeatBeforeReuse(dist, h);
    LookedUp(dist, h);
    NotTakenForThere(dist, h, 5);
    NotTakenForThere(dist, h, 6);
    OnlyTheLastCompletes(dist, h);
    RecordsAt(dist, h, 6);
  }

  /** The seat transaction finds no claim, so no step before the last completes a record at all. */
  lemma OnlyTheLastCompletes(dist: Distance, h: History)
    requires IsRun(dist, h) && h.steps == LateLookup && h.states[3].db == Start.db
    ensures forall k :: 0 <= k < 6 ==> CompletesOwn(dist, h.states[k], h.steps[k])
    ensures AnswersItsIntent(h.states[6].db)
  {
    forall k | 0 <= k < 6 ensures CompletesOwn(dist, h.states[k], h.steps[k]) {
      assert k == 0 || k == 1 || k == 2 || k == 3 || k == 4 || k == 5;
    }
    RecordsAreRightExactlyWhen(dist, h, 6);
  }

  /** Both runs exist. */
  lemma BothHappen(dist: Distance) returns (stalled: History, late: History)
    ensures IsRun(dist, stalled) && stalled.steps == StalledAttempt
    ensures IsRun(dist, late) && late.steps == LateLookup
  {
    stalled := RunExists(dist, StalledAttempt);
    late := RunExists(dist, LateLookup);
  }

  /** The same attempt, with nobody to claim its key again: its seat has no record. */
  lemma SeatWithoutRecord(dist: Distance, h: History)
    requires IsRun(dist, h) && |h.steps| >= 4 && h.steps[..4] == LateLookup[..4]
    ensures P.SeatFor(h.states[4].db.pools, Rider7, SeatAnswer(3, 500)) && Rider7 !in h.states[4].db.records
    ensures !SeatsRecorded(h.states[4])
  {
    assert h.steps[..3] == h.steps[..4][..3] == StalledAttempt[..3];
    ClaimIsLost(dist, h);
    assert h.steps[3] == h.steps[..4][3];
    assert StepAt(dist, h, 3);
    OpensFresh(Start.db);
  }
}
