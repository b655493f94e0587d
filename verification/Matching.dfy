/** Finding a pool for a shared request: the candidates in order of fit, then a pool of one's own; and the keyed
    create around it. */
module Matching {
  import opened Types
  import opened Database
  import T = Trips
  import P = Pools
  import SeatResults
  import opened Invariants

  // ── candidates ────────────────────────────────────────────────────────────

  /** A pool that discovery found, with the advisory score of its route and its two detours. `quote` is the fare it
      would cost, None where pricing throws. `contended`: joining it is given up after the last deadlock retry. */
  datatype Candidate = Candidate(
    pool: Id,
    score: real,
    detourOrigin: real,
    detourDest: real,
    budget: real,
    quote: Option<nat>,
    contended: bool)

  function Composite(c: Candidate): real {
    c.score - 0.0005 * (c.detourOrigin + c.detourDest)
  }

  predicate Qualifies(c: Candidate, threshold: real) {
    c.score >= threshold && c.detourOrigin <= c.budget && c.detourDest <= c.budget
  }

  ghost predicate Descending(s: seq<Candidate>) {
    forall i, j :: 0 <= i < j < |s| ==> Composite(s[i]) >= Composite(s[j])
  }

  /** `Array.prototype.sort` is stable: `c` goes behind everything that fits at least as well. */
  function Insert(c: Candidate, s: seq<Candidate>): seq<Candidate> {
    if s == [] || Composite(s[0]) < Composite(c) then [c] + s else [s[0]] + Insert(c, s[1..])
  }

  lemma {:induction false} InsertAdds(c: Candidate, s: seq<Candidate>)
    ensures multiset(Insert(c, s)) == multiset(s) + multiset{c}
  {
    if s == [] || Composite(s[0]) < Composite(c) {
    } else {
      InsertAdds(c, s[1..]);
      assert s == [s[0]] + s[1..];
    }
  }

  lemma {:induction false} InsertDescends(c: Candidate, s: seq<Candidate>)
    requires Descending(s)
    ensures Descending(Insert(c, s))
  {
    if s == [] || Composite(s[0]) < Composite(c) {
    } else {
      InsertDescends(c, s[1..]);
      InsertAdds(c, s[1..]);
      var rest := Insert(c, s[1..]);
      forall j | 0 <= j < |rest| ensures Composite(s[0]) >= Composite(rest[j]) {
        assert rest[j] in multiset(rest);
        assert rest[j] == c || rest[j] in s[1..];
      }
    }
  }

  /** Filters and sorts: what is left is every qualified candidate, best first. */
  method Rank(candidates: seq<Candidate>, threshold: real) returns (qualified: seq<Candidate>)
    ensures Ranked(candidates, threshold, qualified)
  {
    qualified := [];
    for i := 0 to |candidates|
      invariant Descending(qualified)
      invariant forall c ::
        multiset(qualified)[c] == if Qualifies(c, threshold) then multiset(candidates[..i])[c] else 0
    {
      var c := candidates[i];
      assert candidates[..i + 1] == candidates[..i] + [c];
      if c.score >= threshold && c.detourOrigin <= c.budget && c.detourDest <= c.budget {
        InsertDescends(c, qualified);
        InsertAdds(c, qualified);
        qualified := Insert(c, qualified);
      }
    }
    assert candidates[..|candidates|] == candidates;
  }

  /** The qualified candidates and no others, best first. */
  ghost predicate Ranked(candidates: seq<Candidate>, threshold: real, qualified: seq<Candidate>) {
    && Descending(qualified)
    && forall c :: multiset(qualified)[c] == if Qualifies(c, threshold) then multiset(candidates)[c] else 0
  }

  // ── trying them ───────────────────────────────────────────────────────────

  /** `openContended`: opening is given up after the last deadlock retry. */
  datatype Request = Request(rider: Rider, key: Option<Key>, newId: Id, maxSeats: nat, openQuote: Option<nat>,
                             openContended: bool)

  datatype Match =
    | Slotted(pool: Id, fare: nat, closedFull: bool)
    | Opened(pool: Id, fare: nat)
    | Existing(replay: bool, tried: Id)
    | Conflict(active: bool)
    | Threw

  function Seat(q: Request, quote: Option<nat>): P.SeatRequest {
    P.SeatRequest(q.rider, quote, q.key)
  }

  /** The candidate filled, closed or vanished since it was scored, or is fought over: the next one is tried. */
  predicate Stale(dist: Distance, db: Db, c: Candidate, q: Request) {
    var r := P.JoinPool(dist, db, c.pool, Seat(q, c.quote)).1;
    c.contended || r == P.PoolNotFound || r == P.SeatRefused(P.PoolFull) || r == P.SeatRefused(P.PoolClosed)
  }

  /** What a candidate that is not stale decides. */
  function Decided(r: P.SeatResult, tried: Id): Match {
    match r
    case SeatTaken(p, fare, full) => Slotted(p, fare, full)
    case SeatRefused(reason) =>
      if reason == P.AlreadyMember then Existing(false, tried)
      else if reason == P.IdempotentReplay then Existing(true, tried)
      else Conflict(true)
    case PoolNotFound => Threw
    case RolledBack => Threw
  }

  function OpenDecided(r: P.SeatResult, newId: Id): Match {
    match r
    case SeatTaken(p, fare, _) => Opened(p, fare)
    case SeatRefused(reason) =>
      if reason == P.IdempotentReplay then Existing(true, newId)
      else if reason == P.PassengerHasActivePool then Conflict(true) else Threw
    case PoolNotFound => Threw
    case RolledBack => Threw
  }

  /** The database and the answer once every candidate was stale. */
  function Opening(db: Db, q: Request): (Db, Match) {
    if q.openContended then (db, Conflict(false))
    else
      var (b, r) := P.OpenPool(db, q.newId, q.maxSeats, Seat(q, q.openQuote));
      (b, OpenDecided(r, q.newId))
  }

  /** A stale candidate changes nothing, and neither does any answer but a taken seat. */
  lemma JoinChangesOnlyWithASeat(dist: Distance, db: Db, id: Id, q: P.SeatRequest)
    ensures !P.JoinPool(dist, db, id, q).1.SeatTaken? ==> P.JoinPool(dist, db, id, q).0 == db
  {
  }

  /** The first of the best candidates that is still willing decides; a new pool is opened only when none is. */
  ghost predicate IsMatch(dist: Distance, a: Db, b: Db, qualified: seq<Candidate>, q: Request, m: Match) {
    || (exists k: nat :: DecidedBy(dist, a, b, qualified, q, m, k))
    || (&& (forall k :: 0 <= k < |qualified| ==> Stale(dist, a, qualified[k], q))
        && (b, m) == Opening(a, q))
  }

  ghost predicate DecidedBy(dist: Distance, a: Db, b: Db, qualified: seq<Candidate>, q: Request, m: Match, k: nat) {
    && k < |qualified|
    && (forall j :: 0 <= j < k ==> Stale(dist, a, qualified[j], q))
    && !Stale(dist, a, qualified[k], q)
    && b == P.JoinPool(dist, a, qualified[k].pool, Seat(q, qualified[k].quote)).0
    && m == Decided(P.JoinPool(dist, a, qualified[k].pool, Seat(q, qualified[k].quote)).1, qualified[k].pool)
  }

  method FindOrCreatePool(dist: Distance, tables: Tables, candidates: seq<Candidate>, threshold: real, q: Request)
    returns (m: Match, ghost qualified: seq<Candidate>)
    requires tables.Valid()
    modifies tables
    ensures tables.Valid() && IsMatch(dist, old(tables.View()), tables.View(), qualified, q, m)
    ensures Ranked(candidates, threshold, qualified)
  {
    var ranked := Rank(candidates, threshold);
    qualified := ranked;
    for i := 0 to |ranked|
      invariant tables.Valid() && tables.View() == old(tables.View())
      invariant forall j :: 0 <= j < i ==> Stale(dist, old(tables.View()), ranked[j], q)
    {
      if ranked[i].contended {
        continue;
      }
      var joined := tables.JoinPool(dist, ranked[i].pool, Seat(q, ranked[i].quote));
      JoinChangesOnlyWithASeat(dist, old(tables.View()), ranked[i].pool, Seat(q, ranked[i].quote));
      if joined != P.PoolNotFound && joined != P.SeatRefused(P.PoolFull) && joined != P.SeatRefused(P.PoolClosed) {
        m := Decided(joined, ranked[i].pool);
        assert DecidedBy(dist, old(tables.View()), tables.View(), ranked, q, m, i);
        return;
      }
    }
    if q.openContended {
      return Conflict(false), ranked;
    }
    var outcome := tables.OpenPool(q.newId, q.maxSeats, Seat(q, q.openQuote));
    m := OpenDecided(outcome, q.newId);
  }

  ghost predicate BestWilling(dist: Distance, db: Db, qualified: seq<Candidate>, q: Request, c: Candidate) {
    && !Stale(dist, db, c, q)
    && forall other :: other in qualified && Composite(other) > Composite(c) ==> Stale(dist, db, other, q)
  }

  /** A rider is seated in the pool that fits best among those that would still take the rider, and in no other. */
  lemma SlottedInTheBestWilling(dist: Distance, a: Db, b: Db, qualified: seq<Candidate>, q: Request, m: Match)
    requires Descending(qualified) && IsMatch(dist, a, b, qualified, q, m) && m.Slotted?
    ensures exists c :: c in qualified && c.pool == m.pool && BestWilling(dist, a, qualified, q, c)
    ensures forall p :: p in b.pools && p != m.pool ==> p in a.pools && b.pools[p] == a.pools[p]
  {
    var k: nat :| DecidedBy(dist, a, b, qualified, q, m, k);
    JoinTouchesOnePool(dist, a, qualified[k].pool, Seat(q, qualified[k].quote));
    assert BestWilling(dist, a, qualified, q, qualified[k]);
  }

  lemma JoinTouchesOnePool(dist: Distance, db: Db, id: Id, q: P.SeatRequest)
    ensures var (b, r) := P.JoinPool(dist, db, id, q);
      && (forall p :: p in b.pools && p != id ==> p in db.pools && b.pools[p] == db.pools[p])
      && (r.SeatTaken? ==> r.pool == id)
  {
  }

  /** Without a seat in the answer, nothing has been written. */
  lemma OnlyASeatIsWritten(dist: Distance, a: Db, b: Db, qualified: seq<Candidate>, q: Request, m: Match)
    requires IsMatch(dist, a, b, qualified, q, m) && !m.Slotted? && !m.Opened?
    ensures b == a
  {
  }

  // ── which pools are tried, and in which order ─────────────────────────────

  /** A pool is passed over only for being fought over, gone, closed or full. */
  lemma StaleExactlyWhen(dist: Distance, db: Db, c: Candidate, q: Request)
    requires c.pool in db.pools ==> PoolOk(dist, db.pools[c.pool])
    ensures Stale(dist, db, c, q) <==>
      || c.contended || c.pool !in db.pools || db.pools[c.pool].state != Open
      || |db.pools[c.pool].members| >= db.pools[c.pool].maxSeats
  {
    SeatResults.JoinAnsweredIn(dist, db, c.pool, Seat(q, c.quote));
  }

  /** Of two pools with routes alike, the one that asks for the shorter walk comes first; a tenth more likeness makes
      up for two hundred metres. */
  lemma CloserComesFirst(a: Candidate, b: Candidate)
    ensures a.score == b.score ==>
      (Composite(a) > Composite(b) <==> a.detourOrigin + a.detourDest < b.detourOrigin + b.detourDest)
    ensures a.detourOrigin + a.detourDest == b.detourOrigin + b.detourDest ==>
      (Composite(a) > Composite(b) <==> a.score > b.score)
    ensures a.score == b.score + 0.1 && a.detourOrigin + a.detourDest == b.detourOrigin + b.detourDest + 200.0 ==>
      Composite(a) == Composite(b)
  {
  }

  /** A pool is out exactly if its route is too unlike or one end is farther than its budget. */
  lemma DisqualifiedExactlyWhen(c: Candidate, threshold: real)
    ensures !Qualifies(c, threshold) <==> c.score < threshold || c.detourOrigin > c.budget || c.detourDest > c.budget
  {
  }

  /** What a pool that is not passed over makes of the rider. */
  ghost function Willing(db: Db, c: Candidate, q: Request): Match
    requires c.pool in db.pools
  {
    var seat := Seat(q, c.quote);
    if c.quote == None then Threw
    else if SeatResults.KeyHasSeat(db.pools, seat) then Existing(true, c.pool)
    else if q.key == None && SeatResults.SitsIn(db.pools, c.pool, q.rider.passenger) then Existing(false, c.pool)
    else if SeatResults.Travels(db.pools, q.rider.passenger) then Conflict(true)
    else Slotted(c.pool, c.quote.value, |db.pools[c.pool].members| + 1 == db.pools[c.pool].maxSeats)
  }

  /** What opening makes of a rider no pool would take. */
  ghost function Alone(db: Db, q: Request): Match {
    if q.openContended then Conflict(false)
    else if q.newId in db.pools || q.newId in db.rides || q.maxSeats == 0 || q.openQuote == None then Threw
    else if SeatResults.KeyHasSeat(db.pools, Seat(q, q.openQuote)) then Existing(true, q.newId)
    else if SeatResults.Travels(db.pools, q.rider.passenger) then Conflict(true)
    else Opened(q.newId, q.openQuote.value)
  }

  lemma WillingAnswers(dist: Distance, db: Db, c: Candidate, q: Request)
    requires c.pool in db.pools && PoolOk(dist, db.pools[c.pool]) && !Stale(dist, db, c, q)
    ensures Decided(P.JoinPool(dist, db, c.pool, Seat(q, c.quote)).1, c.pool) == Willing(db, c, q)
  {
    SeatResults.JoinAnsweredIn(dist, db, c.pool, Seat(q, c.quote));
  }

  lemma AloneAnswers(db: Db, q: Request)
    ensures Opening(db, q).1 == Alone(db, q)
  {
    SeatResults.OpenAnsweredIn(db, q.newId, q.maxSeats, Seat(q, q.openQuote));
  }

  /** A match comes down to the first pool that is not passed over, or to none. */
  lemma MatchIs(dist: Distance, a: Db, b: Db, qualified: seq<Candidate>, q: Request, m: Match)
    requires PoolsOk(dist, a.pools) && IsMatch(dist, a, b, qualified, q, m)
    ensures if forall c :: c in qualified ==> Stale(dist, a, c, q) then m == Alone(a, q)
      else exists k :: FirstWilling(dist, a, qualified, q, k) && m == Willing(a, qualified[k], q)
  {
    AloneAnswers(a, q);
    if k: nat :| DecidedBy(dist, a, b, qualified, q, m, k) {
      WillingIsThere(dist, a, qualified[k], q);
      WillingAnswers(dist, a, qualified[k], q);
      assert qualified[k] in qualified && FirstWilling(dist, a, qualified, q, k);
    }
  }

  lemma WillingIsThere(dist: Distance, db: Db, c: Candidate, q: Request)
    requires !Stale(dist, db, c, q)
    ensures c.pool in db.pools
  {
  }

  ghost predicate FirstWilling(dist: Distance, db: Db, qualified: seq<Candidate>, q: Request, k: int) {
    && 0 <= k < |qualified| && qualified[k].pool in db.pools && !Stale(dist, db, qualified[k], q)
    && forall j :: 0 <= j < k ==> Stale(dist, db, qualified[j], q)
  }
}
