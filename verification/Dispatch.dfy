/** The dispatch service over the tables and the queue: candidate selection, waves and their timers. */
module Dispatch {
  import opened Types
  import opened Database
  import opened Relay
  import T = Trips
  import P = Pools
  import opened Invariants

  // ── candidates ────────────────────────────────────────────────────────────

  /** What the advisory filter asks of a driver near the pickup. `vehicle`: seats of an active driver's best vehicle. */
  predicate Suitable(db: Db, t: TripRef, g: nat, seats: nat, vehicle: Id -> Option<nat>, now: Time, d: Id) {
    && d !in db.guards
    && (forall o :: o in db.offers && db.offers[o].driver == d ==>
          && !(db.offers[o].trip == t && db.offers[o].generation == g)
          && !(db.offers[o].state == Offered && now < db.offers[o].expiresAt))
    && vehicle(d).Some? && vehicle(d).value >= seats
  }

  ghost predicate NoRepeats(s: seq<Id>) {
    forall i, j :: 0 <= i < j < |s| ==> s[i] != s[j]
  }

  /** The nearest `k` suitable drivers, nearest first, each once. */
  ghost predicate Selected(db: Db, t: TripRef, g: nat, seats: nat, vehicle: Id -> Option<nat>, now: Time,
                           raw: seq<Id>, k: nat, chosen: seq<Id>) {
    && |chosen| <= k && NoRepeats(chosen)
    && (forall d :: d in chosen ==> d in raw && Suitable(db, t, g, seats, vehicle, now, d))
    && exists n: nat ::
         n <= |raw| && Scanned(db, t, g, seats, vehicle, now, raw[..n], chosen) && (n == |raw| || |chosen| == k)
  }

  /** Exactly the suitable drivers among those looked at. */
  ghost predicate Scanned(db: Db, t: TripRef, g: nat, seats: nat, vehicle: Id -> Option<nat>, now: Time,
                          raw: seq<Id>, chosen: seq<Id>) {
    forall d :: d in raw && Suitable(db, t, g, seats, vehicle, now, d) <==> d in chosen
  }

  datatype StartOutcome = Started | StaleJob | WaveThrew

  class DispatchService {
    const tables: Tables
    const queue: Queue
    const k1: nat
    const k2: nat
    const plain: Window
    const scheduled: Window

    constructor (tables: Tables, queue: Queue, k1: nat, k2: nat, plain: Window, scheduled: Window)
      ensures this.tables == tables && this.queue == queue && this.k1 == k1 && this.k2 == k2
      ensures this.plain == plain && this.scheduled == scheduled
    {
      this.tables, this.queue, this.k1, this.k2, this.plain, this.scheduled := tables, queue, k1, k2, plain, scheduled;
    }

    method IsSuitable(t: TripRef, g: nat, seats: nat, vehicle: Id -> Option<nat>, now: Time, d: Id) returns (yes: bool)
      ensures yes <==> Suitable(tables.View(), t, g, seats, vehicle, now, d)
    {
      var offers := tables.offers;
      yes := d !in tables.guards && vehicle(d).Some? && vehicle(d).value >= seats
             && (forall o :: o in offers && offers[o].driver == d ==>
                  && !(offers[o].trip == t && offers[o].generation == g)
                  && !(offers[o].state == Offered && now < offers[o].expiresAt));
    }

    /** `raw` is what the geo index returns, nearest first. */
    method SelectCandidates(t: TripRef, g: nat, seats: nat, vehicle: Id -> Option<nat>, now: Time, raw: seq<Id>,
                            k: nat)
      returns (chosen: seq<Id>)
      ensures Selected(tables.View(), t, g, seats, vehicle, now, raw, k, chosen)
    {
      chosen := [];
      var n := 0;
      while n < |raw| && |chosen| < k
        invariant n <= |raw| && |chosen| <= k && NoRepeats(chosen)
        invariant Scanned(tables.View(), t, g, seats, vehicle, now, raw[..n], chosen)
      {
        var d := raw[n];
        assert raw[..n + 1] == raw[..n] + [d];
        var suitable := IsSuitable(t, g, seats, vehicle, now, d);
        if suitable && d !in chosen {
          chosen := chosen + [d];
        }
        n := n + 1;
      }
    }

    // ── timers ──────────────────────────────────────────────────────────────

    method ScheduleTimers(t: TripRef, g: nat, isScheduled: bool, now: Time)
      modifies queue
      ensures queue.jobs == TimersSet(old(queue.jobs), t, g, if isScheduled then scheduled else plain, now)
    {
      var window := if isScheduled then scheduled else plain;
      var _ := queue.Add(Wave2Job(t, g), now + window.waveOneMs);
      var _ := queue.Add(HardFailJob(t, g), now + window.hardFailMs);
    }

    method RemoveTimers(t: TripRef, g: nat)
      modifies queue
      ensures queue.jobs == if g >= 1 then old(queue.jobs) - {Wave2Job(t, g), HardFailJob(t, g)} else old(queue.jobs)
    {
      if g >= 1 {
        queue.jobs := queue.jobs - {Wave2Job(t, g)};
        queue.jobs := queue.jobs - {HardFailJob(t, g)};
      }
    }

    // ── waves ───────────────────────────────────────────────────────────────

    /** `offers` says, per candidate, what key its insert generates and what its clock reads. */
    method RunSoloWave(ride: Id, isScheduled: bool, wave: nat, g: nat, candidates: seq<Id>, offers: Inserts,
                       now: Time)
      returns (threw: bool)
      requires tables.Valid() && |offers.ids| == |candidates| == |offers.now|
      modifies tables`offers, queue
      ensures tables.Valid() && (threw <==> g < 1)
      ensures tables.View() ==
        (if threw then old(tables.View()) else Wave(old(tables.View()), Solo(ride), wave, g, candidates, offers))
      ensures queue.jobs == if threw || wave != 1 then old(queue.jobs)
        else TimersSet(old(queue.jobs), Solo(ride), g, if isScheduled then scheduled else plain, now)
    {
      if g < 1 {
        return true;
      }
      var _ := tables.RunWave(T.OfferRequest(Solo(ride), 0, g, wave, OFFER_TTL_MS), candidates, offers.ids,
                              offers.now, offers.locked);
      if wave == 1 {
        ScheduleTimers(Solo(ride), g, isScheduled, now);
      }
      threw := false;
    }

    /** A pool without its whole itinerary gets no offers, but its timers, so that the hard-fail ends it. */
    method RunPoolWave(pool: Id, row: Pool, wave: nat, g: nat, candidates: seq<Id>, offers: Inserts, now: Time)
      returns (threw: bool)
      requires tables.Valid() && |offers.ids| == |candidates| == |offers.now|
      modifies tables`offers, queue
      ensures tables.Valid() && (threw <==> g < 1)
      ensures tables.View() ==
        (if threw || !Whole(row) then old(tables.View())
          else Wave(old(tables.View()), Shared(pool), wave, g, candidates, offers))
      ensures queue.jobs ==
        if threw || wave != 1 then old(queue.jobs) else TimersSet(old(queue.jobs), Shared(pool), g, plain, now)
    {
      if g < 1 {
        return true;
      }
      if row.seatCount >= 1 && |row.stops| == 2 * row.seatCount {
        var _ := tables.RunWave(T.OfferRequest(Shared(pool), 0, g, wave, OFFER_TTL_MS), candidates, offers.ids,
                                offers.now, offers.locked);
      }
      if wave == 1 {
        ScheduleTimers(Shared(pool), g, false, now);
      }
      threw := false;
    }

    /** A start job re-checks the row it is for. */
    method StartSolo(ride: Id, g: nat, candidates: seq<Id>, offers: Inserts, now: Time) returns (r: StartOutcome)
      requires tables.Valid() && |offers.ids| == |candidates| == |offers.now|
      modifies tables`offers, queue
      ensures tables.Valid()
      ensures var rides := old(tables.rides);
        r == if !(ride in rides && rides[ride].status == Requested && rides[ride].generation == g) then StaleJob
             else if g < 1 then WaveThrew else Started
      ensures r != Started ==> tables.View() == old(tables.View()) && queue.jobs == old(queue.jobs)
      ensures r == Started ==>
        && tables.View() == Wave(old(tables.View()), Solo(ride), 1, g, candidates, offers)
        && var window := if old(tables.rides)[ride].scheduled then scheduled else plain;
           queue.jobs == TimersSet(old(queue.jobs), Solo(ride), g, window, now)
    {
      if ride !in tables.rides || tables.rides[ride].status != Requested || tables.rides[ride].generation != g {
        return StaleJob;
      }
      var threw := RunSoloWave(ride, tables.rides[ride].scheduled, 1, g, candidates, offers, now);
      r := if threw then WaveThrew else Started;
    }

    method StartPool(pool: Id, g: nat, candidates: seq<Id>, offers: Inserts, now: Time) returns (r: StartOutcome)
      requires tables.Valid() && |offers.ids| == |candidates| == |offers.now|
      modifies tables`offers, queue
      ensures tables.Valid()
      ensures r == if !(T.Dispatchable(old(tables.View()), Shared(pool)) && old(tables.pools)[pool].generation == g)
        then StaleJob else if g < 1 then WaveThrew else Started
      ensures r != Started ==> tables.View() == old(tables.View()) && queue.jobs == old(queue.jobs)
      ensures r == Started ==>
        && tables.View() == PoolWave(old(tables.View()), pool, 1, g, candidates, offers)
        && queue.jobs == TimersSet(old(queue.jobs), Shared(pool), g, plain, now)
    {
      if pool !in tables.pools || tables.pools[pool].state !in {ClosedFull, ClosedTimeout}
        || tables.pools[pool].claimedBy != None || tables.pools[pool].generation != g {
        return StaleJob;
      }
      var threw := RunPoolWave(pool, tables.pools[pool], 1, g, candidates, offers, now);
      r := if threw then WaveThrew else Started;
    }

    /** The escalation to a wave, if the trip still waits in the generation the timer carries. */
    method HandleWaveTimeout(t: TripRef, wave: nat, g: nat, candidates: seq<Id>, offers: Inserts, now: Time)
      requires tables.Valid() && |offers.ids| == |candidates| == |offers.now| && (wave == 1 || wave == 2)
      modifies tables`offers, queue
      ensures tables.Valid()
      ensures var db := old(tables.View());
        if !T.Dispatchable(db, t) || g != T.Generation(db, t) || g < 1
        then tables.View() == db && queue.jobs == old(queue.jobs)
        else
          && tables.View() ==
               (if t.Solo? then Wave(db, t, wave, g, candidates, offers)
                 else PoolWave(db, t.id, wave, g, candidates, offers))
          && var window := if t.Solo? && db.rides[t.id].scheduled then scheduled else plain;
             queue.jobs == if wave == 1 then TimersSet(old(queue.jobs), t, g, window, now) else old(queue.jobs)
    {
      match t {
        case Solo(r) =>
          if r !in tables.rides || tables.rides[r].status != Requested || tables.rides[r].driver != None
            || g != tables.rides[r].generation || g < 1 {
            return;
          }
          var _ := RunSoloWave(r, tables.rides[r].scheduled, wave, g, candidates, offers, now);
        case Shared(p) =>
          if p !in tables.pools || tables.pools[p].claimedBy != None
            || tables.pools[p].state !in {ClosedFull, ClosedTimeout} || g != tables.pools[p].generation || g < 1 {
            return;
          }
          var _ := RunPoolWave(p, tables.pools[p], wave, g, candidates, offers, now);
      }
    }

    /** The wake moves the ride to its generation, then starts it like any other. */
    method WakeScheduled(ride: Id, g: nat, candidates: seq<Id>, offers: Inserts, now: Time) returns (r: StartOutcome)
      requires tables.Valid() && |offers.ids| == |candidates| == |offers.now|
      modifies tables`rides, tables`offers, queue
      ensures tables.Valid()
      ensures r == if !Wakeable(old(tables.rides), ride, g) then StaleJob else if g < 1 then WaveThrew else Started
      ensures r != Started ==> tables.View() == T.Wake(old(tables.View()), ride, g) && queue.jobs == old(queue.jobs)
      ensures r == Started ==>
        && tables.View() == Wave(T.Wake(old(tables.View()), ride, g), Solo(ride), 1, g, candidates, offers)
        && queue.jobs == TimersSet(old(queue.jobs), Solo(ride), g, scheduled, now)
    {
      var woken := tables.WakeScheduled(ride, g);
      if !woken {
        return StaleJob;
      }
      r := StartSolo(ride, g, candidates, offers, now);
    }

    /** The window closed. A scheduled ride gets another, anything else ends; `generation` is what the timer carries. */
    method HandleHardFail(t: TripRef, g: nat) returns (ended: bool)
      requires tables.Valid()
      modifies tables, queue
      ensures tables.Valid()
      ensures tables.View() == HardFailed(old(tables.View()), t, g)
      ensures ended <==> CanHardFail(old(tables.View()), t, g)
      ensures queue.jobs ==
        if ended && g >= 1 then old(queue.jobs) - {Wave2Job(t, g), HardFailJob(t, g)} else old(queue.jobs)
    {
      match t {
        case Solo(r) =>
          if r in tables.rides && tables.rides[r].scheduled {
            ended := tables.RearmScheduled(r, g);
          } else {
            ended := tables.MarkNoDriver(r, g);
          }
        case Shared(p) => ended := tables.AbortUnclaimed(p, g);
      }
      if ended {
        RemoveTimers(t, g);
      }
    }
  }

  const OFFER_TTL_MS: nat := 12_000

  datatype Inserts = Inserts(ids: seq<Id>, now: seq<Time>, locked: set<Id>)

  function TimersSet(jobs: Jobs, t: TripRef, g: nat, window: Window, now: Time): Jobs {
    var withWave2 := if Wave2Job(t, g) in jobs then jobs else jobs[Wave2Job(t, g) := Live(now + window.waveOneMs)];
    if HardFailJob(t, g) in withWave2 then withWave2 else withWave2[HardFailJob(t, g) := Live(now + window.hardFailMs)]
  }

  function Wave(db: Db, t: TripRef, wave: nat, g: nat, candidates: seq<Id>, offers: Inserts): Db
    requires |offers.ids| == |candidates| == |offers.now|
  {
    Waved(db, T.OfferRequest(t, 0, g, wave, OFFER_TTL_MS), candidates, offers.ids, offers.now, offers.locked,
          |candidates|)
  }

  predicate Whole(row: Pool) {
    row.seatCount >= 1 && |row.stops| == 2 * row.seatCount
  }

  function PoolWave(db: Db, pool: Id, wave: nat, g: nat, candidates: seq<Id>, offers: Inserts): Db
    requires pool in db.pools && |offers.ids| == |candidates| == |offers.now|
  {
    if Whole(db.pools[pool]) then Wave(db, Shared(pool), wave, g, candidates, offers) else db
  }

  /** The guard of the wake: a scheduled ride still waiting, at this generation or the one before. */
  predicate Wakeable(rides: map<Id, Ride>, ride: Id, g: nat) {
    && ride in rides && rides[ride].scheduled && rides[ride].status == Requested
    && (rides[ride].generation == g || rides[ride].generation + 1 == g)
  }

  /** What the timer needs to find: the trip unassigned and waiting, in the generation it carries. */
  predicate CanHardFail(db: Db, t: TripRef, g: nat) {
    && T.Dispatchable(db, t) && g == T.Generation(db, t)
    && (t.Shared? || db.rides[t.id].scheduled ==> g >= 1)
  }

  function HardFailed(db: Db, t: TripRef, g: nat): Db {
    match t
    case Solo(r) =>
      if r in db.rides && db.rides[r].scheduled then T.RearmScheduled(db, r, g) else T.MarkNoDriver(db, r, g)
    case Shared(p) => P.AbortUnclaimed(db, p, g)
  }

  // ── what a wave achieves ──────────────────────────────────────────────────

  /** A wave for a generation that is over, from however stale a read, changes nothing. */
  lemma {:induction false} StaleWaveIsHarmless(db: Db, q: T.OfferRequest, candidates: seq<Id>, ids: seq<Id>,
                                               now: seq<Time>, locked: set<Id>, n: nat)
    requires n <= |candidates| == |ids| == |now|
    requires !T.Dispatchable(db, q.trip) || T.Generation(db, q.trip) != q.generation
    ensures Waved(db, q, candidates, ids, now, locked, n) == db
  {
    if n > 0 {
      StaleWaveIsHarmless(db, q, candidates, ids, now, locked, n - 1);
    }
  }

  /** The driver was not offered this generation, and no live offer of theirs outlasts `from`. */
  ghost predicate Free(offers: map<Id, Offer>, t: TripRef, g: nat, from: Time, d: Id) {
    forall o :: o in offers && offers[o].driver == d ==>
      && !(offers[o].trip == t && offers[o].generation == g)
      && (offers[o].state == Offered ==> offers[o].expiresAt <= from)
  }

  /** Another transaction holds the driver's lapsed offer, so the insert cannot clear it away. */
  ghost predicate Blocked(offers: map<Id, Offer>, locked: set<Id>, d: Id) {
    exists o :: o in offers && offers[o].driver == d && offers[o].state == Offered && o in locked
  }

  /** The offers of every other driver are as before. */
  ghost predicate OnlyDriver(a: map<Id, Offer>, b: map<Id, Offer>, d: Id) {
    && (forall o :: o in a ==> o in b && b[o].driver == a[o].driver && (a[o].driver != d ==> b[o] == a[o]))
    && (forall o :: o in b && o !in a ==> b[o].driver == d)
  }

  lemma InsertTouchesItsDriver(db: Db, id: Id, q: T.OfferRequest, now: Time, locked: set<Id>)
    ensures var b := T.CreateOffer(db, id, q, now, locked);
      b == db.(offers := b.offers) && OnlyDriver(db.offers, b.offers, q.driver)
  {
  }

  lemma OthersAreAsBefore(a: map<Id, Offer>, b: map<Id, Offer>, t: TripRef, g: nat, from: Time, locked: set<Id>,
                          d: Id, other: Id)
    requires OnlyDriver(a, b, d) && other != d
    ensures Free(a, t, g, from, other) ==> Free(b, t, g, from, other)
    ensures Blocked(a, locked, other) <==> Blocked(b, locked, other)
  {
    if Blocked(a, locked, other) {
      var o :| o in a && a[o].driver == other && a[o].state == Offered && o in locked;
      assert o in b && b[o] == a[o];
    }
  }

  /** A free driver gets the offer unless blocked, and then gets none. */
  lemma FreeGetsOffer(db: Db, id: Id, q: T.OfferRequest, now: Time, from: Time, locked: set<Id>)
    requires q.generation >= 1 && id !in db.offers && T.Dispatchable(db, q.trip)
    requires T.Generation(db, q.trip) == q.generation
    requires Free(db.offers, q.trip, q.generation, from, q.driver) && from <= now
    ensures var b := T.CreateOffer(db, id, q, now, locked).offers;
      if Blocked(db.offers, locked, q.driver) then b.Keys == db.offers.Keys
      else b.Keys == db.offers.Keys + {id} && Made(b, id, q, q.driver, now)
  {
    var offers := T.ExpireLapsed(db.offers, Some(q.driver), now, locked);
    if Blocked(db.offers, locked, q.driver) {
      var o :| o in db.offers && db.offers[o].driver == q.driver && db.offers[o].state == Offered && o in locked;
      assert offers[o] == db.offers[o];
    } else {
      assert !T.OfferConflicts(offers, q.trip, q.driver, q.generation);
    }
  }

  /** Of the first `n` candidates each one that is not blocked holds an offer, and nothing else was inserted. */
  ghost predicate Reached(db: Db, b: Db, q: T.OfferRequest, candidates: seq<Id>, ids: seq<Id>, now: seq<Time>,
                          from: Time, locked: set<Id>, n: nat)
    requires n <= |candidates| == |ids| == |now|
  {
    && b == db.(offers := b.offers)
    && db.offers.Keys <= b.offers.Keys <= db.offers.Keys + KeysOf(ids[..n])
    && (forall i :: n <= i < |candidates| ==>
          && Free(b.offers, q.trip, q.generation, from, candidates[i])
          && (Blocked(b.offers, locked, candidates[i]) <==> Blocked(db.offers, locked, candidates[i])))
    && (forall i :: 0 <= i < n ==> OfferedOrBlocked(db, b, q, candidates[i], ids[i], now[i], locked))
  }

  ghost predicate OfferedOrBlocked(db: Db, b: Db, q: T.OfferRequest, d: Id, id: Id, now: Time, locked: set<Id>) {
    if Blocked(db.offers, locked, d) then id !in b.offers else Made(b.offers, id, q, d, now)
  }

  /** Uninterrupted, a wave reaches every free driver but those whose lapsed offer another transaction holds. */
  lemma {:induction false} WaveReachesAll(db: Db, q: T.OfferRequest, candidates: seq<Id>, ids: seq<Id>,
                                          now: seq<Time>, from: Time, locked: set<Id>, n: nat)
    requires n <= |candidates| == |ids| == |now| && NoRepeats(candidates) && NoRepeats(ids)
    requires q.generation >= 1 && T.Dispatchable(db, q.trip) && T.Generation(db, q.trip) == q.generation
    requires forall i :: 0 <= i < |candidates| ==>
      Free(db.offers, q.trip, q.generation, from, candidates[i]) && ids[i] !in db.offers && from <= now[i]
    ensures Reached(db, Waved(db, q, candidates, ids, now, locked, n), q, candidates, ids, now, from, locked, n)
  {
    if n > 0 {
      WaveReachesAll(db, q, candidates, ids, now, from, locked, n - 1);
      var mid, r := Waved(db, q, candidates, ids, now, locked, n - 1), q.(driver := candidates[n - 1]);
      FreshKey(ids, n);
      FreeGetsOffer(mid, ids[n - 1], r, now[n - 1], from, locked);
      InsertTouchesItsDriver(mid, ids[n - 1], r, now[n - 1], locked);
      ReachedOneMore(db, mid, T.CreateOffer(mid, ids[n - 1], r, now[n - 1], locked), q, candidates, ids, now,
                     from, locked, n);
    }
  }

  lemma ReachedOneMore(db: Db, mid: Db, b: Db, q: T.OfferRequest, candidates: seq<Id>, ids: seq<Id>, now: seq<Time>,
                       from: Time, locked: set<Id>, n: nat)
    requires 0 < n <= |candidates| == |ids| == |now| && NoRepeats(candidates) && NoRepeats(ids)
    requires Reached(db, mid, q, candidates, ids, now, from, locked, n - 1) && ids[n - 1] !in mid.offers
    requires b == mid.(offers := b.offers) && OnlyDriver(mid.offers, b.offers, candidates[n - 1])
    requires if Blocked(mid.offers, locked, candidates[n - 1])
      then b.offers.Keys == mid.offers.Keys
      else
        && b.offers.Keys == mid.offers.Keys + {ids[n - 1]}
        && Made(b.offers, ids[n - 1], q, candidates[n - 1], now[n - 1])
    ensures Reached(db, b, q, candidates, ids, now, from, locked, n)
  {
    assert ids[..n] == ids[..n - 1] + [ids[n - 1]];
    assert KeysOf(ids[..n]) == KeysOf(ids[..n - 1]) + {ids[n - 1]};
    forall i | n <= i < |candidates|
      ensures Free(b.offers, q.trip, q.generation, from, candidates[i])
      ensures Blocked(b.offers, locked, candidates[i]) <==> Blocked(db.offers, locked, candidates[i])
    {
      OthersAreAsBefore(mid.offers, b.offers, q.trip, q.generation, from, locked, candidates[n - 1], candidates[i]);
    }
    forall i | 0 <= i < n ensures OfferedOrBlocked(db, b, q, candidates[i], ids[i], now[i], locked) {
      if i < n - 1 {
        assert OfferedOrBlocked(db, mid, q, candidates[i], ids[i], now[i], locked);
        assert ids[i] != ids[n - 1] && candidates[i] != candidates[n - 1];
      }
    }
  }

  lemma FreshKey(ids: seq<Id>, n: nat)
    requires 0 < n <= |ids| && NoRepeats(ids)
    ensures ids[n - 1] !in KeysOf(ids[..n - 1])
  {
  }

  function KeysOf(ids: seq<Id>): set<Id> {
    set id | id in ids
  }

  /** The offer was made at `now`, in this wave, and ends its life later, which is never less than a millisecond. */
  ghost predicate Made(offers: map<Id, Offer>, id: Id, q: T.OfferRequest, d: Id, now: Time) {
    && id in offers
    && offers[id].trip == q.trip
    && offers[id].generation == q.generation
    && offers[id].wave == q.wave
    && offers[id].driver == d
    && offers[id].state == Offered
    && offers[id].offeredAt == now
    && offers[id].expiresAt - offers[id].offeredAt == if q.ttl > 0 then q.ttl else 1
  }

  /** The selection leaves only drivers that are free for this generation. */
  lemma SelectedAreFree(db: Db, t: TripRef, g: nat, seats: nat, vehicle: Id -> Option<nat>, now: Time, raw: seq<Id>,
                        k: nat, chosen: seq<Id>)
    requires Selected(db, t, g, seats, vehicle, now, raw, k, chosen)
    ensures forall i :: 0 <= i < |chosen| ==> Free(db.offers, t, g, now, chosen[i])
  {
    forall i | 0 <= i < |chosen| ensures Free(db.offers, t, g, now, chosen[i]) {
      assert chosen[i] in chosen;
    }
  }

  /** Selection and wave together: uninterrupted, the nearest suitable drivers hold a live offer each afterwards,
      save one whose lapsed offer is held elsewhere. */
  lemma NearestDriversAreOffered(db: Db, t: TripRef, wave: nat, g: nat, seats: nat, vehicle: Id -> Option<nat>,
                                 now: Time, raw: seq<Id>, k: nat, chosen: seq<Id>, offers: Inserts)
    requires Selected(db, t, g, seats, vehicle, now, raw, k, chosen)
    requires g >= 1 && T.Dispatchable(db, t) && T.Generation(db, t) == g
    requires |offers.ids| == |chosen| == |offers.now| && NoRepeats(offers.ids)
    requires forall i :: 0 <= i < |chosen| ==> offers.ids[i] !in db.offers && now <= offers.now[i]
    ensures var b := Wave(db, t, wave, g, chosen, offers);
      && b == db.(offers := b.offers)
      && (forall i :: 0 <= i < |chosen| && !Blocked(db.offers, offers.locked, chosen[i]) ==>
           HoldsOffer(b.offers, offers.ids[i], t, g, wave, chosen[i], offers.now[i]))
      && (offers.locked == {} ==> forall i :: 0 <= i < |chosen| ==>
           HoldsOffer(b.offers, offers.ids[i], t, g, wave, chosen[i], offers.now[i]))
  {
    var q := T.OfferRequest(t, 0, g, wave, OFFER_TTL_MS);
    SelectedAreFree(db, t, g, seats, vehicle, now, raw, k, chosen);
    WaveReachesAll(db, q, chosen, offers.ids, offers.now, now, offers.locked, |chosen|);
    var b := Wave(db, t, wave, g, chosen, offers);
    forall i | 0 <= i < |chosen| && !Blocked(db.offers, offers.locked, chosen[i])
      ensures HoldsOffer(b.offers, offers.ids[i], t, g, wave, chosen[i], offers.now[i])
    {
      assert OfferedOrBlocked(db, b, q, chosen[i], offers.ids[i], offers.now[i], offers.locked);
    }
  }

  /** The driver can answer from `at` on, for twelve seconds. */
  predicate HoldsOffer(offers: map<Id, Offer>, id: Id, t: TripRef, g: nat, wave: nat, d: Id, at: Time) {
    id in offers && offers[id] == Offer(t, d, g, wave, Offered, at, at + 12_000)
  }

  /** No one is passed over: a free driver with seats enough is chosen, or `k` others are. */
  lemma FreeDriversAreChosen(db: Db, t: TripRef, g: nat, seats: nat, vehicle: Id -> Option<nat>, now: Time,
                             raw: seq<Id>, k: nat, chosen: seq<Id>, d: Id)
    requires Selected(db, t, g, seats, vehicle, now, raw, k, chosen)
    requires d in raw && d !in db.guards && Free(db.offers, t, g, now, d)
    requires vehicle(d).Some? && vehicle(d).value >= seats
    ensures d in chosen || (|chosen| == k && forall c :: c in chosen ==> Ahead(raw, c, d))
  {
    if d !in chosen {
      var n: nat :| n <= |raw| && Scanned(db, t, g, seats, vehicle, now, raw[..n], chosen)
        && (n == |raw| || |chosen| == k);
      assert Suitable(db, t, g, seats, vehicle, now, d);
      assert raw[..|raw|] == raw;
      assert d !in raw[..n];
      forall c | c in chosen ensures Ahead(raw, c, d) {
        assert c in raw[..n];
        var i :| 0 <= i < n && raw[..n][i] == c;
        var j :| 0 <= j < |raw| && raw[j] == d;
        assert forall j :: 0 <= j < n ==> raw[j] == raw[..n][j];
        assert raw[i] == c;
      }
    }
  }

  /** The index puts `c` somewhere before the first mention of `d`. */
  ghost predicate Ahead(raw: seq<Id>, c: Id, d: Id) {
    exists i :: 0 <= i < |raw| && raw[i] == c && forall j :: 0 <= j <= i ==> raw[j] != d
  }

  // ── what a start and a hard-fail achieve ──────────────────────────────────

  /** Each timer that was not set yet is due when its own window ends; whatever else is queued stays as it is. */
  lemma TimersAreSet(jobs: Jobs, t: TripRef, g: nat, window: Window, now: Time)
    ensures var after := TimersSet(jobs, t, g, window, now);
      && after.Keys == jobs.Keys + {Wave2Job(t, g), HardFailJob(t, g)}
      && (forall j :: j in jobs ==> after[j] == jobs[j])
      && (Wave2Job(t, g) !in jobs ==> after[Wave2Job(t, g)] == Live(now + window.waveOneMs))
      && (HardFailJob(t, g) !in jobs ==> after[HardFailJob(t, g)] == Live(now + window.hardFailMs))
  {
  }

  /** A closed pool nobody has claimed has its whole itinerary, so its wave does offer it. */
  lemma ClosedPoolIsOffered(dist: Distance, db: Db, pool: Id, wave: nat, g: nat, candidates: seq<Id>, offers: Inserts)
    requires RowsOk(dist, db) && T.Dispatchable(db, Shared(pool)) && |offers.ids| == |candidates| == |offers.now|
    ensures PoolWave(db, pool, wave, g, candidates, offers) == Wave(db, Shared(pool), wave, g, candidates, offers)
  {
    assert PoolOk(dist, db.pools[pool]);
  }

  /** How a trip is after its window closed unanswered: over, or for a scheduled ride in its next generation. */
  predicate WindowClosed(a: Db, b: Db, t: TripRef, g: nat) {
    match t
    case Solo(r) =>
      && r in a.rides && b.pools == a.pools && b.guards == a.guards
      && (if a.rides[r].scheduled
          then b.rides == a.rides[r := a.rides[r].(generation := g + 1)]
            && b.outbox == a.outbox + {Intent(RideDispatch, r, g + 1)}
          else b.rides == a.rides[r := a.rides[r].(status := NoDriver)] && b.outbox == a.outbox)
    case Shared(p) =>
      && p in a.pools && p in b.pools && b.rides == a.rides && b.guards == a.guards && b.outbox == a.outbox
      && b.pools == a.pools[p := b.pools[p]] && b.pools[p].state == Aborted
      && forall i :: 0 <= i < |b.pools[p].members| ==> !b.pools[p].members[i].active
  }

  /** A hard-fail acts exactly on a trip that is still unassigned in the timer's generation. */
  lemma HardFailIsExact(dist: Distance, db: Db, t: TripRef, g: nat)
    requires RowsOk(dist, db)
    ensures FailsExactly(db, HardFailed(db, t, g), t, g)
  {
    match t
    case Solo(r) =>
      assert r in db.rides ==> RideOk(db.rides[r]);
      RideFailsExactly(db, r, g);
    case Shared(p) =>
      assert p in db.pools ==> PoolOk(dist, db.pools[p]);
      PoolFailsExactly(db, p, g);
  }

  predicate FailsExactly(a: Db, b: Db, t: TripRef, g: nat) {
    if Unassigned(a, t) && g == T.Generation(a, t) >= 1 then
      && WindowClosed(a, b, t, g)
      && forall o :: o in a.offers ==> o in b.offers && b.offers[o] == Withdrawn(a.offers[o], t)
    else b == a
  }

  lemma RideFailsExactly(db: Db, r: Id, g: nat)
    requires r in db.rides && db.rides[r].status == Requested ==>
      db.rides[r].driver == None && (!db.rides[r].scheduled ==> db.rides[r].generation == 1)
    ensures FailsExactly(db, HardFailed(db, Solo(r), g), Solo(r), g)
  {
  }

  lemma PoolFailsExactly(db: Db, p: Id, g: nat)
    requires p in db.pools && T.ClaimableState(db.pools[p].state) ==> db.pools[p].generation == 1
    ensures FailsExactly(db, HardFailed(db, Shared(p), g), Shared(p), g)
  {
  }

  function Withdrawn(f: Offer, t: TripRef): Offer {
    if f.trip == t && f.state == Offered then f.(state := Revoked) else f
  }

  /** A ride still requested, or a pool closed and claimed by nobody. */
  predicate Unassigned(db: Db, t: TripRef) {
    match t
    case Solo(r) => r in db.rides && db.rides[r].status == Requested
    case Shared(p) => p in db.pools && db.pools[p].state in {ClosedFull, ClosedTimeout} && db.pools[p].claimedBy == None
  }
}
