/** Rebuilding lost queue jobs from rows. */
module Reconciler {
  import opened Types
  import opened Outbox
  import opened Relay
  import opened Database
  import T = Trips
  import D = Dispatch
  import Protocol
  import Invariants
  import Runs

  const GRACE_MS: int := 15_000
  const MAX_PER_PASS: nat := 500

  // ── what the durable state says about one trip ────────────────────────────

  datatype Durable = Durable(db: Db, rows: Rows, jobs: Jobs)

  function JobTrip(j: JobId): TripRef {
    match j
    case StartJob(t, _) => t
    case Wave2Job(t, _) => t
    case HardFailJob(t, _) => t
    case WakeJob(r, _) => Solo(r)
    case ExpireJob(p) => Shared(p)
  }

  function IntentTrip(i: Intent): TripRef {
    if i.topic == RideDispatch || i.topic == RideWake then Solo(i.aggregate) else Shared(i.aggregate)
  }

  function DispatchIntent(t: TripRef, generation: nat): Intent {
    Intent(if t.Solo? then RideDispatch else PoolDispatch, t.id, generation)
  }

  ghost predicate SameAbout(a: Durable, b: Durable, u: TripRef) {
    && (match u
        case Solo(r) => (r in a.db.rides <==> r in b.db.rides) && (r in a.db.rides ==> a.db.rides[r] == b.db.rides[r])
        case Shared(p) =>
          (p in a.db.pools <==> p in b.db.pools) && (p in a.db.pools ==> a.db.pools[p] == b.db.pools[p]))
    && (forall i :: IntentTrip(i) == u ==> (i in a.rows <==> i in b.rows) && (i in a.rows ==> a.rows[i] == b.rows[i]))
    && (forall j :: JobTrip(j) == u ==> (j in a.jobs <==> j in b.jobs) && (j in a.jobs ==> a.jobs[j] == b.jobs[j]))
  }

  ghost predicate OnlyAbout(a: Durable, b: Durable, t: TripRef) {
    forall u :: u != t ==> SameAbout(a, b, u)
  }

  /** A row that is still to be published, under a job id that no finished job occupies. */
  predicate ReadyRow(s: Durable, i: Intent) {
    PendingRow(s.rows, i) && (JobFor(i) in s.jobs ==> s.jobs[JobFor(i)].Live?)
  }

  /** Something will move dispatch of the trip's generation along. */
  predicate DispatchCovered(s: Durable, t: TripRef, g: nat) {
    LiveJob(s.jobs, StartJob(t, g)) || ReadyRow(s, DispatchIntent(t, g)) || LiveJob(s.jobs, HardFailJob(t, g))
  }

  /** A trip waiting for work has a job or an unpublished row that will do it. */
  predicate Covered(s: Durable, t: TripRef) {
    match t
    case Solo(r) =>
      r in s.db.rides && s.db.rides[r].status == Requested ==>
        if s.db.rides[r].generation > 0 then DispatchCovered(s, t, s.db.rides[r].generation)
        else s.db.rides[r].scheduled ==> LiveJob(s.jobs, WakeJob(r, 1)) || ReadyRow(s, Intent(RideWake, r, 1))
    case Shared(p) =>
      p in s.db.pools ==>
        if s.db.pools[p].state == Open then LiveJob(s.jobs, ExpireJob(p)) || ReadyRow(s, Intent(PoolExpire, p, 0))
        else T.Dispatchable(s.db, t) && s.db.pools[p].generation > 0 ==> DispatchCovered(s, t, s.db.pools[p].generation)
  }

  lemma CoveredElsewhere(a: Durable, b: Durable, u: TripRef)
    requires SameAbout(a, b, u) && Covered(a, u)
    ensures Covered(b, u)
  {
  }

  /** No row runs ahead of its ride's generation, and an assigned or failed ride is not `requested`. */
  ghost predicate Sound(db: Db) {
    && (forall i :: i in db.outbox && i.topic == RideDispatch ==>
         i.aggregate in db.rides && i.generation <= db.rides[i.aggregate].generation)
    && (forall r :: r in db.rides && db.rides[r].status == Requested ==> db.rides[r].driver == None)
  }

  /** No start job runs ahead either: each was published from a row. */
  ghost predicate StartsSound(db: Db, jobs: Jobs) {
    forall j :: j in jobs && j.StartJob? && j.trip.Solo? ==>
      j.trip.id in db.rides && j.generation <= db.rides[j.trip.id].generation
  }

  /** Every state the protocol reaches is sound. */
  lemma ReachableIsSound(dist: Distance, h: Protocol.History, n: nat)
    requires Protocol.IsRun(dist, h) && n < |h.states|
    ensures Sound(h.states[n].db)
  {
    Runs.RunKeeps(dist, h, n);
    SoundWhenKept(dist, h.states[n]);
  }

  lemma SoundWhenKept(dist: Distance, w: Protocol.World)
    requires Invariants.Inv(dist, w)
    ensures Sound(w.db)
  {
    forall i | i in w.db.outbox && i.topic == RideDispatch
      ensures i.aggregate in w.db.rides && i.generation <= w.db.rides[i.aggregate].generation
    {
      assert Invariants.IntentOk(w.db, i);
    }
    forall r | r in w.db.rides && w.db.rides[r].status == Requested ensures w.db.rides[r].driver == None {
      assert Invariants.RideOk(w.db.rides[r]);
    }
  }

  // ── offers of one generation ──────────────────────────────────────────────

  function OffersOf(offers: map<Id, Offer>, t: TripRef, g: nat): set<Id> {
    set o | o in offers && offers[o].trip == t && offers[o].generation == g
  }

  ghost predicate FirstOffered(offers: map<Id, Offer>, t: TripRef, g: nat, first: Option<Time>) {
    match first
    case None => OffersOf(offers, t, g) == {}
    case Some(at) =>
      && (exists o :: o in OffersOf(offers, t, g) && offers[o].offeredAt == at)
      && (forall o :: o in OffersOf(offers, t, g) ==> at <= offers[o].offeredAt)
  }

  method OfferSummary(offers: map<Id, Offer>, t: TripRef, g: nat) returns (count: nat, first: Option<Time>)
    ensures count == |OffersOf(offers, t, g)| && FirstOffered(offers, t, g, first)
    ensures count == 0 <==> first == None
  {
    var all := OffersOf(offers, t, g);
    var rest := all;
    count, first := 0, None;
    while rest != {}
      invariant rest <= all && count == |all| - |rest| && (count == 0 <==> first == None)
      invariant first == None ==> rest == all
      invariant first != None ==> exists o :: o in all && offers[o].offeredAt == first.value
      invariant forall o :: o in all && o !in rest ==> first != None && first.value <= offers[o].offeredAt
      decreases |rest|
    {
      var o :| o in rest;
      rest := rest - {o};
      count := count + 1;
      first := if first == None || offers[o].offeredAt < first.value then Some(offers[o].offeredAt) else first;
    }
  }

  class DispatchReconciler {
    const tables: Tables
    const table: OutboxTable
    const queue: Queue
    const plain: Window
    const scheduled: Window
    const maxAttempts: nat

    var wakeRearmed: nat
    var dispatchRearmed: nat
    var timersRestored: nat
    var scheduledRetried: nat
    var poolExpireRearmed: nat

    constructor (tables: Tables, table: OutboxTable, queue: Queue, plain: Window, scheduled: Window, maxAttempts: nat)
      ensures this.tables == tables && this.table == table && this.queue == queue
      ensures this.plain == plain && this.scheduled == scheduled && this.maxAttempts == maxAttempts
    {
      this.tables, this.table, this.queue := tables, table, queue;
      this.plain, this.scheduled, this.maxAttempts := plain, scheduled, maxAttempts;
      wakeRearmed, dispatchRearmed, timersRestored, scheduledRetried, poolExpireRearmed := 0, 0, 0, 0, 0;
    }

    /** The intents and the rows that carry them are one table. */
    ghost predicate Valid() reads this, tables, table, queue {
      && tables.Valid() && table.rows.Keys == tables.View().outbox
      && Sound(tables.View()) && StartsSound(tables.View(), queue.jobs)
    }

    ghost function State(): Durable reads tables, table, queue {
      Durable(tables.View(), table.rows, queue.jobs)
    }

    /** Publishable again, or written for the first time. */
    method Rewrite(i: Intent, now: Time)
      requires Valid()
      requires i.topic == RideDispatch ==>
        i.aggregate in tables.rides && i.generation <= tables.rides[i.aggregate].generation
      modifies tables, table
      ensures Valid()
      ensures tables.View() == old(tables.View()).(outbox := old(tables.View()).outbox + {i})
      ensures PendingRow(table.rows, i)
      ensures table.rows == old(table.rows)[i := table.rows[i]]
    {
      var found := table.RearmRow(i, now);
      if !found {
        var _ := tables.EnqueueOutbox(i);
        var _ := table.Insert(i, maxAttempts, now);
      }
    }

    method RearmRide(r: Id, g: nat, now: Time) returns (rearmed: bool)
      requires Valid()
      modifies tables, table
      ensures Valid()
      ensures tables.View() == T.RearmScheduled(old(tables.View()), r, g)
      ensures rearmed <==> T.CanRearm(old(tables.View()), r, g)
      ensures if rearmed then PendingRow(table.rows, Intent(RideDispatch, r, g + 1))
        && table.rows == old(table.rows)[Intent(RideDispatch, r, g + 1) := table.rows[Intent(RideDispatch, r, g + 1)]]
        else table.rows == old(table.rows)
    {
      rearmed := tables.RearmScheduled(r, g);
      if rearmed {
        var _ := table.Insert(Intent(RideDispatch, r, g + 1), maxAttempts, now);
      }
    }

    /** `first` is when wave 1 of this generation offered, None if it never did. */
    method ReconcileDispatching(t: TripRef, g: nat, isScheduled: bool, idleSince: Time, now: Time)
      returns (ghost first: Option<Time>, ghost repair: Repair)
      requires Valid() && Selectable(tables.View(), t, g, isScheduled)
      modifies this`scheduledRetried, this`dispatchRearmed, this`timersRestored, tables, table, queue
      ensures Valid() && FirstOffered(old(tables.offers), t, g, first)
      ensures repair == RepairOf(old(State()), t, g, first, isScheduled, idleSince, now, WindowOf(isScheduled))
      ensures Reconciled(old(State()), State(), t, g, repair, now, WindowOf(isScheduled))
      ensures scheduledRetried == old(scheduledRetried) + (if repair.NewGeneration? then 1 else 0)
      ensures dispatchRearmed == old(dispatchRearmed) + (if repair.Rewritten? then 1 else 0)
      ensures timersRestored == old(timersRestored) + |Revived(old(queue.jobs), queue.jobs)|
    {
      var window := WindowOf(isScheduled);
      first := FirstOf(tables.offers, t, g);
      repair := RepairOf(State(), t, g, first, isScheduled, idleSince, now, window);
      if LiveJob(queue.jobs, StartJob(t, g)) {
        return;
      }
      var count, firstOffered := OfferSummary(tables.offers, t, g);
      FirstIsUnique(tables.offers, t, g, first, firstOffered);
      var hasHardFail := LiveJob(queue.jobs, HardFailJob(t, g));
      if isScheduled && !hasHardFail {
        var windowStart := if firstOffered != None then firstOffered.value else idleSince;
        if now >= windowStart + window.hardFailMs {
          var rearmed := RearmRide(t.id, g, now);
          if rearmed {
            scheduledRetried := scheduledRetried + 1;
          }
          return;
        }
      }
      if !hasHardFail && count == 0 {
        queue.RemoveFinished(StartJob(t, g));
        queue.RemoveFinished(HardFailJob(t, g));
        Rewrite(DispatchIntent(t, g), now);
        dispatchRearmed := dispatchRearmed + 1;
        return;
      }
      if firstOffered == None {
        return;
      }
      RestoreTimers(t, g, firstOffered.value, now, window);
    }

    function WindowOf(isScheduled: bool): Window {
      if isScheduled then scheduled else plain
    }

    method RestoreTimer(job: JobId, due: Time)
      requires !LiveJob(queue.jobs, job)
      modifies this`timersRestored, queue
      ensures queue.jobs == old(queue.jobs)[job := Live(due)]
      ensures timersRestored == old(timersRestored) + 1
    {
      queue.RemoveFinished(job);
      var _ := queue.Add(job, due);
      assert queue.jobs == old(queue.jobs)[job := Live(due)];
      timersRestored := timersRestored + 1;
    }

    /** Wave 1 ran at `base`: whichever timers were lost come back with the delay that remains. */
    method RestoreTimers(t: TripRef, g: nat, base: Time, now: Time, window: Window)
      modifies this`timersRestored, queue
      ensures queue.jobs == Restored(old(queue.jobs), t, g, base, now, window)
      ensures timersRestored == old(timersRestored) + |Revived(old(queue.jobs), queue.jobs)|
    {
      if !LiveJob(queue.jobs, HardFailJob(t, g)) {
        ghost var before := queue.jobs;
        RestoreTimer(HardFailJob(t, g), now + Max(0, base + window.hardFailMs - now));
        RevivedOneMore(old(queue.jobs), before, queue.jobs, HardFailJob(t, g),
                       now + Max(0, base + window.hardFailMs - now));
      }
      if now < base + window.waveOneMs && !LiveJob(queue.jobs, Wave2Job(t, g)) {
        ghost var before := queue.jobs;
        RestoreTimer(Wave2Job(t, g), now + Max(0, base + window.waveOneMs - now));
        RevivedOneMore(old(queue.jobs), before, queue.jobs, Wave2Job(t, g),
                       now + Max(0, base + window.waveOneMs - now));
      }
    }

    // ── the four steps of a pass ────────────────────────────────────────────

    method RestoreWake(r: Id, now: Time)
      requires Valid()
      modifies this`wakeRearmed, tables, table, queue
      ensures Valid() && tables.View() == old(tables.View()).(outbox := tables.View().outbox)
      ensures OnlyAbout(old(State()), State(), Solo(r))
      ensures LiveJob(queue.jobs, WakeJob(r, 1)) || ReadyRow(State(), Intent(RideWake, r, 1))
      ensures wakeRearmed == old(wakeRearmed) + (if LiveJob(old(queue.jobs), WakeJob(r, 1)) then 0 else 1)
    {
      if LiveJob(queue.jobs, WakeJob(r, 1)) {
        return;
      }
      ghost var before := State();
      queue.RemoveFinished(WakeJob(r, 1));
      Rewrite(Intent(RideWake, r, 1), now);
      wakeRearmed := wakeRearmed + 1;
      OneJobOneRow(before, State(), WakeJob(r, 1), Intent(RideWake, r, 1), Solo(r));
    }

    method RestoreExpiry(p: Id, now: Time)
      requires Valid()
      modifies this`poolExpireRearmed, tables, table, queue
      ensures Valid() && tables.View() == old(tables.View()).(outbox := tables.View().outbox)
      ensures OnlyAbout(old(State()), State(), Shared(p))
      ensures LiveJob(queue.jobs, ExpireJob(p)) || ReadyRow(State(), Intent(PoolExpire, p, 0))
      ensures poolExpireRearmed == old(poolExpireRearmed) + (if LiveJob(old(queue.jobs), ExpireJob(p)) then 0 else 1)
    {
      if LiveJob(queue.jobs, ExpireJob(p)) {
        return;
      }
      ghost var before := State();
      queue.RemoveFinished(ExpireJob(p));
      Rewrite(Intent(PoolExpire, p, 0), now);
      poolExpireRearmed := poolExpireRearmed + 1;
      OneJobOneRow(before, State(), ExpireJob(p), Intent(PoolExpire, p, 0), Shared(p));
    }

    method RestoreDispatch(t: TripRef, isScheduled: bool, idleSince: Time, now: Time)
      requires Valid() && T.Dispatchable(tables.View(), t) && T.Generation(tables.View(), t) >= 1
      requires isScheduled <==> t.Solo? && tables.rides[t.id].scheduled
      modifies this, tables, table, queue
      ensures Valid() && OnlyAbout(old(State()), State(), t) && Covered(State(), t)
      ensures tables.pools == old(tables.pools) && tables.rides.Keys == old(tables.rides).Keys
    {
      ghost var before := State();
      var g := if t.Solo? then tables.rides[t.id].generation else tables.pools[t.id].generation;
      var first, repair := ReconcileDispatching(t, g, isScheduled, idleSince, now);
      ReconciledIsLocal(before, State(), t, g, repair, now, WindowOf(isScheduled));
      ReconciledIsCovered(before, State(), t, g, first, isScheduled, idleSince, now, WindowOf(isScheduled));
    }

    method ReconcileUnwokenScheduled(now: Time) returns (ghost done: set<TripRef>)
      requires Valid()
      modifies this, tables, table, queue
      ensures Valid() && tables.View() == old(tables.View()).(outbox := tables.View().outbox)
      ensures Repaired(old(State()), State(), done) && Handled(Unwoken(old(tables.rides)), done)
    {
      var rest := Unwoken(tables.rides);
      ghost var selected := rest;
      var left := MAX_PER_PASS;
      done := {};
      while rest != {} && left > 0
        invariant Valid() && tables.View() == old(tables.View()).(outbox := tables.View().outbox)
        invariant Repaired(old(State()), State(), done) && Progress(selected, rest, done, left)
        decreases |rest|
      {
        var t :| t in rest;
        ghost var before := State();
        RestoreWake(t.id, now);
        RepairedOneMore(old(State()), before, State(), done, t);
        OneHandled(selected, rest, done, left, t);
        rest, left, done := rest - {t}, left - 1, done + {t};
      }
    }

    method ReconcileOpenPools(updatedAt: Id -> Time, now: Time) returns (ghost done: set<TripRef>)
      requires Valid()
      modifies this, tables, table, queue
      ensures Valid() && tables.View() == old(tables.View()).(outbox := tables.View().outbox)
      ensures Repaired(old(State()), State(), done) && Handled(IdleOpen(old(tables.pools), updatedAt, now), done)
    {
      var rest := IdleOpen(tables.pools, updatedAt, now);
      ghost var selected := rest;
      var left := MAX_PER_PASS;
      done := {};
      while rest != {} && left > 0
        invariant Valid() && tables.View() == old(tables.View()).(outbox := tables.View().outbox)
        invariant Repaired(old(State()), State(), done) && Progress(selected, rest, done, left)
        decreases |rest|
      {
        var t :| t in rest;
        ghost var before := State();
        RestoreExpiry(t.id, now);
        RepairedOneMore(old(State()), before, State(), done, t);
        OneHandled(selected, rest, done, left, t);
        rest, left, done := rest - {t}, left - 1, done + {t};
      }
    }

    method ReconcileSoloDispatch(updatedAt: Id -> Time, now: Time) returns (ghost done: set<TripRef>)
      requires Valid()
      modifies this, tables, table, queue
      ensures Valid() && tables.pools == old(tables.pools)
      ensures Repaired(old(State()), State(), done) && Handled(IdleAwake(old(tables.rides), updatedAt, now), done)
    {
      var rest := IdleAwake(tables.rides, updatedAt, now);
      ghost var selected := rest;
      var left := MAX_PER_PASS;
      done := {};
      while rest != {} && left > 0
        invariant Valid() && tables.pools == old(tables.pools)
        invariant Repaired(old(State()), State(), done) && Progress(selected, rest, done, left)
        decreases |rest|
      {
        var t :| t in rest;
        ghost var before := State();
        AwakeIsDispatchable(old(State()), before, t, updatedAt, now);
        RestoreDispatch(t, tables.rides[t.id].scheduled, updatedAt(t.id), now);
        RepairedOneMore(old(State()), before, State(), done, t);
        OneHandled(selected, rest, done, left, t);
        rest, left, done := rest - {t}, left - 1, done + {t};
      }
    }

    method ReconcileClosedPools(updatedAt: Id -> Time, now: Time) returns (ghost done: set<TripRef>)
      requires Valid()
      modifies this, tables, table, queue
      ensures Valid() && tables.pools == old(tables.pools)
      ensures Repaired(old(State()), State(), done) && Handled(IdleClosed(old(tables.pools), updatedAt, now), done)
    {
      var rest := IdleClosed(tables.pools, updatedAt, now);
      ghost var selected := rest;
      var left := MAX_PER_PASS;
      done := {};
      while rest != {} && left > 0
        invariant Valid() && tables.pools == old(tables.pools)
        invariant Repaired(old(State()), State(), done) && Progress(selected, rest, done, left)
        decreases |rest|
      {
        var t :| t in rest;
        ghost var before := State();
        ClosedIsDispatchable(tables.View(), t, updatedAt, now);
        RestoreDispatch(t, false, now, now);
        RepairedOneMore(old(State()), before, State(), done, t);
        OneHandled(selected, rest, done, left, t);
        rest, left, done := rest - {t}, left - 1, done + {t};
      }
    }

    /** One pass with nothing in between: every trip that should have work in flight, and fits in the pass, has it. */
    method Pass(updatedAt: Id -> Time, now: Time) returns (ghost done: set<TripRef>)
      requires Valid()
      modifies this, tables, table, queue
      ensures Valid() && Repaired(old(State()), State(), done)
      ensures var rides, pools := old(tables.rides), old(tables.pools);
        && done <= Unwoken(rides) + IdleAwake(rides, updatedAt, now) + IdleOpen(pools, updatedAt, now)
             + IdleClosed(pools, updatedAt, now)
        && (|Unwoken(rides)| <= MAX_PER_PASS ==> Unwoken(rides) <= done)
        && (|IdleAwake(rides, updatedAt, now)| <= MAX_PER_PASS ==> IdleAwake(rides, updatedAt, now) <= done)
        && (|IdleOpen(pools, updatedAt, now)| <= MAX_PER_PASS ==> IdleOpen(pools, updatedAt, now) <= done)
        && (|IdleClosed(pools, updatedAt, now)| <= MAX_PER_PASS ==> IdleClosed(pools, updatedAt, now) <= done)
    {
      ghost var start := State();
      ghost var woken := ReconcileUnwokenScheduled(now);
      ghost var afterWake := State();
      ghost var awake := ReconcileSoloDispatch(updatedAt, now);
      ghost var afterSolo := State();
      RepairedThen(start, afterWake, afterSolo, woken, awake);
      ghost var open := ReconcileOpenPools(updatedAt, now);
      ghost var afterOpen := State();
      RepairedThen(start, afterSolo, afterOpen, woken + awake, open);
      ghost var closed := ReconcileClosedPools(updatedAt, now);
      RepairedThen(start, afterOpen, State(), woken + awake + open, closed);
      done := woken + awake + open + closed;
    }
  }

  /** Touching one job and one row of a trip touches no other trip. */
  lemma OneJobOneRow(a: Durable, b: Durable, j: JobId, i: Intent, t: TripRef)
    requires JobTrip(j) == t == IntentTrip(i)
    requires b.db.rides == a.db.rides && b.db.pools == a.db.pools
    requires i in b.rows && b.rows == a.rows[i := b.rows[i]] && b.jobs - {j} == a.jobs - {j}
    ensures OnlyAbout(a, b, t)
  {
    forall u | u != t ensures SameAbout(a, b, u) {
      forall k | JobTrip(k) == u ensures (k in a.jobs <==> k in b.jobs) && (k in a.jobs ==> a.jobs[k] == b.jobs[k]) {
        assert k in a.jobs - {j} <==> k in b.jobs - {j};
        assert k in a.jobs ==> (a.jobs - {j})[k] == (b.jobs - {j})[k];
      }
    }
  }

  // ── what a pass selects ───────────────────────────────────────────────────

  function Unwoken(rides: map<Id, Ride>): set<TripRef> {
    set r | r in rides && rides[r].scheduled && rides[r].status == Requested && rides[r].generation == 0 :: Solo(r)
  }

  function IdleAwake(rides: map<Id, Ride>, updatedAt: Id -> Time, now: Time): set<TripRef> {
    set r | r in rides && rides[r].status == Requested && rides[r].generation > 0 && updatedAt(r) < now - GRACE_MS ::
      Solo(r)
  }

  function IdleOpen(pools: map<Id, Pool>, updatedAt: Id -> Time, now: Time): set<TripRef> {
    set p | p in pools && pools[p].state == Open && updatedAt(p) < now - GRACE_MS :: Shared(p)
  }

  function IdleClosed(pools: map<Id, Pool>, updatedAt: Id -> Time, now: Time): set<TripRef> {
    set p | p in pools && T.ClaimableState(pools[p].state) && pools[p].claimedBy == None && pools[p].generation > 0
      && updatedAt(p) < now - GRACE_MS :: Shared(p)
  }

  /** A ride selected earlier is as it was, until its turn comes. */
  lemma AwakeIsDispatchable(a: Durable, b: Durable, t: TripRef, updatedAt: Id -> Time, now: Time)
    requires t in IdleAwake(a.db.rides, updatedAt, now) && SameAbout(a, b, t) && Sound(b.db)
    ensures t.Solo? && T.Dispatchable(b.db, t) && T.Generation(b.db, t) >= 1
  {
  }

  lemma ClosedIsDispatchable(db: Db, t: TripRef, updatedAt: Id -> Time, now: Time)
    requires t in IdleClosed(db.pools, updatedAt, now)
    ensures t.Shared? && T.Dispatchable(db, t) && T.Generation(db, t) >= 1
  {
  }

  /** These trips have their work back, and nothing about any other has changed. */
  ghost predicate Repaired(a: Durable, b: Durable, done: set<TripRef>) {
    && (forall u :: u in done ==> Covered(b, u))
    && (forall u :: u !in done ==> SameAbout(a, b, u))
  }

  lemma SameAboutComposes(a: Durable, b: Durable, c: Durable, u: TripRef)
    requires SameAbout(a, b, u) && SameAbout(b, c, u)
    ensures SameAbout(a, c, u)
  {
  }

  lemma RepairedOneMore(a: Durable, mid: Durable, b: Durable, done: set<TripRef>, t: TripRef)
    requires Repaired(a, mid, done) && OnlyAbout(mid, b, t) && Covered(b, t)
    ensures Repaired(a, b, done + {t})
  {
    forall u | u in done + {t} ensures Covered(b, u) {
      if u != t {
        CoveredElsewhere(mid, b, u);
      }
    }
    forall u | u !in done + {t} ensures SameAbout(a, b, u) {
      SameAboutComposes(a, mid, b, u);
    }
  }

  lemma RepairedThen(a: Durable, b: Durable, c: Durable, first: set<TripRef>, second: set<TripRef>)
    requires Repaired(a, b, first) && Repaired(b, c, second)
    ensures Repaired(a, c, first + second)
  {
    forall u | u in first + second ensures Covered(c, u) {
      if u !in second {
        CoveredElsewhere(b, c, u);
      }
    }
    forall u | u !in first + second ensures SameAbout(a, c, u) {
      SameAboutComposes(a, b, c, u);
    }
  }

  /** All of a selection that fits into one pass, else as many as do. */
  predicate Handled(selected: set<TripRef>, done: set<TripRef>) {
    done <= selected && |done| <= MAX_PER_PASS && (|selected| <= MAX_PER_PASS ==> done == selected)
  }

  predicate Progress(selected: set<TripRef>, rest: set<TripRef>, done: set<TripRef>, left: nat) {
    selected == rest + done && rest !! done && |done| + left == MAX_PER_PASS
  }

  lemma OneHandled(selected: set<TripRef>, rest: set<TripRef>, done: set<TripRef>, left: nat, t: TripRef)
    requires Progress(selected, rest, done, left) && t in rest && left > 0
    ensures Progress(selected, rest - {t}, done + {t}, left - 1)
  {
  }

  // ── what one call does ────────────────────────────────────────────────────

  /** The trip exists and has reached the generation: whoever calls has read its row. */
  predicate Selectable(db: Db, t: TripRef, g: nat, isScheduled: bool) {
    && (isScheduled ==> t.Solo?)
    && match t
       case Solo(r) => r in db.rides && g <= db.rides[r].generation
       case Shared(p) => true
  }

  ghost function FirstOf(offers: map<Id, Offer>, t: TripRef, g: nat): (first: Option<Time>)
    ensures FirstOffered(offers, t, g, first)
  {
    if OffersOf(offers, t, g) == {} then None
    else
      var o := EarliestOffer(offers, OffersOf(offers, t, g));
      Some(offers[o].offeredAt)
  }

  ghost function EarliestOffer(offers: map<Id, Offer>, ids: set<Id>): (o: Id)
    requires ids != {} && forall i :: i in ids ==> i in offers
    ensures o in ids && forall i :: i in ids ==> offers[o].offeredAt <= offers[i].offeredAt
    decreases |ids|
  {
    var i :| i in ids;
    if ids == {i} then i
    else
      var rest := EarliestOffer(offers, ids - {i});
      if offers[i].offeredAt < offers[rest].offeredAt then i else rest
  }

  lemma FirstIsUnique(offers: map<Id, Offer>, t: TripRef, g: nat, a: Option<Time>, b: Option<Time>)
    requires FirstOffered(offers, t, g, a) && FirstOffered(offers, t, g, b)
    ensures a == b
  {
  }

  function Restored(jobs: Jobs, t: TripRef, g: nat, base: Time, now: Time, window: Window): Jobs {
    var withHardFail := if LiveJob(jobs, HardFailJob(t, g)) then jobs
      else jobs[HardFailJob(t, g) := Live(Max(now, base + window.hardFailMs))];
    if now < base + window.waveOneMs && !LiveJob(jobs, Wave2Job(t, g))
    then withHardFail[Wave2Job(t, g) := Live(base + window.waveOneMs)] else withHardFail
  }

  predicate WindowOver(first: Option<Time>, idleSince: Time, now: Time, window: Window) {
    now >= (if first != None then first.value else idleSince) + window.hardFailMs
  }

  datatype Repair = Nothing | NewGeneration | Rewritten | LostTimers(base: Time)

  /** Which repair a call makes. The window of a scheduled ride is over when its hard-fail is lost and its time has
      passed. */
  function RepairOf(s: Durable, t: TripRef, g: nat, first: Option<Time>, isScheduled: bool, idleSince: Time,
                    now: Time, window: Window): Repair
    requires isScheduled ==> t.Solo?
  {
    var hardFail := LiveJob(s.jobs, HardFailJob(t, g));
    if LiveJob(s.jobs, StartJob(t, g)) then Nothing
    else if isScheduled && !hardFail && WindowOver(first, idleSince, now, window) then
      if T.CanRearm(s.db, t.id, g) then NewGeneration else Nothing
    else if first != None then LostTimers(first.value)
    else if hardFail then Nothing
    else Rewritten
  }

  /** ... and what it leaves behind. */
  ghost predicate Reconciled(a: Durable, b: Durable, t: TripRef, g: nat, repair: Repair, now: Time, window: Window) {
    match repair
    case Nothing => b == a
    case NewGeneration =>
      && b.jobs == a.jobs && b.db == T.RearmScheduled(a.db, t.id, g)
      && RowPending(a.rows, b.rows, DispatchIntent(t, g + 1))
    case Rewritten =>
      && b.jobs == a.jobs - {StartJob(t, g), HardFailJob(t, g)}
      && b.db == a.db.(outbox := a.db.outbox + {DispatchIntent(t, g)})
      && RowPending(a.rows, b.rows, DispatchIntent(t, g))
    case LostTimers(base) =>
      && b.db == a.db && b.rows == a.rows
      && b.jobs == Restored(a.jobs, t, g, base, now, window)
  }

  predicate RowPending(a: Rows, b: Rows, i: Intent) {
    PendingRow(b, i) && b == a[i := b[i]]
  }

  /** The jobs that are live now and were not before. */
  function Revived(a: Jobs, b: Jobs): set<JobId> {
    set j | j in b && LiveJob(b, j) && !LiveJob(a, j)
  }

  lemma RevivedOneMore(a: Jobs, mid: Jobs, b: Jobs, j: JobId, due: Time)
    requires b == mid[j := Live(due)] && !LiveJob(mid, j) && !LiveJob(a, j)
    ensures |Revived(a, b)| == |Revived(a, mid)| + 1
  {
    assert Revived(a, b) == Revived(a, mid) + {j};
  }

  /** One call touches nothing of any other trip. */
  lemma ReconciledIsLocal(a: Durable, b: Durable, t: TripRef, g: nat, repair: Repair, now: Time, window: Window)
    requires repair.NewGeneration? ==> t.Solo?
    requires Reconciled(a, b, t, g, repair, now, window)
    ensures OnlyAbout(a, b, t)
  {
  }

  /** Whatever was lost, afterwards dispatch of the current generation is under way; it is a new one exactly when a
      scheduled window has passed unanswered. */
  lemma ReconciledIsCovered(a: Durable, b: Durable, t: TripRef, g: nat, first: Option<Time>, isScheduled: bool,
                            idleSince: Time, now: Time, window: Window)
    requires T.Dispatchable(a.db, t) && 1 <= g == T.Generation(a.db, t)
    requires isScheduled <==> t.Solo? && a.db.rides[t.id].scheduled
    requires StartsSound(a.db, a.jobs)
    requires Reconciled(a, b, t, g, RepairOf(a, t, g, first, isScheduled, idleSince, now, window), now, window)
    ensures T.Dispatchable(b.db, t)
    ensures DispatchCovered(b, t, T.Generation(b.db, t))
    ensures var since := if first.Some? then first.value else idleSince;
      var over := isScheduled && !LiveJob(a.jobs, StartJob(t, g)) && !LiveJob(a.jobs, HardFailJob(t, g))
                  && now - since >= window.hardFailMs;
      && T.Generation(b.db, t) == (if over then g + 1 else g)
      && (over ==> PendingRow(b.rows, DispatchIntent(t, g + 1)))
      && (first != None && !over && !LiveJob(a.jobs, StartJob(t, g)) && now < first.value + window.waveOneMs ==>
            LiveJob(b.jobs, Wave2Job(t, g)))
  {
  }

  // ── a pass and then a drain ───────────────────────────────────────────────

  /** Covered without the help of any unpublished row. */
  predicate AtWork(s: Durable, t: TripRef) {
    Covered(s.(rows := map[]), t)
  }

  /** Every row of the trip that waits is due, unlocked and publishable. */
  ghost predicate Publishable(rows: Rows, t: TripRef, now: Time, locked: set<Intent>, publish: Intent -> Publication) {
    forall i :: i in rows && Pending(rows[i]) && IntentTrip(i) == t ==>
      Due(rows[i], now) && i !in locked && publish(i).Published?
  }

  lemma ReadyRowIsPublished(a: Durable, b: Durable, i: Intent, batch: seq<LeasedRow>, limit: nat, now: Time,
                            locked: set<Intent>, publish: Intent -> Publication)
    requires ReadyRow(a, i) && Due(a.rows[i], now) && i !in locked && publish(i).Published?
    requires IsBatch(a.rows, batch, limit, now, locked) && |batch| < limit
    requires JobsPublished(a.jobs, b.jobs, batch, |batch|, publish)
    ensures LiveJob(b.jobs, JobFor(i))
  {
    assert !LeftOut(a.rows, batch, now, locked, i);
  }

  lemma DrainPutsToWork(a: Durable, b: Durable, t: TripRef, batch: seq<LeasedRow>, limit: nat, now: Time,
                        locked: set<Intent>, publish: Intent -> Publication)
    requires Covered(a, t) && b.db == a.db && Publishable(a.rows, t, now, locked, publish)
    requires IsBatch(a.rows, batch, limit, now, locked) && |batch| < limit
    requires JobsPublished(a.jobs, b.jobs, batch, |batch|, publish)
    ensures AtWork(b, t)
  {
    forall i | ReadyRow(a, i) && IntentTrip(i) == t ensures LiveJob(b.jobs, JobFor(i)) {
      ReadyRowIsPublished(a, b, i, batch, limit, now, locked, publish);
    }
  }

  /** After a pass and a drain that is not cut short by its limit, every trip of the pass has a live job. */
  lemma PassThenDrain(start: Durable, a: Durable, b: Durable, done: set<TripRef>, batch: seq<LeasedRow>, limit: nat,
                      now: Time, locked: set<Intent>, publish: Intent -> Publication)
    requires Repaired(start, a, done) && b.db == a.db
    requires forall t :: t in done ==> Publishable(a.rows, t, now, locked, publish)
    requires IsBatch(a.rows, batch, limit, now, locked) && |batch| < limit
    requires JobsPublished(a.jobs, b.jobs, batch, |batch|, publish)
    ensures forall t :: t in done ==> AtWork(b, t)
  {
    forall t | t in done ensures AtWork(b, t) {
      DrainPutsToWork(a, b, t, batch, limit, now, locked, publish);
    }
  }

  /** A drain publishes rows only, so no start job gets ahead of its ride. */
  lemma DrainKeepsStartsSound(db: Db, rows: Rows, jobs: Jobs, after: Jobs, batch: seq<LeasedRow>, limit: nat, now: Time,
                              locked: set<Intent>, publish: Intent -> Publication)
    requires rows.Keys == db.outbox && Sound(db) && StartsSound(db, jobs)
    requires IsBatch(rows, batch, limit, now, locked) && JobsPublished(jobs, after, batch, |batch|, publish)
    ensures StartsSound(db, after)
  {
  }

  // ── what a pass brings back ───────────────────────────────────────────────

  /** The queue lost some of two timers, or finished them without their doing anything, and nothing else. */
  predicate LostSome(jobs: Jobs, left: Jobs, t: TripRef, g: nat) {
    var timers := {Wave2Job(t, g), HardFailJob(t, g)};
    && jobs - timers == left - timers
    && forall j :: j in timers && LiveJob(left, j) ==> j in jobs && left[j] == jobs[j]
  }

  /** Timers lost before either was due come back exactly as the wave at `base` had set them. */
  lemma RestoredAsSet(jobs: Jobs, left: Jobs, t: TripRef, g: nat, window: Window, base: Time, now: Time)
    requires Wave2Job(t, g) !in jobs && HardFailJob(t, g) !in jobs
    requires LostSome(D.TimersSet(jobs, t, g, window, base), left, t, g)
    requires now < base + window.waveOneMs && now <= base + window.hardFailMs
    ensures Restored(left, t, g, base, now, window) == D.TimersSet(jobs, t, g, window, base)
  {
    var timers := {Wave2Job(t, g), HardFailJob(t, g)};
    var all, back := D.TimersSet(jobs, t, g, window, base), Restored(left, t, g, base, now, window);
    assert left - timers == back - timers == all - timers;
    forall j | j !in timers ensures (j in back <==> j in all) && (j in back ==> back[j] == all[j]) {
      assert j in back <==> j in back - timers;
      assert j in all <==> j in all - timers;
      assert j in back ==> (back - timers)[j] == (all - timers)[j];
    }
  }

  /** A lost hard-fail that is overdue comes back due at once, and the second wave, too late now, not at all. */
  lemma OverdueHardFailComesAtOnce(left: Jobs, t: TripRef, g: nat, window: Window, base: Time, now: Time)
    requires !LiveJob(left, HardFailJob(t, g)) && now >= base + window.hardFailMs && now >= base + window.waveOneMs
    ensures Restored(left, t, g, base, now, window) == left[HardFailJob(t, g) := Live(now)]
  {
  }

  /** A trip that waits for a driver, for its wake or for members. */
  predicate Waiting(db: Db, t: TripRef) {
    match t
    case Solo(r) => r in db.rides && db.rides[r].status == Requested
    case Shared(p) =>
      && p in db.pools
      && (db.pools[p].state == Open
           || (db.pools[p].state in {ClosedFull, ClosedTimeout} && db.pools[p].claimedBy == None))
  }

  /** Nothing has touched its row for fifteen seconds. An unwoken ride need not be idle. */
  predicate Idle(db: Db, t: TripRef, updatedAt: Id -> Time, now: Time) {
    now - updatedAt(t.id) > 15_000 || (t.Solo? && t.id in db.rides && db.rides[t.id].generation == 0)
  }

  lemma WaitingIsSelected(dist: Distance, db: Db, t: TripRef, updatedAt: Id -> Time, now: Time)
    requires Invariants.RowsOk(dist, db) && Waiting(db, t) && Idle(db, t, updatedAt, now)
    ensures t in Unwoken(db.rides) + IdleAwake(db.rides, updatedAt, now) + IdleOpen(db.pools, updatedAt, now)
                 + IdleClosed(db.pools, updatedAt, now)
  {
    match t
    case Solo(r) => assert Invariants.RideOk(db.rides[r]);
    case Shared(p) => assert Invariants.PoolOk(dist, db.pools[p]);
  }

  /** A pass passes over no waiting trip: with at most 500 of each kind, every idle one is covered afterwards. */
  lemma NobodyIsMissed(dist: Distance, a: Durable, b: Durable, done: set<TripRef>, updatedAt: Id -> Time, now: Time,
                       t: TripRef)
    requires Invariants.RowsOk(dist, a.db) && Repaired(a, b, done)
    requires |Unwoken(a.db.rides)| <= 500 && |IdleAwake(a.db.rides, updatedAt, now)| <= 500
    requires |IdleOpen(a.db.pools, updatedAt, now)| <= 500 && |IdleClosed(a.db.pools, updatedAt, now)| <= 500
    requires |Unwoken(a.db.rides)| <= MAX_PER_PASS ==> Unwoken(a.db.rides) <= done
    requires |IdleAwake(a.db.rides, updatedAt, now)| <= MAX_PER_PASS ==> IdleAwake(a.db.rides, updatedAt, now) <= done
    requires |IdleOpen(a.db.pools, updatedAt, now)| <= MAX_PER_PASS ==> IdleOpen(a.db.pools, updatedAt, now) <= done
    requires |IdleClosed(a.db.pools, updatedAt, now)| <= MAX_PER_PASS ==> IdleClosed(a.db.pools, updatedAt, now) <= done
    requires Waiting(a.db, t) && Idle(a.db, t, updatedAt, now)
    ensures Covered(b, t)
  {
    WaitingIsSelected(dist, a.db, t, updatedAt, now);
  }
}
