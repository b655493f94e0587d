/** Pool membership, closure, claim failure and stop confirmation, each as one committed transaction. */
module Pools {
  import opened Types
  import opened Itinerary
  import T = Trips

  predicate Terminal(s: PoolState) {
    s == Aborted || s == Finished
  }

  function Riders(members: seq<Member>): (riders: seq<Rider>)
    ensures |riders| == |members|
    ensures forall i :: 0 <= i < |riders| ==> riders[i] == members[i].rider
  {
    seq(|members|, i requires 0 <= i < |members| => members[i].rider)
  }

  /** The `ride_stops` rows a plan is persisted as. */
  function Rows(plan: seq<OfferStop>): (rows: seq<StopRow>)
    ensures |rows| == |plan|
    ensures forall i :: 0 <= i < |rows| ==> rows[i] == StopRow(plan[i].kind, plan[i].passenger, false)
  {
    seq(|plan|, i requires 0 <= i < |plan| => StopRow(plan[i].kind, plan[i].passenger, false))
  }

  /** The trigger on a terminal pool state. */
  function ReleaseMembers(members: seq<Member>): (released: seq<Member>)
    ensures |released| == |members|
    ensures forall i :: 0 <= i < |members| ==> released[i] == members[i].(active := false)
  {
    seq(|members|, i requires 0 <= i < |members| => members[i].(active := false))
  }

  // ── seats ─────────────────────────────────────────────────────────────────

  predicate Seated(pool: Pool, passenger: Id) {
    exists i :: 0 <= i < |pool.members| && pool.members[i].rider.passenger == passenger
  }

  predicate ActivelySeated(pool: Pool, passenger: Id) {
    exists i :: 0 <= i < |pool.members| && pool.members[i].rider.passenger == passenger && pool.members[i].active
  }

  predicate SeatedByKey(pool: Pool, passenger: Id, key: Key) {
    exists i ::
      0 <= i < |pool.members| && pool.members[i].rider.passenger == passenger && pool.members[i].key == Some(key)
  }

  /** The seat `a` names is the one this scope's key produced. */
  predicate SeatFor(pools: map<Id, Pool>, scope: Scope, a: SeatAnswer) {
    && a.pool in pools
    && exists i :: 0 <= i < |pools[a.pool].members| && Carries(pools[a.pool].members[i], scope, a.fare)
  }

  predicate Carries(m: Member, scope: Scope, fare: nat) {
    m.rider.passenger == scope.principal && m.key == Some(scope.key) && m.fare == fare
  }

  /** The seat this scope's key produced was taken for this intent: its own origin and destination say so. */
  predicate TakenFor(pools: map<Id, Pool>, scope: Scope, f: Fingerprint) {
    exists p :: p in pools && SeatedFor(pools[p], scope, f)
  }

  predicate SeatedFor(pool: Pool, scope: Scope, f: Fingerprint) {
    exists i :: 0 <= i < |pool.members| && HasIntent(pool.members[i], scope, f)
  }

  predicate HasIntent(m: Member, scope: Scope, f: Fingerprint) {
    m.rider.passenger == scope.principal && m.key == Some(scope.key) && FingerprintOf(m.rider) == f
  }

  datatype SeatFailure = AlreadyMember | PassengerHasActivePool | PoolFull | PoolClosed | IdempotentReplay

  /** What the caller brings to a seat: `fare` is None when pricing threw, which rolls the transaction back. */
  datatype SeatRequest = SeatRequest(rider: Rider, fare: Option<nat>, key: Option<Key>)

  predicate ActiveAnywhere(pools: map<Id, Pool>, passenger: Id) {
    exists p :: p in pools && ActivelySeated(pools[p], passenger)
  }

  predicate KeyUsed(pools: map<Id, Pool>, passenger: Id, key: Option<Key>) {
    key.Some? && exists p :: p in pools && SeatedByKey(pools[p], passenger, key.value)
  }

  /** The unique indexes of `pool_member`. */
  predicate SeatConflicts(pools: map<Id, Pool>, id: Id, q: SeatRequest)
    requires id in pools
  {
    || Seated(pools[id], q.rider.passenger)
    || ActiveAnywhere(pools, q.rider.passenger)
    || KeyUsed(pools, q.rider.passenger, q.key)
  }

  function ClassifyDuplicate(pools: map<Id, Pool>, id: Id, q: SeatRequest): SeatFailure
    requires id in pools
  {
    var passenger := q.rider.passenger;
    if KeyUsed(pools, passenger, q.key) then IdempotentReplay
    else if Seated(pools[id], passenger) && (q.key == None || !ActivelySeated(pools[id], passenger)) then AlreadyMember
    else PassengerHasActivePool
  }

  datatype InsertResult = Inserted(pool: Pool) | NotInserted(reason: SeatFailure)

  /** Open state, then the unique indexes, then the capacity check of the derived seat count. */
  function InsertMember(pools: map<Id, Pool>, id: Id, q: SeatRequest, fare: nat): InsertResult
    requires id in pools
  {
    var pool := pools[id];
    if pool.state != Open then NotInserted(PoolClosed)
    else if SeatConflicts(pools, id, q) then NotInserted(ClassifyDuplicate(pools, id, q))
    else if pool.seatCount + 1 > pool.maxSeats then NotInserted(PoolFull)
    else Inserted(pool.(
      members := pool.members + [Member(q.rider, fare, q.key, true)],
      seatCount := pool.seatCount + 1,
      version := pool.version + 1))
  }

  /** Completes the claim inside the seat transaction. The UPDATE matches the scope alone. */
  function CompleteIn(records: map<Scope, Record>, scope: Scope, a: SeatAnswer): map<Scope, Record> {
    if scope in records then records[scope := records[scope].(response := Some(a))] else records
  }

  function CompleteKeyed(records: map<Scope, Record>, passenger: Id, key: Option<Key>, a: SeatAnswer)
    : map<Scope, Record>
  {
    match key
    case None => records
    case Some(k) => CompleteIn(records, Scope(passenger, k), a)
  }

  // ── opening, joining, closing ─────────────────────────────────────────────

  datatype SeatResult =
    | SeatTaken(pool: Id, fare: nat, closedFull: bool)
    | SeatRefused(reason: SeatFailure)
    | PoolNotFound
    | RolledBack

  function OpenPool(db: Db, id: Id, maxSeats: nat, q: SeatRequest): (Db, SeatResult) {
    if id in db.pools || id in db.rides || maxSeats < 1 || q.fare == None then (db, RolledBack)
    else
      var empty := Pool(Open, 0, maxSeats, None, 0, 0, q.rider.origin, [], []);
      var fare := q.fare.value;
      match InsertMember(db.pools[id := empty], id, q, fare)
      case NotInserted(reason) => (db, SeatRefused(reason))
      case Inserted(pool) =>
        (db.(pools := db.pools[id := pool],
             outbox := db.outbox + {Intent(PoolExpire, id, 0)},
             records := CompleteKeyed(db.records, q.rider.passenger, q.key, SeatAnswer(id, fare))),
         SeatTaken(id, fare, false))
  }

  /** `open -> closed_*` with its itinerary; None where the pool is not open or already has stops. */
  function CloseRow(dist: Distance, pool: Pool, reason: PoolState): Option<Pool> {
    if pool.state != Open || pool.stops != [] then None
    else Some(pool.(
      state := reason,
      generation := pool.generation + 1,
      version := pool.version + 1,
      stops := Rows(Plan(dist, pool.anchor, Riders(pool.members)))))
  }

  function JoinPool(dist: Distance, db: Db, id: Id, q: SeatRequest): (Db, SeatResult) {
    if id !in db.pools then (db, PoolNotFound)
    else if db.pools[id].state != Open then (db, SeatRefused(PoolClosed))
    else if db.pools[id].seatCount >= db.pools[id].maxSeats then (db, SeatRefused(PoolFull))
    else if q.fare == None then (db, RolledBack)
    else match InsertMember(db.pools, id, q, q.fare.value)
      case NotInserted(reason) => (db, SeatRefused(reason))
      case Inserted(seated) =>
        var records := CompleteKeyed(db.records, q.rider.passenger, q.key, SeatAnswer(id, q.fare.value));
        if seated.seatCount < seated.maxSeats then
          (db.(pools := db.pools[id := seated], records := records), SeatTaken(id, q.fare.value, false))
        else match CloseRow(dist, seated, ClosedFull)
          case None => (db, RolledBack)
          case Some(closed) =>
            (db.(pools := db.pools[id := closed],
                 outbox := db.outbox + {Intent(PoolDispatch, id, closed.generation)},
                 records := records),
             SeatTaken(id, q.fare.value, true))
  }

  datatype CloseResult = ClosedNow | NotOpen | AbortedEmpty | CloseThrew

  function AbortRow(pool: Pool): Pool {
    pool.(state := Aborted, version := pool.version + 1, members := ReleaseMembers(pool.members))
  }

  function CloseIfOpen(dist: Distance, db: Db, id: Id): (Db, CloseResult) {
    if id !in db.pools || db.pools[id].state != Open then (db, NotOpen)
    else if db.pools[id].seatCount == 0 then (db.(pools := db.pools[id := AbortRow(db.pools[id])]), AbortedEmpty)
    else match CloseRow(dist, db.pools[id], ClosedTimeout)
      case None => (db, CloseThrew)
      case Some(closed) =>
        (db.(pools := db.pools[id := closed], outbox := db.outbox + {Intent(PoolDispatch, id, closed.generation)}),
         ClosedNow)
  }

  /** The hard-fail of a dispatched pool at the generation the timer carries. */
  function AbortUnclaimed(db: Db, id: Id, generation: nat): Db {
    if id !in db.pools || generation != db.pools[id].generation || generation < 1 then db
    else if db.pools[id].claimedBy != None || !T.ClaimableState(db.pools[id].state) then db
    else db.(pools := db.pools[id := AbortRow(db.pools[id])], offers := T.RevokeLive(db.offers, Shared(id), None))
  }

  // ── stops ─────────────────────────────────────────────────────────────────

  function Pending(stops: seq<StopRow>): nat {
    if stops == [] then 0 else (if stops[0].confirmed then 0 else 1) + Pending(stops[1..])
  }

  /** Index of the first unconfirmed stop, or the length when there is none. */
  function FirstPending(stops: seq<StopRow>): (i: nat)
    ensures i <= |stops|
    ensures forall j :: 0 <= j < i ==> stops[j].confirmed
    ensures i < |stops| ==> !stops[i].confirmed
  {
    if stops == [] || !stops[0].confirmed then 0 else 1 + FirstPending(stops[1..])
  }

  function Confirm(stops: seq<StopRow>, i: nat): seq<StopRow>
    requires i < |stops|
  {
    stops[i := stops[i].(confirmed := true)]
  }

  datatype ConfirmResult =
    | Confirmed(pendingAfter: int, completed: bool)
    | Duplicate(pending: nat, completed: bool)
    | StopNotFound | StopNotOwner | WrongType | OutOfOrder
    | ConfirmThrew

  /** The verdict before anything is written; None: stamp the stop. */
  function ConfirmVerdict(pool: Pool, driver: Id, index: nat, kind: StopKind): Option<ConfirmResult> {
    if pool.claimedBy != Some(driver) then Some(StopNotOwner)
    else if index >= |pool.stops| then Some(StopNotFound)
    else if pool.stops[index].kind != kind then Some(WrongType)
    else if pool.stops[index].confirmed then Some(Duplicate(Pending(pool.stops), pool.state == Finished))
    else if FirstPending(pool.stops) != index then Some(OutOfOrder)
    else None
  }

  /** `markRideStarted`, when this is a pickup and nothing was confirmed before. */
  function Started(pool: Pool, kind: StopKind): Pool {
    if kind == Pickup && Pending(pool.stops) == |pool.stops| && T.ClaimableState(pool.state)
    then pool.(state := ClosedStarted, version := pool.version + 1) else pool
  }

  /** `markRideCompleted` and the member trigger; None where its guard matches no row. */
  function Completed(pool: Pool): Option<Pool> {
    if T.ClaimableState(pool.state) || pool.state == ClosedStarted
    then Some(pool.(state := Finished, version := pool.version + 1, members := ReleaseMembers(pool.members))) else None
  }

  function ConfirmStop(db: Db, id: Id, driver: Id, index: nat, kind: StopKind): (Db, ConfirmResult) {
    if id !in db.pools then (db, StopNotFound)
    else match ConfirmVerdict(db.pools[id], driver, index, kind)
      case Some(verdict) => (db, verdict)
      case None =>
        var pool := db.pools[id];
        var started := Started(pool, kind).(stops := Confirm(pool.stops, index));
        var pendingAfter := Pending(pool.stops) - 1;
        if pendingAfter != 0 then
          (db.(pools := db.pools[id := started.(version := started.version + 1)]), Confirmed(pendingAfter, false))
        else match Completed(started)
          case None => (db, ConfirmThrew)
          case Some(done) =>
            (db.(pools := db.pools[id := done.(version := done.version + 1)],
                 guards := T.Release(db.guards, driver, Shared(id))),
             Confirmed(0, true))
  }

  // ── idempotency claims ────────────────────────────────────────────────────

  const RECLAIM_AFTER_MS: int := 60_000

  datatype ClaimResult = Claimed | Reclaimed | Replayed(answer: SeatAnswer) | KeyConflict | StillPending

  function Claim(db: Db, scope: Scope, fingerprint: Fingerprint, now: Time): (Db, ClaimResult) {
    if scope !in db.records then (db.(records := db.records[scope := Record(fingerprint, None, now)]), Claimed)
    else
      var r := db.records[scope];
      if r.response == None && r.fingerprint == fingerprint && r.createdAt < now - RECLAIM_AFTER_MS
      then (db.(records := db.records[scope := r.(createdAt := now)]), Reclaimed)
      else if r.fingerprint != fingerprint then (db, KeyConflict)
      else if r.response != None then (db, Replayed(r.response.value))
      else (db, StillPending)
  }

  /** Drops a claim only while it is pending. */
  function ReleaseClaim(db: Db, scope: Scope): Db {
    if scope in db.records && db.records[scope].response == None then db.(records := db.records - {scope}) else db
  }
}
