/**
 * The whole system as a state machine. A step is one committed transaction or one unlocked read;
 * any step may follow any other, any number of times, so a run is a list of steps. Whatever a step
 * does not control (clocks, generated ids, driver eligibility, prices, locked rows) is in its label.
 */
module Protocol {
  import opened Types
  import T = Trips
  import P = Pools

  // ── what workers remember between steps ───────────────────────────────────

  /** `findForDriver` before an accept. */
  datatype SeenOffer = SeenOffer(offer: Id, driver: Id, trip: TripRef)

  /** `findById` at the start of a solo hard-fail. */
  datatype SeenRide = SeenRide(ride: Id, scheduled: bool)

  /** A shared-create attempt that holds, or once held, the claim of its scope. */
  datatype Attempt = Attempt(scope: Scope, fingerprint: Fingerprint)

  /** A success answered to a request with this key and intent. */
  datatype Reply = Reply(scope: Scope, fingerprint: Fingerprint, answer: SeatAnswer)

  datatype Memory = Memory(
    offers: set<SeenOffer>,
    rides: set<SeenRide>,
    intents: set<Intent>,      // dispatch intents the reconciler selected and may still write
    attempts: set<Attempt>,
    lookups: set<Reply>,       // seats looked up by key, whose completion may still be written
    replies: set<Reply>)       // every success answered for a keyed shared create

  datatype World = World(db: Db, mem: Memory)

  const Start := World(Db(map[], map[], map[], map[], {}, map[]), Memory({}, {}, {}, {}, {}, {}))

  datatype Step =
    | CreateRide(id: Id, passenger: Id, scheduled: bool, booking: Booking)
    | Wake(ride: Id, generation: nat)
    | CreateOffer(offer: Id, request: T.OfferRequest, now: Time, locked: set<Id>)
    | ReadOffer(offer: Id, driver: Id)
    | Accept(seen: SeenOffer, now: Time, vehicle: Option<nat>)
    | DeclineOffer(offer: Id, driver: Id)
    | SweepOffers(now: Time, locked: set<Id>)
    | DirectClaim(ride: Id, driver: Id)
    | MoveRide(ride: Id, driver: Id, event: T.RideEvent, now: Time)
    | CancelRide(ride: Id, cancel: T.CancelRequest, now: Time)
    | ReadRide(ride: Id)
    | HardFailRide(read: SeenRide, generation: nat)
    | Rearm(ride: Id, generation: nat)
    | SelectTrip(trip: TripRef)
    | WriteIntent(intent: Intent)
    | OpenPool(pool: Id, maxSeats: nat, seat: P.SeatRequest)
    | JoinPool(pool: Id, seat: P.SeatRequest)
    | ExpirePool(pool: Id)
    | AbortPool(pool: Id, generation: nat)
    | ConfirmStop(pool: Id, driver: Id, index: nat, kind: StopKind)
    | ClaimKey(scope: Scope, fingerprint: Fingerprint, now: Time)
    | ReadRecord(scope: Scope, fingerprint: Fingerprint)
    | LookUpSeat(scope: Scope, fingerprint: Fingerprint, answer: SeatAnswer)
    | CompleteClaim(reply: Reply)
    | ReleaseKey(scope: Scope)

  /** The intent a reconciler pass selects a trip for: its wake, its expiry, or its current dispatch generation. */
  function SelectedIntent(db: Db, t: TripRef): Option<Intent>
    requires T.TripExists(db, t)
  {
    var g := T.Generation(db, t);
    match t
    case Solo(r) =>
      if db.rides[r].status != Requested then None
      else if g == 0 then Some(Intent(RideWake, r, 1)) else Some(Intent(RideDispatch, r, g))
    case Shared(p) =>
      if db.pools[p].state == Open then Some(Intent(PoolExpire, p, 0))
      else if T.Dispatchable(db, t) && g > 0 then Some(Intent(PoolDispatch, p, g))
      else None
  }

  /** A keyed seat is only taken by an attempt that claimed its key first. */
  predicate MayTakeSeat(mem: Memory, q: P.SeatRequest) {
    q.key == None || Attempt(Scope(q.rider.passenger, q.key.value), FingerprintOf(q.rider)) in mem.attempts
  }

  function SeatReply(mem: Memory, q: P.SeatRequest, r: P.SeatResult): Memory {
    if r.SeatTaken? && q.key.Some? then
      var reply := Reply(Scope(q.rider.passenger, q.key.value), FingerprintOf(q.rider), SeatAnswer(r.pool, r.fare));
      mem.(replies := mem.replies + {reply})
    else mem
  }

  function Apply(dist: Distance, w: World, s: Step): World {
    var db, mem := w.db, w.mem;
    match s
    case CreateRide(id, passenger, scheduled, booking) => w.(db := T.CreateRide(db, id, passenger, scheduled, booking))
    case Wake(ride, g) =>
      // A wake job is published from an outbox row and carries that row's generation.
      if Intent(RideWake, ride, g) in db.outbox then w.(db := T.Wake(db, ride, g)) else w
    case CreateOffer(offer, q, now, locked) => w.(db := T.CreateOffer(db, offer, q, now, locked))
    case ReadOffer(offer, driver) =>
      if offer in db.offers && db.offers[offer].driver == driver
      then w.(mem := mem.(offers := mem.offers + {SeenOffer(offer, driver, db.offers[offer].trip)})) else w
    case Accept(seen, now, vehicle) =>
      if seen in mem.offers then w.(db := T.AcceptInTx(db, seen.offer, seen.driver, seen.trip, now, vehicle).0) else w
    case DeclineOffer(offer, driver) => w.(db := T.Decline(db, offer, driver).0)
    case SweepOffers(now, locked) => w.(db := db.(offers := T.ExpireLapsed(db.offers, None, now, locked)))
    case DirectClaim(ride, driver) =>
      (match T.DirectClaim(db, ride, driver) case None => w case Some(claimed) => w.(db := claimed))
    case MoveRide(ride, driver, event, now) => w.(db := T.Transition(db, ride, driver, event, now).0)
    case CancelRide(ride, q, now) => w.(db := T.Cancel(db, ride, q, now).0)
    case ReadRide(ride) =>
      // Jobs name rides that exist: whoever adds one has read the row.
      if ride in db.rides then w.(mem := mem.(rides := mem.rides + {SeenRide(ride, db.rides[ride].scheduled)})) else w
    case HardFailRide(seen, g) =>
      if seen !in mem.rides then w
      else w.(db := if seen.scheduled then T.RearmScheduled(db, seen.ride, g) else T.MarkNoDriver(db, seen.ride, g))
    case Rearm(ride, g) => w.(db := T.RearmScheduled(db, ride, g))
    case SelectTrip(t) =>
      if T.TripExists(db, t) && SelectedIntent(db, t).Some?
      then w.(mem := mem.(intents := mem.intents + {SelectedIntent(db, t).value})) else w
    case WriteIntent(i) => if i in mem.intents then w.(db := db.(outbox := db.outbox + {i})) else w
    case OpenPool(pool, maxSeats, q) =>
      if !MayTakeSeat(mem, q) then w
      else var (db', r) := P.OpenPool(db, pool, maxSeats, q); World(db', SeatReply(mem, q, r))
    case JoinPool(pool, q) =>
      if !MayTakeSeat(mem, q) then w
      else var (db', r) := P.JoinPool(dist, db, pool, q); World(db', SeatReply(mem, q, r))
    case ExpirePool(pool) => w.(db := P.CloseIfOpen(dist, db, pool).0)
    case AbortPool(pool, g) => w.(db := P.AbortUnclaimed(db, pool, g))
    case ConfirmStop(pool, driver, index, kind) => w.(db := P.ConfirmStop(db, pool, driver, index, kind).0)
    case ClaimKey(scope, f, now) =>
      var (db', r) := P.Claim(db, scope, f, now);
      World(db', match r
        case Claimed => mem.(attempts := mem.attempts + {Attempt(scope, f)})
        case Reclaimed => mem.(attempts := mem.attempts + {Attempt(scope, f)})
        case Replayed(a) => mem.(replies := mem.replies + {Reply(scope, f, a)})
        case KeyConflict => mem
        case StillPending => mem)
    case ReadRecord(scope, f) =>
      // `existingSharedSeat`, first half: a completed record answers whoever holds an attempt.
      if Attempt(scope, f) in mem.attempts && scope in db.records && db.records[scope].response.Some?
      then w.(mem := mem.(replies := mem.replies + {Reply(scope, f, db.records[scope].response.value)})) else w
    case LookUpSeat(scope, f, a) =>
      // `existingSharedSeat`, second half: the seat this key produced answers.
      if Attempt(scope, f) in mem.attempts && P.SeatFor(db.pools, scope, a)
      then w.(mem := mem.(lookups := mem.lookups + {Reply(scope, f, a)}, replies := mem.replies + {Reply(scope, f, a)}))
      else w
    case CompleteClaim(reply) =>
      if reply in mem.lookups then w.(db := db.(records := P.CompleteIn(db.records, reply.scope, reply.answer))) else w
    case ReleaseKey(scope) => w.(db := P.ReleaseClaim(db, scope))
  }

  /** A run: the steps taken, and the states they lead through from an empty database. */
  datatype History = History(steps: seq<Step>, states: seq<World>)

  predicate StepAt(dist: Distance, h: History, i: nat)
    requires i < |h.steps| && |h.states| == |h.steps| + 1
  {
    h.states[i + 1] == Apply(dist, h.states[i], h.steps[i])
  }

  ghost predicate IsRun(dist: Distance, h: History) {
    && |h.states| == |h.steps| + 1 && h.states[0] == Start
    && forall i :: 0 <= i < |h.steps| ==> StepAt(dist, h, i)
  }
}
