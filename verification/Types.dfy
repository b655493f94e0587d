/** The rows of the ride-matching database and the small values they are made of. */
module Types {

  datatype Option<+T> = None | Some(value: T)

  /** A UUID. Two UUID strings compare as the numbers they spell, so a number stands for the string. */
  type Id = nat

  /** An `Idempotency-Key`. Only ever compared for equality. */
  type Key = nat

  /** Milliseconds on the clock a transaction decides on. */
  type Time = int

  datatype Point = Point(lat: real, lng: real)

  /** Metres between two points. The source measures with haversine; nothing proved here depends on which distance it
      is. */
  type Distance = (Point, Point) -> real

  /** A trip in either table. */
  datatype TripRef = Solo(id: Id) | Shared(id: Id)

  // ── rides ─────────────────────────────────────────────────────────────────

  datatype RideStatus =
    | Requested | Dispatching | Accepted | EnRoute | Arrived | InProgress
    | Completed | Cancelled | NoDriver | NoShow

  /** The key and the intent of the create request; a scheduled one includes its pickup time. */
  datatype Booking = Booking(key: Key, route: Fingerprint, pickupAt: Option<Time>)

  datatype Ride = Ride(
    passenger: Id,
    scheduled: bool,
    status: RideStatus,
    driver: Option<Id>,
    generation: nat,
    arrivedAt: Option<Time>,
    booking: Booking)

  // ── shared_rides, pool_member, ride_stops ─────────────────────────────────

  datatype PoolState = Open | ClosedFull | ClosedTimeout | ClosedStarted | Aborted | Finished

  /** What `computeStops` reads of a member. */
  datatype Rider = Rider(passenger: Id, origin: Point, dest: Point)

  datatype Member = Member(rider: Rider, fare: nat, key: Option<Key>, active: bool)

  datatype StopKind = Pickup | Dropoff

  /** One `ride_stops` row; its position in the pool's sequence is its `sequence_index`. */
  datatype StopRow = StopRow(kind: StopKind, passenger: Id, confirmed: bool)

  datatype Pool = Pool(
    state: PoolState,
    seatCount: nat,
    maxSeats: nat,
    claimedBy: Option<Id>,
    generation: nat,
    version: nat,
    anchor: Point,
    members: seq<Member>,
    stops: seq<StopRow>)

  // ── dispatch_offer, driver_active_assignment ──────────────────────────────

  datatype OfferState = Offered | OfferAccepted | Declined | Expired | Revoked

  datatype Offer = Offer(
    trip: TripRef,
    driver: Id,
    generation: nat,
    wave: nat,
    state: OfferState,
    offeredAt: Time,
    expiresAt: Time)

  /** The guard row of one driver: `driver_active_assignment` is keyed by the driver. */
  datatype Guard = Guard(trip: TripRef, offer: Option<Id>, generation: nat)

  // ── outbox, idempotency_record ────────────────────────────────────────────

  datatype Topic = RideDispatch | RideWake | PoolDispatch | PoolExpire

  /** The dedupe key of an outbox row. */
  datatype Intent = Intent(topic: Topic, aggregate: Id, generation: nat)

  datatype Scope = Scope(principal: Id, key: Key)

  /** The part of a shared-create response that names the seat: its pool and the fare agreed for it. */
  datatype SeatAnswer = SeatAnswer(pool: Id, fare: nat)

  /** `toFixed(6)`: the sign it prints and the millionths, halves away from zero. */
  datatype Micro = Micro(negative: bool, millionths: int)

  function ToFixed6(x: real): Micro {
    if x < 0.0 then Micro(true, (-x * 1_000_000.0 + 0.5).Floor) else Micro(false, (x * 1_000_000.0 + 0.5).Floor)
  }

  /** The business intent of a shared create. The source hashes these four numbers; two hashes are equal when they
      are. */
  datatype Fingerprint = Fingerprint(originLat: Micro, originLng: Micro, destLat: Micro, destLng: Micro)

  function FingerprintOf(r: Rider): Fingerprint {
    Fingerprint(ToFixed6(r.origin.lat), ToFixed6(r.origin.lng), ToFixed6(r.dest.lat), ToFixed6(r.dest.lng))
  }

  datatype Record = Record(fingerprint: Fingerprint, response: Option<SeatAnswer>, createdAt: Time)

  // ── the database ──────────────────────────────────────────────────────────

  datatype Db = Db(
    rides: map<Id, Ride>,
    pools: map<Id, Pool>,
    offers: map<Id, Offer>,
    guards: map<Id, Guard>,
    outbox: set<Intent>,
    records: map<Scope, Record>)
}
