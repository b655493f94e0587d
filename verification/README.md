# Ride matching, proved over whole runs

rcab matches passengers, alone or pooled, with drivers. Many workers, sockets and timers act on rows they read a while
ago; Postgres rows, guarded updates and generation numbers keep them consistent. This project models that protocol and
proves what it guarantees.

**The system as one state machine** (`Types`, `Trips`, `Pools`, `Protocol`). The state is every table (rides, pools with
their members and stops, offers, the driver guard table, outbox intents, idempotency records) and what workers remember.
A step is one committed transaction or one unlocked read; the result of a read is kept and may be used at any later time.
Any step may follow any other, so any list of steps is a run, with the states it leads through, and every result about
a point `n` of a run, or about a point `m` and a later `n`, is about all interleavings. Clocks,
generated ids, vehicle eligibility, prices and locked rows are in the step's label and are arbitrary.

**The invariant and the order** (`Invariants`, then `DispatchProofs`, `PoolProofs`, `RowProofs`, `DispatchSteps`,
`IntentProofs`, `SeatProofs`, `Preservation`, `Runs`). One inductive invariant ties guards, offers, generations, seats,
itineraries, intents and recorded answers together. A second relation says how a later state relates to an earlier one.

**Results over runs**: `DispatchResults`, `OfferHistories`, `ScheduleResults`, `PoolResults`, `KeyResults`. What cannot
happen, and where every offer and status came from.

**What every request is answered, and what can always be done** (`RideResults`, `SeatResults`, `StopResults`, and in
`OfferHistories`, `Dispatch`, `Matching`, `Outbox`, `Sessions`). In every reachable state the answer and the effect of an
accept, cancellation, event, seat, confirmation, timeout or refresh are told from the rows alone, with the conditions in the
order they are tried. From any point of any run an offer that stands is granted in time, and a bound ride or claimed pool
is completed by its driver.

**The code as it runs** (`Itinerary`, `Database`, `Dispatch`, `Matching`, `SharedCreate`, `Bookings`, `Relay`,
`Reconciler`).
Classes with the tables, the queue and the reports as fields, updated statement by statement, with rollback where the
source throws. Every method is proved to leave exactly the state of the specification function the run results are about,
or, where it loops, an independent description of the outcome.

**Beside the core**: `Outbox` (fenced leases), `Views` (the client's version gate over any delivery), `Projection` (the
Redis projection and its repair), `Sessions` (refresh-token families), `Geohash`, `Fares`.

## Where code and documentation disagree

`rides/idempotency.ts` promises that a key reused with a different intent is rejected. For solo and scheduled creates that
holds in every run (`Bookings.KeyIsAnsweredForGood`). For shared creates two runs break it.

- The statement that completes a claim inside the seat transaction matches the scope alone. A stalled attempt whose key was
  reclaimed, released and claimed again for another intent completes that other claim with its own seat, and the second
  intent is answered with it (`KeyResults.ReusedKeyIsAnswered`).
- If the stalled attempt commits while nobody holds the key, no record is completed. The next request with the key, for
  another intent, finds the seat by its key alone, is answered with it and records it (`KeyResults.FoundSeatIsAnswered`).

A seat row carries the origin and destination it was taken for, so its intent can be compared wherever it is read. The
promise holds in exactly the runs whose steps would pass four comparisons, none of which the source makes: the seat
transaction and the later completion, each against the pending claim, and the two reads that answer from a record or a
seat, each against the request (`KeyResults.PromiseHoldsExactlyWhen`). Completed records need only the first two
(`KeyResults.RecordsAreRightExactlyWhen`). What holds without condition is that a key has one seat and one answer.

`rides.controller.ts` (lines 235-238) says that a committed seat always has its replayable response. The same stalled
attempt leaves a seat without one (`KeyResults.SeatWithoutRecord`). Every keyed seat has its record in exactly the runs in
which every seat transaction finds its claim still there (`KeyResults.SeatsAreRecordedExactlyWhen`).

`outbox.repository.ts` (lines 58-59) says that a row that keeps killing its relay is eventually exhausted rather than
re-leased forever. `lease` never looks at `attempts`, and only `fail` exhausts a row, which a killed relay does not reach:
for every `n` there is a run that leases a row of one attempt `n` times (`Outbox.KilledForEver`). `attempts` stays within
`max_attempts` in exactly the runs in which no expired lease of a spent row is taken over
(`Outbox.AttemptsAreBoundedExactlyWhen`). Recorded failures are bounded without condition (`Outbox.RetriesAreBounded`).

## Laws that hold on a condition

- An open pool is full if and only if it was opened for one seat, which the configuration admits
  (`PoolResults.OpenIsFullExactlyWhen`, `PoolResults.OpenedFull`).
- Between passes the projection stays right if and only if no commit binds or releases a present driver, no bound driver
  appears, and no write is for a trip its driver has been released from (`Projection.RightExactlyUntilSpoiled`). A pass
  makes it right again (`Projection.AssignmentProjection.Reconcile`).

## Model

| member | source | states |
|---|---|---|
| Preservation.StepKeeps | apps/api/src/modules/dispatch/dispatch.service.ts:209-297 | Any step that may come next (25 kinds of commit or read) keeps the whole invariant and only leads forward: rows, offers, intents and completed records never go back |
| Runs.RunKeeps | apps/api/src/modules/dispatch/dispatch.service.ts:209-297 | The invariant holds at every point of every run |
| Runs.RunFollows | apps/api/src/modules/rides/rides.repository.ts:251-374 | Every point of a run follows every earlier one: owners, frozen members, answered offers and terminal rows never change |
| Runs.RunExists | apps/api/src/modules/dispatch/dispatch.service.ts:209-297 | Any list of steps, in any order and with any repeats, is the steps of a run |
| DispatchResults.GuardsAreExact | apps/api/src/modules/dispatch/assignment.repository.ts:66-108 | A guard (driver, trip) exists exactly when the trip is bound to the driver and not finished, over solo rides and pools alike |
| DispatchResults.OneTripPerDriver | apps/api/src/modules/dispatch/dispatch.service.ts:209-297 | A driver serves at most one trip, of either kind |
| DispatchResults.OneDriverPerTrip | apps/api/src/modules/dispatch/assignment.repository.ts:66-96 | No trip is guarded for two drivers |
| DispatchResults.LiveOffersAreCurrent | apps/api/src/modules/dispatch/offer.repository.ts:103-145 | Every offer still live names a trip that can be claimed now, at its current generation |
| DispatchResults.OneLiveOfferPerDriver | apps/api/src/modules/dispatch/offer.repository.ts:103-145 | A driver has at most one live offer |
| DispatchResults.OfferedOnce | apps/api/src/modules/dispatch/offer.repository.ts:103-145 | No two offers share trip, driver and generation |
| DispatchResults.NeverOfferedAgain | apps/api/src/modules/dispatch/offer.repository.ts:103-145 | Once a driver was offered a trip generation, no later insert offers it again, whatever the wave had read |
| DispatchResults.AcceptedOnce | apps/api/src/modules/dispatch/dispatch.service.ts:209-297 | Of all offers for a trip, over all generations, at most one is ever accepted |
| DispatchResults.BoundForGood | apps/api/src/modules/dispatch/assignment.repository.ts:167-202 | Whoever owns a trip at some point of a run owns it from then on |
| DispatchResults.ReleasedForGood | apps/api/src/modules/dispatch/assignment.repository.ts:102-108 | A driver released from a trip never holds its guard again |
| DispatchResults.AcceptDecides | apps/api/src/modules/dispatch/dispatch.service.ts:209-297 | However stale the read before it, an accept answers exactly as an eight-way decision does; the stale-generation, trip-taken-on-acquire, step-5 and throwing branches are never reached |
| DispatchResults.AcceptWritesExactly | apps/api/src/modules/dispatch/dispatch.service.ts:228-297 | What an accept writes, table by table: all of it when granted first, its own lapse, or nothing |
| DispatchResults.RepeatReplays | apps/api/src/modules/dispatch/dispatch.service.ts:232-243 | Accepting an accepted offer again changes nothing, replays while the trip is served, and is refused otherwise |
| DispatchResults.RefusedForEver | apps/api/src/modules/dispatch/dispatch.service.ts:232-243 | Once the trip has ended, the accepted offer is refused at every later point of every run |
| OfferHistories.AnsweredWithCause | apps/api/src/modules/dispatch/offer.repository.ts:164-225 | Every answered offer was turned from live to that answer by a step of the run: its own driver accepting in time with a big enough vehicle and no other trip, its driver declining, the clock, or a step on its trip that ended the generation it was for |
| OfferHistories.AnsweredOnce | apps/api/src/modules/dispatch/offer.repository.ts:171-181 | No two steps of a run answer the same offer |
| OfferHistories.RevokedIsOver | apps/api/src/modules/dispatch/offer.repository.ts:203-214 | A revoked offer's trip is taken, over, or in a later generation |
| OfferHistories.WaveIsARun | apps/api/src/modules/dispatch/dispatch.service.ts:461-480 | What a wave leaves is what a run of single offers leaves, so the run results hold after waves |
| OfferHistories.OfferStands | apps/api/src/modules/dispatch/offer.repository.ts:119-145 | An offer its driver has not declined, made by a step of a run, is live as long as its trip waits in its generation and no clock has passed its end, which is the ttl asked for and at least a millisecond after it was made; whatever else happened in between |
| OfferHistories.StandingOfferIsGranted | apps/api/src/modules/dispatch/dispatch.service.ts:209-297 | Accepting it before its end is granted to a driver with seats enough and no other trip |
| OfferHistories.ChosenDriverIsGranted | apps/api/src/modules/dispatch/dispatch.service.ts:437-480 | Selection, wave and answer together: uninterrupted, a chosen driver who accepts within twelve seconds is granted the trip |
| DispatchResults.DeclineAnswers | apps/api/src/modules/dispatch/offer.repository.ts:184-197 | Declining succeeds exactly for the driver's own live offer |
| DispatchResults.SweepLeavesNoneLapsed | apps/api/src/modules/dispatch/offer.repository.ts:217-225 | After a sweep no unlocked offer is live past its end, and none was ended early |
| OfferHistories.NoShowWasWaitedFor | apps/api/src/modules/rides/rides.repository.ts:336-345 | Behind every no-show are two steps: the driver's that moved the ride to arrived and stamped it, and a later one of a party, no less than the wait after that stamp, that made it a no-show |
| ScheduleResults.RankIsSound | apps/api/src/modules/realtime/realtime.protocol.ts:49-72 | Along any run ranks never fall, equal ranks mean equal statuses, and at rank 10 the row never changes again |
| ScheduleResults.ScheduledNeverFails | apps/api/src/modules/dispatch/dispatch.service.ts:579-592 | No scheduled ride ever becomes no_driver |
| ScheduleResults.RearmedOnce | apps/api/src/modules/scheduled/scheduled-retry.ts:59-98 | Each generation of a ride is re-armed exactly once if it is over, and not yet if it is not |
| ScheduleResults.GenerationCountsRearms | apps/api/src/modules/scheduled/scheduled-retry.ts:59-98 | An awake ride's generation is 1 plus its number of re-arms over the run |
| ScheduleResults.WakeAnswers | apps/api/src/modules/dispatch/dispatch-start.service.ts:88-99 | In every reachable state a wake takes a requested unwoken ride to generation 1, where it can be dispatched, and changes nothing else or later |
| ScheduleResults.RanksTellStatusesApart | apps/api/src/modules/realtime/realtime.protocol.ts:49-72 | Every end is rank 10; the six statuses on the way have ranks 1 to 6, no two alike |
| ScheduleResults.ScheduledWaitsForItsWake | apps/api/src/modules/dispatch/dispatch-start.service.ts:88-106 | No scheduled ride has a dispatch generation before the job of its wake row woke it or it was assigned directly |
| RideResults.EveryStatusHasItsCause | apps/api/src/modules/rides/rides.repository.ts:251-374 | Behind every ride that no longer waits is a step of the run that was entitled to bring it there: an accept or direct assignment, its own driver's event in order, its passenger before it started, its driver before it was over, a no-show after the wait, or the hard-fail of its generation |
| RideResults.CancelAnswers | apps/api/src/modules/rides/rides.repository.ts:319-374 | In every reachable state: missing, then not a party, then the status, then the wait; otherwise the ride is over, its offers are withdrawn and nobody is bound to it |
| RideResults.EventAnswers | apps/api/src/modules/rides/rides.repository.ts:280-304 | In every reachable state an event succeeds exactly for the ride's own driver and from the one status it starts from, and what it writes |
| RideResults.RideCanBeCompleted | apps/api/src/modules/rides/ride-state-machine.service.ts:47-99 | From any point of any run the driver of a bound ride completes it with the events that are left, and is then free |
| RideResults.DirectClaimAnswers | apps/api/src/modules/rides/rides.repository.ts:225-242 | In every reachable state a requested ride is assigned to any driver without a trip, and only so, and what that writes |
| PoolResults.SeatCountIsExact | apps/api/src/modules/matching/pool-membership.repository.ts:172-212 | The derived seat count is the number of members, at least one and within the maximum |
| PoolResults.OpenIsFullExactlyWhen | apps/api/src/modules/matching/pool-lifecycle.service.ts:150-236 | An open pool is full exactly when it was opened for one |
| PoolResults.OpenedFull | apps/api/src/modules/matching/matching.service.ts:90-96 | With a maximum of one a pool is open and full |
| SeatResults.JoinAnswers | apps/api/src/modules/matching/pool-lifecycle.service.ts:290-365 | In every reachable state a priced rider gets a seat exactly in an open pool with room, unless the key has a seat or the rider travels in some pool; the first condition that fails is the reason; the last seat closes the pool with its itinerary and intent |
| SeatResults.OpenAnswers | apps/api/src/modules/matching/pool-lifecycle.service.ts:150-236 | The same for a pool of one's own, and what it starts with |
| SeatResults.ExpireAnswers | apps/api/src/modules/matching/pool-lifecycle.service.ts:382-430 | In every reachable state a timeout closes exactly an open pool, for its riders as they are |
| StopResults.ConfirmAnswers | apps/api/src/modules/ride-lifecycle/ride-lifecycle.service.ts:94-164 | In every reachable state a confirmation is taken exactly from the pool's own driver for the first stop that is left, under its own kind; every refusal in order; and what it leaves |
| StopResults.PoolCanBeCompleted | apps/api/src/modules/ride-lifecycle/ride-lifecycle.service.ts:94-164 | From any point of any run the driver of a claimed pool completes it by confirming the stops that are left, one step each, and is then free |
| PoolResults.NeverAbortedEmpty | apps/api/src/modules/matching/pool-lifecycle.service.ts:382-404 | A timeout closes an open pool and does nothing to any other; the empty-pool branch is never taken |
| PoolResults.OneActivePoolPerPassenger | apps/api/src/db/schema.ts:510-514 | A passenger is actively seated in at most one pool |
| PoolResults.SeatsAreActiveUntilTheEnd | apps/api/migrations/0016_pool_membership.sql:306-323 | A seat is active exactly until its pool is aborted or completed |
| PoolResults.ClosedIsFrozen | apps/api/src/modules/matching/shared-ride.repository.ts:196-213 | A pool leaves open once; from then on riders, fares, keys and stops are fixed |
| PoolResults.ClosedPoolsAreComplete | apps/api/src/modules/matching/pool-lifecycle.service.ts:412-430 | A closed pool is at generation 1 with a pickup then a dropoff for every member, in the order of the one itinerary its members have |
| PoolResults.WaitingWorkIsWritten | apps/api/src/modules/outbox/outbox.writer.ts:12-30 | Every unassigned requested ride, open pool and closed unclaimed pool has the outbox row of its current generation |
| PoolResults.ConfirmedIsAPrefix | apps/api/src/modules/ride-lifecycle/ride-lifecycle.service.ts:94-164 | Confirmed stops are a prefix of the itinerary; started means some but not all, completed means all |
| PoolResults.PickupPrecedesDropoff | apps/api/src/modules/ride-lifecycle/ride-lifecycle.service.ts:94-164 | A confirmed dropoff has its passenger's confirmed pickup before it |
| PoolResults.StampsAreCounted | apps/api/src/modules/matching/ride-stop.repository.ts:65-88 | The confirmed prefix is as long as the number of confirmations that took effect in the run |
| PoolResults.CompletesAfterEveryStop | apps/api/src/modules/ride-lifecycle/ride-lifecycle.service.ts:137-148 | A pool is completed, and no driver guarded for it, exactly after two effective confirmations per seat |
| PoolResults.RepeatConfirmIsDuplicate | apps/api/src/modules/ride-lifecycle/ride-lifecycle.service.ts:108-123 | Confirming a confirmed stop changes nothing, ever after, and reports what is left |
| KeyResults.OneSeatPerKey | apps/api/src/modules/matching/pool-membership.repository.ts:172-262 | A passenger's key produces at most one seat, over all pools |
| KeyResults.RepliesAgree | apps/api/src/modules/rides/rides.controller.ts:248-399 | Any two successes ever answered for a key are the same, and name the seat's pool and agreed fare |
| KeyResults.CompletedForGood | apps/api/src/modules/rides/idempotency.repository.ts:42-127 | A completed record never becomes pending, disappears or answers anything else; a claim of it replays or conflicts |
| KeyResults.RecordsAreRightExactlyWhen | apps/api/src/modules/rides/idempotency.repository.ts:110-120 | Completed records are for the intent their seat was taken for exactly in the runs whose completing steps would pass two comparisons: a seat transaction of its own intent with the pending claim's, a later completion of the found seat's with the pending claim's |
| KeyResults.PromiseHoldsExactlyWhen | apps/api/src/modules/rides/rides.controller.ts:293-332 | Every success ever answered was for the request's own intent, and every later replay will be, exactly in the runs whose completing and answering steps would pass the four comparisons |
| KeyResults.OtherIntentsAreRejected | apps/api/src/modules/rides/idempotency.ts:13-15 | Where records are right, a completed key replays the intent its seat was taken for and rejects every other |
| KeyResults.ReusedKeyIsAnswered | apps/api/src/modules/rides/idempotency.repository.ts:110-120 | A run that breaks the documented promise: a stalled attempt completes a claim made for another intent, which is then answered with its seat |
| KeyResults.FoundSeatIsAnswered | apps/api/src/modules/rides/rides.controller.ts:293-332 | A run that breaks it although every seat transaction would pass: another intent finds the seat by its key, is answered with it and records it |
| KeyResults.SeatsAreRecordedExactlyWhen | apps/api/src/modules/rides/idempotency.repository.ts:110-127 | Up to a point of a run every keyed seat has its completed record exactly when every seat transaction before it found its record, that is, its completing UPDATE matched a row |
| KeyResults.SeatWithoutRecord | apps/api/src/modules/rides/idempotency.repository.ts:110-127 | A stalled attempt whose claim was reclaimed and released commits a seat that has no record |
| KeyResults.BothHappen | apps/api/src/modules/rides/idempotency.repository.ts:42-127 | Those runs exist |
| KeyResults.PendingClaimHolds | apps/api/src/modules/rides/idempotency.repository.ts:78-99 | At every point after a claim, until it is released or completed, a claim of the key within the minute changes nothing and is told to wait or conflicts |
| KeyResults.OneClaimAtATime | apps/api/src/modules/rides/idempotency.repository.ts:42-99 | Of the retries of a key nobody releases, any two that obtain the claim are more than a minute apart and of one intent |
| Itinerary.PlanIsTheItinerary | apps/api/src/modules/matching/itinerary.ts:20-107 | For one row per passenger, a stop list is an itinerary (pickups outward, dropoffs greedily nearest, ties by id) if and only if it is the computed one |
| Itinerary.PlanIgnoresOrder | apps/api/src/modules/matching/itinerary.ts:20-107 | The result is the same for every order of the members |
| Itinerary.PlanShape | apps/api/src/modules/matching/itinerary.ts:20-51 | Indices are positions, pickups fill the first half, and every rider is served once in each half |
| Itinerary.OrderDropoffsNearestNeighbour | apps/api/src/modules/matching/itinerary.ts:82-107 | The splice loop computes the greedy order |
| Itinerary.ComputeStops | apps/api/src/modules/matching/itinerary.ts:20-51 | The loops compute the plan the lemmas are about |
| Database.Tables.AcceptOffer | apps/api/src/modules/dispatch/dispatch.service.ts:209-258 | The statements of the accept transaction, with rollback, leave the specified database and answer |
| Database.Tables.SettledOffer | apps/api/src/modules/dispatch/dispatch.service.ts:231-250 | Answers for an offer that is no longer live |
| Database.Tables.ClaimTrip | apps/api/src/modules/dispatch/dispatch.service.ts:260-279 | Steps 5 to 8 in order: trip state, eligibility, then binding |
| Database.Tables.BindTrip | apps/api/src/modules/dispatch/dispatch.service.ts:281-296 | Guard, trip row, offer and revocations commit together or roll back together |
| Database.Tables.Acquire | apps/api/src/modules/dispatch/assignment.repository.ts:66-96 | Inserts the guard, or says busy before taken |
| Database.Tables.Release | apps/api/src/modules/dispatch/assignment.repository.ts:102-108 | Frees the driver only from this trip |
| Database.Tables.FindByTrip | apps/api/src/modules/dispatch/assignment.repository.ts:119-122 | Finds the guard of a trip, or none exists |
| Database.Tables.ClaimSoloRow | apps/api/src/modules/dispatch/assignment.repository.ts:167-186 | The guarded update of a ride, or no row |
| Database.Tables.ClaimSharedRow | apps/api/src/modules/dispatch/assignment.repository.ts:188-202 | The guarded update of a pool, or no row |
| Database.Tables.CreateOffer | apps/api/src/modules/dispatch/offer.repository.ts:103-145 | Dispatchable check, lapse of the driver's old offers, insert or nothing |
| Database.Tables.MarkAccepted | apps/api/src/modules/dispatch/offer.repository.ts:164-168 | Accepts a live offer, or throws and why |
| Database.Tables.ResolveLive | apps/api/src/modules/dispatch/offer.repository.ts:171-181 | Answers only a live offer, and says whether it was |
| Database.Tables.Decline | apps/api/src/modules/dispatch/offer.repository.ts:184-197 | Declines the driver's own live offer, else not found or not live |
| Database.Tables.RevokeLiveForTrip | apps/api/src/modules/dispatch/offer.repository.ts:203-214 | Revokes exactly the trip's live offers of every generation but the winner's, and reports them |
| Database.Tables.ExpireLapsed | apps/api/src/modules/dispatch/offer.repository.ts:217-225 | Expires exactly the lapsed live offers nobody holds locked, and counts them |
| Database.Tables.RunWave | apps/api/src/modules/dispatch/dispatch.service.ts:461-480 | The loop over candidates leaves what the offers one by one leave, and counts them |
| Database.Tables.CreateRide | apps/api/src/modules/rides/rides.repository.ts:104-189 | Ride and intent are written together, or the ride that holds the scope is found and nothing is written |
| Database.Tables.FindByIdempotencyScope | apps/api/src/modules/rides/rides.repository.ts:199-216 | The ride of a passenger, operation and key, or there is none |
| Database.Tables.ClaimSolo | apps/api/src/modules/rides/rides.repository.ts:225-242 | Direct assignment takes guard and ride and revokes every live offer, or nothing |
| Database.Tables.Transition | apps/api/src/modules/rides/rides.repository.ts:280-304 | One guarded move; completion releases the guard |
| Database.Tables.ApplyEvent | apps/api/src/modules/rides/ride-state-machine.service.ts:47-99 | The transition table applied through the repository |
| Database.Tables.CancelRide | apps/api/src/modules/rides/rides.repository.ts:319-374 | Verdicts in order, then status, revocations and release in one transaction |
| Database.Tables.RearmScheduled | apps/api/src/modules/scheduled/scheduled-retry.ts:59-98 | New generation, revocations and intent, or nothing |
| Database.Tables.WakeScheduled | apps/api/src/modules/dispatch/dispatch-start.service.ts:88-99 | The one guarded update of the wake |
| Database.Tables.InsertMember | apps/api/src/modules/matching/pool-membership.repository.ts:172-262 | Open check, unique indexes and capacity, with the classified refusal |
| Database.Tables.OpenPool | apps/api/src/modules/matching/pool-lifecycle.service.ts:150-236 | Pool, first seat, expiry intent and completed claim, or the pool is taken back |
| Database.Tables.JoinPool | apps/api/src/modules/matching/pool-lifecycle.service.ts:290-365 | The refusals before the seat, in order |
| Database.Tables.SeatJoiner | apps/api/src/modules/matching/pool-lifecycle.service.ts:335-364 | Seat, closure when full and completed claim commit together |
| Database.Tables.CloseInTxn | apps/api/src/modules/matching/pool-lifecycle.service.ts:412-430 | Closing writes state, generation, itinerary and intent, or throws |
| Database.Tables.CloseIfOpen | apps/api/src/modules/matching/pool-lifecycle.service.ts:382-404 | The timeout |
| Database.Tables.AbortUnclaimed | apps/api/src/modules/dispatch/assignment.repository.ts:208-216 | The hard-fail of an unclaimed pool releases members and revokes offers |
| Database.Tables.ConfirmStop | apps/api/src/modules/ride-lifecycle/ride-lifecycle.service.ts:95-126 | The verdicts before anything is written, in order |
| Database.Tables.StampStop | apps/api/src/modules/ride-lifecycle/ride-lifecycle.service.ts:128-160 | Stamp, start, complete, release and version bump, or rolled back |
| Database.Tables.EnqueueOutbox | apps/api/src/modules/outbox/outbox.writer.ts:12-30 | Insert if absent: never two rows of one topic, trip and generation |
| Database.Tables.ClaimKey | apps/api/src/modules/rides/idempotency.repository.ts:42-69 | Insert, else reclaim, else read |
| Database.Tables.ReclaimStale | apps/api/src/modules/rides/idempotency.repository.ts:78-99 | Restamps only a stale pending claim of the same fingerprint |
| Dispatch.DispatchService.SelectCandidates | apps/api/src/modules/dispatch/dispatch.service.ts:731-752 | The nearest suitable drivers, nearest first, each once, at most k |
| Dispatch.DispatchService.RunSoloWave | apps/api/src/modules/dispatch/dispatch.service.ts:437-484 | Offers, then timers on wave 1; generation 0 throws first |
| Dispatch.DispatchService.RunPoolWave | apps/api/src/modules/dispatch/dispatch.service.ts:494-555 | A pool without its whole itinerary gets timers but no offers |
| Dispatch.DispatchService.StartSolo | apps/api/src/modules/dispatch/dispatch-start.service.ts:44-56 | A stale start job does nothing, a current one of generation 0 throws, any other runs wave 1 |
| Dispatch.DispatchService.StartPool | apps/api/src/modules/dispatch/dispatch-start.service.ts:59-75 | The same for pools |
| Dispatch.DispatchService.WakeScheduled | apps/api/src/modules/dispatch/dispatch-start.service.ts:88-106 | A ride that can be woken is woken and started, any other is left alone |
| Dispatch.DispatchService.HandleWaveTimeout | apps/api/src/modules/dispatch/dispatch.service.ts:557-577 | Escalates exactly a trip still waiting in the timer's generation; only a first wave sets timers |
| Dispatch.DispatchService.HandleHardFail | apps/api/src/modules/dispatch/dispatch.service.ts:579-630 | Ends or re-arms exactly a trip unassigned and waiting in the timer's generation, and drops its timers only then |
| Dispatch.StaleWaveIsHarmless | apps/api/src/modules/dispatch/dispatch.service.ts:437-480 | A whole wave for a generation that is over changes nothing |
| Dispatch.WaveReachesAll | apps/api/src/modules/dispatch/dispatch.service.ts:461-480 | Uninterrupted, every free driver of a wave holds a live offer afterwards, of this wave, made when its insert read the clock and good for its ttl, except those whose lapsed offer another transaction holds, who get none; nothing else was inserted |
| Dispatch.SelectedAreFree | apps/api/src/modules/dispatch/offer.repository.ts:241-262 | The selection leaves only drivers whom this generation can be offered |
| Dispatch.NearestDriversAreOffered | apps/api/src/modules/dispatch/dispatch.service.ts:437-480 | Selection and wave together: the nearest suitable drivers hold offers afterwards, each good for twelve seconds |
| Dispatch.FreeDriversAreChosen | apps/api/src/modules/dispatch/dispatch.service.ts:731-752 | No free driver with seats enough is passed over: chosen, or k nearer ones are |
| Dispatch.TimersAreSet | apps/api/src/modules/dispatch/dispatch.service.ts:697-716 | Wave 2 is due when the first window ends and the hard-fail when the whole one does; timers already set and all other jobs stay |
| Dispatch.ClosedPoolIsOffered | apps/api/src/modules/dispatch/dispatch.service.ts:494-555 | A closed pool nobody has claimed has its whole itinerary, so its wave does offer it |
| Dispatch.HardFailIsExact | apps/api/src/modules/dispatch/dispatch.service.ts:579-630 | A hard-fail acts exactly on a trip still unassigned in the timer's generation: no_driver, aborted with its riders free, or the next generation with its intent; its offers are withdrawn |
| Matching.Rank | apps/api/src/modules/matching/matching.service.ts:119-144 | Every qualified candidate, best first, and no other |
| Matching.FindOrCreatePool | apps/api/src/modules/matching/matching.service.ts:102-224 | The first candidate in rank order that is neither stale nor contended decides; a pool is opened only when none is left, and contention there is a conflict with nothing written |
| Matching.SlottedInTheBestWilling | apps/api/src/modules/matching/matching.service.ts:144-186 | A slotted rider sits in the best-fitting pool that would still take them, and no other pool changed |
| Matching.MatchIs | apps/api/src/modules/matching/matching.service.ts:144-224 | A match is what the first pool that is not passed over makes of the rider, told by who sits where and under which key; with none left, what opening makes |
| Matching.StaleExactlyWhen | apps/api/src/modules/matching/matching.service.ts:144-186 | A candidate is passed over only for being fought over, gone, closed or full |
| Matching.CloserComesFirst | apps/api/src/modules/matching/matching.service.ts:119-142 | Of equal routes the shorter walk comes first, of equal walks the likelier route; 0.1 of likeness weighs 200 metres |
| Matching.OnlyASeatIsWritten | apps/api/src/modules/matching/matching.service.ts:144-224 | Any answer without a seat has written nothing |
| SharedCreate.ExistingSharedSeat | apps/api/src/modules/rides/rides.controller.ts:319-332 | Finds the key's seat and records it, or there is none |
| SharedCreate.ReplayHasSeat | apps/api/src/modules/matching/pool-membership.repository.ts:222-262 | A match that says the key was used found a seat of that key, so looking it up succeeds |
| SharedCreate.AllocateSharedSeat | apps/api/src/modules/rides/rides.controller.ts:338-399 | Answers with the seat of the match, or with the key's own on a replay; there is no answer exactly when the match was a conflict or threw, and then nothing was written |
| SharedCreate.SeatUnderClaim | apps/api/src/modules/rides/rides.controller.ts:268-284 | A reclaimed key that has a seat is answered with it and nothing is allocated; otherwise it fails exactly when the match was a conflict or threw, and that frees the key |
| SharedCreate.CreateShared | apps/api/src/modules/rides/rides.controller.ts:248-285 | Every outcome of a keyed create: replay, conflict and in progress write nothing; a match is made under a first claim or a reclaimed one without a seat; it fails only when that match was a conflict or threw |
| SharedCreate.ReachableIsLedger | apps/api/src/modules/rides/rides.controller.ts:248-285 | Every reachable database is one the keyed create is proved for |
| SharedCreate.KeyedIsNeverAlreadyMember | apps/api/src/modules/matching/pool-membership.repository.ts:222-262 | A keyed join is never answered with a seat another key produced |
| Bookings.CreateSolo | apps/api/src/modules/rides/rides.controller.ts:413-556 | A key that has a ride is replayed or rejected by that ride's intent, whatever the quote; only a first request is checked and creates |
| Bookings.AnotherIntentIsRejected | apps/api/src/modules/rides/idempotency.ts:57-106 | The same request is replayed; one for another pickup time, or with a coordinate more than a millionth of a degree off, is rejected |
| Bookings.CreateWrites | apps/api/src/modules/rides/rides.repository.ts:126-171 | A first request writes its ride as asked for and the one intent that makes it move: a scheduled ride waits at generation 0 for its wake, any other is dispatched at once |
| Bookings.OneRidePerKey | apps/api/src/db/schema.ts:243-247 | In no reachable state does a key of a passenger and operation have two rides |
| Bookings.KeyIsAnsweredForGood | apps/api/src/modules/rides/idempotency.ts:9-21 | Once a key has its ride, at any later point and under any interleaving every request with it is replayed if its intent is that ride's and rejected otherwise, and writes nothing |
| Bookings.CreateFindsItsRide | apps/api/src/modules/rides/rides.repository.ts:172-189 | Whoever inserts, and whoever loses that race, finds the one ride of the key ever after |
| Outbox.OnlyTheLatestLeaseCounts | apps/api/src/modules/outbox/outbox.repository.ts:95-130 | An ack or failure has an effect only under the row's latest lease, an ack only after publication |
| Outbox.SupersededIsPowerless | apps/api/src/modules/outbox/outbox.repository.ts:61-130 | A relay whose row was leased again can never change it, however late it wakes |
| Outbox.ProcessedWasPublished | apps/api/src/modules/outbox/outbox.repository.ts:95-105 | A processed row was published under its latest lease and is not failed |
| Outbox.RearmLeavesLeases | apps/api/src/modules/outbox/outbox.repository.ts:139-157 | Re-arming never clears a lease in force |
| Outbox.AttemptsAreBoundedExactlyWhen | apps/api/src/modules/outbox/outbox.repository.ts:55-78 | `attempts` stays within `max_attempts` up to a point of a run exactly when no step before it takes over an expired lease of a row whose attempts are used up |
| Outbox.KilledForEver | apps/api/src/modules/outbox/outbox.repository.ts:55-78 | For every n a run leases a row of one attempt n times: a row that keeps killing its relay is never exhausted |
| Outbox.LeasedExactlyWhen | apps/api/src/modules/outbox/outbox.repository.ts:61-78 | A fresh token leases a row exactly if it waits, its time has come and no earlier lease still runs |
| Outbox.FailedExactlyWhen | apps/api/src/modules/outbox/outbox.repository.ts:111-130 | A failure takes effect exactly under the lease in force, and ends the row exactly when it says so or was the last attempt |
| Outbox.BackoffDoubles | apps/api/src/modules/outbox/outbox.repository.ts:111-130 | Each failure doubles the wait, from a second up to five minutes |
| Outbox.RearmedIsDue | apps/api/src/modules/outbox/outbox.repository.ts:139-157 | A finished row that is re-armed is due at once, with all its attempts; no other row changes |
| Outbox.DueRowCanBeProcessed | apps/api/src/modules/outbox/outbox.repository.ts:61-105 | From any point of any run a relay is done with a due row in three steps |
| Outbox.RetriesAreBounded | apps/api/src/modules/outbox/outbox.repository.ts:111-130 | A row is put back fewer than max_attempts times before it is exhausted or re-armed |
| Relay.OutboxTable.TakeBatch | apps/api/src/modules/outbox/outbox.repository.ts:61-92 | The earliest due unlocked rows, fewer than the limit only when there are no more, each under its own token |
| Relay.OutboxTable.Acknowledge | apps/api/src/modules/outbox/outbox.repository.ts:95-105 | Fenced by the token |
| Relay.OutboxTable.RecordFailure | apps/api/src/modules/outbox/outbox.repository.ts:111-130 | Backs off or exhausts, fenced by the token |
| Relay.OutboxTable.RearmRow | apps/api/src/modules/outbox/outbox.repository.ts:139-157 | Says whether the row exists, which is then pending |
| Relay.OutboxRelay.Drain | apps/api/src/modules/outbox/outbox.relay.ts:111-153 | Every leased row is published and acked or failed; counters add up; published jobs are in the queue |
| Relay.DrainedRowIsSettled | apps/api/src/modules/outbox/outbox.relay.ts:111-153 | After a drain a row of the batch is done, exhausted, or pending and not due |
| Reconciler.DispatchReconciler.ReconcileDispatching | apps/api/src/modules/outbox/dispatch-reconciler.service.ts:309-411 | What one call does to rows, intents and jobs, repair by repair, with the delays of restored timers; each counter goes up by what was repaired, the timers' by the number of jobs that are live again |
| Reconciler.DispatchReconciler.RestoreTimers | apps/api/src/modules/outbox/dispatch-reconciler.service.ts:385-411 | Whichever timers were lost come back with the delay that remains, and are counted |
| Reconciler.DispatchReconciler.RestoreWake | apps/api/src/modules/outbox/dispatch-reconciler.service.ts:172-210 | The wake is live or a row that can be published holds it, and it is counted exactly when it was lost |
| Reconciler.DispatchReconciler.RestoreExpiry | apps/api/src/modules/outbox/dispatch-reconciler.service.ts:242-287 | The same for a pool's expiry |
| Reconciler.ReconciledIsCovered | apps/api/src/modules/outbox/dispatch-reconciler.service.ts:309-411 | After it, a waiting trip has a live start job, a live hard-fail, or a pending row of its current generation under a job id no finished job holds; the generation is new exactly when a scheduled window has passed; wave 2 is restored while it can still run |
| Reconciler.ReconciledIsLocal | apps/api/src/modules/outbox/dispatch-reconciler.service.ts:309-411 | One call changes nothing about any other trip |
| Reconciler.OfferSummary | apps/api/src/modules/outbox/dispatch-reconciler.service.ts:413-431 | Number and first instant of a generation's offers |
| Reconciler.DispatchReconciler.ReconcileUnwokenScheduled | apps/api/src/modules/outbox/dispatch-reconciler.service.ts:172-210 | Every selected unwoken ride gets its wake back |
| Reconciler.DispatchReconciler.ReconcileSoloDispatch | apps/api/src/modules/outbox/dispatch-reconciler.service.ts:215-238 | Every selected awake ride is covered |
| Reconciler.DispatchReconciler.ReconcileOpenPools | apps/api/src/modules/outbox/dispatch-reconciler.service.ts:242-287 | Every selected open pool gets its expiry back |
| Reconciler.DispatchReconciler.ReconcileClosedPools | apps/api/src/modules/outbox/dispatch-reconciler.service.ts:289-305 | Every selected closed pool is covered |
| Reconciler.DispatchReconciler.Pass | apps/api/src/modules/outbox/dispatch-reconciler.service.ts:123-160 | After one uninterrupted pass everything that fits in it is covered and nothing about any other trip has changed |
| Reconciler.NobodyIsMissed | apps/api/src/modules/outbox/dispatch-reconciler.service.ts:172-305 | With at most 500 of a kind, after a pass every trip that waits and has been idle for fifteen seconds is covered, whatever it waits for |
| Reconciler.RestoredAsSet | apps/api/src/modules/outbox/dispatch-reconciler.service.ts:372-411 | Timers lost before either was due come back exactly as the wave had set them |
| Reconciler.OverdueHardFailComesAtOnce | apps/api/src/modules/outbox/dispatch-reconciler.service.ts:372-411 | An overdue hard-fail that was lost is due at once, and the second wave is not brought back |
| Reconciler.PassThenDrain | apps/api/src/modules/outbox/outbox.relay.ts:111-153 | After a pass and a drain that its limit does not cut short, every trip of the pass whose waiting rows are due and publishable has a live job, with no help from any row |
| Reconciler.DrainKeepsStartsSound | apps/api/src/modules/outbox/outbox.relay.ts:111-153 | A drain never puts a start job ahead of its ride's generation, as a pass assumes |
| Reconciler.ReachableIsSound | apps/api/src/modules/outbox/dispatch-reconciler.service.ts:309-411 | Every reachable database is one the pass is proved for |
| Views.VersionGate.Follow | apps/web/src/lib/booking/ws.ts:62-66 | Following another aggregate forgets the version |
| Views.VersionGate.Snapshot | apps/web/src/lib/booking/ws.ts:70-74 | Applies when not older |
| Views.VersionGate.Event | apps/web/src/lib/booking/ws.ts:75-82 | Applies when strictly newer, or unversioned |
| Views.Subscription.On | apps/web/src/lib/booking/ws.ts:186-210 | A handler shows exactly what its gate lets through |
| Views.GateAdmits | apps/web/src/lib/booking/ws.ts:62-84 | Nothing of another aggregate and nothing older; of the applied version a snapshot again but no event; an unversioned event always |
| Views.NewestIsShown | apps/web/src/lib/booking/ws.ts:58-84 | For any loss, repetition and order, what is shown is a received message of the highest version received |
| Views.ShownIsCommitted | apps/web/src/lib/booking/ws.ts:186-210 | What a client shows, with its version, is a state the server committed |
| Views.PoolViewIsCurrent | apps/api/src/modules/realtime/realtime.protocol.ts:109-126 | A member sees the current pool once any message of its version has arrived |
| Views.PoolViewNeverGoesBack | apps/web/src/lib/booking/ws.ts:186-194 | What is shown later was committed at the same or a later point of the run |
| Views.JoinThenSnapshotMissesNothing | apps/api/src/modules/realtime/realtime.gateway.ts:281-293 | Join first, snapshot second: with every later change announced, the client ends on the current state |
| Views.SnapshotThenJoinCanMiss | apps/api/src/modules/realtime/realtime.gateway.ts:281-293 | In the other order a change in between is missed for good |
| Views.RideViewIsCurrent | apps/api/src/modules/realtime/realtime.protocol.ts:49-72 | The same as for pools, with the rank of the status as version |
| Views.RideViewNeverGoesBack | apps/web/src/lib/booking/ws.ts:195-210 | A ride's shown status never goes back |
| Views.RideJoinThenSnapshotMissesNothing | apps/api/src/modules/realtime/realtime.gateway.ts:245-255 | Join first, snapshot second, for rides |
| Views.TerminalStaysShown | apps/web/src/lib/booking/ws.ts:195-210 | Once a terminal status is shown no message changes it |
| Projection.ClearSparesLiveAssignments | apps/api/src/modules/dispatch/driver-assignment.projection.ts:109-149 | Under any interleaving of commits, presence, late writes and passes, a clear never removes a live assignment |
| Projection.RightExactlyUntilSpoiled | apps/api/src/modules/dispatch/driver-assignment.projection.ts:17-60 | Between two points of a run a right projection stays right exactly when no move binds or releases a present driver, lets a bound driver appear, or writes a trip the driver is no longer bound to; no clear ever spoils it |
| Projection.SpoiledInEachWay | apps/api/src/modules/dispatch/driver-assignment.projection.ts:17-60 | A run in which each of the three does |
| Projection.LogExists | apps/api/src/modules/dispatch/driver-assignment.projection.ts:109-149 | Any list of moves is the moves of a run |
| Projection.HashNamesOwnTrip | apps/api/src/modules/dispatch/driver-assignment.projection.ts:17-54 | Whatever a hash shows is, or was, a trip of its driver |
| Projection.AssignmentProjection.ProjectCurrentRide | apps/api/src/modules/dispatch/driver-assignment.projection.ts:36-42 | Never creates a hash |
| Projection.AssignmentProjection.ClearCurrentRide | apps/api/src/modules/dispatch/driver-assignment.projection.ts:48-54 | Compare and delete |
| Projection.AssignmentProjection.Reconcile | apps/api/src/modules/dispatch/driver-assignment.projection.ts:109-149 | Uninterrupted, for any batches the scan returns, every present hash equals the guard table, and the counters count the changes |
| Sessions.AuthService.RenewSession | apps/api/src/modules/auth/auth.service.ts:126-186 | The statements of a refresh leave the specified table and outcome, or roll back |
| Sessions.AuthService.IssueSession | apps/api/src/modules/auth/auth.service.ts:251-272 | A new token, unless its digest exists |
| Sessions.AuthService.RevokePresented | apps/api/src/modules/auth/auth.service.ts:194-199 | Revokes only a live token |
| Sessions.AuthService.Revoke | apps/api/src/modules/auth/auth.service.ts:201-206 | Revokes only the user's own token |
| Sessions.RefreshAnswers | apps/api/src/modules/auth/auth.service.ts:126-186 | Renewed exactly if the token is known, unused and not over, its user may sign in and the digest is new; every other answer and what it revokes |
| Sessions.LoginCanBeRenewed | apps/api/src/modules/auth/auth.service.ts:126-186 | From any point of any run a fresh login renews within its thirty days |
| Sessions.OneLiveTokenPerFamily | apps/api/src/modules/auth/auth.service.ts:126-186 | A family has at most one unrevoked token |
| Sessions.FamilyIsOneChain | apps/api/src/modules/auth/auth.service.ts:126-186 | A family's tokens are one chain and only its end may be alive |
| Sessions.RenewalExtendsTheChain | apps/api/src/modules/auth/auth.service.ts:159-175 | A renewal uses up the end of the chain and puts the new token behind it |
| Sessions.EmptyStaysEmpty | apps/api/src/modules/auth/auth.service.ts:126-206 | A family without a live token stays so for the rest of the run |
| Sessions.UsedTokenIsRefused | apps/api/src/modules/auth/auth.service.ts:145-161 | A used token is refused for ever: after the grace that empties its family, within it nothing changes, and no other family is touched |
| Geohash.Geohash7 | apps/api/src/modules/pricing/pricing.service.ts:21-58 | The loop ends after 35 halvings with the seven letters of the point's cell |
| Geohash.AlphabetIsInOrder | apps/api/src/modules/pricing/pricing.service.ts:19-21 | The 32 letters of the geohash alphabet, in order |
| Geohash.StaysInside | apps/api/src/modules/pricing/pricing.service.ts:28-49 | The point stays inside the shrinking cell at every step |
| Geohash.AxisFindsTheCell | apps/api/src/modules/pricing/pricing.service.ts:30-49 | The search ends in cell i exactly when the point lies in the i-th of 2^k equal cells |
| Geohash.CellOfPoint | apps/api/src/modules/pricing/pricing.service.ts:21-58 | Columns are 360/2^18 degrees wide and rows 180/2^17 high |
| Geohash.EqualHashesAreOneCell | apps/api/src/modules/pricing/pricing.service.ts:50-57 | Two points hash alike if and only if they lie in one cell |
| Geohash.EqualHashesAreClose | apps/api/src/modules/pricing/pricing.service.ts:21-58 | Equal hashes bound the distance in latitude and longitude |
| Geohash.SharedPriceMeansCloseRoutes | apps/api/src/modules/pricing/pricing.service.ts:232-236 | Routes that share a cached price start close together and end close together |
| Fares.SeatFareBounds | apps/api/src/modules/pricing/pricing.service.ts:133-145 | A seat costs at least its multiplier of the solo fare and never more than that fare |
| Fares.SeatFareGrows | apps/api/src/modules/pricing/pricing.service.ts:133-145 | A longer pooled ride never costs less |
| Fares.LongDetourCostsSolo | apps/api/src/modules/pricing/pricing.service.ts:133-145 | A detour that uses up the discount costs exactly the solo fare |
| Fares.PlannedSeatIsQuoted | apps/api/src/modules/pricing/pricing.service.ts:174-201 | On any computed itinerary a rider is quoted for exactly the legs from own pickup to own dropoff, without reaching the ordering error |
| Fares.SoloFareIs | apps/api/src/modules/pricing/pricing.service.ts:122-126 | The nearest amount to a base plus so much for every kilometre and every minute |
| Fares.ShareOfDirectRide | apps/api/src/modules/pricing/pricing.service.ts:133-156 | Without a detour one rider pays the solo fare, two the second multiplier of it, more the third |
| Fares.DetourIsPaidInProportion | apps/api/src/modules/pricing/pricing.service.ts:133-145 | Below the cap a seat costs its multiplier of the solo fare in proportion to the distance driven |
| Fares.PayoutIsTheRest | apps/api/src/modules/pricing/pricing.service.ts:147-150 | The driver gets the sum less the commission on it, to the nearest amount |
| Fares.PayoutWithinFares | apps/api/src/modules/pricing/pricing.service.ts:147-150 | A payout never exceeds the sum of the fares |
| Fares.SumOf | apps/api/src/modules/pricing/money.ts:23-26 | The fold computes the sum |

## Left out

- Transactions are atomic and a rollback is no change: row locks, savepoints and the deadlock retries themselves are not modelled. That a refresh is atomic is an assumption.
- Database.Tables.ClaimKey: is one step here. The source uses three statements; each of their effects is the effect of such a step, taken at the time of that statement.
- Generated ids are fresh and never shared between rides and pools, as UUIDs are; UUID syntax checks and unknown event names are not modelled.
- `distance` is an arbitrary function of two points in place of haversine, and `real` stands for floating point. Currency tags and non-finite amounts are not modelled.
- Route scores, the geo index and discovery of pools and drivers are arbitrary inputs; accept and join re-check them.
- Of a shared-create response the model keeps the pool and the agreed fare, of a solo one the ride; whether a quote token or a pickup time is good is a parameter of `Bookings.CreateSolo`.
- A request's fingerprint is the four rounded coordinates it hashes, with the pickup time of a scheduled one; that SHA-256 tells different ones apart is an assumption.
- Legacy rows and jobs, jobs without a generation and unversioned events: current code writes none.
- Notifications, acknowledgements and logs after commit are not modelled, nor are the retries of a subscription in `ws.ts`, which decide when a snapshot is asked for but not what is shown.
- Reconciler.DispatchReconciler.Pass: assumes that the queue answers and that a finished job can be removed; the source logs a step that fails and leaves it to the next pass.
- Relay.OutboxRelay.Drain: is one uninterrupted drain; sharing of a drain in flight within a process and the kick timer are left out. Interleaved relays are the subject of `Outbox`.
- A pool's version counts the updates of its row; the number of triggers that fire per statement is not modelled beyond every change raising it.
- HTTP controllers other than the creates, validation, token signing, ratings, vehicles, metrics and the map: single-branch rules or plumbing.
