/** The transactional outbox: leases fenced by a token, publication, back-off, and re-arming. */
module Outbox {
  import opened Types

  type Token = nat

  datatype Lease = Lease(token: Token, until: Time)

  datatype Row = Row(
    attempts: nat,
    maxAttempts: nat,
    availableAt: Time,
    lease: Option<Lease>,
    processed: Option<Time>,
    failed: Option<Time>)

  type Rows = map<Intent, Row>

  const SECOND: int := 1_000
  const MAX_BACKOFF_S: nat := 300

  // ── single statements ─────────────────────────────────────────────────────

  predicate Pending(r: Row) {
    r.processed == None && r.failed == None
  }

  predicate Due(r: Row, now: Time) {
    Pending(r) && r.availableAt <= now && (r.lease == None || r.lease.value.until < now)
  }

  predicate PendingRow(rows: Rows, i: Intent) {
    i in rows && Pending(rows[i])
  }

  function Leased(r: Row, token: Token, until: Time): Row {
    r.(lease := Some(Lease(token, until)), attempts := r.attempts + 1)
  }

  function Power2(n: nat): nat {
    if n == 0 then 1 else 2 * Power2(n - 1)
  }

  /** `least(power(2, attempts), 300)` seconds. */
  function Backoff(attempts: nat): (ms: int)
    ensures SECOND <= ms <= MAX_BACKOFF_S * SECOND
  {
    PowerIsPositive(attempts);
    (if Power2(attempts) < MAX_BACKOFF_S then Power2(attempts) else MAX_BACKOFF_S) * SECOND
  }

  lemma PowerIsPositive(n: nat)
    ensures Power2(n) >= 1
  {
  }

  /** The fence on every statement after the lease. */
  predicate Fenced(rows: Rows, i: Intent, token: Token) {
    i in rows && rows[i].lease.Some? && rows[i].lease.value.token == token && Pending(rows[i])
  }

  function Enqueue(rows: Rows, i: Intent, maxAttempts: nat, availableAt: Time): Rows {
    if i in rows then rows else rows[i := Row(0, maxAttempts, availableAt, None, None, None)]
  }

  function LeaseRow(rows: Rows, i: Intent, token: Token, now: Time, leaseMs: nat): Rows {
    if i in rows && Due(rows[i], now) then rows[i := Leased(rows[i], token, now + leaseMs)] else rows
  }

  function Ack(rows: Rows, i: Intent, token: Token, now: Time): Rows {
    if Fenced(rows, i, token) then rows[i := rows[i].(processed := Some(now), lease := None)] else rows
  }

  predicate Exhausts(r: Row, permanent: bool) {
    permanent || r.attempts >= r.maxAttempts
  }

  function Fail(rows: Rows, i: Intent, token: Token, now: Time, permanent: bool): Rows {
    if Fenced(rows, i, token) then
      var r := rows[i];
      var failed := if Exhausts(r, permanent) then Some(now) else None;
      rows[i := r.(availableAt := now + Backoff(r.attempts), lease := None, failed := failed)]
    else rows
  }

  function Rearm(rows: Rows, i: Intent, now: Time): Rows {
    if i in rows && !Pending(rows[i])
    then rows[i := rows[i].(processed := None, failed := None, attempts := 0, availableAt := now, lease := None)]
      else rows
  }

  // ── relays, stalls and restarts: any step may follow any other ────────────

  /** Beside the table: which lease each token belongs to, the latest lease of each row, and the leases published
      under. */
  datatype State = State(rows: Rows, owner: map<Token, Intent>, latest: map<Intent, Token>, published: set<Token>)

  const Start := State(map[], map[], map[], {})

  datatype Step =
    | Insert(row: Intent, maxAttempts: nat, availableAt: Time)
    | TakeLease(row: Intent, token: Token, now: Time, leaseMs: nat)
    | Publish(token: Token)
    | Acknowledge(token: Token, now: Time)
    | RecordFailure(token: Token, now: Time, permanent: bool)
    | RearmRow(row: Intent, now: Time)

  /** A leased batch is a run of single leases. A relay acts on the row its token leased, and acks only what it
      published. */
  function Apply(s: State, step: Step): State {
    match step
    case Insert(i, maxAttempts, availableAt) =>
      // The column's check: at least one attempt.
      if maxAttempts < 1 then s else s.(rows := Enqueue(s.rows, i, maxAttempts, availableAt))
    case TakeLease(i, token, now, leaseMs) =>
      if i in s.rows && Due(s.rows[i], now) && token !in s.owner
      then State(LeaseRow(s.rows, i, token, now, leaseMs), s.owner[token := i], s.latest[i := token], s.published)
      else s
    case Publish(token) => if token in s.owner then s.(published := s.published + {token}) else s
    case Acknowledge(token, now) =>
      if token in s.owner && token in s.published then s.(rows := Ack(s.rows, s.owner[token], token, now)) else s
    case RecordFailure(token, now, permanent) =>
      if token in s.owner then s.(rows := Fail(s.rows, s.owner[token], token, now, permanent)) else s
    case RearmRow(i, now) => s.(rows := Rearm(s.rows, i, now))
  }

  /** A run: the steps taken and the states they lead through from an empty table. */
  datatype Log = Log(steps: seq<Step>, states: seq<State>)

  predicate StepAt(l: Log, i: nat)
    requires i < |l.steps| && |l.states| == |l.steps| + 1
  {
    l.states[i + 1] == Apply(l.states[i], l.steps[i])
  }

  ghost predicate IsLog(l: Log) {
    && |l.states| == |l.steps| + 1 && l.states[0] == Start
    && forall i :: 0 <= i < |l.steps| ==> StepAt(l, i)
  }

  // ── the invariant ─────────────────────────────────────────────────────────

  ghost predicate RowOk(s: State, i: Intent)
    requires i in s.rows
  {
    var r := s.rows[i];
    && !(r.processed.Some? && r.failed.Some?)
    && (!Pending(r) ==> r.lease == None)
    && r.maxAttempts >= 1
    && (Pending(r) && r.lease == None ==> r.attempts < r.maxAttempts)
    && (r.lease.Some? ==> i in s.latest && s.latest[i] == r.lease.value.token && r.attempts >= 1)
    && (r.processed.Some? ==> i in s.latest && s.latest[i] in s.published)
  }

  ghost predicate Inv(s: State) {
    && (forall i :: i in s.rows ==> RowOk(s, i))
    && (forall i :: i in s.latest ==> s.latest[i] in s.owner && s.owner[s.latest[i]] == i)
    && (forall t :: t in s.published ==> t in s.owner)
  }

  lemma StepKeeps(s: State, step: Step)
    requires Inv(s)
    ensures Inv(Apply(s, step))
    ensures forall t :: t in s.owner ==> t in Apply(s, step).owner && Apply(s, step).owner[t] == s.owner[t]
    ensures s.published <= Apply(s, step).published
    ensures forall i :: i in s.rows ==> i in Apply(s, step).rows
  {
    var v := Apply(s, step);
    forall i | i in v.rows ensures RowOk(v, i) {
      assert i in s.rows ==> RowOk(s, i);
    }
  }

  lemma {:induction false} LogKeeps(l: Log, n: nat)
    requires IsLog(l) && n < |l.states|
    ensures Inv(l.states[n])
  {
    if n > 0 {
      LogKeeps(l, n - 1);
      assert StepAt(l, n - 1);
      StepKeeps(l.states[n - 1], l.steps[n - 1]);
    }
  }

  // ── what that means for relays ────────────────────────────────────────────

  /** An ack or a failure has an effect only under the row's latest lease, and an ack only after a publication under
      it. */
  lemma OnlyTheLatestLeaseCounts(l: Log, n: nat, step: Step)
    requires IsLog(l) && n < |l.states| && (step.Acknowledge? || step.RecordFailure?)
    requires Apply(l.states[n], step) != l.states[n]
    ensures var s := l.states[n];
      && step.token in s.owner && var i := s.owner[step.token];
        && i in s.latest && s.latest[i] == step.token
        && (step.Acknowledge? ==> step.token in s.published)
  {
    LogKeeps(l, n);
    var s := l.states[n];
    assert s.owner[step.token] in s.rows ==> RowOk(s, s.owner[step.token]);
  }

  lemma ProcessedWasPublished(l: Log, n: nat, i: Intent)
    requires IsLog(l) && n < |l.states| && i in l.states[n].rows && l.states[n].rows[i].processed.Some?
    ensures var s := l.states[n];
      && i in s.latest && s.latest[i] in s.published && s.latest[i] in s.owner && s.owner[s.latest[i]] == i
      && s.rows[i].failed == None
  {
    LogKeeps(l, n);
    assert RowOk(l.states[n], i);
  }

  /** Re-arming takes no lease away, so the relay that holds it can still ack. */
  lemma RearmLeavesLeases(l: Log, n: nat, i: Intent, now: Time)
    requires IsLog(l) && n < |l.states| && i in l.states[n].rows && l.states[n].rows[i].lease.Some?
    ensures Rearm(l.states[n].rows, i, now) == l.states[n].rows
  {
    LogKeeps(l, n);
    assert RowOk(l.states[n], i);
  }

  predicate LatestIs(s: State, i: Intent, token: Token) {
    i in s.latest && s.latest[i] == token
  }

  /** The token was handed out, and another after it for the same row. */
  predicate Superseded(s: State, token: Token) {
    token in s.owner && !LatestIs(s, s.owner[token], token)
  }

  lemma SupersededStays(s: State, step: Step, token: Token)
    requires Superseded(s, token)
    ensures Superseded(Apply(s, step), token) && Apply(s, step).owner[token] == s.owner[token]
  {
  }

  lemma {:induction false} NeverLatestAgain(l: Log, m: nat, n: nat, token: Token)
    requires IsLog(l) && m <= n < |l.states| && Superseded(l.states[m], token)
    ensures Superseded(l.states[n], token) && l.states[n].owner[token] == l.states[m].owner[token]
    decreases n
  {
    if m < n {
      NeverLatestAgain(l, m, n - 1, token);
      assert StepAt(l, n - 1);
      SupersededStays(l.states[n - 1], l.steps[n - 1], token);
    }
  }

  /** A relay whose row was leased again is powerless from then on, however late it wakes up. */
  lemma SupersededIsPowerless(l: Log, m: nat, n: nat, step: Step)
    requires IsLog(l) && m <= n < |l.states| && (step.Acknowledge? || step.RecordFailure?)
    requires Superseded(l.states[m], step.token)
    ensures Apply(l.states[n], step) == l.states[n]
  {
    NeverLatestAgain(l, m, n, step.token);
    if Apply(l.states[n], step) != l.states[n] {
      OnlyTheLatestLeaseCounts(l, n, step);
    }
  }

  // ── retries ───────────────────────────────────────────────────────────────

  predicate Retries(s: State, step: Step, i: Intent) {
    && step.RecordFailure?
    && step.token in s.owner
    && s.owner[step.token] == i
    && Fenced(s.rows, i, step.token)
    && !Exhausts(s.rows[i], step.permanent)
  }

  predicate Rearms(s: State, step: Step, i: Intent) {
    step.RearmRow? && step.row == i && i in s.rows && !Pending(s.rows[i])
  }

  /** Failures that left the row to be tried again, since it was last re-armed. */
  function RetryCount(l: Log, n: nat, i: Intent): nat
    requires n <= |l.steps| < |l.states|
  {
    if n == 0 || Rearms(l.states[n - 1], l.steps[n - 1], i) then 0
    else RetryCount(l, n - 1, i) + (if Retries(l.states[n - 1], l.steps[n - 1], i) then 1 else 0)
  }

  /** A lease comes between any two failures of a row. */
  ghost predicate CountOk(s: State, i: Intent, count: nat) {
    if i !in s.rows then count == 0
    else
      && count + (if s.rows[i].lease.Some? then 1 else 0) <= s.rows[i].attempts
      && (count > 0 ==> count < s.rows[i].maxAttempts)
  }

  lemma CountStep(s: State, step: Step, i: Intent, count: nat)
    requires Inv(s) && CountOk(s, i, count)
    ensures CountOk(Apply(s, step), i, if Rearms(s, step, i) then 0 else count + (if Retries(s, step, i) then 1 else 0))
  {
    if i in s.rows {
      assert RowOk(s, i);
    }
  }

  lemma {:induction false} CountHolds(l: Log, n: nat, i: Intent)
    requires IsLog(l) && n < |l.states|
    ensures CountOk(l.states[n], i, RetryCount(l, n, i))
  {
    if n > 0 {
      CountHolds(l, n - 1, i);
      LogKeeps(l, n - 1);
      assert StepAt(l, n - 1);
      CountStep(l.states[n - 1], l.steps[n - 1], i, RetryCount(l, n - 1, i));
    }
  }

  /** A row is put back fewer than `max_attempts` times before it is exhausted or re-armed. */
  lemma RetriesAreBounded(l: Log, n: nat, i: Intent)
    requires IsLog(l) && n < |l.states| && i in l.states[n].rows
    ensures RetryCount(l, n, i) <= l.states[n].rows[i].attempts
    ensures RetryCount(l, n, i) > 0 ==> RetryCount(l, n, i) < l.states[n].rows[i].maxAttempts
  {
    CountHolds(l, n, i);
  }

  // ── attempts ──────────────────────────────────────────────────────────────

  /** The step takes over a lease that ran out, of a row that has used up its attempts: nobody recorded a failure. */
  predicate TakesOverSpent(s: State, step: Step, i: Intent) {
    && step.TakeLease? && step.row == i && step.token !in s.owner
    && i in s.rows && Due(s.rows[i], step.now) && s.rows[i].lease.Some?
    && s.rows[i].attempts >= s.rows[i].maxAttempts
  }

  predicate WithinAttempts(s: State, i: Intent) {
    i in s.rows ==> s.rows[i].attempts <= s.rows[i].maxAttempts
  }

  /** A row whose failures are all recorded stays within its attempts; a take-over of a spent one leaves it. */
  lemma AttemptsStep(s: State, step: Step, i: Intent)
    requires Inv(s) && WithinAttempts(s, i)
    ensures WithinAttempts(Apply(s, step), i) <==> !TakesOverSpent(s, step, i)
  {
    if i in s.rows {
      assert RowOk(s, i);
    }
  }

  /** Leasing never looks at the attempts. They stay within the maximum exactly as long as no spent row is taken
      over. */
  lemma {:induction false} AttemptsAreBoundedExactlyWhen(l: Log, n: nat, i: Intent)
    requires IsLog(l) && n < |l.states|
    ensures (forall k :: 0 <= k <= n ==> WithinAttempts(l.states[k], i))
      <==> (forall k :: 0 <= k < n ==> !TakesOverSpent(l.states[k], l.steps[k], i))
  {
    if n > 0 {
      AttemptsAreBoundedExactlyWhen(l, n - 1, i);
      LogKeeps(l, n - 1);
      assert StepAt(l, n - 1);
      if WithinAttempts(l.states[n - 1], i) {
        AttemptsStep(l.states[n - 1], l.steps[n - 1], i);
      }
      BoundedPrefix(l, n, i);
    }
  }

  lemma BoundedPrefix(l: Log, n: nat, i: Intent)
    requires 0 < n < |l.states|
    ensures (forall k :: 0 <= k <= n ==> WithinAttempts(l.states[k], i))
      <==> (forall k :: 0 <= k <= n - 1 ==> WithinAttempts(l.states[k], i)) && WithinAttempts(l.states[n], i)
  {
  }

  /** The log that takes one more step. */
  lemma Extend(l: Log, step: Step) returns (longer: Log)
    requires IsLog(l)
    ensures IsLog(longer) && longer.steps == l.steps + [step]
    ensures longer.states == l.states + [Apply(l.states[|l.steps|], step)]
  {
    longer := Log(l.steps + [step], l.states + [Apply(l.states[|l.steps|], step)]);
    forall k | 0 <= k < |longer.steps| ensures StepAt(longer, k) {
      assert k < |l.steps| ==> StepAt(l, k);
    }
  }

  /** The row with one attempt after `n` relays died holding its lease: still pending, never exhausted. */
  predicate ReLeased(s: State, i: Intent, n: nat, leaseMs: nat) {
    && i in s.rows && Pending(s.rows[i]) && s.rows[i].attempts == n && s.rows[i].maxAttempts == 1
    && s.rows[i].availableAt == 0
    && (s.rows[i].lease == if n == 0 then None else Some(Lease(n - 1, (n - 1) * (leaseMs + 1) + leaseMs)))
    && (forall t :: t in s.owner ==> t < n)
  }

  /** A row that keeps killing its relay is re-leased for ever: for every `n` there is a run that leases it `n`
      times. */
  lemma {:induction false} KilledForEver(i: Intent, n: nat, leaseMs: nat) returns (l: Log)
    ensures IsLog(l) && |l.steps| == n + 1 && l.steps[0] == Insert(i, 1, 0)
    ensures forall k :: 0 < k <= n ==> l.steps[k] == TakeLease(i, k - 1, (k - 1) * (leaseMs + 1), leaseMs)
    ensures ReLeased(l.states[n + 1], i, n, leaseMs)
  {
    if n == 0 {
      l := Extend(Log([], [Start]), Insert(i, 1, 0));
    } else {
      var before := KilledForEver(i, n - 1, leaseMs);
      var now := (n - 1) * (leaseMs + 1);
      LeaseRunsOut(n, leaseMs);
      LeasedAgain(before.states[n], i, n, now, leaseMs);
      l := Extend(before, TakeLease(i, n - 1, now, leaseMs));
    }
  }

  lemma LeaseRunsOut(n: nat, leaseMs: nat)
    requires n > 0
    ensures (n - 1) * (leaseMs + 1) >= 0
    ensures n > 1 ==> (n - 2) * (leaseMs + 1) + leaseMs < (n - 1) * (leaseMs + 1)
  {
    assert n > 1 ==> (n - 1) * (leaseMs + 1) == (n - 2) * (leaseMs + 1) + (leaseMs + 1);
  }

  lemma LeasedAgain(s: State, i: Intent, n: nat, now: Time, leaseMs: nat)
    requires n > 0 && ReLeased(s, i, n - 1, leaseMs) && now == (n - 1) * (leaseMs + 1) >= 0
    requires n > 1 ==> (n - 2) * (leaseMs + 1) + leaseMs < now
    ensures ReLeased(Apply(s, TakeLease(i, n - 1, now, leaseMs)), i, n, leaseMs)
  {
  }

  // ── what a relay can do ───────────────────────────────────────────────────

  /** A fresh token leases a row exactly if it waits, its time has come, and no earlier lease still runs. */
  lemma LeasedExactlyWhen(s: State, i: Intent, token: Token, now: Time, leaseMs: nat)
    requires i in s.rows && token !in s.owner
    ensures var v, r := Apply(s, TakeLease(i, token, now, leaseMs)), s.rows[i];
      if r.processed == None && r.failed == None && now >= r.availableAt
        && (r.lease.Some? ==> now > r.lease.value.until) then
        && v.rows == s.rows[i := r.(lease := Some(Lease(token, now + leaseMs)), attempts := r.attempts + 1)]
        && v.owner == s.owner[token := i] && v.latest == s.latest[i := token]
      else v == s
  {
  }

  /** A finished row that is re-armed is due at once, with all its attempts. */
  lemma RearmedIsDue(rows: Rows, i: Intent, now: Time)
    requires i in rows && (rows[i].processed.Some? || rows[i].failed.Some?)
    ensures i in Rearm(rows, i, now) && Due(Rearm(rows, i, now)[i], now) && Rearm(rows, i, now)[i].attempts == 0
    ensures Rearm(rows, i, now)[i].maxAttempts == rows[i].maxAttempts
    ensures forall j :: j in rows && j != i ==> j in Rearm(rows, i, now) && Rearm(rows, i, now)[j] == rows[j]
  {
  }

  /** Each failure doubles the wait, up to five minutes. */
  lemma BackoffDoubles(n: nat)
    ensures Backoff(0) == 1_000
    ensures Backoff(n + 1) == if 2 * Backoff(n) < 300_000 then 2 * Backoff(n) else 300_000
  {
  }

  /** From any point of any run, a relay that finds a row due publishes it and is done with it in three steps. */
  lemma DueRowCanBeProcessed(l: Log, i: Intent, token: Token, now: Time, leaseMs: nat) returns (after: Log)
    requires IsLog(l) && token !in l.states[|l.steps|].owner
    requires i in l.states[|l.steps|].rows && Due(l.states[|l.steps|].rows[i], now)
    ensures IsLog(after)
    ensures after.steps == l.steps + [TakeLease(i, token, now, leaseMs), Publish(token), Acknowledge(token, now)]
    ensures var rows := after.states[|after.steps|].rows;
      i in rows && rows[i].processed == Some(now) && rows[i].failed == None && rows[i].lease == None
  {
    after := Extend(l, TakeLease(i, token, now, leaseMs));
    after := Extend(after, Publish(token));
    after := Extend(after, Acknowledge(token, now));
  }

  /** A failure under the lease puts the row back for later, or ends it when it says so itself or was the last
      attempt. */
  lemma FailedExactlyWhen(rows: Rows, i: Intent, token: Token, now: Time, permanent: bool)
    ensures var after := Fail(rows, i, token, now, permanent);
      if i in rows && rows[i].processed == None && rows[i].failed == None && rows[i].lease.Some?
        && rows[i].lease.value.token == token
      then
        && after.Keys == rows.Keys && (forall j :: j in rows && j != i ==> after[j] == rows[j])
        && after[i] == rows[i].(lease := None, availableAt := after[i].availableAt, failed := after[i].failed)
        && after[i].availableAt == now + Backoff(rows[i].attempts)
        && (after[i].failed == None <==> !permanent && rows[i].attempts < rows[i].maxAttempts)
        && (after[i].failed.Some? ==> after[i].failed == Some(now))
      else after == rows
  {
  }
}
