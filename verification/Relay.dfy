/** The outbox table as the relay and the reconciler use it, the job queue, and one drain. */
module Relay {
  import opened Types
  import opened Outbox

  // ── the queue ─────────────────────────────────────────────────────────────

  /** Job ids are deterministic; trip ids are never reused across kinds, so a trip stands for its id. */
  datatype JobId =
    | StartJob(trip: TripRef, generation: nat)
    | Wave2Job(trip: TripRef, generation: nat)
    | HardFailJob(trip: TripRef, generation: nat)
    | WakeJob(ride: Id, generation: nat)
    | ExpireJob(pool: Id)

  /** Live: it will run at `due`, or is running. A finished job still occupies its id. */
  datatype JobState = Live(due: Time) | Finished

  type Jobs = map<JobId, JobState>

  predicate LiveJob(jobs: Jobs, id: JobId) {
    id in jobs && jobs[id].Live?
  }

  /** How long wave 1 and the whole window last. Scheduled rides run on a longer one. */
  datatype Window = Window(waveOneMs: nat, hardFailMs: nat)

  function Max(a: int, b: int): int {
    if a < b then b else a
  }

  /** The job a row is published as. */
  function JobFor(i: Intent): JobId {
    match i.topic
    case RideDispatch => StartJob(Solo(i.aggregate), i.generation)
    case PoolDispatch => StartJob(Shared(i.aggregate), i.generation)
    case RideWake => WakeJob(i.aggregate, i.generation)
    case PoolExpire => ExpireJob(i.aggregate)
  }

  class Queue {
    var jobs: Jobs

    constructor ()
      ensures jobs == map[]
    {
      jobs := map[];
    }

    /** An id in use makes this a silent no-op. */
    method Add(id: JobId, due: Time) returns (added: bool)
      modifies this
      ensures jobs == if id in old(jobs) then old(jobs) else old(jobs)[id := Live(due)]
      ensures added <==> id !in old(jobs)
    {
      added := id !in jobs;
      if added {
        jobs := jobs[id := Live(due)];
      }
    }

    method RemoveFinished(id: JobId)
      modifies this
      ensures jobs == if LiveJob(old(jobs), id) then old(jobs) else old(jobs) - {id}
    {
      if !LiveJob(jobs, id) {
        jobs := jobs - {id};
      }
    }
  }

  // ── the table ─────────────────────────────────────────────────────────────

  datatype LeasedRow = LeasedRow(intent: Intent, token: Token)

  datatype FailOutcome = Retry | Exhausted | LostLease

  /** The table after each of these rows was leased. */
  function LeaseAll(rows: Rows, leased: seq<LeasedRow>, now: Time, leaseMs: nat): Rows {
    if leased == [] then rows
    else
      var last := leased[|leased| - 1];
      LeaseRow(LeaseAll(rows, leased[..|leased| - 1], now, leaseMs), last.intent, last.token, now, leaseMs)
  }

  ghost predicate DistinctRows(leased: seq<LeasedRow>) {
    forall a, b :: 0 <= a < b < |leased| ==> leased[a].intent != leased[b].intent
  }

  /** A batch: due rows, earliest first, none that another transaction holds, and fewer than the limit only when
      there are no more. */
  ghost predicate IsBatch(rows: Rows, leased: seq<LeasedRow>, limit: nat, now: Time, locked: set<Intent>) {
    && |leased| <= limit && DistinctRows(leased)
    && (forall k :: 0 <= k < |leased| ==>
         leased[k].intent in rows && Due(rows[leased[k].intent], now) && leased[k].intent !in locked)
    && (forall k, i :: 0 <= k < |leased| && LeftOut(rows, leased, now, locked, i) ==>
         rows[leased[k].intent].availableAt <= rows[i].availableAt)
    && (|leased| < limit ==> forall i :: !LeftOut(rows, leased, now, locked, i))
  }

  predicate LeftOut(rows: Rows, leased: seq<LeasedRow>, now: Time, locked: set<Intent>, i: Intent) {
    i in rows && Due(rows[i], now) && i !in locked && forall k :: 0 <= k < |leased| ==> leased[k].intent != i
  }

  /** Which rows a batch leased, and how. */
  ghost predicate LeasedOnly(rows: Rows, after: Rows, leased: seq<LeasedRow>, until: Time) {
    && after.Keys == rows.Keys
    && (forall i :: i in rows && (forall k :: 0 <= k < |leased| ==> leased[k].intent != i) ==> after[i] == rows[i])
    && (forall k :: 0 <= k < |leased| ==>
         leased[k].intent in rows && after[leased[k].intent] == Leased(rows[leased[k].intent], leased[k].token, until))
  }

  lemma {:induction false} LeaseAllIs(rows: Rows, leased: seq<LeasedRow>, now: Time, leaseMs: nat)
    requires DistinctRows(leased)
    requires forall k :: 0 <= k < |leased| ==> leased[k].intent in rows && Due(rows[leased[k].intent], now)
    ensures LeasedOnly(rows, LeaseAll(rows, leased, now, leaseMs), leased, now + leaseMs)
  {
    if leased != [] {
      var before, last := leased[..|leased| - 1], leased[|leased| - 1];
      assert leased == before + [last];
      LeaseAllIs(rows, before, now, leaseMs);
      LeaseOneMore(rows, LeaseAll(rows, before, now, leaseMs), before, last, now, leaseMs);
    }
  }

  ghost predicate AllFenced(rows: Rows, leased: seq<LeasedRow>) {
    forall k :: 0 <= k < |leased| ==> Fenced(rows, leased[k].intent, leased[k].token)
  }

  lemma LeasedAreFenced(rows: Rows, leased: seq<LeasedRow>, now: Time, leaseMs: nat)
    requires DistinctRows(leased)
    requires forall k :: 0 <= k < |leased| ==> leased[k].intent in rows && Due(rows[leased[k].intent], now)
    ensures AllFenced(LeaseAll(rows, leased, now, leaseMs), leased)
  {
    LeaseAllIs(rows, leased, now, leaseMs);
  }

  lemma LeaseOneMore(rows: Rows, mid: Rows, before: seq<LeasedRow>, last: LeasedRow, now: Time, leaseMs: nat)
    requires LeasedOnly(rows, mid, before, now + leaseMs) && DistinctRows(before + [last])
    requires last.intent in rows && Due(rows[last.intent], now)
    ensures LeasedOnly(rows, LeaseRow(mid, last.intent, last.token, now, leaseMs), before + [last], now + leaseMs)
  {
    var leased := before + [last];
    assert forall k :: 0 <= k < |before| ==> leased[k] == before[k] && leased[k].intent != leased[|before|].intent;
    assert mid[last.intent] == rows[last.intent];
    forall i | i in rows && (forall k :: 0 <= k < |leased| ==> leased[k].intent != i)
      ensures LeaseRow(mid, last.intent, last.token, now, leaseMs)[i] == rows[i]
    {
      assert leased[|before|].intent != i;
    }
  }

  class OutboxTable {
    var rows: Rows

    constructor ()
      ensures rows == map[]
    {
      rows := map[];
    }

    method Insert(i: Intent, maxAttempts: nat, availableAt: Time) returns (created: bool)
      modifies this
      ensures rows == Enqueue(old(rows), i, maxAttempts, availableAt) && (created <==> i !in old(rows))
    {
      created := i !in rows;
      if created {
        rows := rows[i := Row(0, maxAttempts, availableAt, None, None, None)];
      }
    }

    method EarliestOf(due: set<Intent>) returns (best: Intent)
      requires due != {} && due <= rows.Keys
      ensures best in due && forall i :: i in due ==> rows[best].availableAt <= rows[i].availableAt
    {
      best :| best in due;
      var rest := due - {best};
      while rest != {}
        invariant rest <= due && best in due
        invariant forall i :: i in due && i !in rest ==> rows[best].availableAt <= rows[i].availableAt
        decreases |rest|
      {
        var i :| i in rest;
        if rows[i].availableAt < rows[best].availableAt {
          best := i;
        }
        rest := rest - {i};
      }
    }

    static predicate NoLater(rows: Rows, a: Intent, b: Intent) {
      a in rows && b in rows && rows[a].availableAt <= rows[b].availableAt
    }

    /** Rows that may still be chosen, against those already in the batch. */
    ghost predicate Choosing(all: set<Intent>, due: set<Intent>, leased: seq<LeasedRow>, tokens: seq<Token>)
      requires all <= rows.Keys
      reads this
    {
      && due <= all && DistinctRows(leased) && |leased| <= |tokens|
      && (forall k :: 0 <= k < |leased| ==>
           leased[k].intent in all && leased[k].intent !in due && leased[k].token == tokens[k])
      && (forall i :: i in all && i !in due ==> exists k :: 0 <= k < |leased| && leased[k].intent == i)
      && (forall k, i :: 0 <= k < |leased| && i in due ==> NoLater(rows, leased[k].intent, i))
    }

    lemma ChooseOne(all: set<Intent>, due: set<Intent>, leased: seq<LeasedRow>, tokens: seq<Token>, best: Intent)
      requires all <= rows.Keys && Choosing(all, due, leased, tokens) && |leased| < |tokens|
      requires best in due && forall i :: i in due ==> rows[best].availableAt <= rows[i].availableAt
      ensures Choosing(all, due - {best}, leased + [LeasedRow(best, tokens[|leased|])], tokens)
    {
      var more := leased + [LeasedRow(best, tokens[|leased|])];
      forall i | i in all && i !in due - {best} ensures exists k :: 0 <= k < |more| && more[k].intent == i {
        if i == best {
          assert more[|leased|].intent == i;
        } else {
          var k :| 0 <= k < |leased| && leased[k].intent == i;
          assert more[k].intent == i;
        }
      }
    }

    /** `ORDER BY available_at LIMIT … FOR UPDATE SKIP LOCKED`, each row under a token of its own. */
    method TakeBatch(limit: nat, leaseMs: nat, now: Time, tokens: seq<Token>, locked: set<Intent>)
      returns (leased: seq<LeasedRow>)
      requires |tokens| == limit
      modifies this
      ensures IsBatch(old(rows), leased, limit, now, locked)
      ensures rows == LeaseAll(old(rows), leased, now, leaseMs)
      ensures forall k :: 0 <= k < |leased| ==> leased[k].token == tokens[k]
    {
      var due := set i | i in rows && Due(rows[i], now) && i !in locked;
      ghost var all := due;
      leased := [];
      while |leased| < limit && due != {}
        invariant rows == old(rows) && all <= rows.Keys && Choosing(all, due, leased, tokens)
        decreases |due|
      {
        var best := EarliestOf(due);
        ChooseOne(all, due, leased, tokens, best);
        leased := leased + [LeasedRow(best, tokens[|leased|])];
        due := due - {best};
      }
      ChosenIsBatch(all, due, leased, tokens, limit, now, locked);
      LeaseEach(leased, now, leaseMs);
    }

    lemma ChosenIsBatch(all: set<Intent>, due: set<Intent>, leased: seq<LeasedRow>, tokens: seq<Token>, limit: nat,
                        now: Time, locked: set<Intent>)
      requires all <= rows.Keys && Choosing(all, due, leased, tokens) && |tokens| == limit
      requires all == set i | i in rows && Due(rows[i], now) && i !in locked
      requires |leased| < limit ==> due == {}
      ensures IsBatch(rows, leased, limit, now, locked)
    {
      assert forall i :: LeftOut(rows, leased, now, locked, i) ==> i in all && i in due;
    }

    method LeaseEach(leased: seq<LeasedRow>, now: Time, leaseMs: nat)
      modifies this
      ensures rows == LeaseAll(old(rows), leased, now, leaseMs)
    {
      for k := 0 to |leased|
        invariant rows == LeaseAll(old(rows), leased[..k], now, leaseMs)
      {
        var i, token := leased[k].intent, leased[k].token;
        assert leased[..k + 1][..k] == leased[..k];
        if i in rows && Due(rows[i], now) {
          rows := rows[i := rows[i].(lease := Some(Lease(token, now + leaseMs)), attempts := rows[i].attempts + 1)];
        }
      }
      assert leased[..|leased|] == leased;
    }

    /** False: the lease was lost. */
    method Acknowledge(i: Intent, token: Token, now: Time) returns (acked: bool)
      modifies this
      ensures rows == Ack(old(rows), i, token, now) && (acked <==> Fenced(old(rows), i, token))
    {
      acked := Fenced(rows, i, token);
      if acked {
        rows := rows[i := rows[i].(processed := Some(now), lease := None)];
      }
    }

    method RecordFailure(i: Intent, token: Token, now: Time, permanent: bool) returns (outcome: FailOutcome)
      modifies this
      ensures rows == Fail(old(rows), i, token, now, permanent)
      ensures outcome ==
        if !Fenced(old(rows), i, token) then LostLease
        else if Exhausts(old(rows)[i], permanent) then Exhausted
        else Retry
    {
      if !Fenced(rows, i, token) {
        return LostLease;
      }
      var r := rows[i];
      var failed := if permanent || r.attempts >= r.maxAttempts then Some(now) else None;
      rows := rows[i := r.(availableAt := now + Backoff(r.attempts), lease := None, failed := failed)];
      outcome := if failed == None then Retry else Exhausted;
    }

    /** True: the row exists afterwards, and is pending. */
    method RearmRow(i: Intent, now: Time) returns (found: bool)
      modifies this
      ensures rows == Rearm(old(rows), i, now) && (found <==> i in rows)
      ensures found ==> Pending(rows[i])
    {
      found := i in rows;
      if found && !Pending(rows[i]) {
        rows := rows[i := rows[i].(processed := None, failed := None, attempts := 0, availableAt := now,
                                   lease := None)];
      }
    }
  }

  // ── the relay ─────────────────────────────────────────────────────────────

  datatype Publication = Published(due: Time) | Refused(permanent: bool)

  /** What a drain leaves of a row it leased. `recorded`: the statement after the publication reached the database. */
  ghost predicate Settled(leased: Row, after: Row, p: Publication, recorded: bool, now: Time) {
    if !recorded then after == leased
    else match p
      case Published(_) => after == leased.(processed := Some(now), lease := None)
      case Refused(permanent) =>
        && after == leased.(availableAt := after.availableAt, lease := None, failed := after.failed)
        && now + SECOND <= after.availableAt <= now + MAX_BACKOFF_S * SECOND
        && (after.failed == if Exhausts(leased, permanent) then Some(now) else None)
  }

  /** The queue after a drain: every published row has its job, a new one if its id was free, and nothing else is
      new. */
  ghost predicate JobsPublished(jobs: Jobs, after: Jobs, leased: seq<LeasedRow>, n: nat, publish: Intent -> Publication)
    requires n <= |leased|
  {
    && (forall j :: j in jobs ==> j in after && after[j] == jobs[j])
    && (forall j :: j in after && j !in jobs ==> after[j].Live? && PublishedAs(leased, n, publish, j))
    && (forall k :: 0 <= k < n && publish(leased[k].intent).Published? ==> JobFor(leased[k].intent) in after)
  }

  predicate PublishedAs(leased: seq<LeasedRow>, n: nat, publish: Intent -> Publication, j: JobId)
    requires n <= |leased|
  {
    exists k :: 0 <= k < n && publish(leased[k].intent).Published? && JobFor(leased[k].intent) == j
  }

  lemma PublishOne(jobs: Jobs, before: Jobs, after: Jobs, leased: seq<LeasedRow>, n: nat,
                   publish: Intent -> Publication)
    requires n < |leased| && JobsPublished(jobs, before, leased, n, publish)
    requires var p, j := publish(leased[n].intent), JobFor(leased[n].intent);
      after == if p.Published? && j !in before then before[j := Live(p.due)] else before
    ensures JobsPublished(jobs, after, leased, n + 1, publish)
  {
    forall j | j in after && j !in jobs ensures after[j].Live? && PublishedAs(leased, n + 1, publish, j) {
      if j in before {
        assert PublishedAs(leased, n, publish, j);
      }
    }
  }

  class OutboxRelay {
    const table: OutboxTable
    const queue: Queue

    constructor (t: OutboxTable, q: Queue)
      ensures table == t && queue == q
    {
      table, queue := t, q;
    }

    /** What became of the first `n` rows of a batch. */
    ghost predicate BatchSettled(rows: Rows, after: Rows, leased: seq<LeasedRow>, n: nat,
                                 publish: Intent -> Publication, recorded: Intent -> bool, now: Time)
      requires n <= |leased|
    {
      && after.Keys == rows.Keys
      && (forall i :: i in rows && (forall k :: 0 <= k < n ==> leased[k].intent != i) ==> after[i] == rows[i])
      && (forall k :: 0 <= k < n ==>
            var i := leased[k].intent; i in rows && Settled(rows[i], after[i], publish(i), recorded(i), now))
    }

    method SettleRow(row: LeasedRow, publication: Publication, recorded: bool, now: Time) returns (published: bool)
      requires row.intent in table.rows && Fenced(table.rows, row.intent, row.token)
      modifies table, queue
      ensures published <==> publication.Published?
      ensures row.intent in table.rows && table.rows == old(table.rows)[row.intent := table.rows[row.intent]]
      ensures Settled(old(table.rows)[row.intent], table.rows[row.intent], publication, recorded, now)
      ensures queue.jobs ==
        if published && JobFor(row.intent) !in old(queue.jobs)
          then old(queue.jobs)[JobFor(row.intent) := Live(publication.due)] else old(queue.jobs)
    {
      published := publication.Published?;
      match publication {
        case Published(due) =>
          var _ := queue.Add(JobFor(row.intent), due);
          if recorded {
            var _ := table.Acknowledge(row.intent, row.token, now);
          }
        case Refused(permanent) =>
          if recorded {
            var _ := table.RecordFailure(row.intent, row.token, now, permanent);
          }
      }
    }

    /** The next row of a batch. */
    method SettleNext(ghost rows: Rows, ghost jobs: Jobs, leased: seq<LeasedRow>, n: nat,
                      publish: Intent -> Publication, recorded: Intent -> bool, now: Time)
      returns (published: bool)
      requires n < |leased| && DistinctRows(leased)
      requires AllFenced(rows, leased)
      requires BatchSettled(rows, table.rows, leased, n, publish, recorded, now)
      requires JobsPublished(jobs, queue.jobs, leased, n, publish)
      modifies table, queue
      ensures BatchSettled(rows, table.rows, leased, n + 1, publish, recorded, now)
      ensures JobsPublished(jobs, queue.jobs, leased, n + 1, publish)
    {
      ghost var before, queued := table.rows, queue.jobs;
      StillFenced(rows, before, leased, n, publish, recorded, now);
      published := SettleRow(leased[n], publish(leased[n].intent), recorded(leased[n].intent), now);
      SettleOne(rows, before, table.rows, leased, n, publish, recorded, now);
      PublishOne(jobs, queued, queue.jobs, leased, n, publish);
    }

    /** A row keeps its lease until its turn comes. */
    lemma StillFenced(rows: Rows, before: Rows, leased: seq<LeasedRow>, n: nat, publish: Intent -> Publication,
                      recorded: Intent -> bool, now: Time)
      requires n < |leased| && DistinctRows(leased) && BatchSettled(rows, before, leased, n, publish, recorded, now)
      requires Fenced(rows, leased[n].intent, leased[n].token)
      ensures Fenced(before, leased[n].intent, leased[n].token)
    {
    }

    /** One pass: lease a batch, publish each row with no lock held, then ack or fail it under its lease. */
    method Drain(limit: nat, leaseMs: nat, now: Time, tokens: seq<Token>, locked: set<Intent>,
                 publish: Intent -> Publication, recorded: Intent -> bool)
      returns (published: nat, failed: nat, ghost batch: seq<LeasedRow>)
      requires |tokens| == limit
      modifies table, queue
      ensures IsBatch(old(table.rows), batch, limit, now, locked) && published + failed == |batch|
      ensures BatchSettled(LeaseAll(old(table.rows), batch, now, leaseMs), table.rows, batch, |batch|, publish,
                           recorded, now)
      ensures JobsPublished(old(queue.jobs), queue.jobs, batch, |batch|, publish)
    {
      var leased := table.TakeBatch(limit, leaseMs, now, tokens, locked);
      batch := leased;
      ghost var rows := table.rows;
      LeasedAreFenced(old(table.rows), leased, now, leaseMs);
      published, failed := 0, 0;
      for n := 0 to |leased|
        invariant published + failed == n
        invariant BatchSettled(rows, table.rows, leased, n, publish, recorded, now)
        invariant JobsPublished(old(queue.jobs), queue.jobs, leased, n, publish)
      {
        var done := SettleNext(rows, old(queue.jobs), leased, n, publish, recorded, now);
        if done {
          published := published + 1;
        } else {
          failed := failed + 1;
        }
      }
    }

    lemma SettleOne(rows: Rows, before: Rows, after: Rows, leased: seq<LeasedRow>, n: nat,
                    publish: Intent -> Publication, recorded: Intent -> bool, now: Time)
      requires n < |leased| && DistinctRows(leased) && BatchSettled(rows, before, leased, n, publish, recorded, now)
      requires var i := leased[n].intent;
        && i in before
        && i in after
        && after == before[i := after[i]]
        && Settled(before[i], after[i], publish(i), recorded(i), now)
      ensures BatchSettled(rows, after, leased, n + 1, publish, recorded, now)
    {
    }
  }

  /** After an uninterrupted drain every row of the batch is published and done, or waits out its back-off, or is
      exhausted. */
  lemma DrainedRowIsSettled(rows: Rows, batch: seq<LeasedRow>, k: nat, leaseMs: nat, now: Time, p: Publication,
                            after: Row)
    requires DistinctRows(batch) && k < |batch|
    requires forall j :: 0 <= j < |batch| ==> batch[j].intent in rows && Due(rows[batch[j].intent], now)
    requires batch[k].intent in LeaseAll(rows, batch, now, leaseMs)
    requires Settled(LeaseAll(rows, batch, now, leaseMs)[batch[k].intent], after, p, true, now)
    ensures after.lease == None && after.attempts == rows[batch[k].intent].attempts + 1
    ensures if p.Published? then after.processed == Some(now)
      else if p.permanent || after.attempts >= after.maxAttempts then after.failed == Some(now)
      else Pending(after) && !Due(after, now)
  {
    LeaseAllIs(rows, batch, now, leaseMs);
  }
}
