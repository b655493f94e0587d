/** The client's version gate, and what a client shows for any delivery of the server's versioned messages. */
module Views {
  import opened Types
  import opened Protocol
  import opened Invariants
  import T = Trips
  import P = Pools
  import opened Runs
  import ScheduleResults

  // ── the gate ──────────────────────────────────────────────────────────────

  /** `applied` is None before anything was applied, the source's negative infinity. */
  datatype Gate = Gate(followed: Option<Id>, applied: Option<nat>)

  predicate TakesSnapshot(g: Gate, id: Id, version: nat) {
    g.followed == Some(id) && (g.applied == None || version >= g.applied.value)
  }

  /** An event without a version cannot be ordered and is passed through. */
  predicate TakesEvent(g: Gate, id: Id, version: Option<nat>) {
    g.followed == Some(id) && (version == None || g.applied == None || version.value > g.applied.value)
  }

  class VersionGate {
    var followed: Option<Id>
    var applied: Option<nat>

    function View(): Gate reads this {
      Gate(followed, applied)
    }

    constructor ()
      ensures View() == Gate(None, None)
    {
      followed, applied := None, None;
    }

    method Follow(id: Id)
      modifies this
      ensures View() == if old(followed) == Some(id) then old(View()) else Gate(Some(id), None)
    {
      if followed != Some(id) {
        followed, applied := Some(id), None;
      }
    }

    method Snapshot(id: Id, version: nat) returns (taken: bool)
      modifies this
      ensures taken <==> TakesSnapshot(old(View()), id, version)
      ensures View() == if taken then Gate(Some(id), Some(version)) else old(View())
    {
      if followed != Some(id) || (applied != None && version < applied.value) {
        return false;
      }
      applied := Some(version);
      taken := true;
    }

    method Event(id: Id, version: Option<nat>) returns (taken: bool)
      modifies this
      ensures taken <==> TakesEvent(old(View()), id, version)
      ensures View() == if taken && version != None then Gate(Some(id), version) else old(View())
    {
      if followed != Some(id) {
        return false;
      }
      if version == None {
        return true;
      }
      if applied != None && version.value <= applied.value {
        return false;
      }
      applied := version;
      taken := true;
    }
  }

  /** Nothing of another aggregate, and nothing older than what was applied. Of the version already applied a
      snapshot is taken again and an event is not; an event without a version always is. */
  lemma GateAdmits(g: Gate, id: Id, version: nat)
    ensures g.followed != Some(id) ==>
      !TakesSnapshot(g, id, version) && !TakesEvent(g, id, Some(version)) && !TakesEvent(g, id, None)
    ensures g.followed == Some(id) ==> TakesEvent(g, id, None)
    ensures g.followed == Some(id) && g.applied == None ==>
      TakesSnapshot(g, id, version) && TakesEvent(g, id, Some(version))
    ensures g.followed == Some(id) && g.applied.Some? && version < g.applied.value ==>
      !TakesSnapshot(g, id, version) && !TakesEvent(g, id, Some(version))
    ensures g.followed == Some(id) && g.applied == Some(version) ==>
      TakesSnapshot(g, id, version) && !TakesEvent(g, id, Some(version))
    ensures g.followed == Some(id) && g.applied.Some? && version > g.applied.value ==>
      TakesSnapshot(g, id, version) && TakesEvent(g, id, Some(version))
  {
  }

  // ── what reaches the application ──────────────────────────────────────────

  datatype Message<T> = Message(id: Id, version: nat, body: T, snapshot: bool)

  datatype Client<T> = Client(gate: Gate, shown: Option<T>)

  function Deliver<T>(c: Client<T>, m: Message<T>): Client<T> {
    if (if m.snapshot then TakesSnapshot(c.gate, m.id, m.version) else TakesEvent(c.gate, m.id, Some(m.version)))
    then Client(Gate(Some(m.id), Some(m.version)), Some(m.body)) else c
  }

  /** The client after it followed `id` and received these messages, in this order. */
  function Receive<T>(id: Id, messages: seq<Message<T>>): Client<T> {
    if messages == [] then Client(Gate(Some(id), None), None)
    else Deliver(Receive(id, messages[..|messages| - 1]), messages[|messages| - 1])
  }

  /** The socket handlers of one aggregate. */
  class Subscription<T(0)> {
    const gate: VersionGate
    var shown: Option<T>

    function View(): Client<T> reads this, gate {
      Client(gate.View(), shown)
    }

    constructor ()
      ensures fresh(gate) && View() == Client(Gate(None, None), None)
    {
      gate := new VersionGate();
      shown := None;
    }

    method Follow(id: Id)
      modifies this, gate
      ensures View() == if old(gate.followed) == Some(id) then old(View()) else Receive(id, [])
    {
      if gate.followed != Some(id) {
        shown := None;
      }
      gate.Follow(id);
    }

    method On(m: Message<T>)
      modifies this, gate
      ensures View() == Deliver(old(View()), m)
    {
      var taken;
      if m.snapshot {
        taken := gate.Snapshot(m.id, m.version);
      } else {
        taken := gate.Event(m.id, Some(m.version));
      }
      if taken {
        shown := Some(m.body);
      }
    }
  }

  /** The client shows one of the messages it received about its aggregate, and none of those had a higher version. */
  ghost predicate ShowsNewest<T>(id: Id, messages: seq<Message<T>>, c: Client<T>) {
    && c.gate.followed == Some(id)
    && (forall k :: 0 <= k < |messages| && messages[k].id == id ==>
         c.gate.applied.Some? && messages[k].version <= c.gate.applied.value)
    && (c.gate.applied.Some? <==> c.shown.Some?)
    && (c.shown.Some? ==> exists k :: 0 <= k < |messages| && Shows(id, messages[k], c))
  }

  ghost predicate Shows<T>(id: Id, m: Message<T>, c: Client<T>) {
    m.id == id && c.gate.applied == Some(m.version) && c.shown == Some(m.body)
  }

  /** Whatever is lost, repeated or reordered. */
  lemma {:induction false} NewestIsShown<T>(id: Id, messages: seq<Message<T>>)
    ensures ShowsNewest(id, messages, Receive(id, messages))
  {
    if messages != [] {
      var before, m := messages[..|messages| - 1], messages[|messages| - 1];
      NewestIsShown(id, before);
      var c, d := Receive(id, before), Receive(id, messages);
      if d == c {
        if c.shown.Some? {
          var k :| 0 <= k < |before| && Shows(id, before[k], c);
          assert Shows(id, messages[k], d);
        }
      } else {
        assert Shows(id, messages[|messages| - 1], d);
      }
    }
  }

  /** It never goes back. */
  lemma {:induction false} NeverGoesBack<T>(id: Id, messages: seq<Message<T>>, n: nat)
    requires n <= |messages| && Receive(id, messages[..n]).gate.applied.Some?
    ensures Receive(id, messages).gate.applied.Some?
    ensures Receive(id, messages[..n]).gate.applied.value <= Receive(id, messages).gate.applied.value
    decreases |messages|
  {
    if n == |messages| {
      assert messages[..n] == messages;
    } else {
      assert messages[..|messages| - 1][..n] == messages[..n];
      NeverGoesBack(id, messages[..|messages| - 1], n);
    }
  }

  // ── what the server has committed ─────────────────────────────────────────

  datatype Seen<T> = Seen(version: nat, body: T)

  /** One aggregate at every point of a run so far, None before it exists. */
  type Feed<T> = seq<Option<Seen<T>>>

  /** Versions only rise, and a version stands for one state. */
  ghost predicate Ordered<T>(feed: Feed<T>) {
    forall i, j :: 0 <= i <= j < |feed| && feed[i].Some? ==>
      && feed[j].Some?
      && feed[i].value.version <= feed[j].value.version
      && (feed[i].value.version == feed[j].value.version ==> feed[i] == feed[j])
  }

  /** The message tells of the aggregate as committed at point `k`. */
  ghost predicate Tells<T>(feed: Feed<T>, m: Message<T>, k: nat) {
    k < |feed| && feed[k] == Some(Seen(m.version, m.body))
  }

  ghost predicate Truthful<T>(feed: Feed<T>, m: Message<T>) {
    exists k: nat :: Tells(feed, m, k)
  }

  /** Every message about the aggregate tells of some point of it. Those about others may say anything. */
  ghost predicate FromFeed<T>(feed: Feed<T>, id: Id, messages: seq<Message<T>>) {
    forall m :: m in messages && m.id == id ==> Truthful(feed, m)
  }

  /** What the client shows, under its version, is what was committed at point `k`. */
  ghost predicate ShowsPoint<T>(feed: Feed<T>, c: Client<T>, k: nat) {
    k < |feed| && c.shown.Some? && c.gate.applied.Some? && feed[k] == Some(Seen(c.gate.applied.value, c.shown.value))
  }

  ghost predicate ShowsCurrent<T>(feed: Feed<T>, c: Client<T>) {
    feed != [] && ShowsPoint(feed, c, |feed| - 1)
  }

  lemma ShownIsCommitted<T>(feed: Feed<T>, id: Id, messages: seq<Message<T>>)
    requires FromFeed(feed, id, messages) && Receive(id, messages).shown.Some?
    ensures exists k: nat :: ShowsPoint(feed, Receive(id, messages), k)
  {
    NewestIsShown(id, messages);
    var c := Receive(id, messages);
    var i :| 0 <= i < |messages| && Shows(id, messages[i], c);
    assert messages[i] in messages;
    var k: nat :| Tells(feed, messages[i], k);
    assert ShowsPoint(feed, c, k);
  }

  /** The current state is shown as soon as any message with its version has arrived, whatever arrived before or
      after. */
  lemma LatestVersionIsShown<T>(feed: Feed<T>, id: Id, messages: seq<Message<T>>, m: Message<T>)
    requires Ordered(feed) && FromFeed(feed, id, messages) && m in messages && m.id == id
    requires feed != [] && feed[|feed| - 1].Some? && m.version == feed[|feed| - 1].value.version
    ensures ShowsCurrent(feed, Receive(id, messages))
  {
    NewestIsShown(id, messages);
    var c := Receive(id, messages);
    assert exists i :: 0 <= i < |messages| && messages[i] == m;
    ShownIsCommitted(feed, id, messages);
    var k: nat :| ShowsPoint(feed, c, k);
    assert feed[k].value.version <= feed[|feed| - 1].value.version;
  }

  /** What is shown later was committed later, or is the same. */
  lemma ShownNeverGoesBack<T>(feed: Feed<T>, id: Id, messages: seq<Message<T>>, i: nat)
    requires Ordered(feed) && FromFeed(feed, id, messages)
    requires i <= |messages| && Receive(id, messages[..i]).shown.Some?
    ensures exists j: nat, k: nat ::
      j <= k && ShowsPoint(feed, Receive(id, messages[..i]), j) && ShowsPoint(feed, Receive(id, messages), k)
  {
    NewestIsShown(id, messages[..i]);
    NewestIsShown(id, messages);
    NeverGoesBack(id, messages, i);
    assert forall m :: m in messages[..i] ==> m in messages;
    ShownIsCommitted(feed, id, messages[..i]);
    ShownIsCommitted(feed, id, messages);
    var c, d := Receive(id, messages[..i]), Receive(id, messages);
    var j: nat :| ShowsPoint(feed, c, j);
    var k: nat :| ShowsPoint(feed, d, k);
    if k < j {
      assert feed[k] == feed[j];
      assert ShowsPoint(feed, d, j);
    }
  }

  // ── join first, snapshot second ───────────────────────────────────────────

  /** Some received message tells of the aggregate at point `k` or later. */
  ghost predicate Told<T>(feed: Feed<T>, id: Id, messages: seq<Message<T>>, k: nat) {
    exists m, i: nat :: m in messages && m.id == id && k <= i && Tells(feed, m, i)
  }

  /** Every change after the join was announced, then or later. */
  ghost predicate AllAnnounced<T>(feed: Feed<T>, id: Id, messages: seq<Message<T>>, joined: nat) {
    forall k :: joined < k < |feed| && feed[k] != feed[k - 1] ==> Told(feed, id, messages, k)
  }

  /** The message is from point `k` or later, or from one where the aggregate was the same. */
  ghost predicate TellsAsOf<T>(feed: Feed<T>, m: Message<T>, i: nat, k: nat) {
    k < |feed| && Tells(feed, m, i) && (i >= k || feed[i] == feed[k])
  }

  /** The message about the last change before `k` tells of the aggregate as it is at `k`, or of something later. */
  lemma {:induction false} LastChangeIsTold<T>(feed: Feed<T>, id: Id, messages: seq<Message<T>>, joined: nat, k: nat)
    requires joined <= k < |feed| && Told(feed, id, messages, joined) && AllAnnounced(feed, id, messages, joined)
    ensures exists m, i: nat :: m in messages && m.id == id && TellsAsOf(feed, m, i, k)
    decreases k
  {
    if k == joined || feed[k] != feed[k - 1] {
      var m, i: nat :| m in messages && m.id == id && k <= i && Tells(feed, m, i);
      assert TellsAsOf(feed, m, i, k);
    } else {
      LastChangeIsTold(feed, id, messages, joined, k - 1);
      var m, i: nat :| m in messages && m.id == id && TellsAsOf(feed, m, i, k - 1);
      assert TellsAsOf(feed, m, i, k);
    }
  }

  /** The socket joined at `joined`, the snapshot was read no earlier, and every change after the join was announced:
      nothing is missed. */
  lemma NothingIsMissed<T>(feed: Feed<T>, id: Id, messages: seq<Message<T>>, joined: nat)
    requires Ordered(feed) && FromFeed(feed, id, messages) && joined < |feed|
    requires Told(feed, id, messages, joined) && AllAnnounced(feed, id, messages, joined)
    ensures ShowsCurrent(feed, Receive(id, messages))
  {
    LastChangeIsTold(feed, id, messages, joined, |feed| - 1);
    var m, i: nat :| m in messages && m.id == id && TellsAsOf(feed, m, i, |feed| - 1);
    LatestVersionIsShown(feed, id, messages, m);
  }

  // ── pools ─────────────────────────────────────────────────────────────────

  datatype PoolPayload = PoolPayload(seatCount: nat, maxSeats: nat, status: PoolState, terminal: bool,
                                     driver: Option<Id>)

  function Payload(p: Pool): PoolPayload {
    PoolPayload(p.seatCount, p.maxSeats, p.state, p.state == Aborted || p.state == Finished, p.claimedBy)
  }

  function PoolSeen(w: World, p: Id): Option<Seen<PoolPayload>> {
    if p in w.db.pools then Some(Seen(w.db.pools[p].version, Payload(w.db.pools[p]))) else None
  }

  /** The pool at every point of the run up to `n`. */
  function PoolFeed(h: History, n: nat, p: Id): (feed: Feed<PoolPayload>)
    requires n < |h.states|
    ensures |feed| == n + 1 && forall k :: 0 <= k <= n ==> feed[k] == PoolSeen(h.states[k], p)
  {
    seq(n + 1, k requires 0 <= k <= n => PoolSeen(h.states[k], p))
  }

  lemma PoolVersionsOrder(dist: Distance, h: History, m: nat, n: nat, p: Id)
    requires IsRun(dist, h) && m <= n < |h.states| && p in h.states[m].db.pools
    ensures p in h.states[n].db.pools
    ensures var was, now := h.states[m].db.pools[p], h.states[n].db.pools[p];
      was.version <= now.version && (was.version == now.version ==> was == now)
  {
    RunFollows(dist, h, m, n);
    assert PoolFollows(h.states[m].db.pools[p], h.states[n].db.pools[p]);
  }

  /** `state_version` orders a pool's states: each has its own, and a later one has a higher. */
  lemma PoolFeedIsOrdered(dist: Distance, h: History, n: nat, p: Id)
    requires IsRun(dist, h) && n < |h.states|
    ensures Ordered(PoolFeed(h, n, p))
  {
    var feed := PoolFeed(h, n, p);
    forall i, j | 0 <= i <= j < |feed| && feed[i].Some?
      ensures feed[j].Some? && feed[i].value.version <= feed[j].value.version
      ensures feed[i].value.version == feed[j].value.version ==> feed[i] == feed[j]
    {
      PoolVersionsOrder(dist, h, i, j, p);
    }
  }

  /** A member sees only states the server committed, never an older one after a newer, and the current one once a
      message of its version has arrived. */
  lemma PoolViewIsCurrent(dist: Distance, h: History, n: nat, p: Id, messages: seq<Message<PoolPayload>>,
                          m: Message<PoolPayload>)
    requires IsRun(dist, h) && n < |h.states| && FromFeed(PoolFeed(h, n, p), p, messages)
    requires m in messages && m.id == p && p in h.states[n].db.pools && m.version == h.states[n].db.pools[p].version
    ensures Receive(p, messages).shown == Some(Payload(h.states[n].db.pools[p]))
  {
    PoolFeedIsOrdered(dist, h, n, p);
    LatestVersionIsShown(PoolFeed(h, n, p), p, messages, m);
  }

  lemma PoolViewNeverGoesBack(dist: Distance, h: History, n: nat, p: Id, messages: seq<Message<PoolPayload>>, i: nat)
    requires IsRun(dist, h) && n < |h.states| && FromFeed(PoolFeed(h, n, p), p, messages)
    requires i <= |messages| && Receive(p, messages[..i]).shown.Some?
    ensures var feed := PoolFeed(h, n, p);
      exists j: nat, k: nat ::
        j <= k && ShowsPoint(feed, Receive(p, messages[..i]), j) && ShowsPoint(feed, Receive(p, messages), k)
  {
    PoolFeedIsOrdered(dist, h, n, p);
    ShownNeverGoesBack(PoolFeed(h, n, p), p, messages, i);
  }

  /** The gateway joins the socket to the pool's room first and reads the snapshot second. */
  lemma JoinThenSnapshotMissesNothing(dist: Distance, h: History, n: nat, p: Id, messages: seq<Message<PoolPayload>>,
                                      joined: nat)
    requires IsRun(dist, h) && joined <= n < |h.states| && FromFeed(PoolFeed(h, n, p), p, messages)
    requires Told(PoolFeed(h, n, p), p, messages, joined) && AllAnnounced(PoolFeed(h, n, p), p, messages, joined)
    ensures p in h.states[n].db.pools && Receive(p, messages).shown == Some(Payload(h.states[n].db.pools[p]))
  {
    PoolFeedIsOrdered(dist, h, n, p);
    NothingIsMissed(PoolFeed(h, n, p), p, messages, joined);
  }

  const OneSeat: P.SeatRequest := P.SeatRequest(Rider(7, Point(0.0, 0.0), Point(1.0, 1.0)), Some(500), None)

  const OpenThenTimeout: seq<Step> := [Step.OpenPool(3, 2, OneSeat), Step.ExpirePool(3)]

  lemma OpenedAndClosed(dist: Distance, h: History)
    requires IsRun(dist, h) && h.steps == OpenThenTimeout
    ensures 3 in h.states[1].db.pools && h.states[1].db.pools[3].state == Open
    ensures 3 in h.states[2].db.pools && h.states[2].db.pools[3].state == ClosedTimeout
  {
    assert StepAt(dist, h, 0) && StepAt(dist, h, 1);
    FirstSeat();
  }

  lemma FirstSeat()
    ensures var pools := P.OpenPool(Start.db, 3, 2, OneSeat).0.pools;
      3 in pools && pools[3].state == Open && pools[3].seatCount == 1 && pools[3].stops == []
  {
    var empty := Pool(Open, 0, 2, None, 0, 0, Point(0.0, 0.0), [], []);
    assert Start.db.pools[3 := empty][3] == empty;
  }

  /** The other order does not do: in this run a snapshot read before the join misses the change in between, and
      nothing after the join announces it. */
  lemma SnapshotThenJoinCanMiss(dist: Distance, h: History, m: Message<PoolPayload>)
    requires IsRun(dist, h) && h.steps == OpenThenTimeout
    requires m.snapshot && m.id == 3 && Tells(PoolFeed(h, 2, 3), m, 1)
    ensures AllAnnounced(PoolFeed(h, 2, 3), 3, [m], 2) && Receive(3, [m]).shown.Some?
    ensures !ShowsCurrent(PoolFeed(h, 2, 3), Receive(3, [m]))
  {
    OpenedAndClosed(dist, h);
    assert [m][..0] == [];
    assert Receive(3, [m]) == Deliver(Receive(3, []), m);
  }

  // ── solo rides ────────────────────────────────────────────────────────────

  /** A ride's version is the rank of its status. */
  function RideSeen(w: World, r: Id): Option<Seen<RideStatus>> {
    if r in w.db.rides then Some(Seen(StatusRank(w.db.rides[r].status), w.db.rides[r].status)) else None
  }

  function RideFeed(h: History, n: nat, r: Id): (feed: Feed<RideStatus>)
    requires n < |h.states|
    ensures |feed| == n + 1 && forall k :: 0 <= k <= n ==> feed[k] == RideSeen(h.states[k], r)
  {
    seq(n + 1, k requires 0 <= k <= n => RideSeen(h.states[k], r))
  }

  /** Ranks order a ride's statuses, although one rank stands for four terminal ones. */
  lemma RideFeedIsOrdered(dist: Distance, h: History, n: nat, r: Id)
    requires IsRun(dist, h) && n < |h.states|
    ensures Ordered(RideFeed(h, n, r))
  {
    var feed := RideFeed(h, n, r);
    forall i, j | 0 <= i <= j < |feed| && feed[i].Some?
      ensures feed[j].Some? && feed[i].value.version <= feed[j].value.version
      ensures feed[i].value.version == feed[j].value.version ==> feed[i] == feed[j]
    {
      ScheduleResults.RankIsSound(dist, h, i, j, r);
    }
  }

  lemma RideViewIsCurrent(dist: Distance, h: History, n: nat, r: Id, messages: seq<Message<RideStatus>>,
                          m: Message<RideStatus>)
    requires IsRun(dist, h) && n < |h.states| && FromFeed(RideFeed(h, n, r), r, messages)
    requires m in messages && m.id == r && r in h.states[n].db.rides
    requires m.version == StatusRank(h.states[n].db.rides[r].status)
    ensures Receive(r, messages).shown == Some(h.states[n].db.rides[r].status)
  {
    RideFeedIsOrdered(dist, h, n, r);
    LatestVersionIsShown(RideFeed(h, n, r), r, messages, m);
  }

  lemma RideViewNeverGoesBack(dist: Distance, h: History, n: nat, r: Id, messages: seq<Message<RideStatus>>, i: nat)
    requires IsRun(dist, h) && n < |h.states| && FromFeed(RideFeed(h, n, r), r, messages)
    requires i <= |messages| && Receive(r, messages[..i]).shown.Some?
    ensures var feed := RideFeed(h, n, r);
      exists j: nat, k: nat ::
        j <= k && ShowsPoint(feed, Receive(r, messages[..i]), j) && ShowsPoint(feed, Receive(r, messages), k)
  {
    RideFeedIsOrdered(dist, h, n, r);
    ShownNeverGoesBack(RideFeed(h, n, r), r, messages, i);
  }

  /** The same order of join and snapshot for a ride. */
  lemma RideJoinThenSnapshotMissesNothing(dist: Distance, h: History, n: nat, r: Id,
                                          messages: seq<Message<RideStatus>>, joined: nat)
    requires IsRun(dist, h) && joined <= n < |h.states| && FromFeed(RideFeed(h, n, r), r, messages)
    requires Told(RideFeed(h, n, r), r, messages, joined) && AllAnnounced(RideFeed(h, n, r), r, messages, joined)
    ensures r in h.states[n].db.rides && Receive(r, messages).shown == Some(h.states[n].db.rides[r].status)
  {
    RideFeedIsOrdered(dist, h, n, r);
    NothingIsMissed(RideFeed(h, n, r), r, messages, joined);
  }

  /** Once a terminal status is shown, no message changes it. */
  lemma TerminalStaysShown(dist: Distance, h: History, n: nat, r: Id, messages: seq<Message<RideStatus>>, i: nat)
    requires IsRun(dist, h) && n < |h.states| && FromFeed(RideFeed(h, n, r), r, messages)
    requires i <= |messages| && Receive(r, messages[..i]).shown.Some?
    requires TerminalStatus(Receive(r, messages[..i]).shown.value)
    ensures Receive(r, messages).shown == Receive(r, messages[..i]).shown
  {
    RideViewNeverGoesBack(dist, h, n, r, messages, i);
    var feed := RideFeed(h, n, r);
    var j: nat, k: nat :| j <= k && ShowsPoint(feed, Receive(r, messages[..i]), j)
      && ShowsPoint(feed, Receive(r, messages), k);
    ScheduleResults.RankIsSound(dist, h, j, k, r);
  }
}
