/** Whole runs: what holds after any list of steps, and how a run's later states relate to its earlier ones. */
module Runs {
  import opened Types
  import opened Protocol
  import opened Invariants
  import R = RowProofs
  import Preservation

  /** Any list of steps is the steps of a run. */
  lemma {:induction false} RunExists(dist: Distance, steps: seq<Step>) returns (h: History)
    ensures IsRun(dist, h) && h.steps == steps
  {
    if steps == [] {
      h := History([], [Start]);
    } else {
      var before := RunExists(dist, steps[..|steps| - 1]);
      h := Extend(dist, before, steps[|steps| - 1]);
      assert h.steps == steps;
    }
  }

  /** The run that takes one more step. */
  lemma Extend(dist: Distance, h: History, s: Step) returns (longer: History)
    requires IsRun(dist, h)
    ensures IsRun(dist, longer)
    ensures longer == History(h.steps + [s], h.states + [Apply(dist, h.states[|h.steps|], s)])
  {
    longer := History(h.steps + [s], h.states + [Apply(dist, h.states[|h.steps|], s)]);
    forall i | 0 <= i < |longer.steps| ensures StepAt(dist, longer, i) {
      assert i < |h.steps| ==> StepAt(dist, h, i);
    }
  }

  /** The invariant holds at every point of every run. */
  lemma {:induction false} RunKeeps(dist: Distance, h: History, n: nat)
    requires IsRun(dist, h) && n < |h.states|
    ensures Inv(dist, h.states[n])
  {
    if n == 0 {
      Preservation.StartOk(dist);
    } else {
      RunKeeps(dist, h, n - 1);
      assert StepAt(dist, h, n - 1);
      Preservation.StepKeeps(dist, h.states[n - 1], h.steps[n - 1]);
    }
  }

  // ── forward is transitive ─────────────────────────────────────────────────

  lemma RidesCompose(a: map<Id, Ride>, b: map<Id, Ride>, c: map<Id, Ride>)
    requires RidesFollow(a, b) && RidesFollow(b, c)
    ensures RidesFollow(a, c)
  {
    forall r | r in a ensures r in c && RideFollows(a[r], c[r]) {
      assert RideFollows(a[r], b[r]) && RideFollows(b[r], c[r]);
    }
  }

  lemma PoolsCompose(a: map<Id, Pool>, b: map<Id, Pool>, c: map<Id, Pool>)
    requires PoolsFollow(a, b) && PoolsFollow(b, c)
    ensures PoolsFollow(a, c)
  {
    forall p | p in a ensures p in c && PoolFollows(a[p], c[p]) {
      R.PoolStepsCompose(a[p], b[p], c[p]);
    }
  }

  lemma OffersCompose(a: map<Id, Offer>, b: map<Id, Offer>, c: map<Id, Offer>)
    requires OffersFollow(a, b) && OffersFollow(b, c)
    ensures OffersFollow(a, c)
  {
    forall o | o in a ensures o in c && OfferFollows(a[o], c[o]) {
      assert OfferFollows(a[o], b[o]) && OfferFollows(b[o], c[o]);
    }
  }

  lemma FollowsCompose(a: World, b: World, c: World)
    requires Follows(a, b) && Follows(b, c)
    ensures Follows(a, c)
  {
    RidesCompose(a.db.rides, b.db.rides, c.db.rides);
    PoolsCompose(a.db.pools, b.db.pools, c.db.pools);
    OffersCompose(a.db.offers, b.db.offers, c.db.offers);
  }

  lemma FollowsItself(a: World)
    ensures Follows(a, a)
  {
    R.RidesStay(a.db.rides);
    R.PoolsStay(a.db.pools);
  }

  /** Every point of a run follows every earlier one. */
  lemma {:induction false} RunFollows(dist: Distance, h: History, m: nat, n: nat)
    requires IsRun(dist, h) && m <= n < |h.states|
    ensures Follows(h.states[m], h.states[n])
    decreases n
  {
    if m == n {
      FollowsItself(h.states[m]);
    } else {
      RunFollows(dist, h, m, n - 1);
      RunKeeps(dist, h, n - 1);
      assert StepAt(dist, h, n - 1);
      Preservation.StepKeeps(dist, h.states[n - 1], h.steps[n - 1]);
      FollowsCompose(h.states[m], h.states[n - 1], h.states[n]);
    }
  }
}
