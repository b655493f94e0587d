/** Refresh-token families: single-use rotation, replay detection, and revocation. Each refresh is one atomic step. */
module Sessions {
  import opened Types

  type Token = nat
  type Family = nat

  const REUSE_GRACE_MS: int := 10_000
  const REFRESH_TTL_MS: int := 30 * 24 * 60 * 60 * 1000

  datatype TokenRow = TokenRow(family: Family, user: Id, expiresAt: Time, revokedAt: Option<Time>)

  type Table = map<Token, TokenRow>

  datatype Outcome = Renewed(token: Token) | Invalid | Disabled | TokenClash

  // ── statements ────────────────────────────────────────────────────────────

  predicate Live(t: Table, token: Token) {
    token in t && t[token].revokedAt == None
  }

  predicate Consumable(t: Table, token: Token, now: Time) {
    Live(t, token) && t[token].expiresAt > now
  }

  /** Used or revoked longer ago than a concurrent request could still be under way. */
  predicate Replayed(t: Table, token: Token, now: Time) {
    token in t && t[token].revokedAt.Some? && t[token].revokedAt.value <= now - REUSE_GRACE_MS
  }

  function RevokeOne(t: Table, token: Token, now: Time): Table {
    if Live(t, token) then t[token := t[token].(revokedAt := Some(now))] else t
  }

  function RevokeFamily(t: Table, family: Family, now: Time): Table {
    map k | k in t :: if t[k].revokedAt == None && t[k].family == family then t[k].(revokedAt := Some(now)) else t[k]
  }

  function RevokeUser(t: Table, user: Id, now: Time): Table {
    map k | k in t :: if t[k].revokedAt == None && t[k].user == user then t[k].(revokedAt := Some(now)) else t[k]
  }

  /** A digest that exists already is a key violation: the transaction rolls back. */
  function Refresh(t: Table, token: Token, next: Token, blocked: bool, now: Time): (Table, Outcome) {
    if !Consumable(t, token, now) then
      (if Replayed(t, token, now) then RevokeFamily(t, t[token].family, now) else t, Invalid)
    else
      var used := RevokeOne(t, token, now);
      if blocked then (RevokeUser(used, t[token].user, now), Disabled)
      else if next in t then (t, TokenClash)
      else (used[next := TokenRow(t[token].family, t[token].user, now + REFRESH_TTL_MS, None)], Renewed(next))
  }

  class AuthService {
    var tokens: Table

    constructor ()
      ensures tokens == map[]
    {
      tokens := map[];
    }

    method IssueSession(token: Token, family: Family, user: Id, now: Time) returns (issued: bool)
      modifies this
      ensures issued <==> token !in old(tokens)
      ensures tokens ==
        if issued then old(tokens)[token := TokenRow(family, user, now + REFRESH_TTL_MS, None)] else old(tokens)
    {
      issued := token !in tokens;
      if issued {
        tokens := tokens[token := TokenRow(family, user, now + REFRESH_TTL_MS, None)];
      }
    }

    method RenewSession(token: Token, next: Token, blocked: bool, now: Time) returns (r: Outcome)
      modifies this
      ensures (tokens, r) == Refresh(old(tokens), token, next, blocked, now)
    {
      var saved := tokens;
      if token in tokens && tokens[token].revokedAt == None && tokens[token].expiresAt > now {
        var row := tokens[token];
        tokens := tokens[token := row.(revokedAt := Some(now))];
        if blocked {
          var used := tokens;
          tokens := map k | k in used ::
            if used[k].user == row.user && used[k].revokedAt == None then used[k].(revokedAt := Some(now)) else used[k];
          assert tokens == RevokeUser(RevokeOne(saved, token, now), row.user, now);
          return Disabled;
        }
        var issued := IssueSession(next, row.family, row.user, now);
        if !issued {
          tokens := saved;
          return TokenClash;
        }
        return Renewed(next);
      }
      if token in tokens && tokens[token].revokedAt != None && tokens[token].revokedAt.value <= now - REUSE_GRACE_MS {
        var family := tokens[token].family;
        tokens := map k | k in tokens ::
          if tokens[k].revokedAt == None && tokens[k].family == family then tokens[k].(revokedAt := Some(now))
            else tokens[k];
      }
      r := Invalid;
    }

    method RevokePresented(token: Token, now: Time)
      modifies this
      ensures tokens == RevokeOne(old(tokens), token, now)
    {
      if token in tokens && tokens[token].revokedAt == None {
        tokens := tokens[token := tokens[token].(revokedAt := Some(now))];
      }
    }

    method Revoke(token: Token, user: Id, now: Time)
      modifies this
      ensures tokens ==
        if token in old(tokens) && old(tokens)[token].user == user then RevokeOne(old(tokens), token, now)
          else old(tokens)
    {
      if token in tokens && tokens[token].user == user {
        RevokePresented(token, now);
      }
    }
  }

  // ── runs ──────────────────────────────────────────────────────────────────

  /** Beside the table, the tokens of every family in the order they were issued. */
  datatype State = State(table: Table, chains: map<Family, seq<Token>>)

  const Start := State(map[], map[])

  datatype Step =
    | Login(token: Token, family: Family, user: Id, now: Time)
    | Rotate(token: Token, next: Token, blocked: bool, now: Time)
    | LogOut(token: Token, now: Time)
    | RevokeOwn(token: Token, user: Id, now: Time)

  function Apply(s: State, step: Step): State {
    match step
    case Login(token, family, user, now) =>
      // A family id is random: a login never meets an old one.
      if token in s.table || family in s.chains then s
      else State(s.table[token := TokenRow(family, user, now + REFRESH_TTL_MS, None)], s.chains[family := [token]])
    case Rotate(token, next, blocked, now) =>
      var (t, r) := Refresh(s.table, token, next, blocked, now);
      if r.Renewed? && s.table[token].family in s.chains
      then State(t, s.chains[s.table[token].family := s.chains[s.table[token].family] + [next]])
      else s.(table := t)
    case LogOut(token, now) => s.(table := RevokeOne(s.table, token, now))
    case RevokeOwn(token, user, now) =>
      if token in s.table && s.table[token].user == user then s.(table := RevokeOne(s.table, token, now)) else s
  }

  /** A run: the steps taken and the states they lead through from an empty table. */
  datatype Log = Log(steps: seq<Step>, states: seq<State>)

  predicate StepAt(l: Log, i: nat)
    requires i < |l.steps| && |l.states| == |l.steps| + 1
  {
    l.states[i + 1] == Apply(l.states[i], l.steps[i])
  }

  ghost predicate IsLog(l: Log) {
    && |l.states| == |l.steps| + 1 && l.states[0] == Start
    && forall i :: 0 <= i < |l.steps| ==> StepAt(l, i)
  }

  // ── a family is one chain with at most its end alive ──────────────────────

  ghost predicate ChainOk(s: State, f: Family)
    requires f in s.chains
  {
    var c := s.chains[f];
    && c != []
    && (forall i, j :: 0 <= i < j < |c| ==> c[i] != c[j])
    && (forall i :: 0 <= i < |c| ==> c[i] in s.table && s.table[c[i]].family == f)
    && (forall i :: 0 <= i < |c| - 1 ==> s.table[c[i]].revokedAt.Some?)
  }

  ghost predicate Inv(s: State) {
    && (forall f :: f in s.chains ==> ChainOk(s, f))
    && (forall k :: k in s.table ==> s.table[k].family in s.chains && k in s.chains[s.table[k].family])
  }

  /** Rows keep their owner and family, and what is revoked stays revoked; a revoked token gets no new one. */
  ghost predicate Follows(a: State, b: State) {
    && (forall k :: k in a.table ==> k in b.table && b.table[k] == a.table[k].(revokedAt := b.table[k].revokedAt))
    && (forall k :: k in a.table && a.table[k].revokedAt.Some? ==> b.table[k] == a.table[k])
    && (forall f :: f in a.chains ==> f in b.chains && a.chains[f] <= b.chains[f])
    && (forall f :: f in a.chains && Dead(a, f) ==> b.chains[f] == a.chains[f])
  }

  /** No token of the family is alive. */
  predicate Dead(s: State, f: Family) {
    forall k :: k in s.table && s.table[k].family == f ==> s.table[k].revokedAt.Some?
  }

  lemma RevokingKeeps(s: State, t: Table)
    requires Inv(s) && t.Keys == s.table.Keys
    requires forall k :: k in t ==>
      t[k] == s.table[k].(revokedAt := t[k].revokedAt) && (s.table[k].revokedAt.Some? ==> t[k] == s.table[k])
    ensures Inv(s.(table := t)) && Follows(s, s.(table := t))
  {
    var v := s.(table := t);
    forall f | f in v.chains ensures ChainOk(v, f) {
      assert ChainOk(s, f);
    }
  }

  /** A token no row has yet goes to the end of a chain whose tokens are all used up, or starts one. */
  lemma GrowingKeeps(s: State, v: State, f: Family, next: Token)
    requires Inv(s) && next !in s.table && next in v.table && f in v.chains
    requires v.table.Keys == s.table.Keys + {next} && v.table[next].family == f
    requires forall k :: k in s.table ==> v.table[k] == s.table[k].(revokedAt := v.table[k].revokedAt)
    requires forall k :: k in s.table && s.table[k].revokedAt.Some? ==> v.table[k] == s.table[k]
    requires v.chains == s.chains[f := v.chains[f]]
    requires v.chains[f] == (if f in s.chains then s.chains[f] else []) + [next]
    requires forall k :: k in s.table && s.table[k].family == f ==> v.table[k].revokedAt.Some?
    ensures Inv(v)
  {
    forall g | g in v.chains ensures ChainOk(v, g) {
      assert g in s.chains ==> ChainOk(s, g);
      if g == f {
        GrownChain(s, v, f, next);
      }
    }
    forall k | k in v.table ensures v.table[k].family in v.chains && k in v.chains[v.table[k].family] {
      if k == next {
        assert v.chains[f][|v.chains[f]| - 1] == next;
      }
    }
  }

  lemma GrownChain(s: State, v: State, f: Family, next: Token)
    requires next !in s.table && next in v.table && v.table[next].family == f
    requires f in s.chains ==> ChainOk(s, f)
    requires f in v.chains && v.chains[f] == (if f in s.chains then s.chains[f] else []) + [next]
    requires forall k :: k in s.table ==> k in v.table && v.table[k].family == s.table[k].family
    requires forall k :: k in s.table && s.table[k].family == f ==> v.table[k].revokedAt.Some?
    ensures ChainOk(v, f)
  {
  }

  lemma LoginKeeps(s: State, token: Token, family: Family, user: Id, now: Time)
    requires Inv(s)
    ensures var v := Apply(s, Login(token, family, user, now)); Inv(v) && Follows(s, v)
  {
    if token !in s.table && family !in s.chains {
      GrowingKeeps(s, Apply(s, Login(token, family, user, now)), family, token);
    }
  }

  /** Only the end of a chain can be renewed, and the new token goes behind it. */
  lemma RenewedIsTheEnd(s: State, token: Token, next: Token, blocked: bool, now: Time)
    requires Inv(s) && Refresh(s.table, token, next, blocked, now).1.Renewed?
    ensures var f := s.table[token].family;
      f in s.chains && s.chains[f] != [] && s.chains[f][|s.chains[f]| - 1] == token
  {
    var f := s.table[token].family;
    assert ChainOk(s, f);
    var i :| 0 <= i < |s.chains[f]| && s.chains[f][i] == token;
  }

  lemma OthersAreUsed(s: State, f: Family, token: Token)
    requires Inv(s) && f in s.chains && s.chains[f] != [] && s.chains[f][|s.chains[f]| - 1] == token
    ensures forall k :: k in s.table && s.table[k].family == f && k != token ==> s.table[k].revokedAt.Some?
  {
    assert ChainOk(s, f);
    forall k | k in s.table && s.table[k].family == f && k != token ensures s.table[k].revokedAt.Some? {
      var i :| 0 <= i < |s.chains[f]| && s.chains[f][i] == k;
    }
  }

  lemma RenewKeeps(s: State, token: Token, next: Token, blocked: bool, now: Time)
    requires Inv(s) && Refresh(s.table, token, next, blocked, now).1.Renewed?
    ensures var v := Apply(s, Rotate(token, next, blocked, now)); Inv(v) && Follows(s, v)
  {
    var v := Apply(s, Rotate(token, next, blocked, now));
    var f := s.table[token].family;
    RenewedIsTheEnd(s, token, next, blocked, now);
    OthersAreUsed(s, f, token);
    RenewedFollows(s, v, f, token, next);
    GrowingKeeps(s, v, f, next);
  }

  lemma RenewedFollows(s: State, v: State, f: Family, token: Token, next: Token)
    requires Live(s.table, token) && s.table[token].family == f && next !in s.table && f in s.chains && f in v.chains
    requires forall k :: k in s.table ==> k in v.table && v.table[k] == s.table[k].(revokedAt := v.table[k].revokedAt)
    requires forall k :: k in s.table && k != token ==> v.table[k] == s.table[k]
    requires v.chains == s.chains[f := v.chains[f]] && v.chains[f] == s.chains[f] + [next]
    ensures Follows(s, v)
  {
    assert !Dead(s, f);
  }

  lemma StepKeeps(s: State, step: Step)
    requires Inv(s)
    ensures Inv(Apply(s, step)) && Follows(s, Apply(s, step))
  {
    match step
    case Login(token, family, user, now) => LoginKeeps(s, token, family, user, now);
    case Rotate(token, next, blocked, now) =>
      if Refresh(s.table, token, next, blocked, now).1.Renewed? {
        RenewKeeps(s, token, next, blocked, now);
      } else {
        RevokingKeeps(s, Apply(s, step).table);
      }
    case LogOut(token, now) => RevokingKeeps(s, Apply(s, step).table);
    case RevokeOwn(token, user, now) => RevokingKeeps(s, Apply(s, step).table);
  }

  lemma {:induction false} LogKeeps(l: Log, n: nat)
    requires IsLog(l) && n < |l.states|
    ensures Inv(l.states[n])
  {
    if n > 0 {
      LogKeeps(l, n - 1);
      assert StepAt(l, n - 1);
      StepKeeps(l.states[n - 1], l.steps[n - 1]);
    }
  }

  lemma FollowsComposes(a: State, b: State, c: State)
    requires Inv(a) && Inv(b) && Follows(a, b) && Follows(b, c)
    ensures Follows(a, c)
  {
    forall f | f in a.chains && Dead(a, f) ensures c.chains[f] == a.chains[f] {
      DeadStays(a, b, f);
    }
  }

  lemma DeadStays(a: State, b: State, f: Family)
    requires Inv(a) && Inv(b) && Follows(a, b) && f in a.chains && Dead(a, f)
    ensures Dead(b, f)
  {
    forall k | k in b.table && b.table[k].family == f ensures b.table[k].revokedAt.Some? {
      assert k in a.chains[f];
      assert ChainOk(a, f);
    }
  }

  lemma {:induction false} LogFollows(l: Log, m: nat, n: nat)
    requires IsLog(l) && m <= n < |l.states|
    ensures Follows(l.states[m], l.states[n])
    decreases n
  {
    if m < n {
      LogFollows(l, m, n - 1);
      LogKeeps(l, m);
      LogKeeps(l, n - 1);
      assert StepAt(l, n - 1);
      StepKeeps(l.states[n - 1], l.steps[n - 1]);
      FollowsComposes(l.states[m], l.states[n - 1], l.states[n]);
    }
  }

  // ── main results ──────────────────────────────────────────────────────────

  lemma OneLiveTokenPerFamily(l: Log, n: nat, a: Token, b: Token)
    requires IsLog(l) && n < |l.states|
    requires var t := l.states[n].table; Live(t, a) && Live(t, b) && t[a].family == t[b].family
    ensures a == b
  {
    LogKeeps(l, n);
    var s := l.states[n];
    var c := s.chains[s.table[a].family];
    assert ChainOk(s, s.table[a].family);
    var i :| 0 <= i < |c| && c[i] == a;
    var j :| 0 <= j < |c| && c[j] == b;
  }

  /** The chain holds every token of the family, and all before its end are used up. */
  lemma FamilyIsOneChain(l: Log, n: nat, f: Family, k: Token)
    requires IsLog(l) && n < |l.states| && f in l.states[n].chains
    ensures var s := l.states[n];
      && (k in s.chains[f] <==> k in s.table && s.table[k].family == f)
      && (Live(s.table, k) && s.table[k].family == f ==> k == s.chains[f][|s.chains[f]| - 1])
  {
    LogKeeps(l, n);
    assert ChainOk(l.states[n], f);
  }

  /** A renewal uses up the end of a chain and extends it. */
  ghost predicate Extends(s: State, v: State, f: Family, token: Token, next: Token) {
    && f in s.chains && f in v.chains && s.chains[f] != []
    && v.chains[f] == s.chains[f] + [next] && s.chains[f][|s.chains[f]| - 1] == token
    && !Live(v.table, token) && Live(v.table, next)
  }

  /** Each token is followed by at most one: a renewal extends the chain behind the token it used up. */
  lemma RenewalExtendsTheChain(l: Log, n: nat, token: Token, next: Token, blocked: bool, now: Time)
    requires IsLog(l) && n < |l.states| && Refresh(l.states[n].table, token, next, blocked, now).1 == Renewed(next)
    ensures var s := l.states[n];
      Extends(s, Apply(s, Rotate(token, next, blocked, now)), s.table[token].family, token, next)
  {
    LogKeeps(l, n);
    RenewedIsTheEnd(l.states[n], token, next, blocked, now);
  }

  lemma EmptyStaysEmpty(l: Log, m: nat, n: nat, f: Family)
    requires IsLog(l) && m <= n < |l.states| && f in l.states[m].chains && Dead(l.states[m], f)
    ensures Dead(l.states[n], f)
  {
    LogKeeps(l, m);
    LogKeeps(l, n);
    LogFollows(l, m, n);
    DeadStays(l.states[m], l.states[n], f);
  }

  /** A used token: after the grace window presenting it empties its family, within it nothing changes. */
  ghost predicate Refused(t: Table, token: Token, next: Token, blocked: bool, now: Time)
    requires token in t && t[token].revokedAt.Some?
  {
    var (after, r) := Refresh(t, token, next, blocked, now);
    && r == Invalid
    && (if t[token].revokedAt.value <= now - REUSE_GRACE_MS then Dead(State(after, map[]), t[token].family)
         else after == t)
    && (forall k :: k in t && t[k].family != t[token].family ==> k in after && after[k] == t[k])
  }

  /** A token used up is refused for ever, as of when it was used. */
  lemma UsedTokenIsRefused(l: Log, m: nat, n: nat, token: Token, next: Token, blocked: bool, now: Time)
    requires IsLog(l) && m <= n < |l.states| && token in l.states[m].table && l.states[m].table[token].revokedAt.Some?
    ensures var t := l.states[n].table;
      && token in t && t[token].revokedAt == l.states[m].table[token].revokedAt
      && Refused(t, token, next, blocked, now)
  {
    LogFollows(l, m, n);
  }

  // ── every answer to a refresh ─────────────────────────────────────────────

  function OfFamily(t: Table, family: Family): set<Token> {
    set k | k in t && t[k].family == family
  }

  function OfUser(t: Table, user: Id): set<Token> {
    set k | k in t && t[k].user == user
  }

  /** The same rows, those of `chosen` that were alive now revoked. */
  ghost predicate RevokedAll(t: Table, after: Table, chosen: set<Token>, now: Time) {
    && after.Keys == t.Keys
    && forall k :: k in t ==>
         after[k] == if k in chosen && t[k].revokedAt == None then t[k].(revokedAt := Some(now)) else t[k]
  }

  /** Renewed exactly if the token is known, unused and not over, its user may sign in and the new digest is new. A
      blocked user loses every session, a replayed token its family; nothing else is written. */
  ghost predicate RefreshAnswered(t: Table, after: Table, r: Outcome, token: Token, next: Token, blocked: bool,
                                  now: Time) {
    if token !in t then r == Invalid && after == t
    else
      var row := t[token];
      if row.revokedAt.Some? then
        && r == Invalid
        && RevokedAll(t, after, if now - row.revokedAt.value >= 10_000 then OfFamily(t, row.family) else {}, now)
      else if now >= row.expiresAt then r == Invalid && after == t
      else if blocked then r == Disabled && RevokedAll(t, after, OfUser(t, row.user), now)
      else if next in t then r == TokenClash && after == t
      else
        && r == Renewed(next) && after.Keys == t.Keys + {next}
        && RevokedAll(t, after - {next}, {token}, now)
        && after[next] == TokenRow(row.family, row.user, now + 2_592_000_000, None)
  }

  lemma RefreshAnswers(t: Table, token: Token, next: Token, blocked: bool, now: Time)
    ensures var (after, r) := Refresh(t, token, next, blocked, now);
      RefreshAnswered(t, after, r, token, next, blocked, now)
  {
  }

  /** From any point of any run, a fresh login renews within its thirty days. */
  lemma LoginCanBeRenewed(l: Log, token: Token, family: Family, user: Id, at: Time, next: Token, now: Time)
    returns (after: Log)
    requires IsLog(l) && token !in l.states[|l.steps|].table && family !in l.states[|l.steps|].chains
    requires next !in l.states[|l.steps|].table && next != token && now < at + 2_592_000_000
    ensures IsLog(after) && after.steps == l.steps + [Login(token, family, user, at), Rotate(token, next, false, now)]
    ensures var s := after.states[|after.steps|];
      Live(s.table, next) && s.table[next].user == user && s.table[next].family == family && !Live(s.table, token)
  {
    after := Extend(l, Login(token, family, user, at));
    after := Extend(after, Rotate(token, next, false, now));
  }

  /** The run that takes one more step. */
  lemma Extend(l: Log, step: Step) returns (longer: Log)
    requires IsLog(l)
    ensures IsLog(longer) && longer.steps == l.steps + [step]
    ensures longer.states == l.states + [Apply(l.states[|l.steps|], step)]
  {
    longer := Log(l.steps + [step], l.states + [Apply(l.states[|l.steps|], step)]);
    forall k | 0 <= k < |longer.steps| ensures StepAt(longer, k) {
      assert k < |l.steps| ==> StepAt(l, k);
    }
  }
}
