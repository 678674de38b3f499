/** Refreshes that overlap: between reading a token and rotating it, anything else may happen.

    A rotation locks the row of the old token, looks at it again, and only then replaces it.
    Statements that would touch a locked row wait until it is unlocked.
  */
module TokenRotation {
  import opened Options
  import opened TokenStore
  import opened TokenService

  datatype Phase = Parsed | Locked | Ended(error: Error)

  /** A refresh in flight: the token presented and the pair that is to replace it. */
  datatype Refreshing = Refreshing(token: Claims, access: Claims, refresh: Claims, phase: Phase)

  datatype Link = Link(access: Jti, refresh: Jti)

  /** Besides the table: every id ever drawn, and the pairs handed out arranged in chains, one for
      each call to GenerateTokenPair, with the chain and the place of every id. */
  datatype State = State(now: int, rows: Rows, signed: map<Jti, Claims>, used: set<Jti>,
                         refreshes: map<nat, Refreshing>, locks: map<Jti, nat>,
                         chains: seq<seq<Link>>, family: map<Jti, nat>, rank: map<Jti, nat>)

  datatype Step =
    | Generate(user: string, scopes: seq<string>, ttl: int, accessId: Jti, refreshId: Jti)
    | Begin(tx: nat, token: Claims, accessId: Jti, refreshId: Jti)
    | LockRow(tx: nat)
    | Finish(tx: nat)
    | Revoke(user: string, jti: Jti)
    | RevokeUser(user: string)
    | Clean(maxAge: int)
    | Tick(time: nat)

  function Init(): State {
    State(0, map[], map[], {}, map[], map[], [], map[], map[])
  }

  predicate Fresh(s: State, accessId: Jti, refreshId: Jti) {
    accessId !in s.used && refreshId !in s.used && accessId != refreshId
  }

  function AsWorld(s: State): World {
    World(s.now, s.rows, s.signed)
  }

  /** A statement waits for the rows it would touch to be unlocked. */
  predicate Enabled(cfg: Config, s: State, step: Step) {
    match step
    case Generate(user, scopes, ttl, a, r) => Fresh(s, a, r) && GeneratePair(cfg, user, scopes, ttl, s.now, a, r).Pair?
    case Begin(tx, token, a, r) =>
      && tx !in s.refreshes && Fresh(s, a, r)
      && Valid(AsWorld(s), token) && token.original != []
      && GeneratePair(cfg, token.user, token.original, cfg.accessTTL, s.now, a, r).Pair?
    case LockRow(tx) => tx in s.refreshes && s.refreshes[tx].phase == Parsed && s.refreshes[tx].token.id !in s.locks
    case Finish(tx) => tx in s.refreshes && s.refreshes[tx].phase == Locked
    case Revoke(user, jti) => forall id | id in s.locks && id in s.rows :: !RevokeHits(s.rows[id], id, jti, user)
    case RevokeUser(user) => forall id | id in s.locks && id in s.rows :: !RevokeByUserHits(s.rows[id], user, s.now)
    case Clean(maxAge) => forall id | id in s.locks && id in s.rows :: s.rows[id].expiresAt >= s.now - maxAge
    case Tick(_) => true
  }

  function WithPair(rows: Rows, access: Claims, refresh: Claims): Rows {
    rows[refresh.id := RefreshRow(access, refresh)][access.id := AccessRow(access)]
  }

  /** Hand out a pair as the next link of chain `f`. */
  function Hand(s: State, access: Claims, refresh: Claims, f: nat): State
    requires f <= |s.chains|
  {
    var link, chain := Link(access.id, refresh.id), if f < |s.chains| then s.chains[f] else [];
    s.(signed := s.signed[access.id := access][refresh.id := refresh],
       chains := if f < |s.chains| then s.chains[f := chain + [link]] else s.chains + [[link]],
       family := s.family[access.id := f][refresh.id := f],
       rank := s.rank[refresh.id := |chain|])
  }

  function ChainOf(s: State, id: Jti): (f: nat)
    ensures f <= |s.chains|
  {
    if id in s.family && s.family[id] < |s.chains| then s.family[id] else |s.chains|
  }

  function End(s: State, tx: nat, error: Error): State
    requires tx in s.refreshes
  {
    s.(refreshes := s.refreshes[tx := s.refreshes[tx].(phase := Ended(error))])
  }

  function DoGenerate(s: State, access: Claims, refresh: Claims): State {
    Hand(s, access, refresh, |s.chains|).(
      rows := WithPair(s.rows, access, refresh),
      used := s.used + {access.id, refresh.id})
  }

  /** The transaction commits: the old row is revoked and the new pair takes its place. */
  function DoRotate(s: State, tx: nat): State
    requires tx in s.refreshes && s.refreshes[tx].token.id in s.rows
  {
    var t := s.refreshes[tx];
    var id := t.token.id;
    Hand(End(s, tx, NoError), t.access, t.refresh, ChainOf(s, id)).(
      rows := WithPair(s.rows[id := s.rows[id].(revokedAt := Some(Whole(s.now)))], t.access, t.refresh),
      locks := s.locks - {id})
  }

  function Next(cfg: Config, s: State, step: Step): State
    requires Enabled(cfg, s, step)
  {
    match step
    case Generate(user, scopes, ttl, a, r) =>
      var pair := GeneratePair(cfg, user, scopes, ttl, s.now, a, r);
      DoGenerate(s, pair.access, pair.refresh)
    case Begin(tx, token, a, r) =>
      var pair := GeneratePair(cfg, token.user, token.original, cfg.accessTTL, s.now, a, r);
      s.(used := s.used + {a, r}, refreshes := s.refreshes[tx := Refreshing(token, pair.access, pair.refresh, Parsed)])
    case LockRow(tx) =>
      var id := s.refreshes[tx].token.id;
      if id !in s.rows || s.rows[id].use != Refresh then End(s, tx, InvalidToken)
      else s.(locks := s.locks[id := tx], refreshes := s.refreshes[tx := s.refreshes[tx].(phase := Locked)])
    case Finish(tx) =>
      var id := s.refreshes[tx].token.id;
      var error := RotateError(s.rows, id, s.now);
      if error != NoError then End(s, tx, error).(locks := s.locks - {id}) else DoRotate(s, tx)
    case Revoke(user, jti) => s.(rows := RevokeRows(s.rows, jti, user, s.now))
    case RevokeUser(user) => s.(rows := RevokeUserRows(s.rows, user, s.now))
    case Clean(maxAge) => s.(rows := CleanupRows(s.rows, s.now - maxAge))
    case Tick(time) => s.(now := s.now + time)
  }

  predicate Possible(cfg: Config, s: State, steps: seq<Step>)
    decreases |steps|
  {
    steps == [] || (Enabled(cfg, s, steps[0]) && Possible(cfg, Next(cfg, s, steps[0]), steps[1..]))
  }

  function Run(cfg: Config, s: State, steps: seq<Step>): State
    requires Possible(cfg, s, steps)
    decreases |steps|
  {
    if steps == [] then s else Run(cfg, Next(cfg, s, steps[0]), steps[1..])
  }

  // ---------- The invariant ----------

  /** The row is there and not revoked: it could still be rotated. */
  predicate Live(rows: Rows, id: Jti) {
    id in rows && rows[id].revokedAt.None?
  }

  predicate Won(s: State, tx: nat) {
    tx in s.refreshes && s.refreshes[tx].phase == Ended(NoError)
  }

  /** The refresh token `id` is the k-th of chain f. */
  ghost predicate At(s: State, id: Jti, f: nat, k: nat) {
    id in s.family && s.family[id] == f && id in s.rank && s.rank[id] == k
  }

  ghost predicate TokenOk(s: State, id: Jti)
    requires id in s.signed
  {
    && s.signed[id].id == id && id in s.used && id in s.family && s.family[id] < |s.chains|
    && (s.signed[id].original != [] ==>
          && id in s.rank && s.rank[id] < |s.chains[s.family[id]]|
          && s.chains[s.family[id]][s.rank[id]].refresh == id)
  }

  /** A link of a chain: both its tokens were handed out and carry the user and scopes of the
      chain's first, and its refresh token is dead unless it is the last. */
  ghost predicate LinkOk(s: State, f: nat, k: nat)
    requires f < |s.chains| && k < |s.chains[f]|
  {
    var link, first := s.chains[f][k], s.chains[f][0];
    && link.access in s.signed && link.refresh in s.signed && first.access in s.signed
    && s.signed[link.access].user == s.signed[first.access].user == s.signed[link.refresh].user
    && s.signed[link.access].scopes == s.signed[first.access].scopes == s.signed[link.refresh].original != []
    && At(s, link.refresh, f, k)
    && (k + 1 < |s.chains[f]| ==> !Live(s.rows, link.refresh))
  }

  ghost predicate RefreshOk(s: State, tx: nat)
    requires tx in s.refreshes
  {
    var t := s.refreshes[tx];
    && t.token.id in s.signed && s.signed[t.token.id] == t.token && t.token.original != []
    && t.access.id in s.used && t.refresh.id in s.used && t.access.id != t.refresh.id
    && t.access.user == t.token.user && t.access.scopes == t.token.original && t.access.original == []
    && t.refresh.user == t.token.user && t.refresh.original == t.token.original
    && (t.phase == Locked ==> t.token.id in s.locks && s.locks[t.token.id] == tx)
    && if t.phase == Ended(NoError) then
         && !Live(s.rows, t.token.id) && t.token.id in s.family && t.token.id in s.rank
         && t.refresh.id in s.signed && s.signed[t.refresh.id] == t.refresh
         && At(s, t.refresh.id, s.family[t.token.id], s.rank[t.token.id] + 1)
       else t.access.id !in s.signed && t.refresh.id !in s.signed
  }

  ghost predicate LocksOk(s: State) {
    forall id | id in s.locks ::
      && id in s.rows && s.locks[id] in s.refreshes
      && s.refreshes[s.locks[id]].phase == Locked && s.refreshes[s.locks[id]].token.id == id
  }

  /** No two refreshes drew a common id, and no two replaced the same token. */
  ghost predicate Apart(s: State, t: nat, u: nat)
    requires t in s.refreshes && u in s.refreshes
  {
    var a, b := s.refreshes[t], s.refreshes[u];
    && a.access.id != b.access.id && a.access.id != b.refresh.id
    && a.refresh.id != b.access.id && a.refresh.id != b.refresh.id
    && (a.phase == b.phase == Ended(NoError) ==> a.token.id != b.token.id)
  }

  ghost predicate TokensOk(s: State) {
    && s.family.Keys == s.signed.Keys && s.rows.Keys <= s.signed.Keys
    && (forall id | id in s.signed :: TokenOk(s, id))
    && (forall f, k | 0 <= f < |s.chains| && 0 <= k < |s.chains[f]| :: LinkOk(s, f, k))
    && (forall f | 0 <= f < |s.chains| :: s.chains[f] != [])
  }

  ghost predicate RefreshesOk(s: State) {
    && (forall tx | tx in s.refreshes :: RefreshOk(s, tx))
    && (forall t, u | t in s.refreshes && u in s.refreshes && t != u :: Apart(s, t, u))
    && LocksOk(s)
  }

  ghost predicate Inv(s: State) {
    TokensOk(s) && RefreshesOk(s)
  }

  /** The steps that hand out no token and touch no row. */
  lemma TokensUntouched(s: State, s': State)
    requires TokensOk(s) && s.used <= s'.used
    requires s'.rows == s.rows && s'.signed == s.signed
    requires s'.chains == s.chains && s'.family == s.family && s'.rank == s.rank
    ensures TokensOk(s')
  {
    forall f, k | 0 <= f < |s'.chains| && 0 <= k < |s'.chains[f]| ensures LinkOk(s', f, k) {
      assert LinkOk(s, f, k);
    }
    forall id | id in s'.signed ensures TokenOk(s', id) {
      assert TokenOk(s, id);
    }
  }

  lemma GenerateTokens(s: State, access: Claims, refresh: Claims)
    requires TokensOk(s) && Fresh(s, access.id, refresh.id)
    requires access.user == refresh.user && access.scopes == refresh.original != [] && access.original == []
    ensures TokensOk(DoGenerate(s, access, refresh))
  {
    var s' := DoGenerate(s, access, refresh);
    forall f, k | 0 <= f < |s'.chains| && 0 <= k < |s'.chains[f]| ensures LinkOk(s', f, k) {
      if f < |s.chains| {
        assert LinkOk(s, f, k);
      }
    }
    forall id | id in s'.signed ensures TokenOk(s', id) {
      if id in s.signed {
        assert TokenOk(s, id);
      }
    }
  }

  lemma GenerateRefresh(s: State, access: Claims, refresh: Claims, tx: nat)
    requires tx in s.refreshes && RefreshOk(s, tx) && Fresh(s, access.id, refresh.id)
    requires s.refreshes[tx].token.id in s.used
    requires Won(s, tx) ==> s.refreshes[tx].refresh.id in s.used
    ensures RefreshOk(DoGenerate(s, access, refresh), tx)
  {
  }

  lemma GenerateRefreshes(s: State, access: Claims, refresh: Claims)
    requires Inv(s) && Fresh(s, access.id, refresh.id)
    ensures RefreshesOk(DoGenerate(s, access, refresh))
  {
    var s' := DoGenerate(s, access, refresh);
    forall tx | tx in s'.refreshes ensures RefreshOk(s', tx) {
      assert RefreshOk(s, tx);
      assert TokenOk(s, s.refreshes[tx].token.id);
      GenerateRefresh(s, access, refresh, tx);
    }
    forall t, u | t in s'.refreshes && u in s'.refreshes && t != u ensures Apart(s', t, u) {
      assert Apart(s, t, u);
    }
  }

  /** A refresh that begins, with a token that was handed out and ids never drawn before. */
  predicate Begun(s: State, s': State, tx: nat, t: Refreshing) {
    && tx !in s.refreshes && Fresh(s, t.access.id, t.refresh.id) && t.phase == Parsed
    && t.token.id in s.signed && s.signed[t.token.id] == t.token && t.token.original != []
    && t.access.user == t.token.user && t.access.scopes == t.token.original && t.access.original == []
    && t.refresh.user == t.token.user && t.refresh.original == t.token.original
    && s' == s.(used := s.used + {t.access.id, t.refresh.id}, refreshes := s.refreshes[tx := t])
  }

  lemma BegunRefresh(s: State, s': State, tx: nat, t: Refreshing, u: nat)
    requires Begun(s, s', tx, t) && s.signed.Keys <= s.used && u in s'.refreshes && (u != tx ==> RefreshOk(s, u))
    ensures RefreshOk(s', u)
  {
  }

  lemma BegunApart(s: State, s': State, tx: nat, t: Refreshing, u: nat, v: nat)
    requires RefreshesOk(s) && Begun(s, s', tx, t) && u in s'.refreshes && v in s'.refreshes && u != v
    ensures Apart(s', u, v)
  {
    if u == tx {
      assert RefreshOk(s, v);
    } else if v == tx {
      assert RefreshOk(s, u);
    } else {
      assert Apart(s, u, v);
    }
  }

  lemma BegunRefreshes(s: State, s': State, tx: nat, t: Refreshing)
    requires RefreshesOk(s) && Begun(s, s', tx, t) && s.signed.Keys <= s.used
    ensures RefreshesOk(s')
  {
    forall u | u in s'.refreshes ensures RefreshOk(s', u) {
      BegunRefresh(s, s', tx, t, u);
    }
    forall u, v | u in s'.refreshes && v in s'.refreshes && u != v ensures Apart(s', u, v) {
      BegunApart(s, s', tx, t, u, v);
    }
  }

  lemma SignedIsUsed(s: State)
    requires TokensOk(s)
    ensures s.signed.Keys <= s.used
  {
    assert forall id | id in s.signed :: TokenOk(s, id);
  }

  lemma BeginKeeps(s: State, s': State, tx: nat, t: Refreshing)
    requires Inv(s) && Begun(s, s', tx, t)
    ensures Inv(s')
  {
    TokensUntouched(s, s');
    SignedIsUsed(s);
    BegunRefreshes(s, s', tx, t);
  }

  /** Another refresh, its row not touched. */
  lemma OtherRefresh(s: State, s': State, u: nat)
    requires u in s.refreshes && RefreshOk(s, u) && u in s'.refreshes && s'.refreshes[u] == s.refreshes[u]
    requires s' == s.(refreshes := s'.refreshes, locks := s'.locks)
    requires s.refreshes[u].phase == Locked ==>
             s.refreshes[u].token.id in s'.locks && s'.locks[s.refreshes[u].token.id] == u
    ensures RefreshOk(s', u)
  {
  }

  /** A refresh locks the row it needs. */
  lemma LockRefreshes(s: State, s': State, tx: nat, id: Jti)
    requires RefreshesOk(s) && tx in s.refreshes && s.refreshes[tx].phase == Parsed && s.refreshes[tx].token.id == id
    requires id !in s.locks && id in s.rows
    requires s' == s.(locks := s.locks[id := tx], refreshes := s.refreshes[tx := s.refreshes[tx].(phase := Locked)])
    ensures RefreshesOk(s')
  {
    forall u | u in s'.refreshes ensures RefreshOk(s', u) {
      assert RefreshOk(s, u);
      if u != tx {
        OtherRefresh(s, s', u);
      }
    }
    PhaseApart(s, s', tx);
  }

  /** A refresh ends without having rotated anything. */
  lemma FailRefreshes(s: State, s': State, tx: nat, error: Error)
    requires RefreshesOk(s) && tx in s.refreshes && !Won(s, tx) && error != NoError
    requires s' == End(s, tx, error).(
                    locks := if s.refreshes[tx].phase == Locked then s.locks - {s.refreshes[tx].token.id} else s.locks)
    ensures RefreshesOk(s')
  {
    assert RefreshOk(s, tx);
    forall u | u in s'.refreshes ensures RefreshOk(s', u) {
      assert RefreshOk(s, u);
      if u != tx {
        OtherRefresh(s, s', u);
      }
    }
    PhaseApart(s, s', tx);
  }

  lemma PhaseApart(s: State, s': State, tx: nat)
    requires tx in s.refreshes && forall u, v | u in s.refreshes && v in s.refreshes && u != v :: Apart(s, u, v)
    requires tx in s'.refreshes && s'.refreshes == s.refreshes[tx := s.refreshes[tx].(phase := s'.refreshes[tx].phase)]
    requires !Won(s', tx)
    ensures forall u, v | u in s'.refreshes && v in s'.refreshes && u != v :: Apart(s', u, v)
  {
    forall u, v | u in s'.refreshes && v in s'.refreshes && u != v ensures Apart(s', u, v) {
      assert Apart(s, u, v);
    }
  }

  /** Rows may only be revoked or deleted, and not locked ones. */
  ghost predicate Faded(s: State, rows: Rows) {
    && (forall id | id in rows :: id in s.rows && (Live(rows, id) ==> Live(s.rows, id)))
    && (forall id | id in s.locks && id in s.rows :: id in rows)
  }

  lemma FadedKeeps(s: State, rows: Rows, now: int)
    requires Inv(s) && Faded(s, rows)
    ensures Inv(s.(rows := rows, now := now))
  {
    var s' := s.(rows := rows, now := now);
    forall f, k | 0 <= f < |s'.chains| && 0 <= k < |s'.chains[f]| ensures LinkOk(s', f, k) {
      assert LinkOk(s, f, k);
    }
    forall id | id in s'.signed ensures TokenOk(s', id) {
      assert TokenOk(s, id);
    }
    forall tx | tx in s'.refreshes ensures RefreshOk(s', tx) {
      assert RefreshOk(s, tx);
    }
    forall t, u | t in s'.refreshes && u in s'.refreshes && t != u ensures Apart(s', t, u) {
      assert Apart(s, t, u);
    }
  }

  // ---------- A rotation ----------

  ghost predicate Rotates(s: State, tx: nat) {
    && tx in s.refreshes && s.refreshes[tx].phase == Locked
    && RotateError(s.rows, s.refreshes[tx].token.id, s.now) == NoError
  }

  /** Before the commit: the token to be rotated is the last of its chain. */
  ghost predicate Ready(s: State, tx: nat) {
    && Rotates(s, tx) && RefreshOk(s, tx)
    && var id := s.refreshes[tx].token.id;
       && s.family.Keys == s.signed.Keys && ChainOf(s, id) < |s.chains|
       && var chain := s.chains[ChainOf(s, id)];
          && chain != [] && chain[|chain| - 1].refresh == id
          && At(s, id, ChainOf(s, id), |chain| - 1)
  }

  lemma RotatesLast(s: State, tx: nat)
    requires Inv(s) && Rotates(s, tx)
    ensures Ready(s, tx)
  {
    assert RefreshOk(s, tx);
    var id := s.refreshes[tx].token.id;
    assert TokenOk(s, id);
    assert LinkOk(s, s.family[id], s.rank[id]);
  }

  lemma RotateKeepsLink(s: State, tx: nat, f: nat, k: nat)
    requires Ready(s, tx) && f < |s.chains| && k < |s.chains[f]| && LinkOk(s, f, k)
    ensures LinkOk(DoRotate(s, tx), f, k)
  {
  }

  lemma RotateAddsLink(s: State, tx: nat, f: nat)
    requires Ready(s, tx) && f == ChainOf(s, s.refreshes[tx].token.id)
    requires |s.chains[f]| > 0 && TokenOk(s, s.refreshes[tx].token.id) && LinkOk(s, f, |s.chains[f]| - 1)
    ensures LinkOk(DoRotate(s, tx), f, |s.chains[f]|)
  {
  }

  lemma RotateKeepsToken(s: State, tx: nat, id: Jti)
    requires Ready(s, tx) && id in DoRotate(s, tx).signed
    requires id in s.signed ==> TokenOk(s, id)
    ensures TokenOk(DoRotate(s, tx), id)
  {
  }

  lemma RotateLinks(s: State, tx: nat, f: nat, k: nat)
    requires TokensOk(s) && Ready(s, tx)
    requires f < |DoRotate(s, tx).chains| && k < |DoRotate(s, tx).chains[f]|
    ensures LinkOk(DoRotate(s, tx), f, k)
  {
    if k < |s.chains[f]| {
      RotateKeepsLink(s, tx, f, k);
    } else {
      RotateAddsLink(s, tx, f);
    }
  }

  lemma RotateTokens(s: State, tx: nat)
    requires TokensOk(s) && Ready(s, tx)
    ensures TokensOk(DoRotate(s, tx))
  {
    forall f, k | 0 <= f < |DoRotate(s, tx).chains| && 0 <= k < |DoRotate(s, tx).chains[f]|
      ensures LinkOk(DoRotate(s, tx), f, k)
    {
      RotateLinks(s, tx, f, k);
    }
    forall id | id in DoRotate(s, tx).signed ensures TokenOk(DoRotate(s, tx), id) {
      RotateKeepsToken(s, tx, id);
    }
  }

  lemma RotateKeepsRefresh(s: State, tx: nat, u: nat)
    requires Ready(s, tx) && u in s.refreshes && RefreshOk(s, u) && (u != tx ==> Apart(s, u, tx))
    requires s.locks.Keys <= s.rows.Keys
    ensures RefreshOk(DoRotate(s, tx), u)
  {
  }

  lemma RotateKeepsApart(s: State, tx: nat, t: nat, u: nat)
    requires Ready(s, tx) && t in s.refreshes && u in s.refreshes && t != u
    requires RefreshOk(s, t) && RefreshOk(s, u) && Apart(s, t, u)
    ensures Apart(DoRotate(s, tx), t, u)
  {
  }

  lemma RotateLocks(s: State, tx: nat)
    requires LocksOk(s) && Rotates(s, tx)
    ensures LocksOk(DoRotate(s, tx))
  {
  }

  lemma RotateRefreshes(s: State, tx: nat)
    requires RefreshesOk(s) && Ready(s, tx)
    ensures RefreshesOk(DoRotate(s, tx))
  {
    var s' := DoRotate(s, tx);
    forall u | u in s'.refreshes ensures RefreshOk(s', u) {
      RotateKeepsRefresh(s, tx, u);
    }
    forall t, u | t in s'.refreshes && u in s'.refreshes && t != u ensures Apart(s', t, u) {
      RotateKeepsApart(s, tx, t, u);
    }
    RotateLocks(s, tx);
  }

  lemma FinishKeeps(cfg: Config, s: State, tx: nat)
    requires Inv(s) && Enabled(cfg, s, Finish(tx))
    ensures Inv(Next(cfg, s, Finish(tx)))
  {
    var s' := Next(cfg, s, Finish(tx));
    if Rotates(s, tx) {
      RotatesLast(s, tx);
      RotateTokens(s, tx);
      RotateRefreshes(s, tx);
    } else {
      TokensUntouched(s, s');
      FailRefreshes(s, s', tx, RotateError(s.rows, s.refreshes[tx].token.id, s.now));
    }
  }

  lemma LockRowFails(cfg: Config, s: State, tx: nat)
    requires Inv(s) && Enabled(cfg, s, LockRow(tx)) && Next(cfg, s, LockRow(tx)).refreshes[tx].phase != Locked
    ensures Inv(Next(cfg, s, LockRow(tx)))
  {
    TokensUntouched(s, Next(cfg, s, LockRow(tx)));
    FailRefreshes(s, Next(cfg, s, LockRow(tx)), tx, InvalidToken);
  }

  lemma LockRowKeeps(cfg: Config, s: State, tx: nat)
    requires Inv(s) && Enabled(cfg, s, LockRow(tx))
    ensures Inv(Next(cfg, s, LockRow(tx)))
  {
    if Next(cfg, s, LockRow(tx)).refreshes[tx].phase == Locked {
      TokensUntouched(s, Next(cfg, s, LockRow(tx)));
      LockRefreshes(s, Next(cfg, s, LockRow(tx)), tx, s.refreshes[tx].token.id);
    } else {
      LockRowFails(cfg, s, tx);
    }
  }

  lemma StepKeeps(cfg: Config, s: State, step: Step)
    requires Inv(s) && Enabled(cfg, s, step)
    ensures Inv(Next(cfg, s, step))
  {
    var s' := Next(cfg, s, step);
    match step
    case Generate(user, scopes, ttl, a, r) =>
      var pair := GeneratePair(cfg, user, scopes, ttl, s.now, a, r);
      GenerateTokens(s, pair.access, pair.refresh);
      GenerateRefreshes(s, pair.access, pair.refresh);
    case Begin(tx, _, _, _) => BeginKeeps(s, s', tx, s'.refreshes[tx]);
    case LockRow(tx) => LockRowKeeps(cfg, s, tx);
    case Finish(tx) => FinishKeeps(cfg, s, tx);
    case _ => FadedKeeps(s, s'.rows, s'.now);
  }

  lemma {:induction false} RunKeeps(cfg: Config, s: State, steps: seq<Step>)
    requires Inv(s) && Possible(cfg, s, steps)
    ensures Inv(Run(cfg, s, steps))
    decreases |steps|
  {
    if steps == [] {
    } else {
      StepKeeps(cfg, s, steps[0]);
      RunKeeps(cfg, Next(cfg, s, steps[0]), steps[1..]);
    }
  }

  /** The commit does to the table what the repository's transaction is specified to do, however long
      after the token was read. */
  lemma FinishIsTransaction(cfg: Config, s: State, tx: nat)
    requires Inv(s) && Enabled(cfg, s, Finish(tx))
    ensures var t, s' := s.refreshes[tx], Next(cfg, s, Finish(tx));
            && Insertable(s.rows, t.refresh.id, t.access.id)
            && t.token.id in s.rows
            && s'.rows == (if RotateError(s.rows, t.token.id, s.now) != NoError then s.rows
                           else RotateRows(s.rows, t.token.id, t.refresh.id, RefreshRow(t.access, t.refresh),
                                           t.access.id, AccessRow(t.access), s.now))
            && s'.refreshes[tx].phase == Ended(RotateError(s.rows, t.token.id, s.now))
  {
    assert RefreshOk(s, tx);
  }

  // ---------- What every run of overlapping refreshes gives ----------

  /** No two refreshes, however they overlap, both replace the same token. */
  lemma RotatesAtMostOnce(cfg: Config, steps: seq<Step>, t: nat, u: nat)
    requires Possible(cfg, Init(), steps)
    requires var s := Run(cfg, Init(), steps);
             t != u && Won(s, t) && Won(s, u)
    ensures var s := Run(cfg, Init(), steps);
            s.refreshes[t].token.id != s.refreshes[u].token.id
  {
    RunKeeps(cfg, Init(), steps);
    assert Apart(Run(cfg, Init(), steps), t, u);
  }

  /** A refresh that succeeds puts its pair right after the token it replaced, so descent from one
      call to GenerateTokenPair never forks. */
  lemma SuccessorsFollow(cfg: Config, steps: seq<Step>, tx: nat)
    requires Possible(cfg, Init(), steps) && Won(Run(cfg, Init(), steps), tx)
    ensures var s := Run(cfg, Init(), steps);
            var t := s.refreshes[tx];
            && t.token.id in s.family && t.token.id in s.rank
            && var f, k := s.family[t.token.id], s.rank[t.token.id];
               && f < |s.chains| && k + 1 < |s.chains[f]|
               && s.chains[f][k].refresh == t.token.id && s.chains[f][k + 1].refresh == t.refresh.id
  {
    RunKeeps(cfg, Init(), steps);
    var s := Run(cfg, Init(), steps);
    var t := s.refreshes[tx];
    assert RefreshOk(s, tx);
    assert TokenOk(s, t.token.id);
    assert TokenOk(s, t.refresh.id);
  }

  /** At most one refresh token of a chain is still good: the last. */
  lemma OneLiveRefresh(cfg: Config, steps: seq<Step>, f: nat, k: nat)
    requires Possible(cfg, Init(), steps)
    requires var s := Run(cfg, Init(), steps);
             f < |s.chains| && k < |s.chains[f]| && Live(s.rows, s.chains[f][k].refresh)
    ensures k == |Run(cfg, Init(), steps).chains[f]| - 1
  {
    RunKeeps(cfg, Init(), steps);
    assert LinkOk(Run(cfg, Init(), steps), f, k);
  }

  /** Refreshing never changes whose the tokens are or what they allow. */
  lemma ChainKeepsScopes(cfg: Config, steps: seq<Step>, f: nat, k: nat)
    requires Possible(cfg, Init(), steps)
    requires var s := Run(cfg, Init(), steps); f < |s.chains| && k < |s.chains[f]|
    ensures var s := Run(cfg, Init(), steps);
            var access, first := s.chains[f][k].access, s.chains[f][0].access;
            && access in s.signed && first in s.signed
            && s.signed[access].user == s.signed[first].user && s.signed[access].scopes == s.signed[first].scopes
  {
    RunKeeps(cfg, Init(), steps);
    assert LinkOk(Run(cfg, Init(), steps), f, k);
  }

  // ---------- Revocation under overlap ----------

  lemma DeadStaysDead(cfg: Config, s: State, step: Step, id: Jti)
    requires Enabled(cfg, s, step) && id in s.signed && !Live(s.rows, id) && id in s.used
    requires step.Finish? ==> RefreshOk(s, step.tx)
    ensures id in Next(cfg, s, step).signed && !Live(Next(cfg, s, step).rows, id)
  {
  }

  lemma WinnersWereLive(cfg: Config, s: State, step: Step, tx: nat)
    requires Enabled(cfg, s, step) && Won(Next(cfg, s, step), tx) && !Won(s, tx)
    ensures tx in s.refreshes && Live(s.rows, s.refreshes[tx].token.id)
    ensures Next(cfg, s, step).refreshes[tx].token == s.refreshes[tx].token
  {
  }

  lemma RefreshesUntouched(cfg: Config, s: State, step: Step)
    requires Enabled(cfg, s, step) && !step.Begin? && !step.LockRow? && !step.Finish?
    ensures Next(cfg, s, step).refreshes == s.refreshes
  {
  }

  lemma WinnersKeepTokens(cfg: Config, s: State, step: Step, tx: nat)
    requires Enabled(cfg, s, step) && Won(s, tx)
    ensures tx in Next(cfg, s, step).refreshes && Next(cfg, s, step).refreshes[tx].token == s.refreshes[tx].token
  {
    if !step.Begin? && !step.LockRow? && !step.Finish? {
      RefreshesUntouched(cfg, s, step);
    }
  }

  /** A refresh token revoked or deleted is never rotated again, not even by a refresh that had
      already read it when it was revoked. */
  lemma {:induction false} DeadNeverRotates(cfg: Config, s: State, steps: seq<Step>, id: Jti, tx: nat)
    requires Inv(s) && Possible(cfg, s, steps) && id in s.signed && !Live(s.rows, id)
    ensures var s' := Run(cfg, s, steps);
            && !Live(s'.rows, id)
            && (Won(s', tx) && s'.refreshes[tx].token.id == id ==> Won(s, tx) && s.refreshes[tx].token.id == id)
    decreases |steps|
  {
    if steps == [] {
    } else {
      var s1 := Next(cfg, s, steps[0]);
      assert TokenOk(s, id);
      DeadStaysDead(cfg, s, steps[0], id);
      StepKeeps(cfg, s, steps[0]);
      DeadNeverRotates(cfg, s1, steps[1..], id, tx);
      if Won(s, tx) {
        WinnersKeepTokens(cfg, s, steps[0], tx);
      } else if Won(s1, tx) {
        WinnersWereLive(cfg, s, steps[0], tx);
      }
    }
  }

  // ---------- Revoking all tokens of a user under overlap ----------

  /** A row says what its token says. */
  ghost predicate RowOk(s: State, id: Jti)
    requires id in s.rows
  {
    && id in s.signed && s.rows[id].user == s.signed[id].user && s.rows[id].expiresAt == s.signed[id].expiresAt
    && (s.rows[id].use == Refresh <==> s.signed[id].original != [])
  }

  ghost predicate RowsOk(s: State) {
    forall id | id in s.rows :: RowOk(s, id)
  }

  lemma GenerateRows(s: State, access: Claims, refresh: Claims)
    requires RowsOk(s) && access.original == [] && refresh.original != [] && access.id != refresh.id
    ensures RowsOk(DoGenerate(s, access, refresh))
  {
    forall id | id in DoGenerate(s, access, refresh).rows ensures RowOk(DoGenerate(s, access, refresh), id) {
      assert id in s.rows ==> RowOk(s, id);
    }
  }

  lemma RotateRowsOk(s: State, tx: nat)
    requires RowsOk(s) && tx in s.refreshes && RefreshOk(s, tx) && s.refreshes[tx].token.id in s.rows
    ensures RowsOk(DoRotate(s, tx))
  {
    forall id | id in DoRotate(s, tx).rows ensures RowOk(DoRotate(s, tx), id) {
      assert id in s.rows ==> RowOk(s, id);
    }
  }

  /** Rows may only lose their unrevoked state or go. */
  lemma FadingRows(s: State, rows: Rows)
    requires RowsOk(s)
    requires forall id | id in rows :: id in s.rows && rows[id] == s.rows[id].(revokedAt := rows[id].revokedAt)
    ensures forall now, refreshes, locks, used ::
              RowsOk(s.(rows := rows, now := now, refreshes := refreshes, locks := locks, used := used))
  {
    assert forall id | id in rows :: RowOk(s, id);
  }

  lemma StepRows(cfg: Config, s: State, step: Step)
    requires Inv(s) && RowsOk(s) && Enabled(cfg, s, step)
    ensures RowsOk(Next(cfg, s, step))
  {
    match step
    case Generate(user, scopes, ttl, a, r) =>
      var pair := GeneratePair(cfg, user, scopes, ttl, s.now, a, r);
      GenerateRows(s, pair.access, pair.refresh);
    case Finish(tx) =>
      assert RefreshOk(s, tx);
      if Rotates(s, tx) {
        RotateRowsOk(s, tx);
      } else {
        FadingRows(s, s.rows);
      }
    case _ => FadingRows(s, Next(cfg, s, step).rows);
  }

  lemma {:induction false} RunRows(cfg: Config, s: State, steps: seq<Step>)
    requires Inv(s) && RowsOk(s) && Possible(cfg, s, steps)
    ensures Inv(Run(cfg, s, steps)) && RowsOk(Run(cfg, s, steps))
    decreases |steps|
  {
    if steps == [] {
    } else {
      StepKeeps(cfg, s, steps[0]);
      StepRows(cfg, s, steps[0]);
      RunRows(cfg, Next(cfg, s, steps[0]), steps[1..]);
    }
  }

  /** A refresh that has read its token and is yet to end. */
  predicate Pending(s: State, tx: nat) {
    tx in s.refreshes && !s.refreshes[tx].phase.Ended?
  }

  /** A refresh under way whose token expires at this very moment: too old to be revoked with the
      others, and just young enough to be rotated. */
  ghost predicate Late(s: State, user: string, tx: nat) {
    && Pending(s, tx)
    && var id := s.refreshes[tx].token.id;
       Live(s.rows, id) && s.rows[id].user == user && s.rows[id].expiresAt == s.now == Whole(s.now)
  }

  /** The token will not be rotated any more: dead, or expired before now, or expiring now with no
      refresh under way that has read it. */
  ghost predicate Spent(s: State, id: Jti) {
    || !Live(s.rows, id) || s.rows[id].expiresAt < s.now
    || (s.rows[id].expiresAt == s.now && forall tx | Pending(s, tx) :: s.refreshes[tx].token.id != id)
  }

  lemma SpentNotRotated(s: State, tx: nat)
    requires tx in s.refreshes && s.refreshes[tx].phase == Locked && Spent(s, s.refreshes[tx].token.id)
    ensures RotateError(s.rows, s.refreshes[tx].token.id, s.now) != NoError
  {
    assert Pending(s, tx);
  }

  lemma RevokeUserSpends(cfg: Config, s: State, user: string, id: Jti)
    requires RowsOk(s) && Enabled(cfg, s, RevokeUser(user)) && id in s.signed && s.signed[id].user == user
    requires forall tx :: !Late(s, user, tx)
    ensures Spent(Next(cfg, s, RevokeUser(user)), id)
  {
    if id in s.rows {
      assert RowOk(s, id);
      assert forall tx :: !Late(s, user, tx) && (Pending(Next(cfg, s, RevokeUser(user)), tx) <==> Pending(s, tx));
    }
  }

  /** The row of a token handed out before keeps its expiry, and does not come back to life. */
  lemma RowKept(cfg: Config, s: State, step: Step, id: Jti)
    requires Enabled(cfg, s, step) && id in s.signed && id in s.used && Live(Next(cfg, s, step).rows, id)
    requires step.Finish? ==> RefreshOk(s, step.tx)
    ensures Live(s.rows, id) && Next(cfg, s, step).rows[id].expiresAt == s.rows[id].expiresAt
  {
  }

  lemma ClockKept(cfg: Config, s: State, step: Step)
    requires Enabled(cfg, s, step)
    ensures s.now <= Next(cfg, s, step).now
  {
  }

  /** A refresh under way was so before, or has just begun with a token that has not expired. */
  lemma PendingWas(cfg: Config, s: State, step: Step, tx: nat)
    requires Enabled(cfg, s, step) && Pending(Next(cfg, s, step), tx)
    ensures || (Pending(s, tx) && Next(cfg, s, step).refreshes[tx].token == s.refreshes[tx].token)
            || (step.Begin? && Next(cfg, s, step).refreshes[tx].token == step.token
                && step.token.id in s.signed && s.signed[step.token.id] == step.token && s.now < step.token.expiresAt)
  {
  }

  lemma SpentStays(cfg: Config, s: State, step: Step, id: Jti)
    requires Inv(s) && RowsOk(s) && Enabled(cfg, s, step) && id in s.signed && Spent(s, id)
    ensures Spent(Next(cfg, s, step), id)
  {
    var s' := Next(cfg, s, step);
    assert TokenOk(s, id);
    assert step.Finish? ==> RefreshOk(s, step.tx);
    if Live(s'.rows, id) {
      RowKept(cfg, s, step, id);
      ClockKept(cfg, s, step);
      assert RowOk(s, id);
      forall tx | Pending(s', tx) ensures s.rows[id].expiresAt == s.now ==> s'.refreshes[tx].token.id != id {
        PendingWas(cfg, s, step, tx);
      }
    }
  }

  /** The chain holds tokens of the user. */
  ghost predicate Theirs(s: State, user: string, f: nat) {
    && f < |s.chains| && s.chains[f] != [] && s.chains[f][0].access in s.signed
    && s.signed[s.chains[f][0].access].user == user
  }

  /** No token is left in the chain that will be rotated. */
  ghost predicate SpentChain(s: State, f: nat) {
    && f < |s.chains|
    && forall k | 0 <= k < |s.chains[f]| ::
         s.chains[f][k].refresh in s.signed && Spent(s, s.chains[f][k].refresh)
  }

  lemma QuietChains(cfg: Config, s: State, step: Step, f: nat)
    requires Enabled(cfg, s, step) && f < |s.chains| && (step.Finish? ==> !Rotates(s, step.tx))
    ensures f < |Next(cfg, s, step).chains| && Next(cfg, s, step).chains[f] == s.chains[f]
  {
  }

  /** A rotation adds to the chain of the token it replaces, and to no other. */
  lemma RotatedChain(s: State, tx: nat, f: nat)
    requires Ready(s, tx) && f < |s.chains|
    ensures var s', t, g := DoRotate(s, tx), s.refreshes[tx], ChainOf(s, s.refreshes[tx].token.id);
            && f < |s'.chains|
            && s'.chains[f] == if f == g then s.chains[f] + [Link(t.access.id, t.refresh.id)] else s.chains[f]
  {
  }

  lemma RotatesElsewhere(s: State, tx: nat, f: nat)
    requires Inv(s) && SpentChain(s, f)
    ensures Rotates(s, tx) ==> Ready(s, tx) && ChainOf(s, s.refreshes[tx].token.id) != f
  {
    if tx in s.refreshes && s.refreshes[tx].phase == Locked {
      var id := s.refreshes[tx].token.id;
      if exists k | 0 <= k < |s.chains[f]| :: s.chains[f][k].refresh == id {
        SpentNotRotated(s, tx);
      } else if Rotates(s, tx) {
        RotatesLast(s, tx);
      }
    }
  }

  lemma SpentChainKept(cfg: Config, s: State, step: Step, f: nat)
    requires Inv(s) && Enabled(cfg, s, step) && SpentChain(s, f)
    ensures f < |Next(cfg, s, step).chains| && Next(cfg, s, step).chains[f] == s.chains[f]
  {
    if step.Finish? && Rotates(s, step.tx) {
      RotatesElsewhere(s, step.tx, f);
      RotatedChain(s, step.tx, f);
    } else {
      QuietChains(cfg, s, step, f);
    }
  }

  lemma SignedKept(cfg: Config, s: State, step: Step, id: Jti)
    requires Enabled(cfg, s, step) && id in s.signed
    ensures id in Next(cfg, s, step).signed
  {
  }

  lemma {:induction false} SpentChainStays(cfg: Config, s: State, steps: seq<Step>, f: nat)
    requires Inv(s) && RowsOk(s) && Possible(cfg, s, steps) && SpentChain(s, f)
    ensures f < |Run(cfg, s, steps).chains| && Run(cfg, s, steps).chains[f] == s.chains[f]
    decreases |steps|
  {
    if steps == [] {
    } else {
      var s' := Next(cfg, s, steps[0]);
      SpentChainKept(cfg, s, steps[0], f);
      forall k | 0 <= k < |s'.chains[f]|
        ensures s'.chains[f][k].refresh in s'.signed && Spent(s', s'.chains[f][k].refresh)
      {
        SpentStays(cfg, s, steps[0], s.chains[f][k].refresh);
        SignedKept(cfg, s, steps[0], s.chains[f][k].refresh);
      }
      StepKeeps(cfg, s, steps[0]);
      StepRows(cfg, s, steps[0]);
      SpentChainStays(cfg, s', steps[1..], f);
    }
  }

  lemma RevokeUserSpendsChain(cfg: Config, s: State, user: string, f: nat)
    requires Inv(s) && RowsOk(s) && Enabled(cfg, s, RevokeUser(user)) && Theirs(s, user, f)
    requires forall tx :: !Late(s, user, tx)
    ensures SpentChain(Next(cfg, s, RevokeUser(user)), f)
  {
    forall k | 0 <= k < |s.chains[f]|
      ensures s.chains[f][k].refresh in s.signed && Spent(Next(cfg, s, RevokeUser(user)), s.chains[f][k].refresh)
    {
      assert LinkOk(s, f, k);
      RevokeUserSpends(cfg, s, user, s.chains[f][k].refresh);
    }
  }

  /** A chain that was there grows in the run. */
  ghost predicate Grows(cfg: Config, s: State, steps: seq<Step>, f: nat, chain: seq<Link>) {
    && Possible(cfg, s, steps) && f < |Run(cfg, s, steps).chains| && chain < Run(cfg, s, steps).chains[f]
  }

  lemma RunStep(cfg: Config, s: State, step: Step, rest: seq<Step>)
    requires Enabled(cfg, s, step) && Possible(cfg, Next(cfg, s, step), rest)
    ensures Possible(cfg, s, [step] + rest) && Run(cfg, s, [step] + rest) == Run(cfg, Next(cfg, s, step), rest)
  {
    assert ([step] + rest)[1..] == rest;
  }

  /** With its row locked, a refresh of a token that expires now goes through. */
  lemma LockedGrows(cfg: Config, s: State, tx: nat) returns (f: nat)
    requires Inv(s) && RowsOk(s) && tx in s.refreshes && s.refreshes[tx].phase == Locked
    requires Live(s.rows, s.refreshes[tx].token.id) && s.rows[s.refreshes[tx].token.id].expiresAt == s.now
    ensures Theirs(s, s.rows[s.refreshes[tx].token.id].user, f)
    ensures Grows(cfg, s, [Finish(tx)] + [], f, s.chains[f])
  {
    var id := s.refreshes[tx].token.id;
    assert RefreshOk(s, tx) && RowOk(s, id);
    RotatesLast(s, tx);
    f := ChainOf(s, id);
    assert LinkOk(s, f, |s.chains[f]| - 1);
    RotatedChain(s, tx, f);
    RunStep(cfg, s, Finish(tx), []);
  }

  lemma LockTaken(cfg: Config, s: State, tx: nat)
    requires Inv(s) && RowsOk(s) && tx in s.refreshes && s.refreshes[tx].phase == Parsed
    requires s.refreshes[tx].token.id in s.rows && s.refreshes[tx].token.id !in s.locks
    ensures Enabled(cfg, s, LockRow(tx))
    ensures Next(cfg, s, LockRow(tx)) == s.(locks := s.locks[s.refreshes[tx].token.id := tx],
                                            refreshes := s.refreshes[tx := s.refreshes[tx].(phase := Locked)])
  {
    assert RefreshOk(s, tx) && RowOk(s, s.refreshes[tx].token.id);
  }

  lemma LateGrows(cfg: Config, s: State, user: string, tx: nat) returns (steps: seq<Step>, f: nat)
    requires Inv(s) && RowsOk(s) && Late(s, user, tx)
    ensures Theirs(s, user, f)
    ensures Grows(cfg, s, steps, f, s.chains[f])
  {
    var id := s.refreshes[tx].token.id;
    if s.refreshes[tx].phase == Locked {
      f := LockedGrows(cfg, s, tx);
      steps := [Finish(tx)] + [];
    } else if id in s.locks {
      var holder := s.locks[id];
      f := LockedGrows(cfg, s, holder);
      steps := [Finish(holder)] + [];
    } else {
      LockTaken(cfg, s, tx);
      StepKeeps(cfg, s, LockRow(tx));
      StepRows(cfg, s, LockRow(tx));
      f := LockedGrows(cfg, Next(cfg, s, LockRow(tx)), tx);
      RunStep(cfg, s, LockRow(tx), [Finish(tx)] + []);
      steps := [LockRow(tx)] + ([Finish(tx)] + []);
    }
  }

  lemma LateStays(cfg: Config, s: State, user: string, tx: nat)
    requires Enabled(cfg, s, RevokeUser(user)) && Late(s, user, tx)
    ensures Late(Next(cfg, s, RevokeUser(user)), user, tx)
  {
  }

  lemma RevokeUserQuiet(cfg: Config, s: State, user: string, f: nat)
    requires Enabled(cfg, s, RevokeUser(user))
    ensures Next(cfg, s, RevokeUser(user)).chains == s.chains
    ensures Theirs(Next(cfg, s, RevokeUser(user)), user, f) <==> Theirs(s, user, f)
  {
  }

  /** Some run after the call makes a chain of the user longer. */
  ghost predicate MayGrow(cfg: Config, s: State, user: string) {
    exists steps, f: nat :: Theirs(s, user, f) && Grows(cfg, s, steps, f, s.chains[f])
  }

  lemma LateMayGrow(cfg: Config, s: State, user: string, tx: nat)
    requires Inv(s) && RowsOk(s) && Enabled(cfg, s, RevokeUser(user)) && Late(s, user, tx)
    ensures MayGrow(cfg, Next(cfg, s, RevokeUser(user)), user)
  {
    LateStays(cfg, s, user, tx);
    StepKeeps(cfg, s, RevokeUser(user));
    StepRows(cfg, s, RevokeUser(user));
    var steps, f := LateGrows(cfg, Next(cfg, s, RevokeUser(user)), user, tx);
  }

  lemma RevokedEnded(cfg: Config, s: State, user: string)
    requires Inv(s) && RowsOk(s) && Enabled(cfg, s, RevokeUser(user)) && forall tx :: !Late(s, user, tx)
    ensures !MayGrow(cfg, Next(cfg, s, RevokeUser(user)), user)
  {
    var s' := Next(cfg, s, RevokeUser(user));
    StepKeeps(cfg, s, RevokeUser(user));
    StepRows(cfg, s, RevokeUser(user));
    forall steps, f: nat | Theirs(s', user, f) && Possible(cfg, s', steps)
      ensures !Grows(cfg, s', steps, f, s'.chains[f])
    {
      RevokeUserQuiet(cfg, s, user, f);
      RevokeUserSpendsChain(cfg, s, user, f);
      SpentChainStays(cfg, s', steps, f);
    }
  }

  /** However refreshes overlap with it, revoking all tokens of a user ends every chain of the user for
      good, unless a refresh is under way whose token expires at that very moment: then, and only
      then, one may still grow. */
  lemma RevokeUserEndsIff(cfg: Config, before: seq<Step>, user: string)
    requires Possible(cfg, Init(), before) && Enabled(cfg, Run(cfg, Init(), before), RevokeUser(user))
    ensures var s := Run(cfg, Init(), before);
            MayGrow(cfg, Next(cfg, s, RevokeUser(user)), user) <==> exists tx :: Late(s, user, tx)
  {
    RunRows(cfg, Init(), before);
    var s := Run(cfg, Init(), before);
    if tx :| Late(s, user, tx) {
      LateMayGrow(cfg, s, user, tx);
    } else {
      RevokedEnded(cfg, s, user);
    }
  }

  lemma RunThree(cfg: Config, s: State, steps: seq<Step>)
    requires |steps| == 3 && Enabled(cfg, s, steps[0]) && Enabled(cfg, Next(cfg, s, steps[0]), steps[1])
    requires Enabled(cfg, Next(cfg, Next(cfg, s, steps[0]), steps[1]), steps[2])
    ensures Possible(cfg, s, steps)
    ensures Run(cfg, s, steps) == Next(cfg, Next(cfg, Next(cfg, s, steps[0]), steps[1]), steps[2])
  {
    var s1 := Next(cfg, s, steps[0]);
    var s2 := Next(cfg, s1, steps[1]);
    RunStep(cfg, s2, steps[2], []);
    RunStep(cfg, s1, steps[1], [steps[2]] + []);
    RunStep(cfg, s, steps[0], [steps[1]] + ([steps[2]] + []));
    assert steps == [steps[0]] + ([steps[1]] + ([steps[2]] + []));
  }

  /** A refresh that has begun and waits until its token expires is late. */
  lemma WaitingIsLate(cfg: Config, s: State, tx: nat, token: Claims, a: Jti, r: Jti)
    requires Enabled(cfg, s, Begin(tx, token, a, r)) && token.id in s.rows && Live(s.rows, token.id)
    requires s.rows[token.id].user == token.user && s.rows[token.id].expiresAt == token.expiresAt
    requires Whole(token.expiresAt) == token.expiresAt && s.locks == map[]
    ensures var s' := Next(cfg, Next(cfg, s, Begin(tx, token, a, r)), Step.Tick(token.expiresAt - s.now));
            Late(s', token.user, tx) && Enabled(cfg, s', RevokeUser(token.user))
  {
  }

  lemma YoungToken(cfg: Config, token: Claims)
    requires cfg == Config(SECOND, 2 * SECOND, "refresh")
    requires token == GeneratePair(cfg, "user", ["scope"], 0, 0, "a", "r").refresh
    ensures Enabled(cfg, Init(), Step.Generate("user", ["scope"], 0, "a", "r"))
    ensures var s := Next(cfg, Init(), Step.Generate("user", ["scope"], 0, "a", "r"));
            && Enabled(cfg, s, Begin(1, token, "b", "q")) && s.now == 0 && s.locks == map[]
            && Live(s.rows, "r") && s.rows["r"].user == "user" && s.rows["r"].expiresAt == 2 * SECOND
            && Whole(2 * SECOND) == 2 * SECOND == token.expiresAt && token.id == "r" && token.user == "user"
  {
    assert Whole(0) == 0 && Whole(2 * SECOND) == 2 * SECOND;
  }

  /** A refresh begins with a token that has two seconds to live; when all tokens of the user are revoked
      two seconds later, it can still go through. */
  lemma RevokeUserOvertaken(cfg: Config)
    requires cfg == Config(SECOND, 2 * SECOND, "refresh")
    ensures var token := GeneratePair(cfg, "user", ["scope"], 0, 0, "a", "r").refresh;
            var steps := [Step.Generate("user", ["scope"], 0, "a", "r"), Begin(1, token, "b", "q"),
                          Step.Tick(2 * SECOND)];
            && Possible(cfg, Init(), steps) && Enabled(cfg, Run(cfg, Init(), steps), RevokeUser("user"))
            && MayGrow(cfg, Next(cfg, Run(cfg, Init(), steps), RevokeUser("user")), "user")
  {
    var token := GeneratePair(cfg, "user", ["scope"], 0, 0, "a", "r").refresh;
    var steps := [Step.Generate("user", ["scope"], 0, "a", "r"), Begin(1, token, "b", "q"), Step.Tick(2 * SECOND)];
    YoungToken(cfg, token);
    WaitingIsLate(cfg, Next(cfg, Init(), steps[0]), 1, token, "b", "q");
    RunThree(cfg, Init(), steps);
    RevokeUserEndsIff(cfg, steps, "user");
  }

  // ---------- Against the service, one call after the other ----------

  function CallOf(step: Step): Call
    requires !step.Begin? && !step.LockRow? && !step.Finish?
  {
    match step
    case Generate(user, scopes, ttl, a, r) => Call.Generate(user, scopes, ttl, a, r)
    case Revoke(user, jti) => RevokeToken(user, jti)
    case RevokeUser(user) => RevokeByUser(user)
    case Clean(maxAge) => Cleanup(maxAge)
    case Tick(time) => Call.Tick(time)
  }

  lemma GenerateIsCall(cfg: Config, s: State, step: Step)
    requires s.rows.Keys <= s.used && Enabled(cfg, s, step) && step.Generate?
    ensures AsWorld(Next(cfg, s, step)) == TokenService.Step(cfg, AsWorld(s), CallOf(step)).0
  {
  }

  /** Every step but those of a refresh is a call to the service. */
  lemma OtherStepsAreCalls(cfg: Config, s: State, step: Step)
    requires Inv(s) && Enabled(cfg, s, step) && !step.Begin? && !step.LockRow? && !step.Finish?
    ensures AsWorld(Next(cfg, s, step)) == TokenService.Step(cfg, AsWorld(s), CallOf(step)).0
  {
    SignedIsUsed(s);
    if step.Generate? {
      GenerateIsCall(cfg, s, step);
    }
  }

  /** A revocation or a cleanup waits if and only if it would change or delete a row that is locked. */
  lemma WaitsIff(cfg: Config, s: State, step: Step)
    requires step.Revoke? || step.RevokeUser? || step.Clean?
    ensures var rows := TokenService.Step(cfg, AsWorld(s), CallOf(step)).0.rows;
            Enabled(cfg, s, step) <==>
            forall id | id in s.locks && id in s.rows :: id in rows && rows[id] == s.rows[id]
  {
    var rows := TokenService.Step(cfg, AsWorld(s), CallOf(step)).0.rows;
    forall id | id in s.rows
      ensures step.Revoke? ==> (rows[id] != s.rows[id] <==> RevokeHits(s.rows[id], id, step.jti, step.user))
      ensures step.RevokeUser? ==> (rows[id] != s.rows[id] <==> RevokeByUserHits(s.rows[id], step.user, s.now))
    {
    }
  }

  /** A refresh begins with any refresh token that was handed out and is in its time; it waits for the lock of its
      row, and ends only with it or without the row. */
  lemma RefreshGates(cfg: Config, s: State, tx: nat, token: Claims, a: Jti, r: Jti)
    requires tx !in s.refreshes && Fresh(s, a, r) && token.user != ""
    ensures Enabled(cfg, s, Begin(tx, token, a, r)) <==>
            && token.id in s.signed && s.signed[token.id] == token && token.issuedAt <= s.now < token.expiresAt
            && token.original != [] && cfg.accessTTL >= 0
    ensures forall u | u in s.refreshes ::
              && (Enabled(cfg, s, LockRow(u)) <==>
                    s.refreshes[u].phase == Parsed && s.refreshes[u].token.id !in s.locks)
              && (Enabled(cfg, s, Finish(u)) <==> s.refreshes[u].phase == Locked)
  {
  }

  /** A refresh that nothing comes between. */
  function Alone(cfg: Config, s: State, tx: nat, token: Claims, a: Jti, r: Jti): State
    requires Enabled(cfg, s, Begin(tx, token, a, r)) && token.id !in s.locks
  {
    var s2 := Next(cfg, Next(cfg, s, Begin(tx, token, a, r)), LockRow(tx));
    if s2.refreshes[tx].phase.Ended? then s2 else Next(cfg, s2, Finish(tx))
  }

  lemma AloneLocks(cfg: Config, s: State, tx: nat, token: Claims, a: Jti, r: Jti)
    requires Enabled(cfg, s, Begin(tx, token, a, r)) && token.id !in s.locks
    ensures var s1 := Next(cfg, s, Begin(tx, token, a, r));
            var s2 := Next(cfg, s1, LockRow(tx));
            && s2.now == s.now && s2.rows == s.rows && s2.signed == s.signed && tx in s2.refreshes
            && s2.refreshes[tx].token == token
            && s2.refreshes[tx].access == s1.refreshes[tx].access
            && s2.refreshes[tx].refresh == s1.refreshes[tx].refresh
            && s2.refreshes[tx].phase ==
               if token.id !in s.rows || s.rows[token.id].use != Refresh then Ended(InvalidToken) else Locked
  {
  }

  lemma CommitEnds(cfg: Config, s: State, tx: nat)
    requires Enabled(cfg, s, Finish(tx)) && s.refreshes[tx].token.id in s.rows
    ensures var t, id := s.refreshes[tx], s.refreshes[tx].token.id;
            var error, s' := RotateError(s.rows, id, s.now), Next(cfg, s, Finish(tx));
            && s'.now == s.now && s'.refreshes[tx].phase == Ended(error)
            && s'.rows == (if error != NoError then s.rows
                           else WithPair(s.rows[id := s.rows[id].(revokedAt := Some(Whole(s.now)))], t.access,
                                         t.refresh))
            && s'.signed == if error != NoError then s.signed
                            else s.signed[t.access.id := t.access][t.refresh.id := t.refresh]
  {
  }

  lemma AloneEnds(cfg: Config, s: State, tx: nat, token: Claims, a: Jti, r: Jti)
    requires Enabled(cfg, s, Begin(tx, token, a, r)) && token.id !in s.locks
    ensures var error := RotateError(s.rows, token.id, s.now);
            var t := Next(cfg, s, Begin(tx, token, a, r)).refreshes[tx];
            var s' := Alone(cfg, s, tx, token, a, r);
            && s'.refreshes[tx].phase == Ended(error) && s'.now == s.now
            && (error != NoError ==> s'.rows == s.rows && s'.signed == s.signed)
            && (error == NoError ==>
                  && s'.rows == WithPair(s.rows[token.id := s.rows[token.id].(revokedAt := Some(Whole(s.now)))],
                                         t.access, t.refresh)
                  && s'.signed == s.signed[t.access.id := t.access][t.refresh.id := t.refresh])
  {
    AloneLocks(cfg, s, tx, token, a, r);
    var s2 := Next(cfg, Next(cfg, s, Begin(tx, token, a, r)), LockRow(tx));
    if s2.refreshes[tx].phase == Locked {
      CommitEnds(cfg, s2, tx);
    }
  }

  /** Left alone, reading the token, locking its row and committing amount to one call: the same table, the
      same tokens handed out, success in the same cases. */
  lemma AloneIsCall(cfg: Config, s: State, tx: nat, token: Claims, a: Jti, r: Jti)
    requires Inv(s) && Enabled(cfg, s, Begin(tx, token, a, r)) && token.id !in s.locks
    ensures var (w', res) := TokenService.Step(cfg, AsWorld(s), RefreshPair(token, a, r));
            && AsWorld(Alone(cfg, s, tx, token, a, r)) == w'
            && Alone(cfg, s, tx, token, a, r).refreshes[tx].phase ==
               Ended(if res.Failed? then res.error else NoError)
  {
    SignedIsUsed(s);
    AloneEnds(cfg, s, tx, token, a, r);
  }

  // ---------- What a refresh under way is answered, and where chains start ----------

  /** At its commit, however long after it read its token: a token revoked or rotated by then is a replay,
      even if it has expired too; one that has only expired is invalid; any other is rotated. */
  lemma FinishAnswers(cfg: Config, steps: seq<Step>, tx: nat)
    requires Possible(cfg, Init(), steps) && Enabled(cfg, Run(cfg, Init(), steps), Finish(tx))
    ensures var s := Run(cfg, Init(), steps);
            var id, s' := s.refreshes[tx].token.id, Next(cfg, s, Finish(tx));
            && id in s.rows
            && s'.refreshes[tx].phase == Ended(if s.rows[id].revokedAt.Some? then TokenReplay
                                               else if s.rows[id].expiresAt < s.now then InvalidToken
                                               else NoError)
            && (s'.refreshes[tx].phase != Ended(NoError) ==> s'.rows == s.rows && s'.signed == s.signed)
  {
    RunRows(cfg, Init(), steps);
    var s := Run(cfg, Init(), steps);
    assert RefreshOk(s, tx) && RowOk(s, s.refreshes[tx].token.id);
    CommitEnds(cfg, s, tx);
  }

  /** A chain that starts with the pair of one call to GenerateTokenPair, for that user and those scopes. */
  ghost predicate Starts(s: State, user: string, scopes: seq<string>, a: Jti, r: Jti, f: nat) {
    && f < |s.chains| && s.chains[f] != [] && s.chains[f][0] == Link(a, r)
    && a in s.signed && s.signed[a].user == user && s.signed[a].scopes == scopes
  }

  lemma ChainsGrow(cfg: Config, s: State, step: Step, f: nat)
    requires Inv(s) && Enabled(cfg, s, step) && f < |s.chains|
    ensures f < |Next(cfg, s, step).chains| && s.chains[f] <= Next(cfg, s, step).chains[f]
  {
    if step.Finish? && Rotates(s, step.tx) {
      RotatesLast(s, step.tx);
      RotatedChain(s, step.tx, f);
    } else {
      QuietChains(cfg, s, step, f);
    }
  }

  lemma ClaimsKept(cfg: Config, s: State, step: Step, id: Jti)
    requires Enabled(cfg, s, step) && id in s.signed && id in s.used
    requires step.Finish? ==> RefreshOk(s, step.tx)
    ensures id in Next(cfg, s, step).signed && Next(cfg, s, step).signed[id] == s.signed[id]
  {
  }

  lemma {:induction false} StartsStays(cfg: Config, s: State, steps: seq<Step>, user: string, scopes: seq<string>,
                                       a: Jti, r: Jti, f: nat)
    requires Inv(s) && Possible(cfg, s, steps) && Starts(s, user, scopes, a, r, f)
    ensures Starts(Run(cfg, s, steps), user, scopes, a, r, f)
    decreases |steps|
  {
    if steps == [] {
    } else {
      assert TokenOk(s, a) && (steps[0].Finish? ==> RefreshOk(s, steps[0].tx));
      ChainsGrow(cfg, s, steps[0], f);
      ClaimsKept(cfg, s, steps[0], a);
      StepKeeps(cfg, s, steps[0]);
      StartsStays(cfg, Next(cfg, s, steps[0]), steps[1..], user, scopes, a, r, f);
    }
  }

  lemma GenerateStarts(cfg: Config, s: State, step: Step)
    requires Enabled(cfg, s, step) && step.Generate?
    ensures Starts(Next(cfg, s, step), step.user, step.scopes, step.accessId, step.refreshId, |s.chains|)
  {
  }

  lemma {:induction false} ChainStarts(cfg: Config, s: State, steps: seq<Step>, k: nat) returns (f: nat)
    requires Inv(s) && Possible(cfg, s, steps) && k < |steps| && steps[k].Generate?
    ensures Starts(Run(cfg, s, steps), steps[k].user, steps[k].scopes, steps[k].accessId, steps[k].refreshId, f)
    decreases |steps|
  {
    var s1 := Next(cfg, s, steps[0]);
    StepKeeps(cfg, s, steps[0]);
    if k == 0 {
      f := |s.chains|;
      GenerateStarts(cfg, s, steps[0]);
      StartsStays(cfg, s1, steps[1..], steps[0].user, steps[0].scopes, steps[0].accessId, steps[0].refreshId, f);
    } else {
      f := ChainStarts(cfg, s1, steps[1..], k - 1);
    }
  }

  /** Whatever else happens, a call to GenerateTokenPair has its own chain, with the user and the scopes
      it was asked for; the pairs that replace its own keep both. */
  lemma GenerateStartsChain(cfg: Config, steps: seq<Step>, k: nat) returns (f: nat)
    requires Possible(cfg, Init(), steps) && k < |steps| && steps[k].Generate?
    ensures var s, step := Run(cfg, Init(), steps), steps[k];
            && f < |s.chains| && s.chains[f] != [] && s.chains[f][0] == Link(step.accessId, step.refreshId)
            && forall j | 0 <= j < |s.chains[f]| ::
                 && s.chains[f][j].access in s.signed
                 && s.signed[s.chains[f][j].access].user == step.user
                 && s.signed[s.chains[f][j].access].scopes == step.scopes
  {
    f := ChainStarts(cfg, Init(), steps, k);
    RunKeeps(cfg, Init(), steps);
    var s, step := Run(cfg, Init(), steps), steps[k];
    forall j | 0 <= j < |s.chains[f]|
      ensures s.chains[f][j].access in s.signed
      ensures s.signed[s.chains[f][j].access].user == step.user
      ensures s.signed[s.chains[f][j].access].scopes == step.scopes
    {
      assert LinkOk(s, f, j);
    }
  }
}
