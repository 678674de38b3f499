/** Revocation is for good, and deleting old rows is not noticed. */
module TokenRevocation {
  import opened Options
  import opened TokenStore
  import opened TokenService

  /** Revoked, or past its expiry and so refused whether or not its row is still there. */
  predicate Dead(w: World, id: Jti) {
    Revoked(w.rows, id) || (id in w.signed && w.signed[id].expiresAt <= w.now)
  }

  predicate HandedOut(w: World, token: Claims) {
    token.id in w.signed && w.signed[token.id] == token
  }

  lemma RevokeTokenKills(cfg: Config, w: World, user: string, jti: Jti, id: Jti)
    requires Inv(w) && id in w.signed && w.signed[id].user == user
    requires id == jti || (id in w.rows && w.rows[id].parent == Some(jti))
    ensures Dead(Step(cfg, w, RevokeToken(user, jti)).0, id)
  {
    assert Tracked(w, id);
  }

  /** Revoking a token revokes its own row and the row of the refresh token issued with it, if they are
      the user's; a row revoked earlier keeps its time, and every other row is as it was. */
  lemma RevokeTokenExactly(cfg: Config, w: World, user: string, jti: Jti)
    ensures var w' := Step(cfg, w, RevokeToken(user, jti)).0;
            && w' == w.(rows := w'.rows) && w'.rows.Keys == w.rows.Keys
            && forall id | id in w.rows ::
                 if w.rows[id].user == user && (id == jti || w.rows[id].parent == Some(jti))
                 then RevokedFrom(w.rows[id], w'.rows[id], w.now)
                 else w'.rows[id] == w.rows[id]
  {
  }

  /** The row is revoked now, in the current second, unless it was before; the rest of it is as it was. */
  predicate RevokedFrom(row: Row, row': Row, now: int) {
    && row' == row.(revokedAt := row'.revokedAt) && row'.revokedAt.Some?
    && (row.revokedAt.Some? ==> row' == row)
    && (row.revokedAt.None? ==> row'.revokedAt.value <= now < row'.revokedAt.value + SECOND
                                && row'.revokedAt.value % SECOND == 0)
  }

  /** Revoking by user revokes the rows of that user that have not expired; those of others and expired ones
      are as they were.  The answer is how many rows were revoked by this call. */
  lemma RevokeByUserExactly(cfg: Config, w: World, user: string)
    requires Inv(w)
    ensures var (w', res) := Step(cfg, w, Call.RevokeByUser(user));
            && w' == w.(rows := w'.rows) && w'.rows.Keys == w.rows.Keys
            && (forall id | id in w.rows ::
                 if w.rows[id].user == user && w.now < w.rows[id].expiresAt
                 then RevokedFrom(w.rows[id], w'.rows[id], w.now)
                 else w'.rows[id] == w.rows[id])
            && res == Count(|set id | id in w.rows && w'.rows[id] != w.rows[id]|)
  {
    var w' := Step(cfg, w, Call.RevokeByUser(user)).0;
    forall id | id in w.rows
      ensures w.rows[id].user == user && w.rows[id].expiresAt > Whole(w.now) ==> w.now < w.rows[id].expiresAt
    {
      assert Tracked(w, id);
    }
    assert (set id | id in w.rows && w'.rows[id] != w.rows[id]) == RevokeUserHits(w.rows, user, w.now);
  }

  lemma RevokeByUserKills(cfg: Config, w: World, user: string, id: Jti)
    requires Inv(w) && id in w.signed && w.signed[id].user == user
    ensures Dead(Step(cfg, w, Call.RevokeByUser(user)).0, id)
  {
    assert Tracked(w, id);
  }

  lemma DeadStays(cfg: Config, w: World, call: Call, id: Jti)
    requires Inv(w) && Harmless(call) && FreshIds(w, call) && id in w.signed && Dead(w, id)
    ensures id in Step(cfg, w, call).0.signed && Dead(Step(cfg, w, call).0, id)
    ensures Step(cfg, w, call).0.signed[id] == w.signed[id]
  {
    assert Tracked(w, id);
  }

  /** A dead token is accepted by nobody and rotates for nobody. */
  lemma DeadRefused(cfg: Config, w: World, token: Claims, accessId: Jti, refreshId: Jti)
    requires Dead(w, token.id)
    ensures Step(cfg, w, Parse(token)).1.Failed?
    ensures Step(cfg, w, RefreshPair(token, accessId, refreshId)).1.Failed?
    ensures Step(cfg, w, RefreshPair(token, accessId, refreshId)).0 == w
  {
  }

  /** Once dead, always refused: after any further calls, cleanups included. */
  lemma {:induction false} DeadForever(cfg: Config, w: World, calls: seq<Call>, token: Claims, accessId: Jti,
                                       refreshId: Jti)
    requires Inv(w) && token.id in w.signed && Dead(w, token.id)
    requires Possible(cfg, w, calls) && forall k | 0 <= k < |calls| :: Harmless(calls[k])
    ensures Step(cfg, Run(cfg, w, calls), Parse(token)).1.Failed?
    ensures Step(cfg, Run(cfg, w, calls), RefreshPair(token, accessId, refreshId)).1.Failed?
    decreases |calls|
  {
    if calls == [] {
      DeadRefused(cfg, w, token, accessId, refreshId);
    } else {
      DeadStays(cfg, w, calls[0], token.id);
      StepInv(cfg, w, calls[0]);
      DeadForever(cfg, Step(cfg, w, calls[0]).0, calls[1..], token, accessId, refreshId);
    }
  }

  // ---------- What a pair is good for ----------

  /** How long an access token is to live. */
  function Life(cfg: Config, ttl: int): int {
    if 0 < ttl < cfg.accessTTL then ttl else cfg.accessTTL
  }

  /** A token to live that long from now on is accepted now. */
  predicate Lives(now: int, life: int) {
    now < Whole(now + life)
  }

  /** A new pair: the access token has the scopes asked for and lives as long as asked, but never longer
      than configured, cut down to a whole second; it is accepted at once if and only if the cut
      leaves something of it.  The refresh token has none of the scopes, lives at least as long, and
      can be rotated at once if and only if the cut leaves it to this moment.  Nothing else in the
      table changes. */
  lemma GeneratedPairWorks(cfg: Config, w: World, user: string, scopes: seq<string>, ttl: int, a: Jti, r: Jti)
    requires ValidConfig(cfg) && Inv(w) && FreshIds(w, Generate(user, scopes, ttl, a, r))
    ensures var (w', res) := Step(cfg, w, Generate(user, scopes, ttl, a, r));
            if user == "" || scopes == [] || ttl < 0 then res == Failed(InvalidParams) && w' == w
            else
              && res.Pair?
              && res.access == Claims(a, user, scopes, Whole(w.now), Whole(w.now + Life(cfg, ttl)), [])
              && res.refresh ==
                 Claims(r, user, [cfg.refreshScope], Whole(w.now), Whole(w.now + cfg.refreshTTL), scopes)
              && res.access.expiresAt <= res.refresh.expiresAt
              && (Step(cfg, w', Parse(res.access)).1 == Accepted(res.access) <==> Lives(w.now, Life(cfg, ttl)))
              && (Valid(w', res.refresh) <==> Lives(w.now, cfg.refreshTTL))
              && (RotateError(w'.rows, r, w.now) == NoError <==> w.now <= Whole(w.now + cfg.refreshTTL))
              && w'.rows[a] == Row(user, Access, None, res.access.expiresAt, None)
              && w'.rows[r] == Row(user, Refresh, Some(a), res.refresh.expiresAt, None)
              && w'.rows - {a, r} == w.rows
  {
    var (w', res) := Step(cfg, w, Generate(user, scopes, ttl, a, r));
    assert w'.rows - {a, r} == w.rows - {a, r} == w.rows || res.Failed?;
  }

  /** A pair with an id that is taken is not handed out, and nothing changes. */
  lemma TakenIdRefused(cfg: Config, w: World, user: string, scopes: seq<string>, ttl: int, a: Jti, r: Jti)
    requires user != "" && scopes != [] && ttl >= 0
    ensures a in w.rows || r in w.rows || a == r ==>
              Step(cfg, w, Generate(user, scopes, ttl, a, r)) == (w, Failed(DuplicateId))
    ensures !(a in w.rows || r in w.rows || a == r) ==> Step(cfg, w, Generate(user, scopes, ttl, a, r)).1.Pair?
  {
  }

  /** A refresh that goes through: the old refresh token is revoked, and the new pair is for the
      same user and the same scopes, with lifetimes as configured and cut down likewise.  Every other
      token is as it was, the old access token too. */
  lemma RefreshReplaces(cfg: Config, w: World, token: Claims, a: Jti, r: Jti)
    requires ValidConfig(cfg) && Inv(w) && FreshIds(w, RefreshPair(token, a, r))
    requires Step(cfg, w, RefreshPair(token, a, r)).1.Pair?
    ensures var (w', res) := Step(cfg, w, RefreshPair(token, a, r));
            && !Revoked(w.rows, token.id) && Revoked(w'.rows, token.id)
            && res.access == Claims(a, token.user, token.original, Whole(w.now), Whole(w.now + cfg.accessTTL), [])
            && res.refresh == Claims(r, token.user, [cfg.refreshScope], Whole(w.now), Whole(w.now + cfg.refreshTTL),
                                     token.original)
            && (Step(cfg, w', Parse(res.access)).1 == Accepted(res.access) <==> Lives(w.now, cfg.accessTTL))
            && (Valid(w', res.refresh) <==> Lives(w.now, cfg.refreshTTL))
            && (RotateError(w'.rows, r, w.now) == NoError <==> w.now <= Whole(w.now + cfg.refreshTTL))
            && w'.rows[a] == Row(token.user, Access, None, res.access.expiresAt, None)
            && w'.rows[r] == Row(token.user, Refresh, Some(a), res.refresh.expiresAt, None)
            && RevokedFrom(w.rows[token.id], w'.rows[token.id], w.now)
            && w'.rows - {token.id, a, r} == w.rows - {token.id}
  {
    assert Tracked(w, token.id);
  }

  /** A lifetime survives the cut at every moment if and only if it is a second or more. */
  lemma LivesAlwaysIff(life: int)
    requires life > 0
    ensures (forall now: nat :: Lives(now, life)) <==> life >= SECOND
  {
    if life < SECOND {
      assert !Lives(0, life);
    } else {
      forall now: nat ensures Lives(now, life) {
        assert now + life < Whole(now + life) + SECOND;
      }
    }
  }

  /** Half a second past the second, a token to live for a quarter of a second is refused as soon as it
      is handed out. */
  lemma BornExpired()
    ensures var cfg := Config(SECOND / 4, SECOND, "refresh");
            var w := Step(cfg, Init(), Tick(SECOND / 2)).0;
            var (w', res) := Step(cfg, w, Generate("user", ["scope"], 0, "access", "refresh"));
            && ValidConfig(cfg) && FreshIds(w, Generate("user", ["scope"], 0, "access", "refresh"))
            && res.Pair? && Step(cfg, w', Parse(res.access)).1 == Failed(InvalidToken)
  {
    assert Whole(SECOND / 2 + SECOND / 4) == 0;
  }

  /** It does go through for every refresh token that is valid, has its row, and is not revoked. */
  lemma RefreshGoesThroughIff(cfg: Config, w: World, token: Claims, a: Jti, r: Jti)
    requires ValidConfig(cfg) && Inv(w) && FreshIds(w, RefreshPair(token, a, r))
    ensures Step(cfg, w, RefreshPair(token, a, r)).1.Pair? <==>
            Valid(w, token) && token.original != [] && !Dead(w, token.id)
  {
    if token.id in w.signed {
      assert Tracked(w, token.id);
    }
  }

  /** What a refresh is answered: a token that was not handed out, is out of its time, or is an access token
      is invalid; a refresh token that was revoked or rotated before is a replay; any other goes through.
      A refresh that fails changes nothing. */
  lemma RefreshAnswers(cfg: Config, w: World, token: Claims, a: Jti, r: Jti)
    requires ValidConfig(cfg) && Inv(w) && FreshIds(w, RefreshPair(token, a, r))
    ensures var (w', res) := Step(cfg, w, RefreshPair(token, a, r));
            && (res.Failed? ==> w' == w)
            && if !HandedOut(w, token) || !(token.issuedAt <= w.now < token.expiresAt) || token.original == [] then
                 res == Failed(InvalidToken)
               else if w.rows[token.id].revokedAt.Some? then res == Failed(TokenReplay)
               else res.Pair?
  {
    if token.id in w.signed {
      assert Tracked(w, token.id);
    }
  }

  /** What a check is answered: the token is accepted if and only if it was handed out, is in its time and
      its row is not revoked; a revoked one that is otherwise good is told apart from an invalid one. */
  lemma ParseAnswers(cfg: Config, w: World, token: Claims)
    requires Inv(w)
    ensures Step(cfg, w, Parse(token)) ==
            (w, if !HandedOut(w, token) || !(token.issuedAt <= w.now < token.expiresAt) then Failed(InvalidToken)
                else if w.rows[token.id].revokedAt.Some? then Failed(TokenRevoked)
                else Accepted(token))
  {
    if HandedOut(w, token) {
      assert Tracked(w, token.id);
    }
  }

  // ---------- Accepted exactly when nobody revoked it ----------

  /** The call revokes the token `id` or rotates it away. */
  predicate Hits(cfg: Config, w: World, call: Call, id: Jti) {
    match call
    case RevokeToken(user, jti) =>
      id in w.rows && w.rows[id].user == user && (id == jti || w.rows[id].parent == Some(jti))
    case RevokeByUser(user) => id in w.signed && w.signed[id].user == user
    case RefreshPair(token, _, _) => token.id == id && Step(cfg, w, call).1.Pair?
    case _ => false
  }

  predicate EverHit(cfg: Config, w: World, calls: seq<Call>, id: Jti)
    decreases |calls|
  {
    calls != [] && (Hits(cfg, w, calls[0], id) || EverHit(cfg, Step(cfg, w, calls[0]).0, calls[1..], id))
  }

  lemma ClockMovesOn(cfg: Config, w: World, calls: seq<Call>)
    ensures w.now <= Run(cfg, w, calls).now
    decreases |calls|
  {
    if calls == [] {
    } else {
      ClockMovesOn(cfg, Step(cfg, w, calls[0]).0, calls[1..]);
    }
  }

  lemma StepHits(cfg: Config, w: World, call: Call, id: Jti)
    requires Inv(w) && Harmless(call) && FreshIds(w, call)
    requires id in w.signed && id in w.rows && Step(cfg, w, call).0.now < w.signed[id].expiresAt
    ensures var w' := Step(cfg, w, call).0;
            && id in w'.signed && w'.signed[id] == w.signed[id] && id in w'.rows
            && (Revoked(w'.rows, id) <==> Revoked(w.rows, id) || Hits(cfg, w, call, id))
  {
    assert Tracked(w, id);
  }

  /** Until it expires, a token handed out is accepted if and only if no call has revoked it. */
  lemma {:induction false} AcceptedIffNeverHit(cfg: Config, w: World, calls: seq<Call>, id: Jti)
    requires Inv(w) && id in w.signed && id in w.rows && w.signed[id].issuedAt <= w.now
    requires Possible(cfg, w, calls) && forall k | 0 <= k < |calls| :: Harmless(calls[k])
    requires Run(cfg, w, calls).now < w.signed[id].expiresAt
    ensures Step(cfg, Run(cfg, w, calls), Parse(w.signed[id])).1.Accepted? <==>
            !Revoked(w.rows, id) && !EverHit(cfg, w, calls, id)
    decreases |calls|
  {
    if calls == [] {
      assert Tracked(w, id);
    } else {
      var w' := Step(cfg, w, calls[0]).0;
      ClockMovesOn(cfg, w', calls[1..]);
      StepHits(cfg, w, calls[0], id);
      StepInv(cfg, w, calls[0]);
      AcceptedIffNeverHit(cfg, w', calls[1..], id);
    }
  }

  // ---------- Cleanup is not noticed ----------

  /** `u` is `w` had nothing been deleted: it may have more rows, all of expired tokens. */
  ghost predicate Twin(w: World, u: World) {
    && w.now == u.now && w.signed == u.signed
    && (forall id | id in w.rows :: id in u.rows && u.rows[id] == w.rows[id])
    && (forall id | id in u.rows && id !in w.rows :: u.rows[id].expiresAt <= u.now)
  }

  lemma ParseTwin(cfg: Config, w: World, u: World, token: Claims)
    requires Inv(u) && Twin(w, u)
    ensures Step(cfg, w, Parse(token)).1 == Step(cfg, u, Parse(token)).1
  {
    if Valid(u, token) {
      assert Tracked(u, token.id);
    }
  }

  lemma RefreshTwin(cfg: Config, w: World, u: World, call: Call)
    requires Inv(u) && Twin(w, u) && FreshIds(u, call) && FreshIds(w, call) && call.RefreshPair?
    ensures Twin(Step(cfg, w, call).0, Step(cfg, u, call).0)
    ensures Step(cfg, w, call).1 == Step(cfg, u, call).1
  {
    if Valid(u, call.token) {
      assert Tracked(u, call.token.id);
    }
  }

  /** The database compares with its own clock, but expiries fall on whole seconds. */
  lemma ExpiredNotHit(u: World, id: Jti, user: string)
    requires Inv(u) && id in u.rows && u.rows[id].expiresAt <= u.now
    ensures !RevokeByUserHits(u.rows[id], user, u.now)
  {
    assert Tracked(u, id);
  }

  lemma HitsTwin(w: World, u: World, user: string)
    requires Inv(u) && Twin(w, u)
    ensures RevokeUserHits(w.rows, user, w.now) == RevokeUserHits(u.rows, user, u.now)
  {
    forall id | id in u.rows && id !in w.rows ensures !RevokeByUserHits(u.rows[id], user, u.now) {
      ExpiredNotHit(u, id, user);
    }
  }

  lemma RevokedRowsTwin(w: World, u: World, user: string)
    requires Twin(w, u)
    ensures Twin(w.(rows := RevokeUserRows(w.rows, user, w.now)), u.(rows := RevokeUserRows(u.rows, user, u.now)))
  {
  }

  lemma RevokeByUserTwin(cfg: Config, w: World, u: World, user: string)
    requires Inv(u) && Twin(w, u)
    ensures Twin(Step(cfg, w, Call.RevokeByUser(user)).0, Step(cfg, u, Call.RevokeByUser(user)).0)
    ensures Step(cfg, w, Call.RevokeByUser(user)).1 == Step(cfg, u, Call.RevokeByUser(user)).1
  {
    HitsTwin(w, u, user);
    RevokedRowsTwin(w, u, user);
  }

  lemma StepTwin(cfg: Config, w: World, u: World, call: Call)
    requires Inv(u) && Twin(w, u) && FreshIds(w, call) && !call.Cleanup?
    ensures FreshIds(u, call)
    ensures Twin(Step(cfg, w, call).0, Step(cfg, u, call).0)
    ensures Step(cfg, w, call).1 == Step(cfg, u, call).1
  {
    assert forall id | id in u.rows :: id in u.signed;
    match call
    case RevokeByUser(user) => RevokeByUserTwin(cfg, w, u, user);
    case RefreshPair(_, _, _) => RefreshTwin(cfg, w, u, call);
    case Parse(token) => ParseTwin(cfg, w, u, token);
    case _ =>
  }

  lemma CleanupTwin(cfg: Config, w: World, u: World, maxAge: int)
    requires Twin(w, u) && maxAge >= -1
    ensures Twin(Step(cfg, w, Cleanup(maxAge)).0, u)
  {
  }

  function Erase(calls: seq<Call>): seq<Call>
    decreases |calls|
  {
    if calls == [] then []
    else if calls[0].Cleanup? then Erase(calls[1..])
    else [calls[0]] + Erase(calls[1..])
  }

  /** What the callers are told, cleanups aside. */
  function Answers(cfg: Config, w: World, calls: seq<Call>): seq<Result>
    decreases |calls|
  {
    if calls == [] then []
    else (if calls[0].Cleanup? then [] else [Step(cfg, w, calls[0]).1]) + Answers(cfg, Step(cfg, w, calls[0]).0,
      calls[1..])
  }

  /** Erasing every cleanup from a history changes no answer to any call. */
  lemma {:induction false} CleanupUnnoticed(cfg: Config, w: World, u: World, calls: seq<Call>)
    requires Inv(w) && Inv(u) && Twin(w, u)
    requires Possible(cfg, w, calls) && forall k | 0 <= k < |calls| :: Harmless(calls[k])
    ensures Possible(cfg, u, Erase(calls))
    ensures Answers(cfg, w, calls) == Answers(cfg, u, Erase(calls))
    decreases |calls|
  {
    if calls == [] {
    } else {
      var call := calls[0];
      StepInv(cfg, w, call);
      if call.Cleanup? {
        CleanupTwin(cfg, w, u, call.maxAge);
        CleanupUnnoticed(cfg, Step(cfg, w, call).0, u, calls[1..]);
      } else {
        StepTwin(cfg, w, u, call);
        StepInv(cfg, u, call);
        CleanupUnnoticed(cfg, Step(cfg, w, call).0, Step(cfg, u, call).0, calls[1..]);
        assert Erase(calls)[1..] == Erase(calls[1..]);
      }
    }
  }

  /** One of the answers handed out the token. */
  ghost predicate InAnswers(answers: seq<Result>, token: Claims) {
    exists k | 0 <= k < |answers| :: answers[k].Pair? && token in [answers[k].access, answers[k].refresh]
  }

  lemma StepHandsOut(cfg: Config, w: World, call: Call, token: Claims)
    requires FreshIds(w, call)
    ensures HandedOut(Step(cfg, w, call).0, token) <==> HandedOut(w, token) || InAnswers([Step(cfg, w, call).1], token)
  {
    assert [Step(cfg, w, call).1][0] == Step(cfg, w, call).1;
  }

  lemma InAnswersSplit(a: seq<Result>, b: seq<Result>, token: Claims)
    ensures InAnswers(a + b, token) <==> InAnswers(a, token) || InAnswers(b, token)
  {
    if k :| 0 <= k < |a| && a[k].Pair? && token in [a[k].access, a[k].refresh] {
      assert (a + b)[k] == a[k];
    }
    if k :| 0 <= k < |b| && b[k].Pair? && token in [b[k].access, b[k].refresh] {
      assert (a + b)[|a| + k] == b[k];
    }
  }

  /** A token has a good signature if and only if some call of the history answered with it. */
  lemma {:induction false} HandedOutIffAnswered(cfg: Config, w: World, calls: seq<Call>, token: Claims)
    requires Possible(cfg, w, calls)
    ensures HandedOut(Run(cfg, w, calls), token) <==>
            HandedOut(w, token) || InAnswers(Answers(cfg, w, calls), token)
    decreases |calls|
  {
    if calls == [] {
    } else {
      var (w', res) := Step(cfg, w, calls[0]);
      StepHandsOut(cfg, w, calls[0], token);
      HandedOutIffAnswered(cfg, w', calls[1..], token);
      InAnswersSplit(if calls[0].Cleanup? then [] else [res], Answers(cfg, w', calls[1..]), token);
    }
  }

  // ---------- How young a cleanup may be ----------

  lemma Cons(cfg: Config, w: World, call: Call, rest: seq<Call>)
    ensures Possible(cfg, w, [call] + rest) <==> FreshIds(w, call) && Possible(cfg, Step(cfg, w, call).0, rest)
    ensures Answers(cfg, w, [call] + rest) ==
            (if call.Cleanup? then [] else [Step(cfg, w, call).1]) + Answers(cfg, Step(cfg, w, call).0, rest)
    ensures Erase([call] + rest) == (if call.Cleanup? then [] else [call]) + Erase(rest)
  {
    assert ([call] + rest)[1..] == rest;
  }

  /** When a token expires that is handed out at the last moment of the first second. */
  function Expiry(cfg: Config): int {
    Whole(SECOND - 1 + cfg.accessTTL)
  }

  /** The world after that token was handed out and revoked, one tick before it expires. */
  function RevokedWorld(cfg: Config): World
    requires ValidConfig(cfg)
  {
    var w0 := Step(cfg, Init(), Tick(SECOND - 1)).0;
    var w1 := Step(cfg, w0, Generate("user", ["scope"], 0, "access", "refresh")).0;
    var w2 := Step(cfg, w1, RevokeToken("user", "access")).0;
    Step(cfg, w2, Tick(Expiry(cfg) - SECOND)).0
  }

  function Revived(cfg: Config): Claims {
    Claims("access", "user", ["scope"], 0, Expiry(cfg), [])
  }

  lemma RevokedWorldFacts(cfg: Config)
    requires ValidConfig(cfg)
    ensures var w := RevokedWorld(cfg);
            && w.now == Expiry(cfg) - 1 && Valid(w, Revived(cfg))
            && Revoked(w.rows, "access") && w.rows["access"].expiresAt == Expiry(cfg)
  {
    assert Whole(SECOND - 1) == 0;
  }

  /** Deleting the row a tick before the token expires makes the revoked token good again. */
  lemma YoungCleanupRevives(cfg: Config, maxAge: int)
    requires ValidConfig(cfg) && maxAge < -1
    ensures var w := RevokedWorld(cfg);
            && Step(cfg, w, Parse(Revived(cfg))).1 == Failed(TokenRevoked)
            && Step(cfg, Step(cfg, w, Cleanup(maxAge)).0, Parse(Revived(cfg))).1 == Accepted(Revived(cfg))
  {
    RevokedWorldFacts(cfg);
  }

  /** Reaching that world, and then `rest`. */
  function AfterRevocation(cfg: Config, rest: seq<Call>): seq<Call>
    requires ValidConfig(cfg)
  {
    [Tick(SECOND - 1)]
    + ([Generate("user", ["scope"], 0, "access", "refresh")]
       + ([RevokeToken("user", "access")] + ([Tick(Expiry(cfg) - SECOND)] + rest)))
  }

  lemma AnswersAfterRevocation(cfg: Config, rest: seq<Call>)
    requires ValidConfig(cfg)
    ensures Possible(cfg, Init(), AfterRevocation(cfg, rest)) <==> Possible(cfg, RevokedWorld(cfg), rest)
    ensures |Answers(cfg, Init(), AfterRevocation(cfg, rest))| == 4 + |Answers(cfg, RevokedWorld(cfg), rest)|
    ensures Answers(cfg, Init(), AfterRevocation(cfg, rest))[4..] == Answers(cfg, RevokedWorld(cfg), rest)
    ensures Erase(AfterRevocation(cfg, rest)) == AfterRevocation(cfg, Erase(rest))
  {
    var start, generate := Tick(SECOND - 1), Generate("user", ["scope"], 0, "access", "refresh");
    var revoke, tick := RevokeToken("user", "access"), Tick(Expiry(cfg) - SECOND);
    var w0 := Step(cfg, Init(), start).0;
    var w1 := Step(cfg, w0, generate).0;
    var w2 := Step(cfg, w1, revoke).0;
    Cons(cfg, w2, tick, rest);
    Cons(cfg, w1, revoke, [tick] + rest);
    Cons(cfg, w0, generate, [revoke] + ([tick] + rest));
    Cons(cfg, Init(), start, [generate] + ([revoke] + ([tick] + rest)));
  }

  function RevivingCalls(cfg: Config, maxAge: int): seq<Call>
    requires ValidConfig(cfg)
  {
    AfterRevocation(cfg, [Cleanup(maxAge)] + ([Parse(Revived(cfg))] + []))
  }

  lemma RevivingNoticed(cfg: Config, maxAge: int)
    requires ValidConfig(cfg) && maxAge < -1
    ensures Possible(cfg, Init(), RevivingCalls(cfg, maxAge))
    ensures Answers(cfg, Init(), RevivingCalls(cfg, maxAge)) != Answers(cfg, Init(), Erase(RevivingCalls(cfg, maxAge)))
  {
    var w, look := RevokedWorld(cfg), Parse(Revived(cfg));
    YoungCleanupRevives(cfg, maxAge);
    Cons(cfg, Step(cfg, w, Cleanup(maxAge)).0, look, []);
    Cons(cfg, w, Cleanup(maxAge), [look] + []);
    Cons(cfg, w, look, []);
    AnswersAfterRevocation(cfg, [Cleanup(maxAge)] + ([look] + []));
    AnswersAfterRevocation(cfg, [look] + []);
    assert Answers(cfg, w, [Cleanup(maxAge)] + ([look] + [])) == [Accepted(Revived(cfg))];
    assert Answers(cfg, w, [look] + []) == [Failed(TokenRevoked)];
    assert Erase(RevivingCalls(cfg, maxAge)) == AfterRevocation(cfg, [look] + []);
  }

  lemma RevivingAges(cfg: Config, maxAge: int)
    requires ValidConfig(cfg)
    ensures forall k | 0 <= k < |RevivingCalls(cfg, maxAge)| && RevivingCalls(cfg, maxAge)[k].Cleanup? ::
              RevivingCalls(cfg, maxAge)[k].maxAge == maxAge
  {
  }

  /** Cleanups of this age change no answer in any history. */
  ghost predicate Unnoticed(cfg: Config, maxAge: int) {
    forall calls: seq<Call> |
      Possible(cfg, Init(), calls) && (forall k | 0 <= k < |calls| && calls[k].Cleanup? :: calls[k].maxAge == maxAge) ::
      Answers(cfg, Init(), calls) == Answers(cfg, Init(), Erase(calls))
  }

  /** Exactly, in ticks: no age below minus one tick. */
  lemma UnnoticedIff(cfg: Config, maxAge: int)
    requires ValidConfig(cfg)
    ensures Unnoticed(cfg, maxAge) <==> maxAge >= -1
  {
    if maxAge >= -1 {
      forall calls: seq<Call> |
        Possible(cfg, Init(), calls) && (forall k | 0 <= k < |calls| && calls[k].Cleanup? :: calls[k].maxAge == maxAge)
        ensures Answers(cfg, Init(), calls) == Answers(cfg, Init(), Erase(calls))
      {
        CleanupUnnoticed(cfg, Init(), Init(), calls);
      }
    } else {
      RevivingAges(cfg, maxAge);
      RevivingNoticed(cfg, maxAge);
    }
  }

  lemma NoMinusOne(unit: int)
    requires unit >= 2
    ensures -1 % unit == unit - 1
  {
    assert -1 == -1 * unit + (unit - 1);
  }

  /** In any unit coarser than the tick, a second or a millisecond: no negative age. */
  lemma NoNegativeAge(cfg: Config, unit: int, maxAge: int)
    requires ValidConfig(cfg) && unit >= 2 && maxAge % unit == 0
    ensures Unnoticed(cfg, maxAge) <==> maxAge >= 0
  {
    UnnoticedIff(cfg, maxAge);
    NoMinusOne(unit);
  }

  // ---------- The service ----------

  class Service {
    const config: Config
    const tokens: Repository
    /** What has been signed and handed out; stands for checking a signature. */
    var signed: map<Jti, Claims>

    constructor (config: Config, tokens: Repository)
      ensures this.config == config && this.tokens == tokens && signed == map[]
    {
      this.config := config;
      this.tokens := tokens;
      signed := map[];
    }

    function At(now: int): World
      reads this, tokens
    {
      World(now, tokens.rows, signed)
    }

    method GenerateTokenPair(user: string, scopes: seq<string>, ttl: int, accessId: Jti, refreshId: Jti, now: int)
      returns (res: Result)
      modifies this, tokens
      ensures (At(now), res) == Step(config, old(At(now)), Generate(user, scopes, ttl, accessId, refreshId))
    {
      res := GeneratePair(config, user, scopes, ttl, now, accessId, refreshId);
      if res.Failed? {
        return;
      }
      var error := tokens.Insert(accessId, AccessRow(res.access), refreshId, RefreshRow(res.access, res.refresh));
      if error != NoError {
        return Failed(error);
      }
      signed := signed[accessId := res.access][refreshId := res.refresh];
    }

    method RefreshTokenPair(token: Claims, accessId: Jti, refreshId: Jti, now: int) returns (res: Result)
      modifies this, tokens
      ensures (At(now), res) == Step(config, old(At(now)), RefreshPair(token, accessId, refreshId))
    {
      if !Valid(At(now), token) || token.original == [] {
        return Failed(InvalidToken);
      }
      res := GeneratePair(config, token.user, token.original, config.accessTTL, now, accessId, refreshId);
      if res.Failed? {
        return;
      }
      var error := tokens.RotateRefreshToken(token.id, refreshId, RefreshRow(res.access, res.refresh),
                                             accessId, AccessRow(res.access), now);
      if error != NoError {
        return Failed(error);
      }
      signed := signed[accessId := res.access][refreshId := res.refresh];
    }

    method ParseToken(token: Claims, now: int) returns (res: Result)
      ensures (At(now), res) == Step(config, At(now), Parse(token))
    {
      if !Valid(At(now), token) {
        return Failed(InvalidToken);
      }
      var revoked := tokens.IsRevoked(token.id);
      if revoked {
        return Failed(TokenRevoked);
      }
      return Accepted(token);
    }

    method RevokeToken(user: string, jti: Jti, now: int)
      modifies tokens
      ensures At(now) == Step(config, old(At(now)), Call.RevokeToken(user, jti)).0
    {
      tokens.Revoke(jti, user, now);
    }

    method RevokeByUser(user: string, now: int) returns (count: nat)
      modifies tokens
      ensures (At(now), Count(count)) == Step(config, old(At(now)), Call.RevokeByUser(user))
    {
      count := tokens.RevokeByUser(user, now);
    }
  }

  /** The worker's task: everything that expired more than `maxAge` ago goes. */
  method CleanupTask(tokens: Repository, maxAge: int, now: int) returns (rows: nat)
    modifies tokens
    ensures tokens.rows == CleanupRows(old(tokens.rows), now - maxAge)
  {
    rows := tokens.Cleanup(now - maxAge);
  }
}
