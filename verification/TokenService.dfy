/** Issuing, refreshing, checking and revoking tokens, one call after the other. */
module TokenService {
  import opened Options
  import opened TokenStore

  datatype Config = Config(accessTTL: int, refreshTTL: int, refreshScope: string)

  /** What the service insists on when it is built. */
  predicate ValidConfig(cfg: Config) {
    0 < cfg.accessTTL < cfg.refreshTTL
  }

  /** What is signed into a token.  Only refresh tokens carry original scopes. */
  datatype Claims = Claims(id: Jti, user: string, scopes: seq<string>, issuedAt: int, expiresAt: int,
    original: seq<string>)

  /** The clock, the table, and every token ever handed out.  A token whose signature is good is
      one that was handed out. */
  datatype World = World(now: int, rows: Rows, signed: map<Jti, Claims>)

  datatype Call =
    | Generate(user: string, scopes: seq<string>, ttl: int, accessId: Jti, refreshId: Jti)
    | RefreshPair(token: Claims, accessId: Jti, refreshId: Jti)
    | Parse(token: Claims)
    | RevokeToken(user: string, jti: Jti)
    | RevokeByUser(user: string)
    | Cleanup(maxAge: int)
    | Tick(time: nat)

  datatype Result =
    | Pair(access: Claims, refresh: Claims)
    | Accepted(claims: Claims)
    | Done
    | Count(rows: nat)
    | Failed(error: Error)

  function Min(a: int, b: int): int {
    if a < b then a else b
  }

  /** Claims keep their times in whole seconds. */
  function NewClaims(id: Jti, user: string, scopes: seq<string>, now: int, expiresAt: int): Claims {
    Claims(id, user, scopes, Whole(now), Whole(expiresAt), [])
  }

  function NewRefreshClaims(cfg: Config, id: Jti, user: string, scopes: seq<string>, now: int, expiresAt: int): Claims {
    NewClaims(id, user, [cfg.refreshScope], now, expiresAt).(original := scopes)
  }

  function GeneratePair(cfg: Config, user: string, scopes: seq<string>, ttl: int, now: int,
                        accessId: Jti, refreshId: Jti): Result
  {
    if user == "" || scopes == [] || ttl < 0 then Failed(InvalidParams)
    else
      var accessTTL := if ttl == 0 then cfg.accessTTL else ttl;
      Pair(NewClaims(accessId, user, scopes, now, now + Min(accessTTL, cfg.accessTTL)),
           NewRefreshClaims(cfg, refreshId, user, scopes, now, now + cfg.refreshTTL))
  }

  function AccessRow(access: Claims): Row {
    Row(access.user, Access, None, access.expiresAt, None)
  }

  function RefreshRow(access: Claims, refresh: Claims): Row {
    Row(refresh.user, Refresh, Some(access.id), refresh.expiresAt, None)
  }

  /** A good signature, not issued in the future and not expired: a token is accepted strictly
      before its expiry (section 4.1.4 of RFC 7519). */
  predicate Valid(w: World, token: Claims) {
    token.id in w.signed && w.signed[token.id] == token && token.issuedAt <= w.now < token.expiresAt
  }

  /** The ids a call would use have never been used. */
  predicate FreshIds(w: World, call: Call) {
    call.Generate? || call.RefreshPair? ==>
      call.accessId != call.refreshId
      && call.accessId !in w.signed && call.refreshId !in w.signed
      && call.accessId !in w.rows && call.refreshId !in w.rows
  }

  function HandOut(w: World, rows: Rows, pair: Result): World
    requires pair.Pair?
  {
    w.(rows := rows, signed := w.signed[pair.access.id := pair.access][pair.refresh.id := pair.refresh])
  }

  function Step(cfg: Config, w: World, call: Call): (World, Result) {
    match call
    case Generate(user, scopes, ttl, accessId, refreshId) =>
      var pair := GeneratePair(cfg, user, scopes, ttl, w.now, accessId, refreshId);
      if pair.Failed? then (w, pair)
      else if !Insertable(w.rows, accessId, refreshId) then (w, Failed(DuplicateId))
      else
        var rows := w.rows[accessId := AccessRow(pair.access)][refreshId := RefreshRow(pair.access, pair.refresh)];
        (HandOut(w, rows, pair), pair)
    case RefreshPair(token, accessId, refreshId) =>
      if !Valid(w, token) || token.original == [] then (w, Failed(InvalidToken))
      else
        var pair := GeneratePair(cfg, token.user, token.original, cfg.accessTTL, w.now, accessId, refreshId);
        if pair.Failed? then (w, pair)
        else if RotateError(w.rows, token.id, w.now) != NoError then (w, Failed(RotateError(w.rows, token.id, w.now)))
        else if !Insertable(w.rows, refreshId, accessId) then (w, Failed(DuplicateId))
        else
          var rows := RotateRows(w.rows, token.id, refreshId, RefreshRow(pair.access, pair.refresh),
                                 accessId, AccessRow(pair.access), w.now);
          (HandOut(w, rows, pair), pair)
    case Parse(token) =>
      if !Valid(w, token) then (w, Failed(InvalidToken))
      else if Revoked(w.rows, token.id) then (w, Failed(TokenRevoked))
      else (w, Accepted(token))
    case RevokeToken(user, jti) => (w.(rows := RevokeRows(w.rows, jti, user, w.now)), Done)
    case RevokeByUser(user) =>
      (w.(rows := RevokeUserRows(w.rows, user, w.now)), Count(|RevokeUserHits(w.rows, user, w.now)|))
    case Cleanup(maxAge) => (w.(rows := CleanupRows(w.rows, w.now - maxAge)), Done)
    case Tick(time) => (w.(now := w.now + time), Done)
  }

  function Init(): World {
    World(0, map[], map[])
  }

  predicate Possible(cfg: Config, w: World, calls: seq<Call>)
    decreases |calls|
  {
    calls == [] || (FreshIds(w, calls[0]) && Possible(cfg, Step(cfg, w, calls[0]).0, calls[1..]))
  }

  function Run(cfg: Config, w: World, calls: seq<Call>): World
    decreases |calls|
  {
    if calls == [] then w else Run(cfg, Step(cfg, w, calls[0]).0, calls[1..])
  }

  // ---------- What the table knows about the tokens handed out ----------

  /** A row says what its token says; a token without a row expired some time ago. */
  ghost predicate Tracked(w: World, id: Jti)
    requires id in w.signed
  {
    var token := w.signed[id];
    && token.id == id && token.user != "" && token.expiresAt % SECOND == 0
    && (if id in w.rows then
          && w.rows[id].user == token.user && w.rows[id].expiresAt == token.expiresAt
          && (w.rows[id].use == Refresh <==> token.original != [])
        else token.expiresAt <= w.now)
  }

  ghost predicate Inv(w: World) {
    && (forall id | id in w.signed :: Tracked(w, id))
    && (forall id | id in w.rows :: id in w.signed)
  }

  /** A cleanup that removes only tokens nobody accepts: the comparison is strict on both sides, so a
      single tick may be missing. */
  predicate Harmless(call: Call) {
    call.Cleanup? ==> call.maxAge >= -1
  }

  lemma IssueInv(cfg: Config, w: World, call: Call)
    requires Inv(w) && (call.Generate? || call.RefreshPair?)
    ensures Inv(Step(cfg, w, call).0)
  {
    var w' := Step(cfg, w, call).0;
    forall id | id in w'.signed ensures Tracked(w', id) {
      assert id in w.signed ==> Tracked(w, id);
    }
  }

  lemma StepInv(cfg: Config, w: World, call: Call)
    requires Inv(w) && Harmless(call)
    ensures Inv(Step(cfg, w, call).0)
  {
    if call.Generate? || call.RefreshPair? {
      IssueInv(cfg, w, call);
    } else {
      forall id | id in w.signed ensures Tracked(Step(cfg, w, call).0, id) {
        assert Tracked(w, id);
      }
    }
  }

  lemma {:induction false} RunInv(cfg: Config, w: World, calls: seq<Call>)
    requires Inv(w) && forall k | 0 <= k < |calls| :: Harmless(calls[k])
    ensures Inv(Run(cfg, w, calls))
    decreases |calls|
  {
    if calls == [] {
    } else {
      StepInv(cfg, w, calls[0]);
      RunInv(cfg, Step(cfg, w, calls[0]).0, calls[1..]);
    }
  }
}
