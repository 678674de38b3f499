/** The table of tokens and the statements that change it.  Times and durations are nanoseconds, as the
    program counts them; the clock of the database shows whole seconds. */
module TokenStore {
  import opened Options

  const SECOND: int := 1_000_000_000

  /** The time cut down to its second. */
  function Whole(t: int): (w: int)
    ensures w <= t < w + SECOND && w % SECOND == 0
  {
    t - t % SECOND
  }

  type Jti = string

  datatype Use = Access | Refresh

  datatype Row = Row(user: string, use: Use, parent: Option<Jti>, expiresAt: int, revokedAt: Option<int>)

  type Rows = map<Jti, Row>

  datatype Error = NoError | InvalidParams | InvalidToken | TokenReplay | TokenRevoked | DuplicateId

  predicate Revoked(rows: Rows, id: Jti) {
    id in rows && rows[id].revokedAt.Some?
  }

  /** Two rows go in together or not at all. */
  predicate Insertable(rows: Rows, id1: Jti, id2: Jti) {
    id1 !in rows && id2 !in rows && id1 != id2
  }

  /** A token is revoked by its own id or by the id of the access token issued with it. */
  predicate RevokeHits(row: Row, id: Jti, jti: Jti, user: string) {
    (id == jti || row.parent == Some(jti)) && row.user == user && row.revokedAt.None?
  }

  predicate RevokeByUserHits(row: Row, user: string, now: int) {
    row.user == user && row.revokedAt.None? && row.expiresAt > Whole(now)
  }

  function RevokeRows(rows: Rows, jti: Jti, user: string, now: int): Rows {
    map id | id in rows ::
      if RevokeHits(rows[id], id, jti, user) then rows[id].(revokedAt := Some(Whole(now))) else rows[id]
  }

  function RevokeUserRows(rows: Rows, user: string, now: int): Rows {
    map id | id in rows ::
      if RevokeByUserHits(rows[id], user, now) then rows[id].(revokedAt := Some(Whole(now))) else rows[id]
  }

  function RevokeUserHits(rows: Rows, user: string, now: int): set<Jti> {
    set id | id in rows && RevokeByUserHits(rows[id], user, now)
  }

  function CleanupRows(rows: Rows, before: int): Rows {
    map id | id in rows && rows[id].expiresAt >= before :: rows[id]
  }

  /** Why a refresh token cannot be rotated, if it cannot. */
  function RotateError(rows: Rows, id: Jti, now: int): Error {
    if id !in rows || rows[id].use != Refresh then InvalidToken
    else if rows[id].revokedAt.Some? then TokenReplay
    else if rows[id].expiresAt < now then InvalidToken
    else NoError
  }

  function RotateRows(rows: Rows, id: Jti, refreshId: Jti, refresh: Row, accessId: Jti, access: Row, now: int): Rows
    requires id in rows
  {
    rows[id := rows[id].(revokedAt := Some(Whole(now)))][refreshId := refresh][accessId := access]
  }

  class Repository {
    var rows: Rows

    constructor ()
      ensures rows == map[]
    {
      rows := map[];
    }

    method Insert(id1: Jti, row1: Row, id2: Jti, row2: Row) returns (error: Error)
      modifies this
      ensures error == if id1 in old(rows) || id2 in old(rows) || id1 == id2 then DuplicateId else NoError
      ensures rows == if error.NoError? then old(rows)[id1 := row1][id2 := row2] else old(rows)
    {
      if id1 in rows || id2 in rows || id1 == id2 {
        return DuplicateId;
      }
      rows := rows[id1 := row1];
      rows := rows[id2 := row2];
      return NoError;
    }

    method Revoke(jti: Jti, user: string, now: int)
      modifies this
      ensures rows == RevokeRows(old(rows), jti, user, now)
    {
      rows := map id | id in rows ::
        if RevokeHits(rows[id], id, jti, user) then rows[id].(revokedAt := Some(Whole(now))) else rows[id];
    }

    method IsRevoked(jti: Jti) returns (revoked: bool)
      ensures revoked <==> Revoked(rows, jti)
    {
      var count := |set id | id in rows && id == jti && rows[id].revokedAt.Some?|;
      revoked := count > 0;
      assert (set id | id in rows && id == jti && rows[id].revokedAt.Some?) == if Revoked(rows, jti) then {jti} else {};
    }

    /** One transaction: on any error the table is as it was. */
    method RotateRefreshToken(current: Jti, refreshId: Jti, refresh: Row, accessId: Jti, access: Row, now: int)
      returns (error: Error)
      modifies this
      ensures error == if RotateError(old(rows), current, now) != NoError then RotateError(old(rows), current, now)
                       else if refreshId in old(rows) || accessId in old(rows) || refreshId == accessId then DuplicateId
                       else NoError
      ensures rows == if error.NoError? then RotateRows(old(rows), current, refreshId, refresh, accessId, access, now)
                      else old(rows)
    {
      if current !in rows || rows[current].use != Refresh {
        return InvalidToken;
      }
      var row := rows[current];
      if row.revokedAt.Some? {
        return TokenReplay;
      }
      if row.expiresAt < now {
        return InvalidToken;
      }
      var before := rows;
      rows := rows[current := row.(revokedAt := Some(Whole(now)))];
      error := Insert(refreshId, refresh, accessId, access);
      if error != NoError {
        rows := before;
      }
    }

    method Cleanup(before: int) returns (deleted: nat)
      modifies this
      ensures rows == CleanupRows(old(rows), before)
      ensures deleted == |set id | id in old(rows) && old(rows)[id].expiresAt < before|
    {
      deleted := |set id | id in rows && rows[id].expiresAt < before|;
      rows := map id | id in rows && !(rows[id].expiresAt < before) :: rows[id];
    }

    method RevokeByUser(user: string, now: int) returns (revoked: nat)
      modifies this
      ensures rows == RevokeUserRows(old(rows), user, now)
      ensures revoked == |RevokeUserHits(old(rows), user, now)|
    {
      revoked := |RevokeUserHits(rows, user, now)|;
      rows := map id | id in rows ::
        if RevokeByUserHits(rows[id], user, now) then rows[id].(revokedAt := Some(Whole(now))) else rows[id];
    }
  }
}
