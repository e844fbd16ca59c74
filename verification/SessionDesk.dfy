/** The session use cases as they are written. Each method is proved to do
    what its request does when its phases run in a row (`Finish`). */
module SessionDesk {
  import opened Options
  import opened RefreshSessions

  class Desk {
    var sessions: seq<Session>
    var blocked: map<nat, bool>
    var clock: int
    var nextHash: nat

    constructor (blocked: map<nat, bool>, clock: int)
      ensures State() == Start(blocked, clock).auth
    {
      sessions, nextHash := [], 0;
      this.blocked, this.clock := blocked, clock;
    }

    function State(): Auth
      reads this
    {
      Auth(sessions, blocked, clock, nextHash)
    }

    method RevokeSession(id: nat)
      requires id < |sessions|
      modifies this`sessions
      ensures State() == RevokeById(old(State()), id)
    {
      sessions := sessions[id := sessions[id].(revokedAt := Some(clock))];
    }

    method RotateSession(id: nat, expected: nat, newExpiresAt: int, rotatedAt: int) returns (rotated: bool)
      modifies this`sessions, this`nextHash
      ensures rotated <==> CanRotate(old(State()), id, expected)
      ensures State() == if rotated then Rotate(old(State()), id, expected, newExpiresAt, rotatedAt) else old(State())
    {
      if id >= |sessions| || sessions[id].tokenHash != expected || sessions[id].revokedAt.Some? { return false; }
      sessions := sessions[id := sessions[id].(tokenHash := nextHash, previousHash := Some(expected),
                                               rotatedAt := Some(rotatedAt), expiresAt := newExpiresAt)];
      nextHash := nextHash + 1;
      return true;
    }

    method RejectStaleToken(hash: nat) returns (out: Outcome)
      modifies this`sessions
      ensures (State(), out) == Finish(old(State()), LookForStale(hash))
    {
      ghost var a := State();
      Unroll(a, LookForStale(hash));
      var stale := FindByPreviousTokenHash(sessions, hash);
      if stale.None? || sessions[stale.value].revokedAt.Some? { return InvalidToken; }
      var rotatedAt := sessions[stale.value].rotatedAt;
      if rotatedAt.Some? && clock - rotatedAt.value <= ROTATION_RACE_GRACE_MS { return RotatedElsewhere; }
      Unroll(a, ReplayFound(stale.value));
      RevokeSession(stale.value);
      return InvalidToken;
    }

    method RefreshToken(hash: nat) returns (out: Outcome)
      modifies this`sessions, this`nextHash
      ensures (State(), out) == Finish(old(State()), StartRefresh(hash))
    {
      ghost var a := State();
      Unroll(a, StartRefresh(hash));
      var found := FindByTokenHash(sessions, hash);
      if found.None? {
        out := RejectStaleToken(hash);
        return;
      }
      var session := sessions[found.value];
      if session.revokedAt.Some? || session.expiresAt < clock { return InvalidToken; }
      var absoluteExpiry := session.createdAt + ABSOLUTE_SESSION_MAX_MS;
      if absoluteExpiry < clock {
        Unroll(a, TooOld(found.value));
        RevokeSession(found.value);
        return SessionExpired;
      }
      Unroll(a, SessionRead(hash, found.value, session));
      if session.user !in blocked { return InvalidToken; }
      if blocked[session.user] { return AccountBlocked; }
      var slidingExpiry := clock + REFRESH_TOKEN_TTL_MS;
      var newExpiresAt := if slidingExpiry < absoluteExpiry then slidingExpiry else absoluteExpiry;
      Unroll(a, UserCleared(hash, found.value, newExpiresAt, clock));
      var newHash := nextHash;
      var rotated := RotateSession(found.value, hash, newExpiresAt, clock);
      if !rotated { return RotatedElsewhere; }
      return Refreshed(newHash);
    }

    method Logout(hash: nat) returns (out: Outcome)
      modifies this`sessions
      ensures (State(), out) == Finish(old(State()), StartLogout(hash))
    {
      ghost var a := State();
      Unroll(a, StartLogout(hash));
      var found := FindByTokenHash(sessions, hash);
      if found.None? || sessions[found.value].revokedAt.Some? { return Completed; }
      Unroll(a, LogoutFound(found.value));
      RevokeSession(found.value);
      return Completed;
    }

    /** Once the credentials have been accepted. */
    method Login(user: nat) returns (out: Outcome)
      modifies this`sessions, this`nextHash
      ensures (State(), out) == Finish(old(State()), StartLogin(user))
    {
      ghost var a := State();
      Unroll(a, StartLogin(user));
      if user !in blocked { return UserNotFound; }
      if blocked[user] { return AccountBlocked; }
      var expiresAt := clock + REFRESH_TOKEN_TTL_MS;
      Unroll(a, LoginCleared(user, expiresAt));
      var hash := nextHash;
      sessions := sessions + [Session(user, hash, None, None, expiresAt, None, clock)];
      nextHash := nextHash + 1;
      return LoggedIn(hash);
    }

    method BlockUser(user: nat) returns (out: Outcome)
      modifies this`sessions, this`blocked
      ensures (State(), out) == Finish(old(State()), StartBlock(user))
    {
      ghost var a := State();
      Unroll(a, StartBlock(user));
      if user !in blocked { return UserNotFound; }
      if blocked[user] { return AlreadyBlocked; }
      Unroll(a, BlockRead(user));
      blocked := blocked[user := true];
      sessions := RevokeAllByUserId(sessions, user, clock);
      return Completed;
    }

    method UnblockUser(user: nat) returns (out: Outcome)
      modifies this`blocked
      ensures (State(), out) == Finish(old(State()), StartUnblock(user))
    {
      ghost var a := State();
      Unroll(a, StartUnblock(user));
      if user !in blocked { return UserNotFound; }
      if !blocked[user] { return NotBlocked; }
      Unroll(a, UnblockRead(user));
      blocked := blocked[user := false];
      return Completed;
    }
  }
}
