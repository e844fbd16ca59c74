/** What each session request leaves in the table, and that the log tells the
    whole story. */
module SessionAnswers {
  import opened Options
  import opened RefreshSessions

  // ----- each request on its own --------------------------------------------

  /** Session `id` is revoked now; every other session is as it was. */
  predicate RevokedNow(a: Auth, b: Auth, id: nat)
    requires id < |a.sessions|
  {
    b == a.(sessions := a.sessions[id := a.sessions[id].(revokedAt := Some(a.clock))])
  }

  predicate Holds(a: Auth, hash: nat, id: nat) { id < |a.sessions| && a.sessions[id].tokenHash == hash }

  predicate Live(a: Auth, id: nat)
    requires id < |a.sessions|
  {
    a.sessions[id].revokedAt.None?
  }

  lemma NobodyIsFound(a: Auth, hash: nat)
    requires forall i: nat :: !Holds(a, hash, i)
    ensures FindByTokenHash(a.sessions, hash).None?
  {
    var found := FindByTokenHash(a.sessions, hash);
    if found.Some? { assert Holds(a, hash, found.value); }
  }

  /** A logout revokes the live session that holds the token, and nothing else;
      the token, which the session still holds, is then refused for good. */
  lemma LogoutRevokes(a: Auth, hash: nat, id: nat, later: nat)
    requires TableOk(a) && Holds(a, hash, id) && Live(a, id)
    ensures var (b, out) := Finish(a, StartLogout(hash));
      && out == Completed && RevokedNow(a, b, id)
      && Finish(b.(clock := b.clock + later), StartRefresh(hash)) == (b.(clock := b.clock + later), InvalidToken)
  {
    var b := RevokeById(a, id);
    FinishLogout(a, hash, id);
    RevokeByIdMoves(a, id);
    LaterIsOk(b, later);
    RevokedTokenIsRefused(b.(clock := b.clock + later), hash, id);
  }

  lemma FinishLogout(a: Auth, hash: nat, id: nat)
    requires TableOk(a) && Holds(a, hash, id) && Live(a, id)
    ensures Finish(a, StartLogout(hash)) == (RevokeById(a, id), Completed)
  {
    HolderIsFound(a, hash, id);
    Unroll(a, StartLogout(hash));
    Unroll(a, LogoutFound(id));
  }

  lemma LaterIsOk(a: Auth, later: nat)
    requires TableOk(a)
    ensures TableOk(a.(clock := a.clock + later))
  {
  }

  lemma RevokedTokenIsRefused(a: Auth, hash: nat, id: nat)
    requires TableOk(a) && Holds(a, hash, id) && !Live(a, id)
    ensures Finish(a, StartRefresh(hash)) == (a, InvalidToken)
  {
    HolderIsFound(a, hash, id);
    Unroll(a, StartRefresh(hash));
  }

  /** With a token that no live session holds a logout changes nothing. */
  lemma LogoutIsIdempotent(a: Auth, hash: nat)
    requires TableOk(a) && forall id: nat :: Holds(a, hash, id) ==> !Live(a, id)
    ensures Finish(a, StartLogout(hash)) == (a, Completed)
  {
    Unroll(a, StartLogout(hash));
    var found := FindByTokenHash(a.sessions, hash);
    if found.Some? { assert Holds(a, hash, found.value); }
  }

  /** Refused without touching anything: a token whose session is revoked or
      has expired, or whose user is unknown or blocked. */
  lemma RefreshRefusals(a: Auth, hash: nat, id: nat)
    requires TableOk(a) && Holds(a, hash, id)
    ensures var s := a.sessions[id]; var (b, out) := Finish(a, StartRefresh(hash));
      && (s.revokedAt.Some? || s.expiresAt < a.clock ==> b == a && out == InvalidToken)
      && (s.revokedAt.None? && a.clock <= s.expiresAt && s.user !in a.blocked ==> b == a && out == InvalidToken)
      && (s.revokedAt.None? && a.clock <= s.expiresAt && s.user in a.blocked && a.blocked[s.user] ==>
            b == a && out == AccountBlocked)
  {
    HolderIsFound(a, hash, id);
    Unroll(a, StartRefresh(hash));
    var s := a.sessions[id];
    if s.revokedAt.None? && a.clock <= s.expiresAt { Unroll(a, SessionRead(hash, id, s)); }
  }

  /** A live session past ninety days from its login is revoked on sight. No
      reachable table has one that has not expired as well. */
  lemma TooOldIsRevoked(a: Auth, hash: nat, id: nat)
    requires FindByTokenHash(a.sessions, hash) == Some(id) && Live(a, id) && a.clock <= a.sessions[id].expiresAt
    requires a.sessions[id].createdAt + 90 * 86_400_000 < a.clock
    ensures Finish(a, StartRefresh(hash)).1 == SessionExpired && RevokedNow(a, Finish(a, StartRefresh(hash)).0, id)
    ensures !TableOk(a)
  {
    Unroll(a, StartRefresh(hash));
    Unroll(a, TooOld(id));
  }

  /** A token nobody holds: unknown, or held before by a session that is over,
      it changes nothing; within ten seconds of its exchange the client is told
      to retry; later the session it belonged to is revoked. */
  lemma StaleAnswers(a: Auth, hash: nat)
    requires forall i: nat :: !Holds(a, hash, i)
    ensures var stale := FindByPreviousTokenHash(a.sessions, hash); var (b, out) := Finish(a, StartRefresh(hash));
      if stale.None? || !Live(a, stale.value) then b == a && out == InvalidToken
      else
        && a.sessions[stale.value].previousHash == Some(hash)
        && var rotatedAt := a.sessions[stale.value].rotatedAt;
           if rotatedAt.Some? && a.clock <= rotatedAt.value + 10_000 then b == a && out == RotatedElsewhere
           else RevokedNow(a, b, stale.value) && out == InvalidToken
  {
    NobodyIsFound(a, hash);
    Unroll(a, StartRefresh(hash));
    Unroll(a, LookForStale(hash));
    var stale := FindByPreviousTokenHash(a.sessions, hash);
    if stale.Some? && Live(a, stale.value) { Unroll(a, ReplayFound(stale.value)); }
  }

  lemma {:induction false} StaleIsFoundIffHeldBefore(sessions: seq<Session>, hash: nat)
    ensures FindByPreviousTokenHash(sessions, hash).Some?
      <==> exists i :: 0 <= i < |sessions| && sessions[i].previousHash == Some(hash)
  {
    if sessions != [] {
      var before := sessions[..|sessions| - 1];
      StaleIsFoundIffHeldBefore(before, hash);
      if FindByPreviousTokenHash(before, hash).Some? {
        var i :| 0 <= i < |before| && before[i].previousHash == Some(hash);
        assert sessions[i].previousHash == Some(hash);
      }
      if exists i :: 0 <= i < |sessions| && sessions[i].previousHash == Some(hash) {
        var i :| 0 <= i < |sessions| && sessions[i].previousHash == Some(hash);
        if i < |before| { assert before[i].previousHash == Some(hash); }
      }
    }
  }

  /** A login of an unblocked user opens one session, good for thirty days,
      whose token can be refreshed at once; other users get nothing. */
  lemma LoginAnswers(a: Auth, user: nat)
    ensures var mayLogIn := user in a.blocked && !a.blocked[user];
            var extended := a.(nextHash := a.nextHash + 1, sessions := a.sessions +
              [Session(user, a.nextHash, None, None, a.clock + 30 * 86_400_000, None, a.clock)]);
      && (mayLogIn ==> Finish(a, StartLogin(user)) == (extended, LoggedIn(a.nextHash)))
      && (mayLogIn ==> Refreshable(extended, a.nextHash, |a.sessions|))
      && (!mayLogIn ==> Finish(a, StartLogin(user)) == (a, if user in a.blocked then AccountBlocked else UserNotFound))
  {
    FinishLogin(a, user);
    assert REFRESH_TOKEN_TTL_MS == 30 * 86_400_000;
  }

  lemma FinishLogin(a: Auth, user: nat)
    ensures Finish(a, StartLogin(user)) ==
      if user !in a.blocked then (a, UserNotFound)
      else if a.blocked[user] then (a, AccountBlocked)
      else
        var session := Session(user, a.nextHash, None, None, a.clock + REFRESH_TOKEN_TTL_MS, None, a.clock);
        (a.(sessions := a.sessions + [session], nextHash := a.nextHash + 1), LoggedIn(a.nextHash))
  {
    Unroll(a, StartLogin(user));
    if user in a.blocked && !a.blocked[user] {
      LoginEnds(a, user, a.clock + REFRESH_TOKEN_TTL_MS);
    } else {
      assert Advance(a, StartLogin(user)).auth == a && Advance(a, StartLogin(user)).flight.Done?;
    }
  }

  lemma LoginEnds(a: Auth, user: nat, expiresAt: int)
    ensures Finish(a, LoginCleared(user, expiresAt)) ==
      (a.(sessions := a.sessions + [Session(user, a.nextHash, None, None, expiresAt, None, a.clock)],
          nextHash := a.nextHash + 1), LoggedIn(a.nextHash))
  {
    Unroll(a, LoginCleared(user, expiresAt));
  }

  /** Every live session of the user is revoked now; sessions that were over
      and sessions of other users are as they were. */
  ghost predicate CutOffNow(before: seq<Session>, after: seq<Session>, user: nat, now: int) {
    && |after| == |before|
    && forall i :: 0 <= i < |before| ==>
         after[i] == if before[i].user == user && before[i].revokedAt.None?
                     then before[i].(revokedAt := Some(now)) else before[i]
  }

  /** Blocking flags the user and cuts off every session; nothing is left that
      could be refreshed. */
  lemma BlockAnswers(a: Auth, user: nat)
    ensures var (b, out) := Finish(a, StartBlock(user));
      if user in a.blocked && !a.blocked[user] then
        && out == Completed && b.blocked == a.blocked[user := true] && CutOffNow(a.sessions, b.sessions, user, a.clock)
        && b.clock == a.clock && b.nextHash == a.nextHash
        && forall i :: 0 <= i < |b.sessions| && b.sessions[i].user == user ==> b.sessions[i].revokedAt.Some?
      else b == a && out == if user in a.blocked then AlreadyBlocked else UserNotFound
  {
    Unroll(a, StartBlock(user));
    if user in a.blocked && !a.blocked[user] { Unroll(a, BlockRead(user)); }
  }

  /** Unblocking clears the flag; no session comes back. */
  lemma UnblockAnswers(a: Auth, user: nat)
    ensures Finish(a, StartUnblock(user)) ==
      if user in a.blocked && a.blocked[user] then (a.(blocked := a.blocked[user := false]), Completed)
      else (a, if user in a.blocked then NotBlocked else UserNotFound)
  {
    Unroll(a, StartUnblock(user));
    if user in a.blocked && a.blocked[user] { Unroll(a, UnblockRead(user)); }
  }

  lemma CutOffAnswers(a: Auth, user: nat)
    ensures var (b, out) := Finish(a, CutOff(user));
      && out == Completed && CutOffNow(a.sessions, b.sessions, user, a.clock)
      && b == a.(sessions := b.sessions)
  {
    Unroll(a, CutOff(user));
  }

  // ----- the log tells the whole story --------------------------------------

  /** Session `id` got another token. */
  predicate Rotated(a: Auth, b: Auth, id: nat)
    requires id < |a.sessions| && id < |b.sessions|
  {
    b.sessions[id].tokenHash != a.sessions[id].tokenHash
  }

  predicate NewlyRevoked(a: Auth, b: Auth, id: nat)
    requires id < |a.sessions| && id < |b.sessions|
  {
    a.sessions[id].revokedAt.None? && b.sessions[id].revokedAt.Some?
  }

  predicate Flagged(a: Auth, user: nat) { user in a.blocked && a.blocked[user] }

  /** Whatever a step does to a session or to a user's block is in the event
      it appends. */
  ghost predicate Told(a: Auth, b: Auth, events: seq<Event>) {
    && |a.sessions| <= |b.sessions|
    && (forall id :: 0 <= id < |a.sessions| && Rotated(a, b, id) ==>
          events == [Exchanged(a.sessions[id].tokenHash, id, a.sessions[id].user)])
    && (forall id :: 0 <= id < |a.sessions| && NewlyRevoked(a, b, id) ==> |events| == 1 && id in CutBy(events[0]))
    && (forall user: nat :: Flagged(b, user) && !Flagged(a, user) ==>
          |events| == 1 && events[0].Blocked? && events[0].user == user)
    && (forall user: nat :: Flagged(a, user) && !Flagged(b, user) ==> events == [Unblocked(user)])
  }

  /** And what the event says has happened. */
  ghost predicate TellsTruth(a: Auth, b: Auth, events: seq<Event>) {
    && |events| <= 1
    && forall k :: 0 <= k < |events| ==>
         match events[k]
         case Exchanged(hash, id, owner) =>
           && Holds(a, hash, id) && Live(a, id) && a.sessions[id].user == owner
           && id < |b.sessions| && b.sessions[id].tokenHash == a.nextHash && b.sessions[id].previousHash == Some(hash)
         case Revoked(ids, _) => forall id :: id in ids ==> id < |b.sessions| && b.sessions[id].revokedAt.Some?
         case Blocked(user, ids) =>
           && Flagged(b, user)
           && (forall id :: id in ids ==> id < |b.sessions| && b.sessions[id].revokedAt.Some?)
           && (forall id: nat :: id < |a.sessions| && a.sessions[id].user == user ==> id in ids)
         case Unblocked(user) => !Flagged(b, user)
  }

  lemma AdvanceIsTold(a: Auth, f: Flight)
    requires TableOk(a) && FlightOk(a, f)
    ensures Told(a, Advance(a, f).auth, Advance(a, f).events)
    ensures TellsTruth(a, Advance(a, f).auth, Advance(a, f).events)
  {
    if !Writes(f) { ReadsDoNotWrite(a, f); }
    else if f.BlockRead? || f.UnblockRead? || f.CutOff? { BlockIsTold(a, f); }
    else { SessionWriteIsTold(a, f); }
  }

  lemma BlockIsTold(a: Auth, f: Flight)
    requires f.BlockRead? || f.UnblockRead? || f.CutOff?
    ensures Told(a, Advance(a, f).auth, Advance(a, f).events)
    ensures TellsTruth(a, Advance(a, f).auth, Advance(a, f).events)
  {
  }

  lemma SessionWriteIsTold(a: Auth, f: Flight)
    requires TableOk(a) && FlightOk(a, f) && Writes(f) && !f.BlockRead? && !f.UnblockRead? && !f.CutOff?
    ensures Told(a, Advance(a, f).auth, Advance(a, f).events)
    ensures TellsTruth(a, Advance(a, f).auth, Advance(a, f).events)
  {
  }

  /** In every step of every interleaving the log gets exactly what happened:
      each exchange of a token, each revocation, each block and unblock. */
  lemma LogTellsAll(s: Sys, e: Action)
    requires SysInv(s)
    ensures var t := Step(s, e);
      && |s.log| <= |t.log| && t.log[..|s.log|] == s.log
      && Told(s.auth, t.auth, t.log[|s.log|..]) && TellsTruth(s.auth, t.auth, t.log[|s.log|..])
  {
    var t := Step(s, e);
    if e.Go? && e.k < |s.flights| {
      AdvanceIsTold(s.auth, s.flights[e.k]);
      assert t.log[|s.log|..] == Advance(s.auth, s.flights[e.k]).events;
    } else {
      assert t.log[|s.log|..] == [];
    }
  }

  /** Once revoked, a session keeps its token, its expiry and its revocation,
      in every later state of every interleaving. */
  lemma {:induction false} RevokedSessionsFreeze(s: Sys, actions: seq<Action>, id: nat)
    requires SysInv(s) && id < |s.auth.sessions| && s.auth.sessions[id].revokedAt.Some?
    ensures id < |Run(s, actions).auth.sessions|
    ensures var (before, after) := (s.auth.sessions[id], Run(s, actions).auth.sessions[id]);
      after.revokedAt.Some? && after == before.(revokedAt := after.revokedAt)
  {
    if actions != [] {
      var mid := Run(s, actions[..|actions| - 1]);
      RevokedSessionsFreeze(s, actions[..|actions| - 1], id);
      RunSafe(s, actions[..|actions| - 1]);
      RevokedStays(mid, actions[|actions| - 1], id);
    }
  }

  lemma RevokedStays(s: Sys, e: Action, id: nat)
    requires SysInv(s) && id < |s.auth.sessions| && s.auth.sessions[id].revokedAt.Some?
    ensures id < |Step(s, e).auth.sessions|
    ensures var (before, after) := (s.auth.sessions[id], Step(s, e).auth.sessions[id]);
      after.revokedAt.Some? && after == before.(revokedAt := after.revokedAt)
  {
    if e.Go? && e.k < |s.flights| { AdvanceFreezes(s.auth, s.flights[e.k], id); }
  }

  lemma AdvanceFreezes(a: Auth, f: Flight, id: nat)
    requires FlightOk(a, f) && id < |a.sessions| && a.sessions[id].revokedAt.Some?
    ensures id < |Advance(a, f).auth.sessions|
    ensures var (before, after) := (a.sessions[id], Advance(a, f).auth.sessions[id]);
      after.revokedAt.Some? && after == before.(revokedAt := after.revokedAt)
  {
  }

  // ----- a request that is about to revoke does revoke ----------------------

  /** A logout, a replay or an age check that has found its session. */
  predicate WillRevoke(f: Flight, id: nat) { f == LogoutFound(id) || f == ReplayFound(id) || f == TooOld(id) }

  /** The log after `since` cuts off session `id`. */
  ghost predicate CutSince(log: seq<Event>, since: nat, id: nat) {
    exists i :: since <= i < |log| && id in CutBy(log[i])
  }

  lemma FlightsStand(s: Sys, e: Action, k: nat)
    requires k < |s.flights| && e != Go(k)
    ensures k < |Step(s, e).flights| && Step(s, e).flights[k] == s.flights[k]
  {
  }

  lemma LogGrows(s: Sys, e: Action, since: nat, id: nat)
    requires CutSince(s.log, since, id)
    ensures CutSince(Step(s, e).log, since, id)
  {
    var i :| since <= i < |s.log| && id in CutBy(s.log[i]);
    assert Step(s, e).log[i] == s.log[i];
  }

  /** However the others interleave, when such a request has ended its session
      has been cut off, and is over. */
  lemma {:induction false} FoundSessionIsCut(s: Sys, actions: seq<Action>, k: nat, id: nat)
    requires SysInv(s) && k < |s.flights| && WillRevoke(s.flights[k], id)
    ensures var t := Run(s, actions);
      && |s.log| <= |t.log| && k < |t.flights|
      && (t.flights[k] == s.flights[k]
          || (t.flights[k].Done? && CutSince(t.log, |s.log|, id)
              && id < |t.auth.sessions| && t.auth.sessions[id].revokedAt.Some?))
  {
    if actions != [] {
      var mid, e := Run(s, actions[..|actions| - 1]), actions[|actions| - 1];
      FoundSessionIsCut(s, actions[..|actions| - 1], k, id);
      RunSafe(s, actions[..|actions| - 1]);
      if mid.flights[k] == s.flights[k] {
        if e == Go(k) { RevokingStep(mid, k, id, |s.log|); } else { FlightsStand(mid, e, k); }
      } else {
        LogGrows(mid, e, |s.log|, id);
        RevokedStays(mid, e, id);
        if e == Go(k) { assert Step(mid, e).flights[k] == mid.flights[k]; } else { FlightsStand(mid, e, k); }
      }
    }
  }

  lemma RevokingStep(s: Sys, k: nat, id: nat, since: nat)
    requires SysInv(s) && k < |s.flights| && WillRevoke(s.flights[k], id) && since <= |s.log|
    ensures var t := Step(s, Go(k));
      && |s.log| <= |t.log| && t.flights[k].Done? && CutSince(t.log, since, id)
      && id < |t.auth.sessions| && t.auth.sessions[id].revokedAt.Some?
  {
    var t := Step(s, Go(k));
    assert FlightOk(s.auth, s.flights[k]);
    assert t.log[|s.log|].Revoked? && id in CutBy(t.log[|s.log|]);
  }

  lemma {:induction false} RunAfter(s: Sys, before: seq<Action>, after: seq<Action>)
    ensures Run(s, before + after) == Run(Run(s, before), after)
  {
    if after == [] {
      assert before + after == before;
    } else {
      var last, all := |after| - 1, before + after;
      RunAfter(s, before, after[..last]);
      assert all[..|all| - 1] == before + after[..last] && all[|all| - 1] == after[last];
    }
  }

  /** A logout that has found session `id` ends it: when the request has ended,
      the session is cut off in the log, and no token of it is exchanged from
      then on. The same for a replay and for a session past its age. */
  lemma LogoutEndsTheSession(
    blocked: map<nat, bool>, clock: int, before: seq<Action>, after: seq<Action>, k: nat, id: nat)
    requires var s := Run(Start(blocked, clock), before); k < |s.flights| && WillRevoke(s.flights[k], id)
    ensures var t := Run(Start(blocked, clock), before + after);
      k < |t.flights| && (t.flights[k].Done? ==>
        exists i :: 0 <= i < |t.log| && id in CutBy(t.log[i])
          && forall j :: i < j < |t.log| && t.log[j].Exchanged? ==> t.log[j].session != id)
  {
    var s, t := Run(Start(blocked, clock), before), Run(Start(blocked, clock), before + after);
    RunSafe(Start(blocked, clock), before);
    RunAfter(Start(blocked, clock), before, after);
    FoundSessionIsCut(s, after, k, id);
    RevocationIsFinal(blocked, clock, before + after);
    if t.flights[k].Done? {
      var i :| |s.log| <= i < |t.log| && id in CutBy(t.log[i]);
      forall j | i < j < |t.log| && t.log[j].Exchanged? ensures t.log[j].session != id { }
    }
  }
}
