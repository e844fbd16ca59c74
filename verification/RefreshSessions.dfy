/** Refresh sessions: rotation, replay detection, logout, blocking.

    `Advance` runs one database access of one request; requests interleave
    freely in `Step`. A token is identified with its hash, and a hash is fresh
    when it is first stored. */
module RefreshSessions {
  import opened Options

  const DAY_MS := 86_400_000
  const REFRESH_TOKEN_TTL_MS := 30 * DAY_MS
  const ABSOLUTE_SESSION_MAX_MS := 90 * DAY_MS
  const ROTATION_RACE_GRACE_MS := 10_000

  datatype Session = Session(
    user: nat, tokenHash: nat, previousHash: Option<nat>, rotatedAt: Option<int>,
    expiresAt: int, revokedAt: Option<int>, createdAt: int)

  /** `blocked` has an entry for every user. */
  datatype Auth = Auth(sessions: seq<Session>, blocked: map<nat, bool>, clock: int, nextHash: nat)

  datatype Outcome =
    | Refreshed(tokenHash: nat) | LoggedIn(tokenHash: nat) | Completed
    | InvalidToken | SessionExpired | AccountBlocked | RotatedElsewhere
    | UserNotFound | AlreadyBlocked | NotBlocked

  datatype Flight =
    | StartRefresh(hash: nat)
    | LookForStale(hash: nat)
    | ReplayFound(id: nat)
    | TooOld(id: nat)
    | SessionRead(hash: nat, id: nat, seen: Session)
    | UserCleared(hash: nat, id: nat, newExpiresAt: int, rotatedAt: int)
    | StartLogout(hash: nat)
    | LogoutFound(id: nat)
    | StartLogin(user: nat)
    | LoginCleared(user: nat, expiresAt: int)
    | StartBlock(user: nat)
    | BlockRead(user: nat)
    | StartUnblock(user: nat)
    | UnblockRead(user: nat)
    | CutOff(user: nat)
    | Done(outcome: Outcome)

  datatype Cause = ByLogout | ByReplay | ByAge | ByOtherUseCase

  /** What a committed write means to the outside. */
  datatype Event =
    | Exchanged(hash: nat, session: nat, owner: nat)
    | Revoked(sessions: set<nat>, cause: Cause)
    | Blocked(user: nat, cutOff: set<nat>)
    | Unblocked(user: nat)

  // ----- the session table --------------------------------------------------

  function FindByTokenHash(sessions: seq<Session>, hash: nat): (r: Option<nat>)
    ensures r.Some? ==> r.value < |sessions| && sessions[r.value].tokenHash == hash
    ensures r.None? ==> forall i :: 0 <= i < |sessions| ==> sessions[i].tokenHash != hash
  {
    if sessions == [] then None
    else if sessions[|sessions| - 1].tokenHash == hash then Some(|sessions| - 1)
    else FindByTokenHash(sessions[..|sessions| - 1], hash)
  }

  function FindByPreviousTokenHash(sessions: seq<Session>, hash: nat): (r: Option<nat>)
    ensures r.Some? ==> r.value < |sessions| && sessions[r.value].previousHash == Some(hash)
  {
    if sessions == [] then None
    else if sessions[|sessions| - 1].previousHash == Some(hash) then Some(|sessions| - 1)
    else FindByPreviousTokenHash(sessions[..|sessions| - 1], hash)
  }

  function RevokeById(a: Auth, id: nat): Auth
    requires id < |a.sessions|
  {
    a.(sessions := a.sessions[id := a.sessions[id].(revokedAt := Some(a.clock))])
  }

  function RevokeAllByUserId(sessions: seq<Session>, user: nat, now: int): seq<Session> {
    seq(|sessions|, i requires 0 <= i < |sessions| =>
      if sessions[i].user == user && sessions[i].revokedAt.None?
      then sessions[i].(revokedAt := Some(now)) else sessions[i])
  }

  function SessionsOf(sessions: seq<Session>, user: nat): set<nat> {
    set i: nat | i < |sessions| && sessions[i].user == user
  }

  /** Compare-and-swap on the hash that was read, on a live session. */
  predicate CanRotate(a: Auth, id: nat, expected: nat) {
    id < |a.sessions| && a.sessions[id].tokenHash == expected && a.sessions[id].revokedAt.None?
  }

  function Rotate(a: Auth, id: nat, expected: nat, newExpiresAt: int, rotatedAt: int): Auth
    requires CanRotate(a, id, expected)
  {
    a.(sessions := a.sessions[id := a.sessions[id].(tokenHash := a.nextHash, previousHash := Some(expected),
                                                    rotatedAt := Some(rotatedAt), expiresAt := newExpiresAt)],
       nextHash := a.nextHash + 1)
  }

  // ----- one phase of one request -------------------------------------------

  function Min(a: int, b: int): int { if a < b then a else b }

  datatype Advanced = Advanced(auth: Auth, flight: Flight, events: seq<Event>)

  function Stop(a: Auth, outcome: Outcome): Advanced { Advanced(a, Done(outcome), []) }
  function Continue(a: Auth, f: Flight): Advanced { Advanced(a, f, []) }

  function Advance(a: Auth, f: Flight): Advanced {
    match f
    case StartRefresh(hash) =>
      var found := FindByTokenHash(a.sessions, hash);
      if found.None? then Continue(a, LookForStale(hash))
      else
        var session := a.sessions[found.value];
        if session.revokedAt.Some? || session.expiresAt < a.clock then Stop(a, InvalidToken)
        else if session.createdAt + ABSOLUTE_SESSION_MAX_MS < a.clock then Continue(a, TooOld(found.value))
        else Continue(a, SessionRead(hash, found.value, session))
    case LookForStale(hash) =>
      var stale := FindByPreviousTokenHash(a.sessions, hash);
      if stale.None? || a.sessions[stale.value].revokedAt.Some? then Stop(a, InvalidToken)
      else
        var rotatedAt := a.sessions[stale.value].rotatedAt;
        if rotatedAt.Some? && a.clock - rotatedAt.value <= ROTATION_RACE_GRACE_MS then Stop(a, RotatedElsewhere)
        else Continue(a, ReplayFound(stale.value))
    case ReplayFound(id) => RevokeAnd(a, id, ByReplay, InvalidToken)
    case TooOld(id) => RevokeAnd(a, id, ByAge, SessionExpired)
    case SessionRead(hash, id, seen) =>
      if seen.user !in a.blocked then Stop(a, InvalidToken)
      else if a.blocked[seen.user] then Stop(a, AccountBlocked)
      else
        Continue(a, UserCleared(hash, id,
          Min(a.clock + REFRESH_TOKEN_TTL_MS, seen.createdAt + ABSOLUTE_SESSION_MAX_MS), a.clock))
    case UserCleared(hash, id, newExpiresAt, rotatedAt) =>
      if !CanRotate(a, id, hash) then Stop(a, RotatedElsewhere)
      else Advanced(Rotate(a, id, hash, newExpiresAt, rotatedAt), Done(Refreshed(a.nextHash)),
                    [Exchanged(hash, id, a.sessions[id].user)])
    case StartLogout(hash) =>
      var found := FindByTokenHash(a.sessions, hash);
      if found.None? || a.sessions[found.value].revokedAt.Some? then Stop(a, Completed)
      else Continue(a, LogoutFound(found.value))
    case LogoutFound(id) => RevokeAnd(a, id, ByLogout, Completed)
    case StartLogin(user) =>
      if user !in a.blocked then Stop(a, UserNotFound)
      else if a.blocked[user] then Stop(a, AccountBlocked)
      else Continue(a, LoginCleared(user, a.clock + REFRESH_TOKEN_TTL_MS))
    case LoginCleared(user, expiresAt) =>
      var session := Session(user, a.nextHash, None, None, expiresAt, None, a.clock);
      Advanced(a.(sessions := a.sessions + [session], nextHash := a.nextHash + 1), Done(LoggedIn(a.nextHash)), [])
    case StartBlock(user) =>
      if user !in a.blocked then Stop(a, UserNotFound)
      else if a.blocked[user] then Stop(a, AlreadyBlocked)
      else Continue(a, BlockRead(user))
    case BlockRead(user) =>
      // One transaction: the flag and the revocations commit together.
      Advanced(a.(blocked := a.blocked[user := true], sessions := RevokeAllByUserId(a.sessions, user, a.clock)),
               Done(Completed), [Blocked(user, SessionsOf(a.sessions, user))])
    case StartUnblock(user) =>
      if user !in a.blocked then Stop(a, UserNotFound)
      else if !a.blocked[user] then Stop(a, NotBlocked)
      else Continue(a, UnblockRead(user))
    case UnblockRead(user) =>
      Advanced(a.(blocked := a.blocked[user := false]), Done(Completed), [Unblocked(user)])
    case CutOff(user) =>
      // Suspension of the business, password reset, end of employment.
      Advanced(a.(sessions := RevokeAllByUserId(a.sessions, user, a.clock)), Done(Completed),
               [Revoked(SessionsOf(a.sessions, user), ByOtherUseCase)])
    case Done(_) => Continue(a, f)
  }

  function RevokeAnd(a: Auth, id: nat, cause: Cause, outcome: Outcome): Advanced {
    if id < |a.sessions| then Advanced(RevokeById(a, id), Done(outcome), [Revoked({id}, cause)]) else Stop(a, outcome)
  }

  function Phases(f: Flight): nat {
    match f
    case StartRefresh(_) => 3
    case LookForStale(_) => 2
    case SessionRead(_, _, _) => 2
    case StartLogout(_) => 2
    case StartLogin(_) => 2
    case StartBlock(_) => 2
    case StartUnblock(_) => 2
    case Done(_) => 0
    case _ => 1
  }

  lemma AdvanceProgresses(a: Auth, f: Flight)
    requires !f.Done?
    ensures Phases(Advance(a, f).flight) < Phases(f)
  {
  }

  /** A request with nobody else in between. */
  function Finish(a: Auth, f: Flight): (Auth, Outcome)
    decreases Phases(f)
  {
    if f.Done? then (a, f.outcome)
    else
      AdvanceProgresses(a, f);
      Finish(Advance(a, f).auth, Advance(a, f).flight)
  }

  // ----- many requests at once ----------------------------------------------

  datatype Sys = Sys(auth: Auth, flights: seq<Flight>, log: seq<Event>)

  datatype Action = Launch(f: Flight) | Go(k: nat) | Tick(ms: nat)

  /** Requests start at their first phase. */
  predicate IsFirstPhase(f: Flight) {
    f.StartRefresh? || f.StartLogout? || f.StartLogin? || f.StartBlock? || f.StartUnblock? || f.CutOff?
  }

  function Step(s: Sys, e: Action): Sys {
    match e
    case Launch(f) => if IsFirstPhase(f) then s.(flights := s.flights + [f]) else s
    case Go(k) =>
      if k >= |s.flights| then s
      else
        var r := Advance(s.auth, s.flights[k]);
        Sys(r.auth, s.flights[k := r.flight], s.log + r.events)
    case Tick(ms) => s.(auth := s.auth.(clock := s.auth.clock + ms))
  }

  function Run(s: Sys, actions: seq<Action>): Sys {
    if actions == [] then s else Step(Run(s, actions[..|actions| - 1]), actions[|actions| - 1])
  }

  /** No session yet, some users, possibly blocked ones. */
  function Start(blocked: map<nat, bool>, clock: int): Sys { Sys(Auth([], blocked, clock, 0), [], []) }

  // ----- what must hold of the log ------------------------------------------

  function CutBy(e: Event): set<nat> {
    match e
    case Revoked(sessions, _) => sessions
    case Blocked(_, cutOff) => cutOff
    case _ => {}
  }

  /** Once revoked, a session is never refreshed again. */
  ghost predicate RevocationFinal(log: seq<Event>) {
    forall i, j :: 0 <= i < j < |log| && log[j].Exchanged? ==> log[j].session !in CutBy(log[i])
  }

  /** The latest block or unblock of the user is a block. */
  predicate BlockedNow(log: seq<Event>, user: nat) {
    log != [] &&
    var last := log[|log| - 1];
    if last.Blocked? && last.user == user then true
    else if last.Unblocked? && last.user == user then false
    else BlockedNow(log[..|log| - 1], user)
  }

  /** While a user is blocked none of the user's sessions is refreshed. */
  ghost predicate BlockedStayOut(log: seq<Event>) {
    forall j :: 0 <= j < |log| && log[j].Exchanged? ==> !BlockedNow(log[..j], log[j].owner)
  }

  /** No token is exchanged twice. */
  ghost predicate ExchangedOnce(log: seq<Event>) {
    forall i, j :: 0 <= i < j < |log| && log[i].Exchanged? && log[j].Exchanged? ==> log[i].hash != log[j].hash
  }

  // ----- the invariant ------------------------------------------------------

  ghost predicate TableOk(a: Auth) {
    && (forall i :: 0 <= i < |a.sessions| ==>
          && a.sessions[i].tokenHash < a.nextHash
          && a.sessions[i].createdAt <= a.clock
          && a.sessions[i].expiresAt <= a.sessions[i].createdAt + ABSOLUTE_SESSION_MAX_MS)
    && (forall i, j :: 0 <= i < j < |a.sessions| ==> a.sessions[i].tokenHash != a.sessions[j].tokenHash)
    && (forall i :: 0 <= i < |a.sessions| ==> PreviousIsPast(a, a.sessions[i].previousHash))
  }

  /** A previous hash was issued and is no longer anybody's current one. */
  ghost predicate PreviousIsPast(a: Auth, previous: Option<nat>) {
    previous.Some? ==>
        previous.value < a.nextHash && forall j :: 0 <= j < |a.sessions| ==> a.sessions[j].tokenHash != previous.value
  }

  /** `seen` is a past state of session `id`. */
  predicate SeenOk(a: Auth, id: nat, seen: Session) {
    id < |a.sessions| && a.sessions[id].user == seen.user && a.sessions[id].createdAt == seen.createdAt
  }

  predicate FlightOk(a: Auth, f: Flight) {
    match f
    case ReplayFound(id) => id < |a.sessions|
    case TooOld(id) => id < |a.sessions|
    case LogoutFound(id) => id < |a.sessions|
    case SessionRead(_, id, seen) => SeenOk(a, id, seen)
    case UserCleared(_, id, newExpiresAt, _) =>
      && id < |a.sessions|
      && newExpiresAt <= a.sessions[id].createdAt + ABSOLUTE_SESSION_MAX_MS
      // Cleared before the block: then the block has revoked the session.
      && (IsBlocked(a, a.sessions[id].user) ==> a.sessions[id].revokedAt.Some?)
    case LoginCleared(_, expiresAt) => expiresAt <= a.clock + REFRESH_TOKEN_TTL_MS
    case _ => true
  }

  predicate IsBlocked(a: Auth, user: nat) { user in a.blocked && a.blocked[user] }

  ghost predicate EventOk(a: Auth, e: Event) {
    && (forall id :: id in CutBy(e) ==> id < |a.sessions| && a.sessions[id].revokedAt.Some?)
    && (e.Exchanged? ==>
          e.hash < a.nextHash && forall i :: 0 <= i < |a.sessions| ==> a.sessions[i].tokenHash != e.hash)
  }

  ghost predicate LogOk(a: Auth, log: seq<Event>) {
    && (forall i :: 0 <= i < |log| ==> EventOk(a, log[i]))
    && (forall u :: BlockedNow(log, u) ==> IsBlocked(a, u))
    && RevocationFinal(log) && BlockedStayOut(log) && ExchangedOnce(log)
  }

  ghost predicate SysInv(s: Sys) {
    && TableOk(s.auth) && LogOk(s.auth, s.log)
    && forall k :: 0 <= k < |s.flights| ==> FlightOk(s.auth, s.flights[k])
  }

  // ----- how the table may change -------------------------------------------

  /** One write as every other request sees it. */
  ghost predicate Moved(a: Auth, b: Auth) {
    && |a.sessions| <= |b.sessions| && a.clock <= b.clock && a.nextHash <= b.nextHash
    && (forall i :: 0 <= i < |a.sessions| ==> SessionMoved(a, a.sessions[i], b.sessions[i]))
    && (forall i :: |a.sessions| <= i < |b.sessions| ==> a.nextHash <= b.sessions[i].tokenHash)
    && (forall i :: 0 <= i < |a.sessions| && IsBlocked(b, a.sessions[i].user) && !IsBlocked(a, a.sessions[i].user) ==>
          b.sessions[i].revokedAt.Some?)
  }

  predicate SessionMoved(a: Auth, before: Session, after: Session) {
    && after.user == before.user && after.createdAt == before.createdAt
    && (before.revokedAt.Some? ==> after.revokedAt.Some?)
    && (after.tokenHash == before.tokenHash || a.nextHash <= after.tokenHash)
  }

  lemma FlightStays(a: Auth, b: Auth, f: Flight)
    requires FlightOk(a, f) && Moved(a, b)
    ensures FlightOk(b, f)
  {
    match f
    case UserCleared(_, id, _, _) => assert SessionMoved(a, a.sessions[id], b.sessions[id]);
    case SessionRead(_, id, _) => assert SessionMoved(a, a.sessions[id], b.sessions[id]);
    case _ =>
  }

  lemma EventStays(a: Auth, b: Auth, e: Event)
    requires EventOk(a, e) && Moved(a, b)
    ensures EventOk(b, e)
  {
    forall id | id in CutBy(e) ensures id < |b.sessions| && b.sessions[id].revokedAt.Some? {
      assert SessionMoved(a, a.sessions[id], b.sessions[id]);
    }
    if e.Exchanged? {
      forall i | 0 <= i < |b.sessions| ensures b.sessions[i].tokenHash != e.hash {
        if i < |a.sessions| { assert SessionMoved(a, a.sessions[i], b.sessions[i]); }
      }
    }
  }

  lemma RevokeByIdMoves(a: Auth, id: nat)
    requires TableOk(a) && id < |a.sessions|
    ensures TableOk(RevokeById(a, id)) && Moved(a, RevokeById(a, id))
  {
  }

  lemma RevokeAllMoves(a: Auth, user: nat, b: Auth)
    requires TableOk(a) && b == a.(sessions := RevokeAllByUserId(a.sessions, user, a.clock))
    ensures TableOk(b) && Moved(a, b) && EventOk(b, Revoked(SessionsOf(a.sessions, user), ByOtherUseCase))
  {
  }

  lemma BlockMoves(a: Auth, user: nat, b: Auth)
    requires TableOk(a)
    requires b == a.(blocked := a.blocked[user := true], sessions := RevokeAllByUserId(a.sessions, user, a.clock))
    ensures TableOk(b) && Moved(a, b) && EventOk(b, Blocked(user, SessionsOf(a.sessions, user)))
  {
  }

  lemma RotateMoves(a: Auth, f: Flight)
    requires TableOk(a) && f.UserCleared? && FlightOk(a, f) && CanRotate(a, f.id, f.hash)
    ensures var b := Rotate(a, f.id, f.hash, f.newExpiresAt, f.rotatedAt);
      TableOk(b) && Moved(a, b) && EventOk(b, Exchanged(f.hash, f.id, a.sessions[f.id].user))
  {
  }

  lemma LoginMoves(a: Auth, f: Flight)
    requires TableOk(a) && f.LoginCleared? && FlightOk(a, f)
    ensures TableOk(Advance(a, f).auth) && Moved(a, Advance(a, f).auth)
  {
  }

  predicate Writes(f: Flight) {
    f.ReplayFound? || f.TooOld? || f.UserCleared? || f.LogoutFound? || f.LoginCleared? || f.BlockRead?
        || f.UnblockRead? || f.CutOff?
  }

  lemma ReadsDoNotWrite(a: Auth, f: Flight)
    requires !Writes(f)
    ensures Advance(a, f).auth == a && Advance(a, f).events == []
  {
  }

  lemma ReadSafe(a: Auth, f: Flight)
    requires TableOk(a) && FlightOk(a, f) && !Writes(f)
    ensures FlightOk(a, Advance(a, f).flight)
  {
  }

  lemma MovedIsReflexive(a: Auth)
    ensures Moved(a, a)
  {
  }

  lemma RevokeOneSafe(a: Auth, f: Flight)
    requires TableOk(a) && FlightOk(a, f) && (f.ReplayFound? || f.TooOld? || f.LogoutFound?)
    ensures AdvanceOk(a, f)
  {
    RevokeByIdMoves(a, f.id);
  }

  lemma RevokeAllSafe(a: Auth, f: Flight)
    requires TableOk(a) && (f.BlockRead? || f.CutOff?)
    ensures AdvanceOk(a, f)
  {
    if f.BlockRead? {
      BlockMoves(a, f.user, Advance(a, f).auth);
    } else {
      RevokeAllMoves(a, f.user, Advance(a, f).auth);
    }
  }

  lemma UnblockSafe(a: Auth, f: Flight)
    requires TableOk(a) && f.UnblockRead?
    ensures AdvanceOk(a, f)
  {
  }

  lemma RotatingAdvanceSafe(a: Auth, f: Flight)
    requires TableOk(a) && FlightOk(a, f) && (f.UserCleared? || f.LoginCleared?)
    ensures AdvanceOk(a, f)
  {
    if f.LoginCleared? { LoginMoves(a, f); }
    else if CanRotate(a, f.id, f.hash) { RotateMoves(a, f); }
    else { MovedIsReflexive(a); }
  }

  /** One phase keeps the table sound, moves it forward, and logs only what is
      true afterwards. */
  ghost predicate AdvanceOk(a: Auth, f: Flight) {
    var r := Advance(a, f);
    && TableOk(r.auth) && Moved(a, r.auth) && FlightOk(r.auth, r.flight)
    && |r.events| <= 1 && (r.events != [] ==> EventOk(r.auth, r.events[0]))
  }

  lemma AdvanceSafe(a: Auth, f: Flight)
    requires TableOk(a) && FlightOk(a, f)
    ensures AdvanceOk(a, f)
  {
    if !Writes(f) {
      ReadsDoNotWrite(a, f);
      ReadSafe(a, f);
      MovedIsReflexive(a);
    } else if f.UserCleared? || f.LoginCleared? {
      RotatingAdvanceSafe(a, f);
    } else if f.BlockRead? || f.CutOff? {
      RevokeAllSafe(a, f);
    } else if f.UnblockRead? {
      UnblockSafe(a, f);
    } else {
      RevokeOneSafe(a, f);
    }
  }

  // ----- the log keeps its promises -----------------------------------------

  lemma LogAfterMove(a: Auth, b: Auth, log: seq<Event>)
    requires LogOk(a, log) && Moved(a, b) && forall u :: IsBlocked(a, u) ==> IsBlocked(b, u)
    ensures LogOk(b, log)
  {
    forall i | 0 <= i < |log| ensures EventOk(b, log[i]) { EventStays(a, b, log[i]); }
  }

  lemma AppendToLog(a: Auth, b: Auth, log: seq<Event>, e: Event)
    requires LogOk(a, log) && Moved(a, b) && EventOk(b, e)
    requires e.Exchanged? ==>
      && e.session < |a.sessions| && a.sessions[e.session].revokedAt.None?
      && a.sessions[e.session].tokenHash == e.hash && !IsBlocked(a, e.owner)
    requires forall u :: IsBlocked(b, u) <==> (if e.Blocked? && e.user == u then true
                                               else if e.Unblocked? && e.user == u then false else IsBlocked(a, u))
    ensures LogOk(b, log + [e])
  {
    var more := log + [e];
    assert more[..|log|] == log;
    forall i | 0 <= i < |more| ensures EventOk(b, more[i]) {
      if i < |log| { EventStays(a, b, log[i]); }
    }
    forall j | 0 <= j < |more| && more[j].Exchanged? ensures !BlockedNow(more[..j], more[j].owner) {
      assert more[..j] == log[..j];
      if j == |log| { assert log[..j] == log; }
    }
    forall i, j | 0 <= i < j < |more| && more[j].Exchanged? ensures more[j].session !in CutBy(more[i]) {
      if j == |log| { assert EventOk(a, log[i]); }
    }
    forall i, j | 0 <= i < j < |more| && more[i].Exchanged? && more[j].Exchanged? ensures more[i].hash != more[j].hash {
      if j == |log| { assert EventOk(a, log[i]); }
    }
  }

  lemma GoKeepsLog(s: Sys, k: nat)
    requires SysInv(s) && k < |s.flights|
    ensures LogOk(Step(s, Go(k)).auth, Step(s, Go(k)).log)
  {
    var f := s.flights[k];
    var r := Advance(s.auth, f);
    AdvanceSafe(s.auth, f);
    if r.events == [] {
      assert s.log + r.events == s.log;
      assert forall u :: IsBlocked(s.auth, u) ==> IsBlocked(r.auth, u);
      LogAfterMove(s.auth, r.auth, s.log);
    } else {
      assert r.events == [r.events[0]];
      AppendToLog(s.auth, r.auth, s.log, r.events[0]);
    }
  }

  lemma StepSafe(s: Sys, e: Action)
    requires SysInv(s)
    ensures SysInv(Step(s, e)) && Moved(s.auth, Step(s, e).auth)
  {
    var t := Step(s, e);
    MovedIsReflexive(s.auth);
    match e
    case Launch(f) =>
    case Go(k) =>
      if k < |s.flights| {
        AdvanceSafe(s.auth, s.flights[k]);
        GoKeepsLog(s, k);
        forall j | 0 <= j < |t.flights| ensures FlightOk(t.auth, t.flights[j]) {
          if j != k { FlightStays(s.auth, t.auth, s.flights[j]); }
        }
      }
    case Tick(ms) =>
      LogAfterMove(s.auth, t.auth, s.log);
      forall j | 0 <= j < |t.flights| ensures FlightOk(t.auth, t.flights[j]) {
        FlightStays(s.auth, t.auth, s.flights[j]);
      }
  }

  lemma {:induction false} RunSafe(s: Sys, actions: seq<Action>)
    requires SysInv(s)
    ensures SysInv(Run(s, actions))
  {
    if actions != [] {
      RunSafe(s, actions[..|actions| - 1]);
      StepSafe(Run(s, actions[..|actions| - 1]), actions[|actions| - 1]);
    }
  }

  // ----- main theorems ------------------------------------------------------

  /** In every interleaving: a session cut off by a logout, a replay, its age,
      a block or another use case is never refreshed again, in flight or
      later; each token is exchanged at most once. */
  lemma RevocationIsFinal(blocked: map<nat, bool>, clock: int, actions: seq<Action>)
    ensures RevocationFinal(Run(Start(blocked, clock), actions).log)
    ensures ExchangedOnce(Run(Start(blocked, clock), actions).log)
  {
    RunSafe(Start(blocked, clock), actions);
  }

  lemma {:induction false} StaysBlocked(log: seq<Event>, i: nat, j: nat, user: nat)
    requires i < j <= |log| && log[i].Blocked? && log[i].user == user
    requires forall k :: i < k < j ==> log[k] != Unblocked(user)
    ensures BlockedNow(log[..j], user)
  {
    assert log[..j][..j - 1] == log[..j - 1];
    if i < j - 1 { StaysBlocked(log, i, j - 1, user); }
  }

  /** Between a block and the next unblock of a user, none of the user's
      sessions is refreshed — not even one that a racing login creates after
      the block has revoked the others. */
  lemma BlockedUsersStayOut(blocked: map<nat, bool>, clock: int, actions: seq<Action>, i: nat, j: nat)
    requires var log := Run(Start(blocked, clock), actions).log;
      i < j < |log| && log[i].Blocked? && forall k :: i < k < j ==> log[k] != Unblocked(log[i].user)
    ensures var log := Run(Start(blocked, clock), actions).log;
      !(log[j].Exchanged? && log[j].owner == log[i].user)
  {
    var log := Run(Start(blocked, clock), actions).log;
    RunSafe(Start(blocked, clock), actions);
    StaysBlocked(log, i, j, log[i].user);
  }

  /** Sliding never takes a session past ninety days from its login. */
  lemma NinetyDayCap(blocked: map<nat, bool>, clock: int, actions: seq<Action>, id: nat)
    requires id < |Run(Start(blocked, clock), actions).auth.sessions|
    ensures var session := Run(Start(blocked, clock), actions).auth.sessions[id];
      session.expiresAt <= session.createdAt + 90 * 86_400_000
  {
    RunSafe(Start(blocked, clock), actions);
  }

  /** Presenting the token a live session held before its last rotation, and
      nobody else running: within ten seconds the client is told to retry and
      nothing changes; later the session is revoked. */
  lemma ReplayIsPunishedAfterGrace(a: Auth, hash: nat, id: nat)
    requires TableOk(a) && id < |a.sessions| && FindByTokenHash(a.sessions, hash).None?
    requires FindByPreviousTokenHash(a.sessions, hash) == Some(id)
    requires a.sessions[id].revokedAt.None? && a.sessions[id].rotatedAt.Some?
    ensures Finish(a, StartRefresh(hash)) ==
      if a.clock <= a.sessions[id].rotatedAt.value + 10_000 then (a, RotatedElsewhere)
      else (a.(sessions := a.sessions[id := a.sessions[id].(revokedAt := Some(a.clock))]), InvalidToken)
  {
    Unroll(a, StartRefresh(hash));
    Unroll(a, LookForStale(hash));
    if a.clock > a.sessions[id].rotatedAt.value + ROTATION_RACE_GRACE_MS { Unroll(a, ReplayFound(id)); }
  }

  /** The session may be refreshed with this token now. */
  predicate Refreshable(a: Auth, hash: nat, id: nat) {
    && id < |a.sessions| && a.sessions[id].tokenHash == hash && a.sessions[id].revokedAt.None?
    && a.clock <= a.sessions[id].expiresAt && a.clock <= a.sessions[id].createdAt + 90 * 86_400_000
    && a.sessions[id].user in a.blocked && !a.blocked[a.sessions[id].user]
  }

  /** The session after a refresh: a new token, the old one remembered, thirty
      more days but never past ninety from the login. */
  function SessionAfterRefresh(a: Auth, id: nat): Session
    requires id < |a.sessions|
  {
    var s := a.sessions[id];
    s.(tokenHash := a.nextHash, previousHash := Some(s.tokenHash), rotatedAt := Some(a.clock),
       expiresAt := if a.clock <= s.createdAt + 60 * 86_400_000 then a.clock + 30 * 86_400_000
                    else s.createdAt + 90 * 86_400_000)
  }

  lemma HolderIsFound(a: Auth, hash: nat, id: nat)
    requires TableOk(a) && id < |a.sessions| && a.sessions[id].tokenHash == hash
    ensures FindByTokenHash(a.sessions, hash) == Some(id)
  {
    var found := FindByTokenHash(a.sessions, hash);
    assert found.Some? && a.sessions[found.value].tokenHash == hash;
  }

  /** A refresh that nobody disturbs succeeds exactly for the live, unexpired
      session of an unblocked user that holds the token, and changes that
      session alone. */
  lemma RefreshAnswers(a: Auth, hash: nat)
    requires TableOk(a)
    ensures var (b, out) := Finish(a, StartRefresh(hash));
      && (out.Refreshed? <==> exists id: nat :: Refreshable(a, hash, id))
      && (forall id: nat :: Refreshable(a, hash, id) ==>
            && out == Refreshed(a.nextHash)
            && b == a.(sessions := a.sessions[id := SessionAfterRefresh(a, id)], nextHash := a.nextHash + 1))
  {
    Unroll(a, StartRefresh(hash));
    var found := FindByTokenHash(a.sessions, hash);
    forall id: nat | Refreshable(a, hash, id) ensures found == Some(id) { HolderIsFound(a, hash, id); }
    if found.None? {
      StaleIsNotRefreshed(a, hash);
    } else {
      FoundAnswers(a, hash, found.value);
    }
  }

  lemma FoundAnswers(a: Auth, hash: nat, id: nat)
    requires FindByTokenHash(a.sessions, hash) == Some(id)
    ensures var (b, out) := Finish(a, StartRefresh(hash));
      && (out.Refreshed? <==> Refreshable(a, hash, id))
      && (Refreshable(a, hash, id) ==>
            out == Refreshed(a.nextHash) && b == a.(sessions := a.sessions[id := SessionAfterRefresh(a, id)],
                nextHash := a.nextHash + 1))
  {
    Unroll(a, StartRefresh(hash));
    var s := a.sessions[id];
    if s.revokedAt.None? && a.clock <= s.expiresAt {
      if s.createdAt + ABSOLUTE_SESSION_MAX_MS < a.clock {
        Unroll(a, TooOld(id));
      } else {
        Unroll(a, SessionRead(hash, id, s));
        if s.user in a.blocked && !a.blocked[s.user] {
          Unroll(a, UserCleared(
            hash, id, Min(a.clock + REFRESH_TOKEN_TTL_MS, s.createdAt + ABSOLUTE_SESSION_MAX_MS), a.clock));
        }
      }
    }
  }

  lemma StaleIsNotRefreshed(a: Auth, hash: nat)
    ensures !Finish(a, LookForStale(hash)).1.Refreshed?
  {
    Unroll(a, LookForStale(hash));
    var stale := FindByPreviousTokenHash(a.sessions, hash);
    if stale.Some? { Unroll(a, ReplayFound(stale.value)); }
  }

  lemma {:induction false} PreviousIsFound(sessions: seq<Session>, hash: nat, id: nat)
    requires id < |sessions| && sessions[id].previousHash == Some(hash)
    requires forall i :: 0 <= i < |sessions| && i != id ==> sessions[i].previousHash != Some(hash)
    ensures FindByPreviousTokenHash(sessions, hash) == Some(id)
  {
    if id < |sessions| - 1 { PreviousIsFound(sessions[..|sessions| - 1], hash, id); }
  }

  /** After a refresh, the token that was exchanged is a replay: presented
      again within ten seconds it changes nothing, later it ends the session,
      and then the new token does not refresh it either. */
  lemma ReplayAfterRefresh(a: Auth, hash: nat, id: nat, later: nat)
    requires TableOk(a) && Refreshable(a, hash, id)
    ensures var b := Finish(a, StartRefresh(hash)).0;
            var c := b.(clock := b.clock + later);
            var (d, out) := Finish(c, StartRefresh(hash));
      && id < |c.sessions|
      && (later <= 10_000 ==> d == c && out == RotatedElsewhere)
      && (later > 10_000 ==>
            && out == InvalidToken && !Refreshable(d, a.nextHash, id)
            && d == c.(sessions := c.sessions[id := c.sessions[id].(revokedAt := Some(c.clock))]))
  {
    RefreshAnswers(a, hash);
    var b := a.(sessions := a.sessions[id := SessionAfterRefresh(a, id)], nextHash := a.nextHash + 1);
    var c := b.(clock := b.clock + later);
    forall i | 0 <= i < |c.sessions| && i != id
      ensures c.sessions[i].previousHash != Some(hash) && c.sessions[i].tokenHash != hash
    {
      assert PreviousIsPast(a, a.sessions[i].previousHash);
      if i < id { assert a.sessions[i].tokenHash != a.sessions[id].tokenHash; }
      else { assert a.sessions[id].tokenHash != a.sessions[i].tokenHash; }
    }
    PreviousIsFound(c.sessions, hash, id);
    assert FindByTokenHash(c.sessions, hash).None?;
    Unroll(c, StartRefresh(hash));
    Unroll(c, LookForStale(hash));
    if later > 10_000 { Unroll(c, ReplayFound(id)); }
  }

  lemma Unroll(a: Auth, f: Flight)
    requires !f.Done?
    ensures Finish(a, f) == Finish(Advance(a, f).auth, Advance(a, f).flight)
  {
    AdvanceProgresses(a, f);
  }
}
