/** What every interleaving of the turn use cases keeps. */
module TurnSafety {
  import opened Options
  import opened Sorting
  import opened Turns
  import opened TurnProtocol

  // ----- the invariant ------------------------------------------------------

  predicate NotLater(a: Option<int>, b: Option<int>) { a.Some? && b.Some? && a.value <= b.value }

  /** Which timestamps a row carries in each status, and in which order. */
  predicate RowOk(t: Turn, now: int) {
    match t.status
    case Waiting =>
      t.window.None? && t.calledAt.None? && t.startedAt.None? && t.attendedAt.None? && t.cancelledAt.None?
          && t.noShowAt.None?
    case Called =>
      t.window.None? && NotLater(t.calledAt, Some(now)) && t.startedAt.None? && t.attendedAt.None?
          && t.cancelledAt.None? && t.noShowAt.None?
    case Attending => InService(t, now) && t.attendedAt.None? && t.cancelledAt.None? && t.noShowAt.None?
    case Redirected =>
      t.window.Some? && InService(t, now) && t.attendedAt.None? && t.cancelledAt.None? && t.noShowAt.None?
    case Completed =>
      InService(t, now) && NotLater(t.startedAt, t.attendedAt) && t.cancelledAt.None? && t.noShowAt.None?
    case NoShow => NotLater(t.calledAt, t.noShowAt) && t.attendedAt.None? && t.cancelledAt.None?
    case Cancelled => t.cancelledAt.Some? && t.attendedAt.None? && t.noShowAt.None?
  }

  predicate InService(t: Turn, now: int) {
    NotLater(t.calledAt, t.startedAt) && NotLater(t.startedAt, Some(now))
  }

  /** Only an unconfirmed phone reservation can join in the future. */
  predicate FutureOk(t: Turn, now: int) {
    t.joinedAt > now ==> t.priority.Registered? && t.customer.None?
  }

  ghost predicate RowsOk(db: Db) {
    forall i :: 0 <= i < |db.rows| ==>
      db.rows[i].id == i && RowOk(db.rows[i], db.clock) && FutureOk(db.rows[i], db.clock)
          && db.rows[i].version < db.nextVersion
  }

  /** The row at each index carries one more than the number of earlier rows
      of its queue and day. */
  ghost predicate Numbered(rows: seq<Turn>) {
    forall i :: 0 <= i < |rows| ==> NumberOk(rows, i)
  }

  predicate NumberOk(rows: seq<Turn>, i: nat)
    requires i < |rows|
  {
    rows[i].number == CountDay(rows[..i], rows[i].queue, rows[i].date) + 1
  }

  predicate QueueMatches(cfg: Config, queue: nat, business: nat, prefix: string) {
    queue in cfg.queues && cfg.queues[queue].business == business && cfg.queues[queue].prefix == prefix
  }

  ghost predicate Ticketed(db: Db) {
    forall i :: 0 <= i < |db.rows| ==> TicketOk(db.cfg, db.rows[i])
  }

  predicate TicketOk(cfg: Config, t: Turn) {
    && t.queue in cfg.queues && cfg.queues[t.queue].business == t.business
    && t.display == Display(cfg.queues[t.queue].prefix, t.number)
  }

  ghost predicate DbInv(db: Db) { RowsOk(db) && Numbered(db.rows) && Ticketed(db) }

  /** `base` is a version of the stored row, and the stored row itself when
      the versions agree. */
  predicate BaseOk(db: Db, base: Turn) {
    && base.id < |db.rows| && SameIdentity(base, db.rows[base.id])
    && base.version <= db.rows[base.id].version
    && (base.version == db.rows[base.id].version ==> base == db.rows[base.id])
    && RowOk(base, db.clock) && FutureOk(base, db.clock)
  }

  predicate EntityOk(base: Turn, entity: Turn, now: int) {
    && LegalEdge(base, entity) && entity.version == base.version
    && RowOk(entity, now) && FutureOk(entity, now)
  }

  predicate FlightOk(db: Db, f: Flight) {
    match f
    case Begin(_) => true
    case CallQueueSeen(_) => true
    case NoneCalled(_) => true
    case NothingDue(_) => true
    case NoTarget(base) => BaseOk(db, base) && (base.status.Called? || base.status.Redirected?)
    case RedirectAsked(base, _) => BaseOk(db, base) && base.status.Attending?
    case TargetKnown(base, _) => BaseOk(db, base) && (base.status.Called? || Holding(base.status))
    case JoinQueueSeen(join, row) => QueueMatches(db.cfg, join.queue, row.business, row.prefix)
    case JoinOpen(q, _, row) => QueueMatches(db.cfg, q, row.business, row.prefix)
    case Saving(base, entity, _) =>
      BaseOk(db, base) && EntityOk(base, entity, db.clock)
    case Inserting(d) =>
      && QueueMatches(db.cfg, d.queue, d.business, d.prefix)
      && (d.joinedAt > db.clock ==> d.priority.Registered? && d.customer.None?)
    case Done(_) => true
  }

  ghost predicate SysInv(s: Sys) {
    DbInv(s.db) && forall k :: 0 <= k < |s.flights| ==> FlightOk(s.db, s.flights[k])
  }

  /** What one step may do to the store: append rows, and take rows along one
      legal edge with a version nobody has read. */
  ghost predicate Grown(a: Db, b: Db) {
    && |a.rows| <= |b.rows| && a.nextVersion <= b.nextVersion && a.clock <= b.clock && QueuesKept(a.cfg, b.cfg)
    && forall i :: 0 <= i < |a.rows| ==> RowGrown(a, a.rows[i], b.rows[i])
  }

  predicate RowGrown(a: Db, before: Turn, after: Turn) {
    before == after || (LegalEdge(before, after) && a.nextVersion <= after.version)
  }

  // ----- counting is blind to what writes change -----------------------------

  lemma {:induction false} CountDayIgnoresUpdate(rows: seq<Turn>, i: nat, row: Turn, queue: nat, date: int)
    requires i < |rows| && SameIdentity(rows[i], row)
    ensures CountDay(rows[i := row], queue, date) == CountDay(rows, queue, date)
  {
    var last := |rows| - 1;
    if i == last {
      assert rows[i := row][..last] == rows[..last];
    } else {
      assert rows[i := row][..last] == rows[..last][i := row];
      CountDayIgnoresUpdate(rows[..last], i, row, queue, date);
    }
  }

  lemma NumberedAfterUpdate(rows: seq<Turn>, i: nat, row: Turn)
    requires Numbered(rows) && i < |rows| && SameIdentity(rows[i], row)
    ensures Numbered(rows[i := row])
  {
    var after := rows[i := row];
    forall j | 0 <= j < |after| ensures NumberOk(after, j) {
      assert NumberOk(rows, j);
      if j <= i {
        assert after[..j] == rows[..j];
      } else {
        assert after[..j] == rows[..j][i := row];
        CountDayIgnoresUpdate(rows[..j], i, row, after[j].queue, after[j].date);
      }
    }
  }

  lemma NumberedAfterAppend(rows: seq<Turn>, row: Turn)
    requires Numbered(rows) && row.number == CountDay(rows, row.queue, row.date) + 1
    ensures Numbered(rows + [row])
  {
    var after := rows + [row];
    forall j | 0 <= j < |after| ensures NumberOk(after, j) {
      assert after[..j] == rows[..j];
      if j == |rows| { assert rows[..j] == rows; } else { assert NumberOk(rows, j); }
    }
  }

  // ----- one phase keeps the invariant --------------------------------------

  /** The stored row is replaced by one a legal edge further. */
  lemma WriteRowSafe(db: Db, row: Turn)
    requires DbInv(db) && row.id < |db.rows| && LegalEdge(db.rows[row.id], row)
    requires RowOk(row, db.clock) && FutureOk(row, db.clock) && row.version == db.nextVersion
    ensures var after := db.(rows := db.rows[row.id := row], nextVersion := db.nextVersion + 1);
      DbInv(after) && Grown(db, after)
  {
    var after := db.(rows := db.rows[row.id := row], nextVersion := db.nextVersion + 1);
    NumberedAfterUpdate(db.rows, row.id, row);
    forall i | 0 <= i < |after.rows|
      ensures after.rows[i].id == i && RowOk(after.rows[i], db.clock) && FutureOk(after.rows[i], db.clock)
      ensures after.rows[i].version < after.nextVersion && TicketOk(db.cfg, after.rows[i])
    {
      if i != row.id { assert after.rows[i] == db.rows[i]; }
      assert TicketOk(db.cfg, db.rows[i]);
    }
  }

  /** A save that commits replaces the row that was read. */
  lemma SaveCommits(db: Db, base: Turn, entity: Turn, claims: bool)
    requires FlightOk(db, Saving(base, entity, claims)) && Save(db, entity, claims).1.Saved?
    ensures base.id < |db.rows| && base == db.rows[base.id]
    ensures var (after, out) := Save(db, entity, claims);
      && out.turn == entity.(version := db.nextVersion) && out.turn.id == base.id && LegalEdge(base, out.turn)
      && RowOk(out.turn, db.clock) && FutureOk(out.turn, db.clock)
      && after == db.(rows := db.rows[base.id := out.turn], nextVersion := db.nextVersion + 1)
  {
  }

  predicate Replaced(db: Db, after: Db, base: Turn, row: Turn) {
    && base.id < |db.rows| && base.id < |after.rows|
    && base == db.rows[base.id] && LegalEdge(base, row) && after.rows == db.rows[base.id := row]
  }

  lemma SaveSafe(db: Db, base: Turn, entity: Turn, claims: bool)
    requires DbInv(db) && FlightOk(db, Saving(base, entity, claims))
    ensures var (after, out) := Save(db, entity, claims);
      && DbInv(after) && Grown(db, after)
      && (out.Saved? ==> Replaced(db, after, base, out.turn))
      && (out.Failed? ==> after == db)
  {
    var out := Save(db, entity, claims).1;
    if out.Saved? {
      SaveCommits(db, base, entity, claims);
      WriteRowSafe(db, out.turn);
    } else {
      GrownIsReflexive(db);
    }
  }

  lemma InsertSafe(db: Db, d: Draft)
    requires DbInv(db) && FlightOk(db, Inserting(d))
    ensures var (after, out) := CreateWithNextNumber(db, d);
      && DbInv(after) && Grown(db, after)
      && (out.Saved? ==> after.rows == db.rows + [out.turn])
      && (out.Failed? ==> after == db)
  {
    var r := CreateWithNextNumber(db, d);
    var after := r.0;
    if r.1.Saved? {
      var row := r.1.turn;
      NumberedAfterAppend(db.rows, row);
      forall i | 0 <= i < |after.rows|
        ensures after.rows[i].id == i && RowOk(after.rows[i], db.clock) && FutureOk(after.rows[i], db.clock)
        ensures after.rows[i].version < after.nextVersion && TicketOk(db.cfg, after.rows[i])
      {
        if i < |db.rows| {
          assert after.rows[i] == db.rows[i];
          assert TicketOk(db.cfg, db.rows[i]);
        }
      }
    }
  }

  lemma StoredIsBase(db: Db, t: Turn)
    requires DbInv(db) && t in db.rows
    ensures BaseOk(db, t)
  {
    var i :| 0 <= i < |db.rows| && db.rows[i] == t;
  }

  lemma NextWaitingIsStored(rows: seq<Turn>, queue: nat, now: int)
    ensures var r := FindNextWaiting(rows, queue, now);
      r.Some? ==> r.value in rows && IsDueIn(queue, now)(r.value)
  {
    var due := Filter(rows, IsDueIn(queue, now));
    NotAfterIsTotal();
    SortIsSortedPermutation(due, NotAfter);
    FilterMembers(rows, IsDueIn(queue, now));
    var r := FindNextWaiting(rows, queue, now);
    if r.Some? { assert r.value in multiset(Sort(due, NotAfter)); }
  }

  lemma NotAfterIsTotal()
    ensures TotalPreorder(NotAfter)
  {
  }

  /** Whatever a use case builds from a row is one legal edge away from it. */
  lemma DecideBuildsLegalEdge(now: int, change: Change, turn: Turn)
    requires RowOk(turn, now) && FutureOk(turn, now)
    requires change.Confirm? ==> Active(turn.status) && turn.customer.Some?
    ensures match Decide(now, change, turn)
      case Saving(base, entity, _) => base == turn && EntityOk(base, entity, now)
      case TargetKnown(base, _) => base == turn && (turn.status.Called? || turn.status.Redirected?)
      case NoTarget(base) => base == turn && (turn.status.Called? || turn.status.Redirected?)
      case RedirectAsked(base, _) => base == turn && turn.status.Attending?
      case Done(_) => true
      case _ => false
  {
  }

  lemma ChangeSafe(db: Db, change: Change)
    requires DbInv(db) && FindTurnFor(db, change).Some?
    ensures FlightOk(db, Decide(db.clock, change, FindTurnFor(db, change).value))
  {
    var turn := FindTurnFor(db, change).value;
    assert turn in db.rows;
    StoredIsBase(db, turn);
    DecideBuildsLegalEdge(db.clock, change, turn);
  }

  lemma StartAttendingSafe(base: Turn, window: Option<nat>, now: int)
    requires RowOk(base, now) && FutureOk(base, now) && (base.status.Called? || base.status.Redirected?)
    ensures EntityOk(base, StartAttending(base, window, now).entity, now)
  {
  }

  lemma NextWaitingSafe(db: Db, q: nat)
    requires DbInv(db)
    ensures FlightOk(db, Advance(db, NoneCalled(q)).1)
  {
    NextWaitingIsStored(db.rows, q, db.clock);
    var next := FindNextWaiting(db.rows, q, db.clock);
    if next.Some? { StoredIsBase(db, next.value); }
  }

  lemma GrownIsReflexive(db: Db)
    ensures Grown(db, db)
  {
  }

  /** Only the last phase of a request writes. */
  lemma ReadPhasesDoNotWrite(db: Db, f: Flight)
    requires !f.Saving? && !f.Inserting?
    ensures Advance(db, f).0 == db
  {
  }

  lemma TargetKnownSafe(db: Db, base: Turn, target: nat)
    requires FlightOk(db, TargetKnown(base, target))
    ensures FlightOk(db, AdvanceTargetKnown(db, base, target).1)
  {
    if !base.status.Attending? { StartAttendingSafe(base, Some(target), db.clock); }
  }

  lemma JoinSafe(db: Db, join: Join, row: QueueRow)
    requires FlightOk(db, JoinQueueSeen(join, row))
    ensures FlightOk(db, AdvanceJoin(db, join, row).1)
  {
  }

  lemma BeginSafe(db: Db, req: Request)
    requires DbInv(db)
    ensures FlightOk(db, AdvanceBegin(db, req).1)
  {
    if req.ChangeTurn? && FindTurnFor(db, req.change).Some? { ChangeSafe(db, req.change); }
  }

  lemma LaterReadSafe(db: Db, f: Flight)
    requires FlightOk(db, f) && !f.Saving? && !f.Inserting? && !f.Begin? && !f.NoneCalled?
    ensures FlightOk(db, Advance(db, f).1)
  {
    match f
    case NoTarget(base) => StartAttendingSafe(base, None, db.clock);
    case TargetKnown(base, target) => TargetKnownSafe(db, base, target);
    case JoinQueueSeen(join, row) => JoinSafe(db, join, row);
    case _ =>
  }

  lemma ReadPhaseSafe(db: Db, f: Flight)
    requires DbInv(db) && FlightOk(db, f) && !f.Saving? && !f.Inserting?
    ensures FlightOk(db, Advance(db, f).1)
  {
    match f
    case Begin(req) => BeginSafe(db, req);
    case NoneCalled(q) => NextWaitingSafe(db, q);
    case _ => LaterReadSafe(db, f);
  }

  /** What a phase leaves behind. */
  ghost predicate Kept(db: Db, after: Db, next: Flight) {
    DbInv(after) && Grown(db, after) && FlightOk(after, next)
  }

  lemma ReadAdvanceSafe(db: Db, f: Flight)
    requires DbInv(db) && FlightOk(db, f) && !f.Saving? && !f.Inserting?
    ensures Kept(db, Advance(db, f).0, Advance(db, f).1)
  {
    ReadPhasesDoNotWrite(db, f);
    ReadPhaseSafe(db, f);
    GrownIsReflexive(db);
  }

  lemma AdvanceSafe(db: Db, f: Flight)
    requires DbInv(db) && FlightOk(db, f)
    ensures Kept(db, Advance(db, f).0, Advance(db, f).1)
  {
    if f.Saving? {
      SaveSafe(db, f.base, f.entity, f.claims);
    } else if f.Inserting? {
      InsertSafe(db, f.draft);
    } else {
      ReadAdvanceSafe(db, f);
    }
  }

  /** Other requests' progress does not invalidate what a flight knows. */
  lemma FlightStays(a: Db, b: Db, f: Flight)
    requires DbInv(a) && DbInv(b) && Grown(a, b) && FlightOk(a, f)
    ensures FlightOk(b, f)
  {
  }

  // ----- main theorems ------------------------------------------------------

  lemma FlightsStay(s: Sys, db: Db)
    requires SysInv(s) && DbInv(db) && Grown(s.db, db)
    ensures forall j :: 0 <= j < |s.flights| ==> FlightOk(db, s.flights[j])
  {
    forall j | 0 <= j < |s.flights| ensures FlightOk(db, s.flights[j]) {
      FlightStays(s.db, db, s.flights[j]);
    }
  }

  lemma TickSafe(db: Db, ms: nat)
    requires DbInv(db)
    ensures DbInv(db.(clock := db.clock + ms)) && Grown(db, db.(clock := db.clock + ms))
  {
    assert forall i :: 0 <= i < |db.rows| ==> TicketOk(db.cfg, db.rows[i]);
  }

  lemma ReconfigureSafe(db: Db, cfg: Config)
    requires DbInv(db) && QueuesKept(db.cfg, cfg)
    ensures DbInv(db.(cfg := cfg)) && Grown(db, db.(cfg := cfg))
  {
    forall i | 0 <= i < |db.rows| ensures TicketOk(cfg, db.rows[i]) {
      assert TicketOk(db.cfg, db.rows[i]);
    }
  }

  ghost predicate StepOk(s: Sys, t: Sys) { SysInv(t) && Grown(s.db, t.db) }

  lemma GoSafe(s: Sys, k: nat)
    requires SysInv(s) && k < |s.flights|
    ensures StepOk(s, Step(s, Go(k)))
  {
    var r := Advance(s.db, s.flights[k]);
    AdvanceSafe(s.db, s.flights[k]);
    FlightsStay(s, r.0);
  }

  lemma NothingHappens(s: Sys)
    requires SysInv(s)
    ensures StepOk(s, s)
  {
    GrownIsReflexive(s.db);
  }

  lemma LaunchSafe(s: Sys, req: Request)
    requires SysInv(s)
    ensures StepOk(s, s.(flights := s.flights + [Begin(req)]))
  {
    GrownIsReflexive(s.db);
  }

  /** Another store for the same flights. */
  lemma StoreMoves(s: Sys, db: Db)
    requires SysInv(s) && DbInv(db) && Grown(s.db, db)
    ensures StepOk(s, s.(db := db))
  {
    FlightsStay(s, db);
  }

  lemma WorldSafe(s: Sys, e: Event)
    requires SysInv(s) && (e.Tick? || e.Reconfigure?)
    ensures StepOk(s, Step(s, e))
  {
    if e.Tick? {
      TickSafe(s.db, e.ms);
      StoreMoves(s, s.db.(clock := s.db.clock + e.ms));
    } else if QueuesKept(s.db.cfg, e.cfg) {
      ReconfigureSafe(s.db, e.cfg);
      StoreMoves(s, s.db.(cfg := e.cfg));
    } else {
      NothingHappens(s);
    }
  }

  /** Every step of every request keeps the invariant, and takes each row at
      most one legal edge further. */
  lemma StepSafe(s: Sys, e: Event)
    requires SysInv(s)
    ensures StepOk(s, Step(s, e))
  {
    if e.Launch? { LaunchSafe(s, e.req); }
    else if e.Go? { if e.k < |s.flights| { GoSafe(s, e.k); } else { NothingHappens(s); } }
    else { WorldSafe(s, e); }
  }

  lemma {:induction false} RunSafe(s: Sys, events: seq<Event>)
    requires SysInv(s)
    ensures SysInv(Run(s, events))
  {
    if events != [] {
      RunSafe(s, events[..|events| - 1]);
      StepSafe(Run(s, events[..|events| - 1]), events[|events| - 1]);
    }
  }

  lemma Reachable(cfg: Config, clock: int, indexed: bool, events: seq<Event>)
    ensures SysInv(Run(Start(cfg, clock, indexed), events))
  {
    RunSafe(Start(cfg, clock, indexed), events);
  }

  ghost predicate RowsEvolved(a: seq<Turn>, b: seq<Turn>) {
    |a| <= |b| && forall i :: 0 <= i < |a| ==> Evolved(a[i], b[i])
  }

  lemma RowsEvolvedIsTransitive(a: seq<Turn>, b: seq<Turn>, c: seq<Turn>)
    requires RowsEvolved(a, b) && RowsEvolved(b, c)
    ensures RowsEvolved(a, c)
  {
    forall i | 0 <= i < |a| ensures Evolved(a[i], c[i]) { EvolvedIsTransitive(a[i], b[i], c[i]); }
  }

  lemma GrownEvolves(a: Db, b: Db)
    requires DbInv(a) && Grown(a, b)
    ensures RowsEvolved(a.rows, b.rows)
  {
    forall i | 0 <= i < |a.rows| ensures Evolved(a.rows[i], b.rows[i]) {
      assert RowGrown(a, a.rows[i], b.rows[i]);
    }
  }

  /** No lost updates: whatever the interleaving, rows only move along legal
      edges, a terminal row never changes again, priority only goes from
      registered to in_transit to arrived, and rows never disappear. */
  lemma {:induction false} NoLostUpdates(s: Sys, events: seq<Event>)
    requires SysInv(s)
    ensures |s.db.rows| <= |Run(s, events).db.rows|
    ensures forall i :: 0 <= i < |s.db.rows| ==> Evolved(s.db.rows[i], Run(s, events).db.rows[i])
  {
    if events != [] {
      var mid := Run(s, events[..|events| - 1]);
      NoLostUpdates(s, events[..|events| - 1]);
      RunSafe(s, events[..|events| - 1]);
      StepSafe(mid, events[|events| - 1]);
      GrownEvolves(mid.db, Run(s, events).db);
      RowsEvolvedIsTransitive(s.db.rows, mid.db.rows, Run(s, events).db.rows);
    }
  }

  /** A save commits exactly when the row is still the one that was read (and
      no unique index objects); then the stored row moves along one legal edge
      to the entity the use case built, and no other row changes. */
  lemma CommitIsLegal(s: Sys, k: nat)
    requires SysInv(s) && k < |s.flights| && s.flights[k].Saving?
    ensures var f := s.flights[k]; var t := Step(s, Go(k)); var id := f.base.id;
      && t.flights[k].Done? && |t.db.rows| == |s.db.rows|
      && (t.flights[k].outcome.Saved? <==>
            && s.db.rows[id] == f.base
            && !(s.db.indexed && Collides(s.db.rows, Written(f.base, f.entity, s.db.nextVersion))))
      && (t.flights[k].outcome.Saved? ==>
            && LegalEdge(s.db.rows[id], t.db.rows[id]) && t.db.rows[id] == f.entity.(version := s.db.nextVersion)
            && t.db.rows == s.db.rows[id := t.db.rows[id]])
      && (t.flights[k].outcome.Failed? ==> t.db == s.db)
  {
    var f := s.flights[k];
    if Save(s.db, f.entity, f.claims).1.Saved? { SaveCommits(s.db, f.base, f.entity, f.claims); }
    assert SameIdentity(f.base, f.entity);
  }

  /** Two writers that read the same version: when one commits, the other is
      told TURN_CONFLICT and changes nothing. */
  lemma SecondWriterLoses(s: Sys, j: nat, k: nat)
    requires SysInv(s) && j < |s.flights| && k < |s.flights| && j != k
    requires s.flights[j].Saving? && s.flights[k].Saving?
    requires s.flights[j].base.id == s.flights[k].base.id && s.flights[j].base.version == s.flights[k].base.version
    requires Step(s, Go(j)).flights[j].outcome.Saved?
    ensures var t := Step(s, Go(j));
      Step(t, Go(k)).flights[k] == Done(Failed(TurnConflict)) && Step(t, Go(k)).db == t.db
  {
    CommitIsLegal(s, j);
    StepSafe(s, Go(j));
  }

  // ----- consequences in every reachable state --------------------------------

  function Stamps(t: Turn): nat {
    (if t.attendedAt.Some? then 1 else 0) + (if t.cancelledAt.Some? then 1 else 0) + (if t.noShowAt.Some? then 1 else 0)
  }

  /** A completed turn was called, then started, then finished; a turn has
      exactly one terminal timestamp if it is terminal and none otherwise. */
  lemma TimestampsTellTheStory(s: Sys, i: nat)
    requires SysInv(s) && i < |s.db.rows|
    ensures var t := s.db.rows[i];
      && (t.status.Completed? ==>
            t.calledAt.Some? && t.startedAt.Some? && t.attendedAt.Some?
                && t.calledAt.value <= t.startedAt.value <= t.attendedAt.value)
      && Stamps(t) == (if t.status.Completed? || t.status.Cancelled? || t.status.NoShow? then 1 else 0)
      && (t.attendedAt.Some? <==> t.status.Completed?) && (t.cancelledAt.Some? <==> t.status.Cancelled?)
      && (t.noShowAt.Some? <==> t.status.NoShow?)
  {
    assert RowOk(s.db.rows[i], s.db.clock);
  }

  /** Every turn that would be served before a due turn is itself due. */
  lemma AheadOfDueIsDue(s: Sys, i: nat, j: nat)
    requires SysInv(s) && i < |s.db.rows| && j < |s.db.rows|
    requires s.db.rows[j].joinedAt <= s.db.clock && NotAfter(s.db.rows[i], s.db.rows[j])
    ensures s.db.rows[i].joinedAt <= s.db.clock
  {
    assert FutureOk(s.db.rows[i], s.db.clock);
  }
}
