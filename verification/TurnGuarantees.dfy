/** What every interleaving of the turn requests guarantees, said of the rows
    themselves. */
module TurnGuarantees {
  import opened Options
  import opened Turns
  import opened TurnProtocol
  import opened TurnSafety
  import opened TurnSerial
  import opened TurnAnswers

  // ----- rows only move forward ---------------------------------------------

  /** What identifies a turn and when it was taken. */
  predicate SameTurn(a: Turn, b: Turn) {
    && a.id == b.id && a.queue == b.queue && a.business == b.business && a.customer == b.customer
    && a.number == b.number && a.display == b.display && a.source == b.source
    && a.date == b.date && a.joinedAt == b.joinedAt
  }

  /** The ways from one status to the next. */
  predicate NextStatus(a: Status, b: Status) {
    (a, b) in {
      (Waiting, Called), (Waiting, Cancelled), (Called, Attending), (Called, NoShow), (Called, Cancelled),
      (Attending, Completed), (Attending, Redirected), (Attending, Cancelled),
      (Redirected, Attending), (Redirected, Cancelled)}
  }

  predicate NextPriority(a: Priority, b: Priority) {
    (a, b) in {(Registered, InTransit), (InTransit, Arrived)}
  }

  /** One step of an interleaving leaves a row as it is, or moves its status
      along one of the ways, or confirms the customer's approach and touches
      nothing else. */
  lemma StepTakesOneWay(s: Sys, e: Event, i: nat)
    requires SysInv(s) && i < |s.db.rows|
    ensures i < |Step(s, e).db.rows|
    ensures var a, b := s.db.rows[i], Step(s, e).db.rows[i];
      || a == b
      || (SameTurn(a, b) && a.version < b.version && a.priority == b.priority && NextStatus(a.status, b.status))
      || (!Ended(a.status) && NextPriority(a.priority, b.priority) && a.version < b.version
          && b == a.(priority := b.priority, version := b.version))
  {
    StepSafe(s, e);
    assert RowGrown(s.db, s.db.rows[i], Step(s, e).db.rows[i]);
  }

  /** Over any run: a turn that has ended never changes, a called turn never
      waits again, one that has been attended is never called again nor a
      no-show, and nobody's priority sinks. */
  lemma RowsOnlyMoveForward(s: Sys, events: seq<Event>, i: nat)
    requires SysInv(s) && i < |s.db.rows|
    ensures i < |Run(s, events).db.rows|
    ensures var a, b := s.db.rows[i], Run(s, events).db.rows[i];
      && SameTurn(a, b) && a.version <= b.version && (a.version == b.version ==> a == b)
      && (a.status.Completed? || a.status.Cancelled? || a.status.NoShow? ==> a == b)
      && (b.status.Waiting? ==> a.status.Waiting?)
      && (b.status.Called? || b.status.NoShow? ==> a.status.Waiting? || a.status.Called? || a == b)
      && (a.priority == b.priority || (a.priority.Registered? && b.priority.InTransit?)
          || (a.priority.Registered? && b.priority.Arrived?) || (a.priority.InTransit? && b.priority.Arrived?))
  {
    NoLostUpdates(s, events);
    RunSafe(s, events);
  }

  // ----- the unique indexes -------------------------------------------------

  /** No window serves two turns and no customer has two turns that have not
      ended. */
  ghost predicate Unique(rows: seq<Turn>) {
    forall i, j :: 0 <= i < j < |rows| ==> !SameWindowHeld(rows[i], rows[j]) && !SameCustomerActive(rows[i], rows[j])
  }

  lemma WriteKeepsUnique(rows: seq<Turn>, row: Turn)
    requires Unique(rows) && row.id <= |rows| && !Collides(rows, row)
    ensures row.id < |rows| ==> Unique(rows[row.id := row])
    ensures row.id == |rows| ==> Unique(rows + [row])
  {
  }

  lemma AdvanceKeepsUnique(db: Db, f: Flight)
    requires DbInv(db) && FlightOk(db, f) && db.indexed && Unique(db.rows)
    ensures Unique(Advance(db, f).0.rows) && Advance(db, f).0.indexed
  {
    if f.Saving? {
      var out := Save(db, f.entity, f.claims).1;
      if out.Saved? { WriteKeepsUnique(db.rows, out.turn); }
    } else if f.Inserting? {
      var out := CreateWithNextNumber(db, f.draft).1;
      if out.Saved? { WriteKeepsUnique(db.rows, out.turn); }
    } else {
      ReadPhasesDoNotWrite(db, f);
    }
  }

  lemma {:induction false} RunKeepsUnique(s: Sys, events: seq<Event>)
    requires SysInv(s) && s.db.indexed && Unique(s.db.rows)
    ensures Unique(Run(s, events).db.rows) && Run(s, events).db.indexed
  {
    if events != [] {
      var mid := Run(s, events[..|events| - 1]);
      RunKeepsUnique(s, events[..|events| - 1]);
      RunSafe(s, events[..|events| - 1]);
      match events[|events| - 1]
      case Go(k) => if k < |mid.flights| { AdvanceKeepsUnique(mid.db, mid.flights[k]); }
      case _ =>
    }
  }

  /** With the two unique indexes, in every state of every interleaving: no
      window is held by two turns and no customer has two active turns. */
  lemma IndexesHoldInEveryRun(cfg: Config, clock: int, events: seq<Event>)
    ensures var rows := Run(Start(cfg, clock, true), events).db.rows;
      forall i, j :: 0 <= i < j < |rows| ==>
        && !(rows[i].window.Some? && rows[i].window == rows[j].window
              && (rows[i].status.Attending? || rows[i].status.Redirected?)
              && (rows[j].status.Attending? || rows[j].status.Redirected?))
        && !(rows[i].customer.Some? && rows[i].customer == rows[j].customer
              && !Ended(rows[i].status) && !Ended(rows[j].status))
  {
    RunKeepsUnique(Start(cfg, clock, true), events);
    var rows := Run(Start(cfg, clock, true), events).db.rows;
    forall i, j | 0 <= i < j < |rows|
      ensures !SameWindowHeld(rows[i], rows[j]) && !SameCustomerActive(rows[i], rows[j])
    {
    }
  }

  /** Another row already holds the window, or the customer, of this one. */
  ghost predicate Taken(rows: seq<Turn>, row: Turn) {
    exists j :: 0 <= j < |rows| && j != row.id && Excludes(rows[j], row)
  }

  predicate Excludes(a: Turn, b: Turn) {
    || (a.window.Some? && a.window == b.window && (a.status.Attending? || a.status.Redirected?)
        && (b.status.Attending? || b.status.Redirected?))
    || (a.customer.Some? && a.customer == b.customer && !Ended(a.status) && !Ended(b.status))
  }

  lemma CollidesIffTaken(rows: seq<Turn>, row: Turn)
    ensures Collides(rows, row) <==> Taken(rows, row)
  {
    if Collides(rows, row) {
      var j :| 0 <= j < |rows| && j != row.id && (SameWindowHeld(rows[j], row) || SameCustomerActive(rows[j], row));
      assert Excludes(rows[j], row);
    }
    if Taken(rows, row) {
      var j :| 0 <= j < |rows| && j != row.id && Excludes(rows[j], row);
      assert SameWindowHeld(rows[j], row) || SameCustomerActive(rows[j], row);
    }
  }

  /** Why a save fails in an interleaving: the row was written since it was
      read, or an index objects — to a request that claims a window with the
      error of the occupancy check. */
  lemma WhySaveFails(s: Sys, k: nat)
    requires SysInv(s) && k < |s.flights| && s.flights[k].Saving?
    ensures var f := s.flights[k]; var stored := s.db.rows[f.base.id];
            var taken := s.db.indexed && Taken(s.db.rows, f.entity.(version := s.db.nextVersion));
            var out := Step(s, Go(k)).flights[k].outcome;
      && (out == Failed(TurnConflict) <==> stored.version != f.base.version)
      && (out == Failed(ServiceWindowOccupied) <==> stored.version == f.base.version && taken && f.claims)
      && (out == Failed(UniqueViolation) <==> stored.version == f.base.version && taken && !f.claims)
      && (out.Saved? <==> stored.version == f.base.version && !taken)
      && (out.Saved? ==>
            && out.turn == f.entity.(version := s.db.nextVersion)
            && Step(s, Go(k)).db.rows == s.db.rows[f.base.id := out.turn])
  {
    var f := s.flights[k];
    assert SameIdentity(f.base, f.entity);
    if s.db.rows[f.base.id].version == f.base.version {
      assert Written(s.db.rows[f.base.id], f.entity, s.db.nextVersion) == f.entity.(version := s.db.nextVersion);
      CollidesIffTaken(s.db.rows, f.entity.(version := s.db.nextVersion));
    }
  }
}
