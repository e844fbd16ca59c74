/** Requests that run one after the other: what the in-code checks guarantee
    on their own, and what is lost when requests overlap. */
module TurnSerial {
  import opened Options
  import opened Sorting
  import opened Turns
  import opened TurnProtocol
  import opened TurnSafety

  datatype SerialEvent = Do(req: Request) | Pass(ms: nat) | Change(cfg: Config)

  function SerialStep(db: Db, e: SerialEvent): Db {
    match e
    case Do(req) => Alone(db, req).0
    case Pass(ms) => db.(clock := db.clock + ms)
    case Change(cfg) => if QueuesKept(db.cfg, cfg) then db.(cfg := cfg) else db
  }

  function SerialRun(db: Db, events: seq<SerialEvent>): Db {
    if events == [] then db else SerialStep(SerialRun(db, events[..|events| - 1]), events[|events| - 1])
  }

  // ----- exclusivity --------------------------------------------------------

  predicate BothCalled(a: Turn, b: Turn) { a.status.Called? && b.status.Called? && a.queue == b.queue }

  predicate Conflict(a: Turn, b: Turn) { BothCalled(a, b) || SameWindowHeld(a, b) || SameCustomerActive(a, b) }

  /** At most one called turn per queue, one attending or redirected turn per
      window, one active turn per customer. */
  ghost predicate Exclusive(rows: seq<Turn>) {
    forall i, j :: 0 <= i < |rows| && 0 <= j < |rows| && i != j ==> !Conflict(rows[i], rows[j])
  }

  ghost predicate NoOtherConflict(rows: seq<Turn>, t: Turn) {
    forall j :: 0 <= j < |rows| && j != t.id ==> !Conflict(rows[j], t)
  }

  predicate Stored(db: Db, t: Turn) { t.id < |db.rows| && db.rows[t.id] == t }

  /** What a request knows for certain while nobody else runs. */
  ghost predicate GuardOk(db: Db, f: Flight) {
    match f
    case NoneCalled(q) => FindCalled(db.rows, q).None?
    case NoTarget(base) => Stored(db, base)
    case RedirectAsked(base, _) => Stored(db, base)
    case TargetKnown(base, _) => Stored(db, base)
    case Saving(base, entity, _) => Stored(db, base) && NoOtherConflict(db.rows, entity)
    case Inserting(d) => d.customer.Some? ==> FindActiveOfCustomer(db.rows, d.customer.value).None?
    case _ => true
  }

  ghost predicate SerialInv(db: Db) { DbInv(db) && Exclusive(db.rows) }

  lemma StoredTurn(db: Db, t: Turn)
    requires DbInv(db) && t in db.rows
    ensures Stored(db, t)
  {
    var i :| 0 <= i < |db.rows| && db.rows[i] == t;
  }

  /** An edge that neither calls nor claims a window conflicts with nobody. */
  lemma QuietEdge(db: Db, base: Turn, entity: Turn)
    requires Exclusive(db.rows) && Stored(db, base) && LegalEdge(base, entity)
    requires entity.status.Called? ==> base.status.Called?
    requires Holding(entity.status) ==> Holding(base.status) && entity.window == base.window
    ensures NoOtherConflict(db.rows, entity)
  {
    forall j | 0 <= j < |db.rows| && j != entity.id ensures !Conflict(db.rows[j], entity) {
      assert !Conflict(db.rows[j], db.rows[base.id]);
    }
  }

  lemma DecideGuard(db: Db, change: Change)
    requires SerialInv(db) && FindTurnFor(db, change).Some?
    ensures GuardOk(db, Decide(db.clock, change, FindTurnFor(db, change).value))
  {
    var turn := FindTurnFor(db, change).value;
    assert turn in db.rows;
    StoredTurn(db, turn);
    StoredIsBase(db, turn);
    DecideBuildsLegalEdge(db.clock, change, turn);
    var f := Decide(db.clock, change, turn);
    if f.Saving? { QuietEdge(db, turn, f.entity); }
  }

  lemma CallGuard(db: Db, q: nat)
    requires SerialInv(db) && FindCalled(db.rows, q).None?
    ensures GuardOk(db, Advance(db, NoneCalled(q)).1)
  {
    NextWaitingIsStored(db.rows, q, db.clock);
    var next := FindNextWaiting(db.rows, q, db.clock);
    if next.Some? {
      StoredTurn(db, next.value);
      var entity := next.value.(status := Called, calledAt := Some(db.clock));
      forall j | 0 <= j < |db.rows| && j != entity.id ensures !Conflict(db.rows[j], entity) {
        assert !Conflict(db.rows[j], db.rows[next.value.id]);
        assert db.rows[j] in db.rows;
      }
    }
  }

  lemma ClaimGuard(db: Db, base: Turn, target: nat)
    requires SerialInv(db) && FlightOk(db, TargetKnown(base, target)) && Stored(db, base)
    ensures GuardOk(db, AdvanceTargetKnown(db, base, target).1)
  {
    var f := AdvanceTargetKnown(db, base, target).1;
    if f.Saving? {
      forall j | 0 <= j < |db.rows| && j != base.id ensures !Conflict(db.rows[j], f.entity) {
        assert !Conflict(db.rows[j], db.rows[base.id]);
        assert db.rows[j] in db.rows;
        var occupant := FindOccupant(db.rows, target);
        if occupant.Some? { StoredTurn(db, occupant.value); }
      }
    }
  }

  lemma FreeWindowGuard(db: Db, base: Turn)
    requires SerialInv(db) && Stored(db, base) && FlightOk(db, NoTarget(base))
    ensures GuardOk(db, Advance(db, NoTarget(base)).1)
  {
    var f := Advance(db, NoTarget(base)).1;
    if f.Saving? {
      forall j | 0 <= j < |db.rows| && j != base.id ensures !Conflict(db.rows[j], f.entity) {
        assert !Conflict(db.rows[j], db.rows[base.id]);
      }
    }
  }

  lemma BeginGuard(db: Db, req: Request)
    requires SerialInv(db)
    ensures GuardOk(db, AdvanceBegin(db, req).1)
  {
    if req.ChangeTurn? && FindTurnFor(db, req.change).Some? { DecideGuard(db, req.change); }
  }

  lemma OtherGuards(db: Db, f: Flight)
    requires GuardOk(db, f)
    requires f.CallQueueSeen? || f.NothingDue? || f.RedirectAsked? || f.JoinQueueSeen? || f.JoinOpen?
    ensures GuardOk(db, Advance(db, f).1)
  {
  }

  lemma ReadKeepsGuard(db: Db, f: Flight)
    requires SerialInv(db) && FlightOk(db, f) && GuardOk(db, f) && !f.Saving? && !f.Inserting? && !f.Done?
    ensures GuardOk(db, Advance(db, f).1)
  {
    match f
    case Begin(req) => BeginGuard(db, req);
    case NoneCalled(q) => CallGuard(db, q);
    case NoTarget(base) => FreeWindowGuard(db, base);
    case TargetKnown(base, target) => ClaimGuard(db, base, target);
    case _ => OtherGuards(db, f);
  }

  lemma ConflictAfterWrite(rows: seq<Turn>, row: Turn)
    requires Exclusive(rows) && row.id < |rows| && NoOtherConflict(rows, row)
    ensures Exclusive(rows[row.id := row])
  {
    var after := rows[row.id := row];
    forall i, j | 0 <= i < |after| && 0 <= j < |after| && i != j ensures !Conflict(after[i], after[j]) {
      if i == row.id { assert !Conflict(rows[j], row); }
      else if j == row.id { assert !Conflict(rows[i], row); }
      else { assert !Conflict(rows[i], rows[j]); }
    }
  }

  lemma SaveKeepsExclusive(db: Db, base: Turn, entity: Turn, claims: bool)
    requires SerialInv(db) && FlightOk(db, Saving(base, entity, claims)) && GuardOk(db, Saving(base, entity, claims))
    ensures Save(db, entity, claims).1.Saved? && Exclusive(Save(db, entity, claims).0.rows)
  {
    var row := Written(base, entity, db.nextVersion);
    assert SameIdentity(base, row);
    forall j | 0 <= j < |db.rows| && j != row.id ensures !Conflict(db.rows[j], row) {
      assert !Conflict(db.rows[j], entity);
    }
    ConflictAfterWrite(db.rows, row);
  }

  lemma InsertKeepsExclusive(db: Db, d: Draft)
    requires SerialInv(db) && GuardOk(db, Inserting(d))
    ensures CreateWithNextNumber(db, d).1.Saved? && Exclusive(CreateWithNextNumber(db, d).0.rows)
  {
    var row := NewRow(db, d);
    var after := db.rows + [row];
    forall j | 0 <= j < |db.rows| ensures !Conflict(db.rows[j], row) && !Conflict(row, db.rows[j]) {
      assert db.rows[j] in db.rows;
    }
    forall i, j | 0 <= i < |after| && 0 <= j < |after| && i != j ensures !Conflict(after[i], after[j]) {
      if i < |db.rows| && j < |db.rows| { assert !Conflict(db.rows[i], db.rows[j]); }
    }
  }

  lemma WriteKeepsExclusive(db: Db, f: Flight)
    requires SerialInv(db) && FlightOk(db, f) && GuardOk(db, f) && (f.Saving? || f.Inserting?)
    ensures Exclusive(Advance(db, f).0.rows)
    ensures Advance(db, f).1.outcome.Saved?
  {
    if f.Saving? { SaveKeepsExclusive(db, f.base, f.entity, f.claims); } else { InsertKeepsExclusive(db, f.draft); }
  }

  lemma {:induction false} FinishKeeps(db: Db, f: Flight)
    requires SerialInv(db) && FlightOk(db, f) && GuardOk(db, f)
    requires f.Done? ==> f.outcome != Failed(TurnConflict) && f.outcome != Failed(UniqueViolation)
    ensures SerialInv(Finish(db, f).0)
    ensures Finish(db, f).1 != Failed(TurnConflict) && Finish(db, f).1 != Failed(UniqueViolation)
    decreases Phases(f)
  {
    if !f.Done? {
      var (after, g) := Advance(db, f);
      AdvanceProgresses(db, f);
      AdvanceSafe(db, f);
      if f.Saving? || f.Inserting? {
        WriteKeepsExclusive(db, f);
      } else {
        ReadPhasesDoNotWrite(db, f);
        ReadKeepsGuard(db, f);
        ReadNeverConflicts(db, f);
      }
      FinishKeeps(after, g);
    }
  }

  lemma ReadNeverConflicts(db: Db, f: Flight)
    requires !f.Saving? && !f.Inserting? && !f.Done?
    ensures var g := Advance(db, f).1; g.Done? ==>
      g.outcome != Failed(TurnConflict) && g.outcome != Failed(UniqueViolation)
  {
  }

  /** One request at a time, the in-code checks alone keep all three rules —
      with or without the indexes — and no request is told of a conflict. */
  lemma AloneKeepsExclusive(db: Db, req: Request)
    requires SerialInv(db)
    ensures SerialInv(Alone(db, req).0)
    ensures Alone(db, req).1 != Failed(TurnConflict) && Alone(db, req).1 != Failed(UniqueViolation)
  {
    FinishKeeps(db, Begin(req));
  }

  lemma {:induction false} SerialRunKeepsExclusive(db: Db, events: seq<SerialEvent>)
    requires SerialInv(db)
    ensures SerialInv(SerialRun(db, events))
  {
    if events != [] {
      var before := SerialRun(db, events[..|events| - 1]);
      SerialRunKeepsExclusive(db, events[..|events| - 1]);
      match events[|events| - 1]
      case Do(req) => AloneKeepsExclusive(before, req);
      case Pass(ms) => TickSafe(before, ms);
      case Change(cfg) => if QueuesKept(before.cfg, cfg) { ReconfigureSafe(before, cfg); }
    }
  }

  /** From an empty table, after any serial run: no two called turns in one
      queue, no window held twice, no customer active twice. */
  lemma SerialRunFromScratch(cfg: Config, clock: int, indexed: bool, events: seq<SerialEvent>)
    ensures var rows := SerialRun(Start(cfg, clock, indexed).db, events).rows;
      forall i, j :: 0 <= i < j < |rows| ==>
        && !(rows[i].status.Called? && rows[j].status.Called? && rows[i].queue == rows[j].queue)
        && !(rows[i].window.Some? && rows[i].window == rows[j].window
              && (rows[i].status.Attending? || rows[i].status.Redirected?)
              && (rows[j].status.Attending? || rows[j].status.Redirected?))
        && !(rows[i].customer.Some? && rows[i].customer == rows[j].customer
              && rows[i].status in {Waiting, Called, Attending, Redirected}
              && rows[j].status in {Waiting, Called, Attending, Redirected})
  {
    SerialRunKeepsExclusive(Start(cfg, clock, indexed).db, events);
    var rows := SerialRun(Start(cfg, clock, indexed).db, events).rows;
    forall i, j | 0 <= i < j < |rows| ensures !Conflict(rows[i], rows[j]) { }
  }

  // ----- overlapping calls --------------------------------------------------

  ghost predicate OneCalled(rows: seq<Turn>, queue: nat) {
    forall i, j :: 0 <= i < |rows| && 0 <= j < |rows| && i != j ==>
      !(rows[i].queue == queue && BothCalled(rows[i], rows[j]))
  }

  /** When a call commits, the queue still has one called turn exactly if no
      turn of the queue was called at that moment: the check that was made
      when the request read the queue does not suffice. */
  lemma CallCommitKeepsOneCalled(s: Sys, k: nat)
    requires SysInv(s) && k < |s.flights| && s.flights[k].Saving?
    requires s.flights[k].base.status.Waiting? && s.flights[k].entity.status.Called?
    requires Step(s, Go(k)).flights[k].outcome.Saved?
    requires OneCalled(s.db.rows, s.flights[k].base.queue)
    ensures OneCalled(Step(s, Go(k)).db.rows, s.flights[k].base.queue)
       <==> FindCalled(s.db.rows, s.flights[k].base.queue).None?
  {
    CommitIsLegal(s, k);
    var f := s.flights[k];
    var (rows, after, q) := (s.db.rows, Step(s, Go(k)).db.rows, f.base.queue);
    var found := FindCalled(rows, q);
    if found.Some? {
      StoredTurn(s.db, found.value);
      assert BothCalled(after[found.value.id], after[f.base.id]);
    } else {
      forall i, j | 0 <= i < |after| && 0 <= j < |after| && i != j
        ensures !(after[i].queue == q && BothCalled(after[i], after[j]))
      {
        assert rows[i] in rows && rows[j] in rows;
      }
    }
  }
}
