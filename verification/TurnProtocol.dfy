/** Every use case that writes a turn, cut at its database accesses.

    `Advance` runs one phase of one request: it reads what the code reads at
    that point, decides, and performs at most one write. Requests run alone
    when their phases are taken in a row (`Alone`) and race when the phases
    of many requests are interleaved (`Step`). */
module TurnProtocol {
  import opened Options
  import opened Sorting
  import opened Turns

  // ----- the store ----------------------------------------------------------

  datatype QueueRow = QueueRow(business: nat, prefix: string, isActive: bool)
  datatype BusinessRow = BusinessRow(approved: bool, operational: Operational)
  datatype Operational = Normal | Delayed | Paused | Closed
  datatype WindowRow = WindowRow(queue: nat, isActive: bool)

  /** Rows these use cases read but never write. */
  datatype Config = Config(
    queues: map<nat, QueueRow>, businesses: map<nat, BusinessRow>, windows: map<nat, WindowRow>)

  /** `indexed` says whether the two partial unique indexes exist. */
  datatype Db = Db(rows: seq<Turn>, cfg: Config, clock: int, nextVersion: nat, indexed: bool)

  datatype Code =
    | QueueNotFound | QueueNotActive | TurnStillCalled | QueueNoTurnReady | QueueEmpty
    | TurnNotFound | InvalidStatusForAttend | ServiceWindowRequired | ServiceWindowOccupied
    | RedirectSameWindow | ServiceWindowNotFound | TurnNotCalled | TurnNotOwned | TurnNotGuest
    | TurnNotCancellable | TurnConflict | UniqueViolation
    | QueueNotAcceptingTurns | BusinessNotFound | BusinessNotAcceptingCustomers
    | BusinessOperationalStatusBlocked | BusinessOutsideOperatingHours | CustomerHasActiveTurn

  datatype Outcome = Saved(turn: Turn) | Failed(code: Code)

  datatype ConfirmAction = ToInTransit | ToArrived

  /** A request that changes one existing turn. */
  datatype Change =
    | Attend(turn: nat, window: Option<nat>)
    | Redirect(turn: nat, target: nat)
    | Confirm(owner: nat, queue: nat, action: ConfirmAction)
    | MarkNoShow(turn: nat)
    | CancelOwn(turn: nat, customer: nat)
    | CancelByEmployee(turn: nat)
    | CancelGuest(turn: nat)
    | CancelOnSuspension(turn: nat, at: int)

  /** A request for a new turn: from the app or the web, or entered by staff. */
  datatype Join =
    | TakeTurn(queue: nat, holder: Option<nat>, withinHours: bool)
    | TakeManualTurn(queue: nat, byPhone: bool, etaMinutes: nat)

  datatype Request = CallNext(line: nat) | ChangeTurn(change: Change) | JoinQueue(join: Join)

  /** Everything `createWithNextNumber` is given. */
  datatype Draft = Draft(queue: nat, business: nat, prefix: string, customer: Option<nat>,
                         priority: Priority, source: Source, date: int, joinedAt: int)

  /** A request in flight: what it has read so far. */
  datatype Flight =
    | Begin(req: Request)
    | CallQueueSeen(queue: nat)
    | NoneCalled(queue: nat)
    | NothingDue(queue: nat)
    | NoTarget(base: Turn)
    | RedirectAsked(base: Turn, target: nat)
    | TargetKnown(base: Turn, target: nat)
    | JoinQueueSeen(join: Join, queueRow: QueueRow)
    | JoinOpen(queue: nat, holder: nat, queueRow: QueueRow)
    | Saving(base: Turn, entity: Turn, claims: bool)
    | Inserting(draft: Draft)
    | Done(outcome: Outcome)

  // ----- queries ------------------------------------------------------------

  function FindFirst(rows: seq<Turn>, p: Turn -> bool): (r: Option<Turn>)
    ensures r.Some? ==> r.value in rows && p(r.value)
    ensures r.None? ==> forall t :: t in rows ==> !p(t)
  {
    if rows == [] then None
    else if p(rows[0]) then Some(rows[0])
    else FindFirst(rows[1..], p)
  }

  function FindById(db: Db, id: nat): Option<Turn> {
    if id < |db.rows| then Some(db.rows[id]) else None
  }

  function FindCalled(rows: seq<Turn>, queue: nat): Option<Turn> {
    FindFirst(rows, (t: Turn) => t.queue == queue && t.status.Called?)
  }

  function FindOccupant(rows: seq<Turn>, window: nat): Option<Turn> {
    FindFirst(rows, (t: Turn) => t.window == Some(window) && Holding(t.status))
  }

  function FindActiveOfCustomer(rows: seq<Turn>, customer: nat): Option<Turn> {
    FindFirst(rows, (t: Turn) => t.customer == Some(customer) && Active(t.status))
  }

  function FindActiveInQueue(rows: seq<Turn>, customer: nat, queue: nat): Option<Turn> {
    FindFirst(rows, (t: Turn) => t.customer == Some(customer) && t.queue == queue && Active(t.status))
  }

  function IsDueIn(queue: nat, now: int): Turn -> bool {
    (t: Turn) => t.queue == queue && t.status.Waiting? && t.joinedAt <= now
  }

  /** Head of the due turns in service order. */
  function FindNextWaiting(rows: seq<Turn>, queue: nat, now: int): (r: Option<Turn>) {
    var sorted := Sort(Filter(rows, IsDueIn(queue, now)), NotAfter);
    if sorted == [] then None else Some(sorted[0])
  }

  function FindPending(rows: seq<Turn>, queue: nat, now: int): Option<Turn> {
    FindFirst(rows, (t: Turn) => t.queue == queue && t.status.Waiting? && t.joinedAt > now)
  }

  predicate HasActiveWindow(cfg: Config, queue: nat) {
    exists w :: w in cfg.windows && cfg.windows[w].queue == queue && cfg.windows[w].isActive
  }

  /** Turns ever issued for a queue on a day. */
  function CountDay(rows: seq<Turn>, queue: nat, date: int): nat {
    if rows == [] then 0
    else CountDay(rows[..|rows| - 1], queue, date) +
         (if rows[|rows| - 1].queue == queue && rows[|rows| - 1].date == date then 1 else 0)
  }

  // ----- writes -------------------------------------------------------------

  predicate SameWindowHeld(a: Turn, b: Turn) {
    Holding(a.status) && Holding(b.status) && a.window.Some? && a.window == b.window
  }

  predicate SameCustomerActive(a: Turn, b: Turn) {
    Active(a.status) && Active(b.status) && a.customer.Some? && a.customer == b.customer
  }

  /** Would `row` violate one of the two partial unique indexes? */
  predicate Collides(rows: seq<Turn>, row: Turn) {
    exists j :: 0 <= j < |rows| && j != row.id && (SameWindowHeld(rows[j], row) || SameCustomerActive(rows[j], row))
  }

  /** The columns `save` writes; every other column keeps its stored value. */
  function Written(stored: Turn, entity: Turn, version: nat): Turn {
    stored.(status := entity.status, priority := entity.priority, window := entity.window,
            calledAt := entity.calledAt, startedAt := entity.startedAt, attendedAt := entity.attendedAt,
            cancelledAt := entity.cancelledAt, noShowAt := entity.noShowAt, version := version)
  }

  /** Compare-and-swap on the version the entity was read with. */
  function Save(db: Db, entity: Turn, claims: bool): (Db, Outcome) {
    if entity.id >= |db.rows| then (db, Failed(TurnNotFound))
    else if db.rows[entity.id].version != entity.version then (db, Failed(TurnConflict))
    else
      var row := Written(db.rows[entity.id], entity, db.nextVersion);
      if db.indexed && Collides(db.rows, row) then
        (db, Failed(if claims then ServiceWindowOccupied else UniqueViolation))
      else
        (db.(rows := db.rows[entity.id := row], nextVersion := db.nextVersion + 1), Saved(row))
  }

  function NewRow(db: Db, d: Draft): Turn {
    var number := CountDay(db.rows, d.queue, d.date) + 1;
    Turn(|db.rows|, d.queue, d.business, d.customer, None, number, Display(d.prefix, number),
         Waiting, d.priority, d.source, d.date, d.joinedAt, None, None, None, None, None, db.nextVersion)
  }

  /** `createWithNextNumber`: count and insert under the queue's row lock. */
  function CreateWithNextNumber(db: Db, d: Draft): (Db, Outcome) {
    var row := NewRow(db, d);
    if db.indexed && Collides(db.rows, row) then (db, Failed(CustomerHasActiveTurn))
    else (db.(rows := db.rows + [row], nextVersion := db.nextVersion + 1), Saved(row))
  }

  // ----- one phase of one request -------------------------------------------

  function Fail(db: Db, code: Code): (Db, Flight) { (db, Done(Failed(code))) }

  function Cancelling(t: Turn, now: int): Flight {
    Saving(t, t.(status := Cancelled, cancelledAt := Some(now)), false)
  }

  function StartAttending(base: Turn, window: Option<nat>, now: int): Flight {
    var started := if base.startedAt.Some? then base.startedAt else Some(now);
    Saving(base, base.(status := Attending, startedAt := started, window := window), true)
  }

  /** What a use case makes of the turn it just read. */
  function Decide(now: int, change: Change, turn: Turn): Flight {
    match change
    case Attend(_, window) =>
      if turn.status.Called? || turn.status.Redirected? then
        var target := if window.Some? then window else turn.window;
        if target.Some? then TargetKnown(turn, target.value) else NoTarget(turn)
      else if turn.status.Attending? then
        Saving(turn, turn.(status := Completed, attendedAt := Some(now)), false)
      else Done(Failed(InvalidStatusForAttend))
    case Redirect(_, target) =>
      if !turn.status.Attending? then Done(Failed(InvalidStatusForAttend))
      else if turn.window == Some(target) then Done(Failed(RedirectSameWindow))
      else RedirectAsked(turn, target)
    case Confirm(_, _, action) =>
      var from := if action.ToInTransit? then Registered else InTransit;
      var to := if action.ToInTransit? then InTransit else Arrived;
      if turn.priority != from then Done(Failed(InvalidStatusForAttend))
      else Saving(turn, turn.(priority := to), false)
    case MarkNoShow(_) =>
      if !turn.status.Called? then Done(Failed(TurnNotCalled))
      else Saving(turn, turn.(status := NoShow, noShowAt := Some(now)), false)
    case CancelOwn(_, customer) =>
      if turn.customer != Some(customer) then Done(Failed(TurnNotOwned))
      else if !turn.status.Waiting? && !turn.status.Called? then Done(Failed(TurnNotCancellable))
      else Cancelling(turn, now)
    case CancelByEmployee(_) =>
      if !turn.status.Waiting? && !turn.status.Called? && !turn.status.Attending? then Done(Failed(TurnNotCancellable))
      else Cancelling(turn, now)
    case CancelGuest(_) =>
      if turn.customer.Some? then Done(Failed(TurnNotGuest))
      else if !turn.status.Waiting? then Done(Failed(TurnNotCancellable))
      else Cancelling(turn, now)
    case CancelOnSuspension(_, at) =>
      if Terminal(turn.status) then Done(Failed(TurnNotCancellable))
      else Cancelling(turn, at)
  }

  function FindTurnFor(db: Db, change: Change): Option<Turn> {
    match change
    case Confirm(owner, queue, _) => FindActiveInQueue(db.rows, owner, queue)
    case _ => FindById(db, change.turn)
  }

  function AdvanceBegin(db: Db, req: Request): (Db, Flight) {
    match req
    case CallNext(q) =>
      if q !in db.cfg.queues then Fail(db, QueueNotFound)
      else if !db.cfg.queues[q].isActive then Fail(db, QueueNotActive)
      else (db, CallQueueSeen(q))
    case ChangeTurn(change) =>
      var found := FindTurnFor(db, change);
      if found.None? then Fail(db, TurnNotFound) else (db, Decide(db.clock, change, found.value))
    case JoinQueue(join) =>
      if join.queue !in db.cfg.queues then Fail(db, QueueNotFound)
      else if !db.cfg.queues[join.queue].isActive then Fail(db, QueueNotAcceptingTurns)
      else (db, JoinQueueSeen(join, db.cfg.queues[join.queue]))
  }

  function DraftFor(join: Join, row: QueueRow, now: int): Draft {
    match join
    case TakeTurn(q, holder, _) =>
      Draft(q, row.business, row.prefix, holder, Registered, if holder.Some? then App else Web, Today(now), now)
    case TakeManualTurn(q, byPhone, eta) =>
      var delay := if byPhone then eta * 60_000 else 0;
      Draft(q, row.business, row.prefix, None, if byPhone then Registered else Physical,
            if byPhone then Phone else Manual, Today(now), now + delay)
  }

  function AdvanceJoin(db: Db, join: Join, row: QueueRow): (Db, Flight) {
    if row.business !in db.cfg.businesses then Fail(db, BusinessNotFound)
    else
      var business := db.cfg.businesses[row.business];
      if !business.approved then Fail(db, BusinessNotAcceptingCustomers)
      else if business.operational.Paused? || business.operational.Closed?
          then Fail(db, BusinessOperationalStatusBlocked)
      else if join.TakeTurn? && !join.withinHours then Fail(db, BusinessOutsideOperatingHours)
      else if join.TakeTurn? && join.holder.Some? then (db, JoinOpen(join.queue, join.holder.value, row))
      else (db, Inserting(DraftFor(join, row, db.clock)))
  }

  function AdvanceTargetKnown(db: Db, base: Turn, target: nat): (Db, Flight) {
    var occupant := FindOccupant(db.rows, target);
    if occupant.Some? && occupant.value.id != base.id then Fail(db, ServiceWindowOccupied)
    else if base.status.Attending? then
      (db, Saving(base, base.(status := Redirected, window := Some(target)), true))
    else (db, StartAttending(base, Some(target), db.clock))
  }

  function Advance(db: Db, f: Flight): (Db, Flight) {
    match f
    case Begin(req) => AdvanceBegin(db, req)
    case CallQueueSeen(q) =>
      if FindCalled(db.rows, q).Some? then Fail(db, TurnStillCalled) else (db, NoneCalled(q))
    case NoneCalled(q) =>
      var next := FindNextWaiting(db.rows, q, db.clock);
      if next.None? then (db, NothingDue(q))
      else (db, Saving(next.value, next.value.(status := Called, calledAt := Some(db.clock)), false))
    case NothingDue(q) =>
      Fail(db, if FindPending(db.rows, q, db.clock).Some? then QueueNoTurnReady else QueueEmpty)
    case NoTarget(base) =>
      if HasActiveWindow(db.cfg, base.queue) then Fail(db, ServiceWindowRequired)
      else (db, StartAttending(base, None, db.clock))
    case RedirectAsked(base, target) =>
      if target !in db.cfg.windows || db.cfg.windows[target].queue != base.queue then Fail(db, ServiceWindowNotFound)
      else (db, TargetKnown(base, target))
    case TargetKnown(base, target) => AdvanceTargetKnown(db, base, target)
    case JoinQueueSeen(join, row) => AdvanceJoin(db, join, row)
    case JoinOpen(q, holder, row) =>
      if FindActiveOfCustomer(db.rows, holder).Some? then Fail(db, CustomerHasActiveTurn)
      else (db, Inserting(DraftFor(TakeTurn(q, Some(holder), true), row, db.clock)))
    case Saving(_, entity, claims) => var r := Save(db, entity, claims); (r.0, Done(r.1))
    case Inserting(draft) => var r := CreateWithNextNumber(db, draft); (r.0, Done(r.1))
    case Done(_) => (db, f)
  }

  /** How many phases a flight may still have. */
  function Phases(f: Flight): nat {
    match f
    case Begin(_) => 4
    case CallQueueSeen(_) => 3
    case RedirectAsked(_, _) => 3
    case JoinQueueSeen(_, _) => 3
    case NoneCalled(_) => 2
    case NoTarget(_) => 2
    case TargetKnown(_, _) => 2
    case JoinOpen(_, _, _) => 2
    case NothingDue(_) => 1
    case Saving(_, _, _) => 1
    case Inserting(_) => 1
    case Done(_) => 0
  }

  lemma AdvanceProgresses(db: Db, f: Flight)
    requires !f.Done?
    ensures Phases(Advance(db, f).1) < Phases(f)
  {
  }

  /** Runs a flight to its end with nobody else in between. */
  function Finish(db: Db, f: Flight): (Db, Outcome)
    decreases Phases(f)
  {
    if f.Done? then (db, f.outcome)
    else
      AdvanceProgresses(db, f);
      var next := Advance(db, f);
      Finish(next.0, next.1)
  }

  function Alone(db: Db, req: Request): (Db, Outcome) { Finish(db, Begin(req)) }

  // ----- many requests at once ----------------------------------------------

  datatype Sys = Sys(db: Db, flights: seq<Flight>)

  datatype Event =
    | Launch(req: Request)
    | Go(k: nat)
    | Tick(ms: nat)
    | Reconfigure(cfg: Config)

  /** What other modules may do to the configuration: anything, except that a
      queue keeps its business and its prefix. */
  predicate QueuesKept(old_: Config, new_: Config) {
    forall q :: q in old_.queues ==>
      q in new_.queues && new_.queues[q].business == old_.queues[q].business
          && new_.queues[q].prefix == old_.queues[q].prefix
  }

  function Step(s: Sys, e: Event): Sys {
    match e
    case Launch(req) => s.(flights := s.flights + [Begin(req)])
    case Go(k) =>
      if k >= |s.flights| then s
      else var r := Advance(s.db, s.flights[k]); Sys(r.0, s.flights[k := r.1])
    case Tick(ms) => s.(db := s.db.(clock := s.db.clock + ms))
    case Reconfigure(cfg) => if QueuesKept(s.db.cfg, cfg) then s.(db := s.db.(cfg := cfg)) else s
  }

  function Run(s: Sys, events: seq<Event>): Sys {
    if events == [] then s else Step(Run(s, events[..|events| - 1]), events[|events| - 1])
  }

  function Start(cfg: Config, clock: int, indexed: bool): Sys { Sys(Db([], cfg, clock, 0, indexed), []) }
}
