/** The turn use cases as they are written: one method each, reading and
    updating the shared tables step by step. Every method is proved to do
    what its request does when its phases run in a row (`Alone`), so the
    theorems about `Alone` and about interleaved phases speak of this code. */
module TurnDesk {
  import opened Options
  import opened Sorting
  import opened Turns
  import opened TurnProtocol
  import opened ServiceOrder
  import OpeningHours

  datatype Schedule = Schedule(weeklyHours: seq<OpeningHours.Opening>, nonWorkingDays: seq<string>)

  datatype LocalTime = LocalTime(date: string, dayOfWeek: nat, minutes: int)

  predicate IsOpen(schedule: Schedule, local: LocalTime) {
    OpeningHours.IsWithinOperatingHours(
      schedule.weeklyHours, schedule.nonWorkingDays, local.date, local.dayOfWeek, local.minutes)
  }

  method IsWithinOperatingHours(schedule: Schedule, local: LocalTime) returns (within: bool)
    ensures within == IsOpen(schedule, local)
  {
    var hours := schedule.weeklyHours;
    if |hours| == 0 { return true; }
    if local.date in schedule.nonWorkingDays { return false; }
    for i := 0 to |hours|
      invariant forall h :: h in hours[..i] ==> !OpeningHours.OpenAt(h, local.dayOfWeek, local.minutes)
    {
      if hours[i].day == local.dayOfWeek {
        var opensAt, closesAt := OpeningHours.ToMinutes(hours[i].opensAt), OpeningHours.ToMinutes(hours[i].closesAt);
        if opensAt <= local.minutes < closesAt {
          assert OpeningHours.OpenAt(hours[i], local.dayOfWeek, local.minutes);
          return true;
        }
      }
      assert hours[..i + 1] == hours[..i] + [hours[i]];
    }
    assert hours[..|hours|] == hours;
    return false;
  }

  class Desk {
    var rows: seq<Turn>
    var cfg: Config
    var clock: int
    var nextVersion: nat
    const indexed: bool

    constructor (cfg: Config, clock: int, indexed: bool)
      ensures State() == Start(cfg, clock, indexed).db
    {
      rows, nextVersion := [], 0;
      this.cfg, this.clock, this.indexed := cfg, clock, indexed;
    }

    function State(): Db
      reads this
    {
      Db(rows, cfg, clock, nextVersion, indexed)
    }

    method SaveTurn(entity: Turn, claims: bool) returns (out: Outcome)
      modifies this`rows, this`nextVersion
      ensures (State(), out) == Save(old(State()), entity, claims)
    {
      if entity.id >= |rows| { return Failed(TurnNotFound); }
      var stored := rows[entity.id];
      if stored.version != entity.version { return Failed(TurnConflict); }
      var row := Written(stored, entity, nextVersion);
      if indexed && Collides(rows, row) {
        return Failed(if claims then ServiceWindowOccupied else UniqueViolation);
      }
      rows := rows[entity.id := row];
      nextVersion := nextVersion + 1;
      return Saved(row);
    }

    /** Runs under the lock on the queue row, hence in one step. */
    method CreateTurn(d: Draft) returns (out: Outcome)
      modifies this`rows, this`nextVersion
      ensures (State(), out) == CreateWithNextNumber(old(State()), d)
    {
      var number := CountDay(rows, d.queue, d.date) + 1;
      var row := Turn(|rows|, d.queue, d.business, d.customer, None, number, Display(d.prefix, number),
                      Waiting, d.priority, d.source, d.date, d.joinedAt, None, None, None, None, None, nextVersion);
      if indexed && Collides(rows, row) { return Failed(CustomerHasActiveTurn); }
      rows := rows + [row];
      nextVersion := nextVersion + 1;
      return Saved(row);
    }

    method CallNextTurn(queue: nat) returns (out: Outcome)
      modifies this`rows, this`nextVersion
      ensures (State(), out) == Alone(old(State()), CallNext(queue))
    {
      ghost var db := State();
      Unroll(db, Begin(CallNext(queue)));
      if queue !in cfg.queues { return Failed(QueueNotFound); }
      if !cfg.queues[queue].isActive { return Failed(QueueNotActive); }
      Unroll(db, CallQueueSeen(queue));
      var calledTurn := FindCalled(rows, queue);
      if calledTurn.Some? { return Failed(TurnStillCalled); }
      Unroll(db, NoneCalled(queue));
      var next := FindNextWaiting(rows, queue, clock);
      if next.None? {
        Unroll(db, NothingDue(queue));
        var pending := FindPending(rows, queue, clock);
        return Failed(if pending.Some? then QueueNoTurnReady else QueueEmpty);
      }
      var entity := next.value.(status := Called, calledAt := Some(clock));
      Unroll(db, Saving(next.value, entity, false));
      out := SaveTurn(entity, false);
    }

    method AttendTurn(turnId: nat, windowId: Option<nat>) returns (out: Outcome)
      modifies this`rows, this`nextVersion
      ensures (State(), out) == Alone(old(State()), ChangeTurn(Attend(turnId, windowId)))
    {
      ghost var db := State();
      Unroll(db, Begin(ChangeTurn(Attend(turnId, windowId))));
      if turnId >= |rows| { return Failed(TurnNotFound); }
      var turn := rows[turnId];

      if turn.status.Called? || turn.status.Redirected? {
        var targetWindowId := if windowId.Some? then windowId else turn.window;
        if targetWindowId.None? {
          Unroll(db, NoTarget(turn));
          if HasActiveWindow(cfg, turn.queue) { return Failed(ServiceWindowRequired); }
        } else {
          Unroll(db, TargetKnown(turn, targetWindowId.value));
          var occupant := FindOccupant(rows, targetWindowId.value);
          if occupant.Some? && occupant.value.id != turn.id { return Failed(ServiceWindowOccupied); }
        }
        var startedAt := if turn.startedAt.Some? then turn.startedAt else Some(clock);
        var entity := turn.(status := Attending, startedAt := startedAt, window := targetWindowId);
        Unroll(db, Saving(turn, entity, true));
        out := SaveTurn(entity, true);
        return;
      }

      if turn.status.Attending? {
        var entity := turn.(status := Completed, attendedAt := Some(clock));
        Unroll(db, Saving(turn, entity, false));
        out := SaveTurn(entity, false);
        return;
      }

      return Failed(InvalidStatusForAttend);
    }

    method RedirectTurn(turnId: nat, targetWindowId: nat) returns (out: Outcome)
      modifies this`rows, this`nextVersion
      ensures (State(), out) == Alone(old(State()), ChangeTurn(Redirect(turnId, targetWindowId)))
    {
      ghost var db := State();
      Unroll(db, Begin(ChangeTurn(Redirect(turnId, targetWindowId))));
      if turnId >= |rows| { return Failed(TurnNotFound); }
      var turn := rows[turnId];
      if !turn.status.Attending? { return Failed(InvalidStatusForAttend); }
      if turn.window == Some(targetWindowId) { return Failed(RedirectSameWindow); }
      Unroll(db, RedirectAsked(turn, targetWindowId));
      if targetWindowId !in cfg.windows || cfg.windows[targetWindowId].queue != turn.queue {
        return Failed(ServiceWindowNotFound);
      }
      Unroll(db, TargetKnown(turn, targetWindowId));
      var occupant := FindOccupant(rows, targetWindowId);
      if occupant.Some? && occupant.value.id != turn.id { return Failed(ServiceWindowOccupied); }
      var entity := turn.(status := Redirected, window := Some(targetWindowId));
      Unroll(db, Saving(turn, entity, true));
      out := SaveTurn(entity, true);
    }

    method ConfirmTurnStatus(customer: nat, queue: nat, action: ConfirmAction) returns (out: Outcome)
      modifies this`rows, this`nextVersion
      ensures (State(), out) == Alone(old(State()), ChangeTurn(Confirm(customer, queue, action)))
    {
      ghost var db := State();
      Unroll(db, Begin(ChangeTurn(Confirm(customer, queue, action))));
      var turn := FindActiveInQueue(rows, customer, queue);
      if turn.None? { return Failed(TurnNotFound); }
      var (from, to) := if action.ToInTransit? then (Registered, InTransit) else (InTransit, Arrived);
      if turn.value.priority != from { return Failed(InvalidStatusForAttend); }
      Unroll(db, Saving(turn.value, turn.value.(priority := to), false));
      out := SaveTurn(turn.value.(priority := to), false);
    }

    method MarkTurnNoShow(turnId: nat) returns (out: Outcome)
      modifies this`rows, this`nextVersion
      ensures (State(), out) == Alone(old(State()), ChangeTurn(MarkNoShow(turnId)))
    {
      ghost var db := State();
      Unroll(db, Begin(ChangeTurn(MarkNoShow(turnId))));
      if turnId >= |rows| { return Failed(TurnNotFound); }
      var turn := rows[turnId];
      if !turn.status.Called? { return Failed(TurnNotCalled); }
      var entity := turn.(status := NoShow, noShowAt := Some(clock));
      Unroll(db, Saving(turn, entity, false));
      out := SaveTurn(entity, false);
    }

    method CancelOwnTurn(turnId: nat, customer: nat) returns (out: Outcome)
      modifies this`rows, this`nextVersion
      ensures (State(), out) == Alone(old(State()), ChangeTurn(CancelOwn(turnId, customer)))
    {
      ghost var db := State();
      Unroll(db, Begin(ChangeTurn(CancelOwn(turnId, customer))));
      if turnId >= |rows| { return Failed(TurnNotFound); }
      var turn := rows[turnId];
      if turn.customer != Some(customer) { return Failed(TurnNotOwned); }
      if !turn.status.Waiting? && !turn.status.Called? { return Failed(TurnNotCancellable); }
      var entity := turn.(status := Cancelled, cancelledAt := Some(clock));
      Unroll(db, Saving(turn, entity, false));
      out := SaveTurn(entity, false);
    }

    method CancelTurnByEmployee(turnId: nat) returns (out: Outcome)
      modifies this`rows, this`nextVersion
      ensures (State(), out) == Alone(old(State()), ChangeTurn(CancelByEmployee(turnId)))
    {
      ghost var db := State();
      Unroll(db, Begin(ChangeTurn(CancelByEmployee(turnId))));
      if turnId >= |rows| { return Failed(TurnNotFound); }
      var turn := rows[turnId];
      if !turn.status.Waiting? && !turn.status.Called? && !turn.status.Attending? { return Failed(TurnNotCancellable); }
      var entity := turn.(status := Cancelled, cancelledAt := Some(clock));
      Unroll(db, Saving(turn, entity, false));
      out := SaveTurn(entity, false);
    }

    method CancelGuestTurn(turnId: nat) returns (out: Outcome)
      modifies this`rows, this`nextVersion
      ensures (State(), out) == Alone(old(State()), ChangeTurn(CancelGuest(turnId)))
    {
      ghost var db := State();
      Unroll(db, Begin(ChangeTurn(CancelGuest(turnId))));
      if turnId >= |rows| { return Failed(TurnNotFound); }
      var turn := rows[turnId];
      if turn.customer.Some? { return Failed(TurnNotGuest); }
      if !turn.status.Waiting? { return Failed(TurnNotCancellable); }
      var entity := turn.(status := Cancelled, cancelledAt := Some(clock));
      Unroll(db, Saving(turn, entity, false));
      out := SaveTurn(entity, false);
    }

    /** From the app (`holder` present) or from the web (a guest). `schedule`
        is what the business has configured, and `local` the instant on the
        business's own calendar. */
    method TakeTurnFor(queue: nat, holder: Option<nat>, schedule: Schedule, local: LocalTime) returns (out: Outcome)
      modifies this`rows, this`nextVersion
      ensures (State(), out) == Alone(old(State()), JoinQueue(TakeTurn(queue, holder, IsOpen(schedule, local))))
    {
      ghost var db := State();
      var withinHours := IsWithinOperatingHours(schedule, local);
      ghost var join := TakeTurn(queue, holder, withinHours);
      Unroll(db, Begin(JoinQueue(join)));
      if queue !in cfg.queues { return Failed(QueueNotFound); }
      var queueRow := cfg.queues[queue];
      if !queueRow.isActive { return Failed(QueueNotAcceptingTurns); }
      Unroll(db, JoinQueueSeen(join, queueRow));
      if queueRow.business !in cfg.businesses { return Failed(BusinessNotFound); }
      var business := cfg.businesses[queueRow.business];
      if !business.approved { return Failed(BusinessNotAcceptingCustomers); }
      if business.operational.Paused? || business.operational.Closed? {
        return Failed(BusinessOperationalStatusBlocked);
      }
      if !withinHours { return Failed(BusinessOutsideOperatingHours); }
      if holder.Some? {
        Unroll(db, JoinOpen(queue, holder.value, queueRow));
        var existing := FindActiveOfCustomer(rows, holder.value);
        if existing.Some? { return Failed(CustomerHasActiveTurn); }
      }
      var draft := Draft(queue, queueRow.business, queueRow.prefix, holder, Registered,
                         if holder.Some? then App else Web, Today(clock), clock);
      Unroll(db, Inserting(draft));
      out := CreateTurn(draft);
    }

    /** A walk-in, or a phone reservation that arrives `etaMinutes` from now. */
    method TakeManualTurnFor(queue: nat, byPhone: bool, etaMinutes: nat) returns (out: Outcome)
      modifies this`rows, this`nextVersion
      ensures (State(), out) == Alone(old(State()), JoinQueue(TakeManualTurn(queue, byPhone, etaMinutes)))
    {
      ghost var db := State();
      ghost var join := TakeManualTurn(queue, byPhone, etaMinutes);
      Unroll(db, Begin(JoinQueue(join)));
      if queue !in cfg.queues { return Failed(QueueNotFound); }
      var queueRow := cfg.queues[queue];
      if !queueRow.isActive { return Failed(QueueNotAcceptingTurns); }
      Unroll(db, JoinQueueSeen(join, queueRow));
      if queueRow.business !in cfg.businesses { return Failed(BusinessNotFound); }
      var business := cfg.businesses[queueRow.business];
      if !business.approved { return Failed(BusinessNotAcceptingCustomers); }
      if business.operational.Paused? || business.operational.Closed? {
        return Failed(BusinessOperationalStatusBlocked);
      }
      var priority := if byPhone then Registered else Physical;
      var delay := if byPhone then etaMinutes * 60_000 else 0;
      var draft := Draft(queue, queueRow.business, queueRow.prefix, None, priority,
                         if byPhone then Phone else Manual, Today(clock), clock + delay);
      Unroll(db, Inserting(draft));
      out := CreateTurn(draft);
    }
  }
}
