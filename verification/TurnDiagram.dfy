/** Which request may take a turn from which status to which, as a table, and
    that a request that runs alone does exactly that. */
module TurnDiagram {
  import opened Options
  import opened Turns
  import opened TurnProtocol
  import opened TurnSafety
  import opened TurnSerial
  import opened ServiceOrder

  /** The status a request gives to a turn, if it may change it at all. */
  function Target(change: Change, from: Status): Option<Status> {
    match (change, from)
    case (Attend(_, _), Called) => Some(Attending)
    case (Attend(_, _), Redirected) => Some(Attending)
    case (Attend(_, _), Attending) => Some(Completed)
    case (Redirect(_, _), Attending) => Some(Redirected)
    case (MarkNoShow(_), Called) => Some(NoShow)
    case (CancelOwn(_, _), Waiting) => Some(Cancelled)
    case (CancelOwn(_, _), Called) => Some(Cancelled)
    case (CancelByEmployee(_), Waiting) => Some(Cancelled)
    case (CancelByEmployee(_), Called) => Some(Cancelled)
    case (CancelByEmployee(_), Attending) => Some(Cancelled)
    case (CancelGuest(_), Waiting) => Some(Cancelled)
    case (CancelOnSuspension(_, _), Waiting) => Some(Cancelled)
    case (CancelOnSuspension(_, _), Called) => Some(Cancelled)
    case (CancelOnSuspension(_, _), Attending) => Some(Cancelled)
    case (CancelOnSuspension(_, _), Redirected) => Some(Cancelled)
    case (Confirm(_, _, _), Waiting) => Some(Waiting)
    case (Confirm(_, _, _), Called) => Some(Called)
    case (Confirm(_, _, _), Attending) => Some(Attending)
    case (Confirm(_, _, _), Redirected) => Some(Redirected)
    case _ => None
  }

  /** The requester may do this to this turn. */
  predicate Entitled(change: Change, t: Turn) {
    match change
    case CancelOwn(_, customer) => t.customer == Some(customer)
    case CancelGuest(_) => t.customer.None?
    case Confirm(_, _, ToInTransit) => t.priority.Registered?
    case Confirm(_, _, ToArrived) => t.priority.InTransit?
    case _ => true
  }

  /** No other turn is being served there. */
  ghost predicate FreeFor(rows: seq<Turn>, window: nat, t: Turn) {
    forall i :: 0 <= i < |rows| && Holding(rows[i].status) && rows[i].window == Some(window) ==> i == t.id
  }

  /** The queue has no active window. */
  ghost predicate NoWindowToChoose(cfg: Config, queue: nat) {
    forall w :: w in cfg.windows && cfg.windows[w].queue == queue ==> !cfg.windows[w].isActive
  }

  /** The window a request would take is there and free. */
  ghost predicate WindowOk(db: Db, change: Change, t: Turn) {
    match change
    case Attend(_, asked) =>
      t.status.Attending? ||
        var window := if asked.Some? then asked else t.window;
        if window.Some? then FreeFor(db.rows, window.value, t) else NoWindowToChoose(db.cfg, t.queue)
    case Redirect(_, window) =>
      && t.window != Some(window) && window in db.cfg.windows && db.cfg.windows[window].queue == t.queue
      && FreeFor(db.rows, window, t)
    case _ => true
  }

  ghost predicate Permitted(db: Db, change: Change, t: Turn) {
    Target(change, t.status).Some? && Entitled(change, t) && WindowOk(db, change, t)
  }

  /** The columns a request sets, given that it may change the turn. */
  function RowAfter(now: int, change: Change, t: Turn): Turn {
    match change
    case Attend(_, asked) =>
      if t.status.Attending? then t.(status := Completed, attendedAt := Some(now))
      else Attended(now, t, if asked.Some? then asked else t.window)
    case Redirect(_, target) => t.(status := Redirected, window := Some(target))
    case Confirm(_, _, ToInTransit) => t.(priority := InTransit)
    case Confirm(_, _, ToArrived) => t.(priority := Arrived)
    case MarkNoShow(_) => t.(status := NoShow, noShowAt := Some(now))
    case CancelOnSuspension(_, at) => t.(status := Cancelled, cancelledAt := Some(at))
    case _ => t.(status := Cancelled, cancelledAt := Some(now))
  }

  /** Attention starts once; a redirected turn keeps its first start. */
  function Attended(now: int, t: Turn, window: Option<nat>): Turn {
    t.(status := Attending, window := window, startedAt := if t.startedAt.Some? then t.startedAt else Some(now))
  }

  /** What a request leaves behind: that row, with a fresh version, and every
      other row as it was, or nothing changed. */
  ghost predicate Effect(db: Db, after: Db, out: Outcome, expected: Turn) {
    match out
    case Saved(row) =>
      && expected.id < |db.rows| && row == expected.(version := db.nextVersion)
      && after == db.(rows := db.rows[expected.id := row], nextVersion := db.nextVersion + 1)
    case Failed(_) => after == db
  }

  lemma DoneStays(db: Db, out: Outcome)
    ensures Finish(db, Done(out)) == (db, out)
  {
  }

  /** The last phase of a request that nobody disturbs succeeds. */
  lemma LastPhase(db: Db, base: Turn, entity: Turn, claims: bool)
    requires SerialInv(db) && FlightOk(db, Saving(base, entity, claims)) && GuardOk(db, Saving(base, entity, claims))
    ensures var (after, out) := Finish(db, Saving(base, entity, claims));
      out.Saved? && Effect(db, after, out, entity)
  {
    SaveKeepsExclusive(db, base, entity, claims);
    SaveCommits(db, base, entity, claims);
    Unroll(db, Saving(base, entity, claims));
    DoneStays(Save(db, entity, claims).0, Save(db, entity, claims).1);
  }

  lemma OccupantIffNotFree(db: Db, window: nat, t: Turn)
    requires SerialInv(db) && Stored(db, t)
    ensures var occupant := FindOccupant(db.rows, window);
      (occupant.Some? && occupant.value.id != t.id) <==> !FreeFor(db.rows, window, t)
  {
    var occupant := FindOccupant(db.rows, window);
    assert forall i :: 0 <= i < |db.rows| ==> db.rows[i] in db.rows;
    assert forall i :: 0 <= i < |db.rows| && i != t.id ==> !Conflict(db.rows[i], db.rows[t.id]);
    if occupant.Some? { StoredTurn(db, occupant.value); }
  }

  lemma FinishTargetKnown(db: Db, t: Turn, window: nat)
    requires SerialInv(db) && FlightOk(db, TargetKnown(t, window)) && Stored(db, t)
    ensures var (after, out) := Finish(db, TargetKnown(t, window));
      && (out.Saved? <==> FreeFor(db.rows, window, t))
      && Effect(db, after, out, if t.status.Attending? then t.(status := Redirected, window := Some(window))
                                else Attended(db.clock, t, Some(window)))
  {
    var f := TargetKnown(t, window);
    Unroll(db, f);
    OccupantIffNotFree(db, window, t);
    TargetKnownSafe(db, t, window);
    ClaimGuard(db, t, window);
    var g := AdvanceTargetKnown(db, t, window).1;
    if g.Saving? { LastPhase(db, g.base, g.entity, g.claims); } else { DoneStays(db, g.outcome); }
  }

  lemma FinishNoTarget(db: Db, t: Turn)
    requires SerialInv(db) && FlightOk(db, NoTarget(t)) && Stored(db, t)
    ensures var (after, out) := Finish(db, NoTarget(t));
      (out.Saved? <==> NoWindowToChoose(db.cfg, t.queue)) && Effect(db, after, out, Attended(db.clock, t, None))
  {
    Unroll(db, NoTarget(t));
    LaterReadSafe(db, NoTarget(t));
    FreeWindowGuard(db, t);
    var g := Advance(db, NoTarget(t)).1;
    if g.Saving? { LastPhase(db, g.base, g.entity, g.claims); } else { DoneStays(db, g.outcome); }
  }

  lemma FinishRedirect(db: Db, t: Turn, window: nat)
    requires SerialInv(db) && FlightOk(db, RedirectAsked(t, window)) && Stored(db, t) && t.status.Attending?
    ensures var (after, out) := Finish(db, RedirectAsked(t, window));
      && (out.Saved? <==>
            window in db.cfg.windows && db.cfg.windows[window].queue == t.queue && FreeFor(db.rows, window, t))
      && Effect(db, after, out, t.(status := Redirected, window := Some(window)))
  {
    Unroll(db, RedirectAsked(t, window));
    if window in db.cfg.windows && db.cfg.windows[window].queue == t.queue {
      FinishTargetKnown(db, t, window);
    } else {
      DoneStays(db, Failed(ServiceWindowNotFound));
    }
  }

  /** What a use case decides on reading the turn agrees with the table. */
  ghost predicate DecisionFits(db: Db, change: Change, t: Turn) {
    match Decide(db.clock, change, t)
    case Saving(base, entity, _) =>
      && base == t && entity == RowAfter(db.clock, change, t)
      && Target(change, t.status) == Some(entity.status) && Entitled(change, t) && WindowOk(db, change, t)
    case TargetKnown(base, window) =>
      && base == t && RowAfter(db.clock, change, t) == Attended(db.clock, t, Some(window))
      && Target(change, t.status) == Some(Attending) && !t.status.Attending? && Entitled(change, t)
      && (WindowOk(db, change, t) <==> FreeFor(db.rows, window, t))
    case NoTarget(base) =>
      && base == t && RowAfter(db.clock, change, t) == Attended(db.clock, t, None)
      && Target(change, t.status) == Some(Attending) && Entitled(change, t)
      && (WindowOk(db, change, t) <==> NoWindowToChoose(db.cfg, t.queue))
    case RedirectAsked(base, window) =>
      && base == t && RowAfter(db.clock, change, t) == t.(status := Redirected, window := Some(window))
      && t.status.Attending? && Target(change, t.status) == Some(Redirected) && Entitled(change, t)
      && (WindowOk(db, change, t) <==>
            window in db.cfg.windows && db.cfg.windows[window].queue == t.queue && FreeFor(db.rows, window, t))
    case Done(out) => out.Failed? && !Permitted(db, change, t)
    case _ => false
  }

  lemma WindowDecisionFits(db: Db, change: Change, t: Turn)
    requires change.Attend? || change.Redirect?
    ensures DecisionFits(db, change, t)
  {
  }

  lemma PlainDecisionFits(db: Db, change: Change, t: Turn)
    requires !change.Attend? && !change.Redirect? && (change.Confirm? ==> Active(t.status))
    ensures DecisionFits(db, change, t)
  {
  }

  /** After the decision, the rest of the request. */
  lemma FinishDecided(db: Db, change: Change, t: Turn)
    requires SerialInv(db) && Stored(db, t) && DecisionFits(db, change, t)
    requires FlightOk(db, Decide(db.clock, change, t)) && GuardOk(db, Decide(db.clock, change, t))
    ensures var (after, out) := Finish(db, Decide(db.clock, change, t));
      (out.Saved? <==> Permitted(db, change, t)) && Effect(db, after, out, RowAfter(db.clock, change, t))
  {
    match Decide(db.clock, change, t)
    case Saving(base, entity, claims) => LastPhase(db, base, entity, claims);
    case TargetKnown(base, window) => FinishTargetKnown(db, base, window);
    case NoTarget(base) => FinishNoTarget(db, base);
    case RedirectAsked(base, window) => FinishRedirect(db, base, window);
    case Done(out) => DoneStays(db, out);
  }

  /** A request on an existing turn, running alone, succeeds exactly when the
      table has an entry for the turn's status, the requester is entitled and
      the window is free; then the columns the request is about change, and
      nothing else, and otherwise nothing changes. */
  lemma ChangeFollowsTheDiagram(db: Db, change: Change, t: Turn)
    requires SerialInv(db) && FindTurnFor(db, change) == Some(t)
    ensures var (after, out) := Alone(db, ChangeTurn(change));
      (out.Saved? <==> Permitted(db, change, t)) && Effect(db, after, out, RowAfter(db.clock, change, t))
  {
    Unroll(db, Begin(ChangeTurn(change)));
    assert t in db.rows;
    StoredTurn(db, t);
    ChangeSafe(db, change);
    DecideGuard(db, change);
    if change.Attend? || change.Redirect? {
      WindowDecisionFits(db, change, t);
    } else {
      PlainDecisionFits(db, change, t);
    }
    FinishDecided(db, change, t);
  }

  // ----- calling ------------------------------------------------------------

  predicate OpenQueue(db: Db, q: nat) { q in db.cfg.queues && db.cfg.queues[q].isActive }

  predicate SomebodyCalled(rows: seq<Turn>, q: nat) { exists t :: t in rows && t.queue == q && t.status.Called? }

  predicate SomebodyDue(rows: seq<Turn>, q: nat, now: int) { exists t :: t in rows && IsDueIn(q, now)(t) }

  predicate SomebodyWaiting(rows: seq<Turn>, q: nat) { exists t :: t in rows && t.queue == q && t.status.Waiting? }

  lemma HeadIffDue(rows: seq<Turn>, q: nat, now: int)
    ensures FindNextWaiting(rows, q, now).Some? <==> SomebodyDue(rows, q, now)
    ensures FindPending(rows, q, now).Some? || SomebodyDue(rows, q, now) <==> SomebodyWaiting(rows, q)
  {
    NextWaitingIsStored(rows, q, now);
    if SomebodyDue(rows, q, now) {
      var t :| t in rows && IsDueIn(q, now)(t);
      HeadIsLeast(rows, q, now, t);
    }
    forall t | t in rows && t.queue == q && t.status.Waiting? ensures t.joinedAt > now || IsDueIn(q, now)(t) { }
  }

  /** A call that runs alone succeeds exactly if the queue is open, nobody is
      called and somebody is due; it says NO_TURN_READY if those who wait are
      all expected later, and EMPTY if nobody waits. */
  lemma CallNextAnswers(db: Db, q: nat)
    requires SerialInv(db)
    ensures var out := Alone(db, CallNext(q)).1; var free := OpenQueue(db, q) && !SomebodyCalled(db.rows, q);
      && (out.Saved? <==> free && SomebodyDue(db.rows, q, db.clock))
      && (out == Failed(QueueNoTurnReady) <==>
            free && !SomebodyDue(db.rows, q, db.clock) && SomebodyWaiting(db.rows, q))
      && (out == Failed(QueueEmpty) <==> free && !SomebodyWaiting(db.rows, q))
  {
    Unroll(db, Begin(CallNext(q)));
    if OpenQueue(db, q) {
      Unroll(db, CallQueueSeen(q));
      assert FindCalled(db.rows, q).Some? <==> SomebodyCalled(db.rows, q);
      if !SomebodyCalled(db.rows, q) { FinishNoneCalled(db, q); }
    }
  }

  lemma FinishNoneCalled(db: Db, q: nat)
    requires SerialInv(db) && FindCalled(db.rows, q).None?
    ensures var out := Finish(db, NoneCalled(q)).1;
      if SomebodyDue(db.rows, q, db.clock) then out.Saved?
      else out == Failed(if SomebodyWaiting(db.rows, q) then QueueNoTurnReady else QueueEmpty)
  {
    HeadIffDue(db.rows, q, db.clock);
    Unroll(db, NoneCalled(q));
    if SomebodyDue(db.rows, q, db.clock) {
      NextWaitingSafe(db, q);
      CallGuard(db, q);
      var f := Advance(db, NoneCalled(q)).1;
      LastPhase(db, f.base, f.entity, f.claims);
    } else {
      Unroll(db, NothingDue(q));
    }
  }

  // ----- joining ------------------------------------------------------------

  /** The business of an open queue takes turns now. */
  predicate TakesTurns(db: Db, join: Join) {
    && OpenQueue(db, join.queue) && db.cfg.queues[join.queue].business in db.cfg.businesses
    && var business := db.cfg.businesses[db.cfg.queues[join.queue].business];
       business.approved && (business.operational.Normal? || business.operational.Delayed?)
  }

  predicate MayJoin(db: Db, join: Join) {
    TakesTurns(db, join) &&
    match join
    case TakeTurn(_, holder, withinHours) =>
      withinHours && (holder.Some? ==> forall t :: t in db.rows && t.customer == holder ==> Terminal(t.status))
    case TakeManualTurn(_, _, _) => true
  }

  /** The first thing in the way, in the order in which they are looked at. */
  function WhyNotJoin(db: Db, join: Join): Code {
    if join.queue !in db.cfg.queues then QueueNotFound
    else if !db.cfg.queues[join.queue].isActive then QueueNotAcceptingTurns
    else if db.cfg.queues[join.queue].business !in db.cfg.businesses then BusinessNotFound
    else
      var business := db.cfg.businesses[db.cfg.queues[join.queue].business];
      if !business.approved then BusinessNotAcceptingCustomers
      else if business.operational.Paused? || business.operational.Closed? then BusinessOperationalStatusBlocked
      else if join.TakeTurn? && !join.withinHours then BusinessOutsideOperatingHours
      else CustomerHasActiveTurn
  }

  /** The day begins three hours after midnight UTC. */
  predicate IsOnDay(clock: int, day: int) {
    day * 86_400_000 <= clock - 10_800_000 < (day + 1) * 86_400_000
  }

  /** Whoever may join is appended as one waiting turn, with the next number of
      the queue's day; only a walk-in is ranked above remote turns, and only a
      phone reservation joins later than now. */
  lemma JoinAnswers(db: Db, join: Join)
    requires SerialInv(db)
    ensures var (after, out) := Alone(db, JoinQueue(join));
      && (out.Saved? <==> MayJoin(db, join))
      && (out.Failed? ==> after == db)
      && (out.Saved? ==>
            var row := out.turn;
            && after == db.(rows := db.rows + [row], nextVersion := db.nextVersion + 1)
            && IsOnDay(db.clock, row.date) && row.number == CountDay(db.rows, join.queue, row.date) + 1
            && row.customer == (if join.TakeTurn? then join.holder else None)
            && row.priority == (if join.TakeManualTurn? && !join.byPhone then Physical else Registered)
            && row.source == (if join.TakeTurn? then if join.holder.Some? then App else Web
                              else if join.byPhone then Phone else Manual)
            && row.joinedAt == db.clock + (if join.TakeManualTurn? && join.byPhone then join.etaMinutes * 60_000 else 0)
            && row.queue == join.queue && row.business == db.cfg.queues[join.queue].business
            && row.display == Display(db.cfg.queues[join.queue].prefix, row.number)
            && row == Turn(|db.rows|, row.queue, row.business, row.customer, None, row.number, row.display, Waiting,
                           row.priority, row.source, row.date, row.joinedAt, None, None, None, None, None,
                           db.nextVersion))
      && (out.Failed? ==> out.code == WhyNotJoin(db, join))
  {
    JoinEnds(db, join);
    if MayJoin(db, join) { CreatedRow(db, join); }
  }

  /** The draft is inserted, or the first obstacle is reported. */
  lemma JoinEnds(db: Db, join: Join)
    requires SerialInv(db)
    ensures Alone(db, JoinQueue(join)) ==
      if MayJoin(db, join) then CreateWithNextNumber(db, DraftFor(join, db.cfg.queues[join.queue], db.clock))
      else (db, Failed(WhyNotJoin(db, join)))
    ensures MayJoin(db, join) ==> Alone(db, JoinQueue(join)).1.Saved?
  {
    Unroll(db, Begin(JoinQueue(join)));
    if OpenQueue(db, join.queue) {
      var row := db.cfg.queues[join.queue];
      Unroll(db, JoinQueueSeen(join, row));
      if TakesTurns(db, join) && (join.TakeTurn? ==> join.withinHours) {
        if join.TakeTurn? && join.holder.Some? {
          Unroll(db, JoinOpen(join.queue, join.holder.value, row));
          assert FindActiveOfCustomer(db.rows, join.holder.value).None? <==> MayJoin(db, join);
        }
        if MayJoin(db, join) { FinishInserting(db, DraftFor(join, row, db.clock)); }
      }
    }
  }

  lemma CreatedRow(db: Db, join: Join)
    requires join.queue in db.cfg.queues
    ensures var row := NewRow(db, DraftFor(join, db.cfg.queues[join.queue], db.clock));
      IsOnDay(db.clock, row.date) && row.number == CountDay(db.rows, join.queue, row.date) + 1
  {
  }

  /** Whoever got a turn got it from an open queue of a business that takes
      turns, whatever else was going on. */
  lemma JoinedWhereOpen(db: Db, join: Join)
    requires Alone(db, JoinQueue(join)).1.Saved?
    ensures TakesTurns(db, join)
  {
    Unroll(db, Begin(JoinQueue(join)));
    if OpenQueue(db, join.queue) { Unroll(db, JoinQueueSeen(join, db.cfg.queues[join.queue])); }
  }

  lemma FinishInserting(db: Db, d: Draft)
    requires SerialInv(db) && GuardOk(db, Inserting(d))
    ensures CreateWithNextNumber(db, d).1.Saved?
    ensures Finish(db, Inserting(d)) == CreateWithNextNumber(db, d)
  {
    InsertKeepsExclusive(db, d);
    Unroll(db, Inserting(d));
  }
}
