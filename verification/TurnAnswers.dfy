/** Each request on its own, column by column: when it succeeds, what the row
    then holds, and the error otherwise. */
module TurnAnswers {
  import opened Options
  import opened Sorting
  import opened Turns
  import opened TurnProtocol
  import opened TurnSafety
  import opened TurnSerial
  import opened ServiceOrder
  import opened TurnDiagram

  /** Nobody but turn `id` is attended at, or on the way to, the window. */
  ghost predicate NobodyElseAt(rows: seq<Turn>, window: nat, id: nat) {
    forall i :: 0 <= i < |rows| && i != id && rows[i].window == Some(window) ==>
      !rows[i].status.Attending? && !rows[i].status.Redirected?
  }

  lemma FreeIffNobodyElse(rows: seq<Turn>, window: nat, t: Turn)
    ensures FreeFor(rows, window, t) <==> NobodyElseAt(rows, window, t.id)
  {
  }

  predicate Ended(s: Status) { s.Completed? || s.Cancelled? || s.NoShow? }

  /** The only change to the tables is row `id`, under a fresh version. */
  predicate OnlyRow(db: Db, after: Db, id: nat, row: Turn)
    requires id < |db.rows|
  {
    after == db.(rows := db.rows[id := row.(version := db.nextVersion)], nextVersion := db.nextVersion + 1)
  }

  lemma UnknownTurn(db: Db, change: Change)
    requires !change.Confirm? && change.turn >= |db.rows|
    ensures Alone(db, ChangeTurn(change)) == (db, Failed(TurnNotFound))
  {
    Unroll(db, Begin(ChangeTurn(change)));
  }

  lemma DecidedAtOnce(db: Db, change: Change, t: Turn)
    requires FindTurnFor(db, change) == Some(t) && Decide(db.clock, change, t).Done?
    ensures Alone(db, ChangeTurn(change)) == (db, Decide(db.clock, change, t).outcome)
  {
    Unroll(db, Begin(ChangeTurn(change)));
  }

  // ----- attending ----------------------------------------------------------

  /** A called or redirected turn goes to the window that was asked for, or
      else to its own, if nobody else is served there; without either it is
      attended only in a queue that has no active window. Attention begins
      now unless it began before. */
  lemma AttendStarts(db: Db, id: nat, asked: Option<nat>)
    requires SerialInv(db) && id < |db.rows| && (db.rows[id].status.Called? || db.rows[id].status.Redirected?)
    ensures var t := db.rows[id]; var window := if asked.Some? then asked else t.window;
            var (after, out) := Alone(db, ChangeTurn(Attend(id, asked)));
      && (out.Saved? <==>
            if window.Some? then NobodyElseAt(db.rows, window.value, id) else NoWindowToChoose(db.cfg, t.queue))
      && (out.Saved? ==> OnlyRow(db, after, id, t.(status := Attending, window := window,
                                                   startedAt := if t.startedAt.Some? then t.startedAt
                                                                else Some(db.clock))))
      && (out.Failed? ==> after == db && out.code == if window.Some? then ServiceWindowOccupied
                                                      else ServiceWindowRequired)
  {
    var t := db.rows[id];
    var window := if asked.Some? then asked else t.window;
    ChangeFollowsTheDiagram(db, Attend(id, asked), t);
    if window.Some? { FreeIffNobodyElse(db.rows, window.value, t); }
    WhyNotAttended(db, id, asked);
  }

  lemma WhyNotAttended(db: Db, id: nat, asked: Option<nat>)
    requires SerialInv(db) && id < |db.rows| && (db.rows[id].status.Called? || db.rows[id].status.Redirected?)
    ensures var out := Alone(db, ChangeTurn(Attend(id, asked))).1;
            var chosen := asked.Some? || db.rows[id].window.Some?;
            out.Failed? ==> out.code == (if chosen then ServiceWindowOccupied else ServiceWindowRequired)
  {
    var t, change := db.rows[id], Attend(id, asked);
    var window := if asked.Some? then asked else t.window;
    ChangeFollowsTheDiagram(db, change, t);
    Unroll(db, Begin(ChangeTurn(change)));
    if window.Some? {
      Unroll(db, TargetKnown(t, window.value));
      OccupantIffNotFree(db, window.value, t);
    } else {
      Unroll(db, NoTarget(t));
    }
  }

  /** Attending a turn that is being attended finishes it; a turn that waits or
      has ended is not attended. */
  lemma AttendFinishes(db: Db, id: nat, asked: Option<nat>)
    requires SerialInv(db) && id < |db.rows| && !db.rows[id].status.Called? && !db.rows[id].status.Redirected?
    ensures var t := db.rows[id]; var (after, out) := Alone(db, ChangeTurn(Attend(id, asked)));
      && (out.Saved? <==> t.status.Attending?)
      && (out.Saved? ==> OnlyRow(db, after, id, t.(status := Completed, attendedAt := Some(db.clock))))
      && (out.Failed? ==> after == db && out.code == InvalidStatusForAttend)
  {
    var t, change := db.rows[id], Attend(id, asked);
    ChangeFollowsTheDiagram(db, change, t);
    if !t.status.Attending? { DecidedAtOnce(db, change, t); }
  }

  function WhyNotRedirect(db: Db, t: Turn, target: nat): Code {
    if !t.status.Attending? then InvalidStatusForAttend
    else if t.window == Some(target) then RedirectSameWindow
    else if target !in db.cfg.windows || db.cfg.windows[target].queue != t.queue then ServiceWindowNotFound
    else ServiceWindowOccupied
  }

  /** A turn that is being attended is sent to another free window of its
      queue, and remembers when its attention began. */
  lemma RedirectAnswers(db: Db, id: nat, target: nat)
    requires SerialInv(db) && id < |db.rows|
    ensures var t := db.rows[id]; var (after, out) := Alone(db, ChangeTurn(Redirect(id, target)));
      && (out.Saved? <==>
            && t.status.Attending? && t.window != Some(target)
            && target in db.cfg.windows && db.cfg.windows[target].queue == t.queue && NobodyElseAt(db.rows, target, id))
      && (out.Saved? ==> OnlyRow(db, after, id, t.(status := Redirected, window := Some(target))))
      && (out.Failed? ==> after == db && out.code == WhyNotRedirect(db, t, target))
  {
    ChangeFollowsTheDiagram(db, Redirect(id, target), db.rows[id]);
    FreeIffNobodyElse(db.rows, target, db.rows[id]);
    RedirectRefused(db, id, target);
  }

  lemma RedirectRefused(db: Db, id: nat, target: nat)
    requires SerialInv(db) && id < |db.rows|
    ensures var out := Alone(db, ChangeTurn(Redirect(id, target))).1;
      out.Failed? ==> out.code == WhyNotRedirect(db, db.rows[id], target)
  {
    var t, change := db.rows[id], Redirect(id, target);
    ChangeFollowsTheDiagram(db, change, t);
    if !t.status.Attending? || t.window == Some(target) {
      DecidedAtOnce(db, change, t);
    } else {
      Unroll(db, Begin(ChangeTurn(change)));
      Unroll(db, RedirectAsked(t, target));
      if target in db.cfg.windows && db.cfg.windows[target].queue == t.queue {
        Unroll(db, TargetKnown(t, target));
        OccupantIffNotFree(db, target, t);
      }
    }
  }

  // ----- ending a turn ------------------------------------------------------

  lemma NoShowAnswers(db: Db, id: nat)
    requires SerialInv(db) && id < |db.rows|
    ensures var t := db.rows[id]; var (after, out) := Alone(db, ChangeTurn(MarkNoShow(id)));
      && (out.Saved? <==> t.status.Called?)
      && (out.Saved? ==> OnlyRow(db, after, id, t.(status := NoShow, noShowAt := Some(db.clock))))
      && (out.Failed? ==> after == db && out.code == TurnNotCalled)
  {
    var t, change := db.rows[id], MarkNoShow(id);
    ChangeFollowsTheDiagram(db, change, t);
    if !t.status.Called? { DecidedAtOnce(db, change, t); }
  }

  function WhyNotCancel(change: Change, t: Turn): Code {
    if change.CancelOwn? && t.customer != Some(change.customer) then TurnNotOwned
    else if change.CancelGuest? && t.customer.Some? then TurnNotGuest
    else TurnNotCancellable
  }

  /** Customers cancel their own turn until it is attended, staff also while it
      is attended, guests only while they wait. */
  lemma CancelAnswers(db: Db, change: Change, id: nat)
    requires SerialInv(db) && id < |db.rows|
    requires change == CancelByEmployee(id) || change == CancelGuest(id) || (change.CancelOwn? && change.turn == id)
    ensures var t := db.rows[id]; var (after, out) := Alone(db, ChangeTurn(change));
      && (out.Saved? <==>
            || (t.status.Waiting? && (change.CancelOwn? ==> t.customer == Some(change.customer))
                && (change.CancelGuest? ==> t.customer.None?))
            || (t.status.Called? && (change.CancelByEmployee? ||
                  (change.CancelOwn? && t.customer == Some(change.customer))))
            || (t.status.Attending? && change.CancelByEmployee?))
      && (out.Saved? ==> OnlyRow(db, after, id, t.(status := Cancelled, cancelledAt := Some(db.clock))))
      && (out.Failed? ==> after == db && out.code == WhyNotCancel(change, t))
  {
    var t := db.rows[id];
    ChangeFollowsTheDiagram(db, change, t);
    if Decide(db.clock, change, t).Done? { DecidedAtOnce(db, change, t); }
  }

  /** A suspension cancels whatever has not ended, at the suspension's time. */
  lemma SuspensionCancels(db: Db, id: nat, at: int)
    requires SerialInv(db) && id < |db.rows|
    ensures var t := db.rows[id]; var (after, out) := Alone(db, ChangeTurn(CancelOnSuspension(id, at)));
      && (out.Saved? <==> !Ended(t.status))
      && (out.Saved? ==> OnlyRow(db, after, id, t.(status := Cancelled, cancelledAt := Some(at))))
      && (out.Failed? ==> after == db)
  {
    ChangeFollowsTheDiagram(db, CancelOnSuspension(id, at), db.rows[id]);
  }

  // ----- priority -----------------------------------------------------------

  /** The row the customer's confirmation is about. */
  predicate IsTurnOf(t: Turn, customer: nat, queue: nat) {
    t.customer == Some(customer) && t.queue == queue && !Ended(t.status)
  }

  /** A customer on the way goes from registered to in transit, and on arrival
      from in transit to arrived; whatever the status, nothing else moves. */
  lemma ConfirmAnswers(db: Db, customer: nat, queue: nat, id: nat, arrival: bool)
    requires SerialInv(db) && id < |db.rows| && IsTurnOf(db.rows[id], customer, queue)
    ensures var t := db.rows[id];
            var (after, out) := Alone(db, ChangeTurn(Confirm(customer, queue, if arrival then ToArrived
                                                                              else ToInTransit)));
      && (out.Saved? <==> if arrival then t.priority.InTransit? else t.priority.Registered?)
      && (out.Saved? ==> OnlyRow(db, after, id, t.(priority := if arrival then Arrived else InTransit)))
      && (out.Failed? ==> after == db && out.code == InvalidStatusForAttend)
  {
    var t, change := db.rows[id], Confirm(customer, queue, if arrival then ToArrived else ToInTransit);
    OneTurnPerCustomer(db, customer, queue, id);
    ChangeFollowsTheDiagram(db, change, t);
    if Decide(db.clock, change, t).Done? { DecidedAtOnce(db, change, t); }
  }

  lemma OneTurnPerCustomer(db: Db, customer: nat, queue: nat, id: nat)
    requires SerialInv(db) && id < |db.rows| && IsTurnOf(db.rows[id], customer, queue)
    ensures FindActiveInQueue(db.rows, customer, queue) == Some(db.rows[id])
  {
    assert db.rows[id] in db.rows;
    var found := FindActiveInQueue(db.rows, customer, queue);
    StoredTurn(db, found.value);
    assert SameCustomerActive(found.value, db.rows[id]);
  }

  lemma ConfirmWithoutTurn(db: Db, customer: nat, queue: nat, action: ConfirmAction)
    requires forall t :: t in db.rows ==> !IsTurnOf(t, customer, queue)
    ensures Alone(db, ChangeTurn(Confirm(customer, queue, action))) == (db, Failed(TurnNotFound))
  {
    var found := FindActiveInQueue(db.rows, customer, queue);
    assert found.Some? ==> IsTurnOf(found.value, customer, queue);
    Unroll(db, Begin(ChangeTurn(Confirm(customer, queue, action))));
  }

  // ----- calling ------------------------------------------------------------

  /** Arrived before physical before in transit before registered. */
  predicate Sooner(a: Priority, b: Priority) {
    match a
    case Arrived => !b.Arrived?
    case Physical => b.InTransit? || b.Registered?
    case InTransit => b.Registered?
    case Registered => false
  }

  /** By priority, then by time of joining, then by number. */
  predicate ServedBefore(a: Turn, b: Turn) {
    || Sooner(a.priority, b.priority)
    || (a.priority == b.priority && a.joinedAt < b.joinedAt)
    || (a.priority == b.priority && a.joinedAt == b.joinedAt && a.number < b.number)
  }

  predicate IsDue(t: Turn, queue: nat, now: int) { t.queue == queue && t.status.Waiting? && t.joinedAt <= now }

  lemma ComparatorServes(a: Turn, b: Turn)
    ensures !NotAfter(b, a) <==> ServedBefore(a, b)
  {
  }

  /** Turn `id` is due and no due turn of the queue is served before it. */
  ghost predicate IsFirst(rows: seq<Turn>, id: nat, queue: nat, now: int)
    requires id < |rows|
  {
    IsDue(rows[id], queue, now) &&
    forall i :: 0 <= i < |rows| && IsDue(rows[i], queue, now) ==> !ServedBefore(rows[i], rows[id])
  }

  /** A call stamps the first of the due turns, and touches no other. */
  lemma CallTakesFirst(db: Db, queue: nat)
    requires SerialInv(db) && Alone(db, CallNext(queue)).1.Saved?
    ensures var (after, out) := Alone(db, CallNext(queue));
      && out.turn.id < |db.rows| && IsFirst(db.rows, out.turn.id, queue, db.clock)
      && OnlyRow(db, after, out.turn.id,
                 db.rows[out.turn.id].(status := Called, calledAt := Some(db.clock)))
  {
    CallNextAlone(db, queue);
    var u := FindNextWaiting(db.rows, queue, db.clock).value;
    HeadIsDue(db.rows, queue, db.clock);
    forall i | 0 <= i < |db.rows| && IsDue(db.rows[i], queue, db.clock) ensures !ServedBefore(db.rows[i], u) {
      assert db.rows[i] in db.rows;
      HeadIsLeast(db.rows, queue, db.clock, db.rows[i]);
      ComparatorServes(db.rows[i], u);
    }
  }

  lemma HeadIsDue(rows: seq<Turn>, queue: nat, now: int)
    requires FindNextWaiting(rows, queue, now).Some?
    ensures IsDue(FindNextWaiting(rows, queue, now).value, queue, now)
  {
    NextWaitingIsStored(rows, queue, now);
  }

  // ----- the staff list -----------------------------------------------------

  /** The staff list holds the queue's turns that have not ended, each once, and
      nobody stands behind a turn that is served later. */
  lemma StaffListAnswers(rows: seq<Turn>, queue: nat)
    ensures var list := FindActiveByQueue(rows, queue);
      && (forall t: Turn :: multiset(list)[t] == if t.queue == queue && !Ended(t.status) then multiset(rows)[t] else 0)
      && (forall k, l :: 0 <= k < l < |list| ==> !ServedBefore(list[l], list[k]))
  {
    var list := FindActiveByQueue(rows, queue);
    NotAfterIsTotal();
    SortIsSortedPermutation(Filter(rows, IsActiveIn(queue)), NotAfter);
    forall t: Turn ensures multiset(list)[t] == if t.queue == queue && !Ended(t.status) then multiset(rows)[t] else 0 {
      FilteredCount(rows, IsActiveIn(queue), t);
    }
    forall k, l | 0 <= k < l < |list| ensures !ServedBefore(list[l], list[k]) { ComparatorServes(list[l], list[k]); }
  }

  lemma {:induction false} FilteredCount(rows: seq<Turn>, p: Turn -> bool, t: Turn)
    ensures multiset(Filter(rows, p))[t] == if p(t) then multiset(rows)[t] else 0
  {
    if rows != [] {
      FilteredCount(rows[1..], p, t);
      assert rows == [rows[0]] + rows[1..];
    }
  }

  // ----- the position -------------------------------------------------------

  /** The waiting turns of the queue that are served before `t`. */
  function ServedFirst(rows: seq<Turn>, t: Turn): set<nat> {
    set i: nat | i < |rows| && rows[i].queue == t.queue && rows[i].status.Waiting? && ServedBefore(rows[i], t)
  }

  function Precedes(t: Turn): Turn -> bool {
    (u: Turn) => u.queue == t.queue && u.status.Waiting? && ServedBefore(u, t)
  }

  lemma {:induction false} CountSnoc(rows: seq<Turn>, p: Turn -> bool)
    requires rows != []
    ensures Count(rows, p) == Count(rows[..|rows| - 1], p) + (if p(rows[|rows| - 1]) then 1 else 0)
  {
    if |rows| > 1 {
      CountSnoc(rows[1..], p);
      assert rows[1..][..|rows| - 2] == rows[..|rows| - 1][1..];
    }
  }

  lemma {:induction false} CountIsSize(rows: seq<Turn>, t: Turn)
    ensures Count(rows, Precedes(t)) == |ServedFirst(rows, t)|
  {
    if rows != [] {
      CountSnoc(rows, Precedes(t));
      CountIsSize(rows[..|rows| - 1], t);
      assert rows == rows[..|rows| - 1] + [rows[|rows| - 1]];
      ServedFirstSnoc(rows[..|rows| - 1], rows[|rows| - 1], t);
    }
  }

  lemma ServedFirstSnoc(before: seq<Turn>, u: Turn, t: Turn)
    ensures |ServedFirst(before + [u], t)| == |ServedFirst(before, t)| + (if Precedes(t)(u) then 1 else 0)
  {
    var rows, last, fits := before + [u], |before|, Precedes(t)(u);
    assert ServedFirst(rows, t) == ServedFirst(before, t) + (if fits then {last} else {});
  }

  lemma {:induction false} CountBeforeIsCount(rows: seq<Turn>, t: Turn)
    ensures CountBefore(WaitingOf(rows, t.queue), t, NotAfter) == Count(rows, Precedes(t))
  {
    if rows != [] {
      CountBeforeIsCount(rows[1..], t);
      var rest := WaitingOf(rows[1..], t.queue);
      assert ([rows[0]] + rest)[1..] == rest;
      ComparatorServes(rows[0], t);
    }
  }

  /** The number a customer is told is the number of waiting turns that are
      served before theirs. */
  lemma AheadIsNumberServedFirst(rows: seq<Turn>, t: Turn)
    ensures Ahead(rows, t) == |ServedFirst(rows, t)|
  {
    AheadIsCountBefore(rows, t);
    CountBeforeIsCount(rows, t);
    CountIsSize(rows, t);
  }
}
