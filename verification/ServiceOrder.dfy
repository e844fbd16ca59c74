/** Who is served next: the position a customer is told, the order of the
    staff list and the turns `call-next` takes all agree. */
module ServiceOrder {
  import opened Options
  import opened Sorting
  import opened Turns
  import opened TurnProtocol
  import opened TurnSafety
  import opened TurnSerial

  const PRIORITY_ORDER: seq<Priority> := [Arrived, Physical, InTransit, Registered]

  function IsWaitingIn(queue: nat): Turn -> bool {
    (t: Turn) => t.queue == queue && t.status.Waiting?
  }

  function IsActiveIn(queue: nat): Turn -> bool {
    (t: Turn) => t.queue == queue && Active(t.status)
  }

  function IsWaiting(): Turn -> bool { (t: Turn) => t.status.Waiting? }

  function WaitingOf(rows: seq<Turn>, queue: nat): seq<Turn> { Filter(rows, IsWaitingIn(queue)) }

  /** The rows of the staff panel, in service order. */
  function FindActiveByQueue(rows: seq<Turn>, queue: nat): seq<Turn> {
    Sort(Filter(rows, IsActiveIn(queue)), NotAfter)
  }

  function Count(rows: seq<Turn>, p: Turn -> bool): nat {
    if rows == [] then 0 else (if p(rows[0]) then 1 else 0) + Count(rows[1..], p)
  }

  function HigherPriority(queue: nat, priority: Priority): Turn -> bool {
    (t: Turn) => t.queue == queue && t.status.Waiting? && t.priority in PRIORITY_ORDER[..Rank(priority) - 1]
  }

  function SamePriorityEarlier(queue: nat, joinedAt: int, number: nat, priority: Priority): Turn -> bool {
    (t: Turn) => t.queue == queue && t.status.Waiting? && t.priority == priority &&
                 (t.joinedAt < joinedAt || (t.joinedAt == joinedAt && t.number < number))
  }

  /** The two counting queries behind a customer's position. */
  function CountWaitingAhead(rows: seq<Turn>, queue: nat, joinedAt: int, number: nat, priority: Priority): nat {
    var higher := if Rank(priority) > 1 then Count(rows, HigherPriority(queue, priority)) else 0;
    higher + Count(rows, SamePriorityEarlier(queue, joinedAt, number, priority))
  }

  function Ahead(rows: seq<Turn>, t: Turn): nat {
    CountWaitingAhead(rows, t.queue, t.joinedAt, t.number, t.priority)
  }

  /** No two waiting turns of the queue tie on all three keys. */
  ghost predicate KeysDiffer(rows: seq<Turn>, queue: nat) {
    forall i, j :: 0 <= i < j < |rows| && IsWaitingIn(queue)(rows[i]) && IsWaitingIn(queue)(rows[j]) ==>
      Compare(rows[i], rows[j]) != 0
  }

  // ----- the counting queries agree with the comparator ----------------------

  lemma HigherMeansSmallerRank(t: Turn, priority: Priority)
    ensures t.priority in PRIORITY_ORDER[..Rank(priority) - 1] <==> Rank(t.priority) < Rank(priority)
  {
    assert PRIORITY_ORDER[..Rank(priority) - 1] ==
      match priority
      case Arrived => []
      case Physical => [Arrived]
      case InTransit => [Arrived, Physical]
      case Registered => [Arrived, Physical, InTransit];
  }

  lemma {:induction false} NobodyOutranksArrived(rows: seq<Turn>, queue: nat)
    ensures Count(rows, HigherPriority(queue, Arrived)) == 0
  {
    if rows != [] {
      HigherMeansSmallerRank(rows[0], Arrived);
      NobodyOutranksArrived(rows[1..], queue);
    }
  }

  lemma {:induction false} CountsAgree(rows: seq<Turn>, t: Turn)
    ensures Count(rows, HigherPriority(t.queue, t.priority)) +
            Count(rows, SamePriorityEarlier(t.queue, t.joinedAt, t.number, t.priority))
         == CountBefore(WaitingOf(rows, t.queue), t, NotAfter)
  {
    if rows != [] {
      var ws := WaitingOf(rows[1..], t.queue);
      HigherMeansSmallerRank(rows[0], t.priority);
      CountsAgree(rows[1..], t);
      assert ([rows[0]] + ws)[1..] == ws;
    }
  }

  lemma AheadIsCountBefore(rows: seq<Turn>, t: Turn)
    ensures Ahead(rows, t) == CountBefore(WaitingOf(rows, t.queue), t, NotAfter)
  {
    CountsAgree(rows, t);
    if Rank(t.priority) == 1 { NobodyOutranksArrived(rows, t.queue); }
  }

  lemma {:induction false} WaitingKeysDiffer(rows: seq<Turn>, queue: nat)
    requires KeysDiffer(rows, queue)
    ensures DistinctKeys(WaitingOf(rows, queue), NotAfter)
  {
    if rows != [] {
      assert KeysDiffer(rows[1..], queue);
      WaitingKeysDiffer(rows[1..], queue);
      var rest := WaitingOf(rows[1..], queue);
      FilterMembers(rows[1..], IsWaitingIn(queue));
      if IsWaitingIn(queue)(rows[0]) {
        forall j | 0 <= j < |rest| ensures Compare(rows[0], rest[j]) != 0 {
          assert rest[j] in rows[1..];
          var k :| 0 <= k < |rows[1..]| && rows[1..][k] == rest[j];
          assert rows[k + 1] == rest[j];
        }
      }
    }
  }

  /** The position a customer is told is the turn's place in line: the query
      result is the index of the turn among all waiting turns in order. */
  lemma AheadIsIndexInLine(rows: seq<Turn>, t: Turn)
    requires t in rows && t.status.Waiting? && KeysDiffer(rows, t.queue)
    ensures Ahead(rows, t) < |WaitingOf(rows, t.queue)|
    ensures Sort(WaitingOf(rows, t.queue), NotAfter)[Ahead(rows, t)] == t
  {
    var ws := WaitingOf(rows, t.queue);
    FilterMembers(rows, IsWaitingIn(t.queue));
    var i :| 0 <= i < |ws| && ws[i] == t;
    WaitingKeysDiffer(rows, t.queue);
    NotAfterIsTotal();
    SortedIndexOf(ws, i, NotAfter);
    AheadIsCountBefore(rows, t);
  }

  // ----- the staff list -----------------------------------------------------

  lemma {:induction false} WaitingOfActive(rows: seq<Turn>, queue: nat)
    ensures Filter(Filter(rows, IsActiveIn(queue)), IsWaiting()) == WaitingOf(rows, queue)
  {
    if rows != [] {
      WaitingOfActive(rows[1..], queue);
      var rest := Filter(rows[1..], IsActiveIn(queue));
      assert ([rows[0]] + rest)[1..] == rest;
    }
  }

  lemma {:induction false} FilterAt(xs: seq<Turn>, k: nat, p: Turn -> bool)
    requires k < |xs| && p(xs[k])
    ensures |Filter(xs[..k], p)| < |Filter(xs, p)| && Filter(xs, p)[|Filter(xs[..k], p)|] == xs[k]
  {
    if k == 0 {
      assert xs[..0] == [];
    } else {
      FilterAt(xs[1..], k - 1, p);
      assert xs[..k][1..] == xs[1..][..k - 1];
    }
  }

  /** In line order, the index of a waiting turn is its count. */
  lemma LineIndexIsCount(rows: seq<Turn>, queue: nat, m: nat)
    requires KeysDiffer(rows, queue) && m < |WaitingOf(rows, queue)|
    ensures CountBefore(WaitingOf(rows, queue), Sort(WaitingOf(rows, queue), NotAfter)[m], NotAfter) == m
  {
    var ws := WaitingOf(rows, queue);
    var sorted := Sort(ws, NotAfter);
    NotAfterIsTotal();
    WaitingKeysDiffer(rows, queue);
    SortKeepsDistinct(ws, NotAfter);
    SortIsSortedPermutation(ws, NotAfter);
    forall j | 0 <= j < |sorted| && j != m ensures !(NotAfter(sorted[j], sorted[m]) && NotAfter(sorted[m], sorted[j])) {
      var (lo, hi) := if j < m then (j, m) else (m, j);
      assert !(NotAfter(sorted[lo], sorted[hi]) && NotAfter(sorted[hi], sorted[lo]));
    }
    IndexIsCountBefore(sorted, m, NotAfter);
    CountBeforeSort(ws, sorted[m], NotAfter);
  }

  lemma ListWaitingIsLine(rows: seq<Turn>, queue: nat)
    ensures Filter(FindActiveByQueue(rows, queue), IsWaiting()) == Sort(WaitingOf(rows, queue), NotAfter)
  {
    NotAfterIsTotal();
    FilterSort(Filter(rows, IsActiveIn(queue)), NotAfter, IsWaiting());
    WaitingOfActive(rows, queue);
  }

  lemma ListHoldsActive(rows: seq<Turn>, queue: nat, k: nat)
    requires k < |FindActiveByQueue(rows, queue)|
    ensures var t := FindActiveByQueue(rows, queue)[k]; t in rows && t.queue == queue && Active(t.status)
  {
    NotAfterIsTotal();
    SortIsSortedPermutation(Filter(rows, IsActiveIn(queue)), NotAfter);
    assert FindActiveByQueue(rows, queue)[k] in multiset(FindActiveByQueue(rows, queue));
    FilterMembers(rows, IsActiveIn(queue));
  }

  /** The staff list's running counter of waiting rows stands, when it reaches
      a turn, at the number of turns ahead of that turn. */
  lemma ListPositionIsAheadPlusOne(rows: seq<Turn>, queue: nat, k: nat)
    requires KeysDiffer(rows, queue) && k < |FindActiveByQueue(rows, queue)|
    requires FindActiveByQueue(rows, queue)[k].status.Waiting?
    ensures var list := FindActiveByQueue(rows, queue); |Filter(list[..k], IsWaiting())| == Ahead(rows, list[k])
  {
    var list := FindActiveByQueue(rows, queue);
    ListHoldsActive(rows, queue, k);
    ListWaitingIsLine(rows, queue);
    FilterAt(list, k, IsWaiting());
    LineIndexIsCount(rows, queue, |Filter(list[..k], IsWaiting())|);
    AheadIsCountBefore(rows, list[k]);
  }

  // ----- call-next takes exactly the turns ahead -----------------------------

  /** Neither joins, nor cancels, nor confirms. */
  predicate Quiet(e: SerialEvent) {
    match e
    case Do(CallNext(_)) => true
    case Do(ChangeTurn(change)) => change.Attend? || change.Redirect? || change.MarkNoShow?
    case Do(JoinQueue(_)) => false
    case Pass(_) => true
    case Change(_) => true
  }

  predicate TakesFrom(db: Db, e: SerialEvent, queue: nat) {
    e.Do? && e.req == CallNext(queue) && Alone(db, e.req).1.Saved?
  }

  /** Successful calls of the queue during a run. */
  function CallsTaken(db: Db, events: seq<SerialEvent>, queue: nat): nat {
    if events == [] then 0
    else
      var before := events[..|events| - 1];
      CallsTaken(db, before, queue) + (if TakesFrom(SerialRun(db, before), events[|events| - 1], queue) then 1 else 0)
  }

  lemma Unroll(db: Db, f: Flight)
    requires !f.Done?
    ensures Finish(db, f) == Finish(Advance(db, f).0, Advance(db, f).1)
  {
    AdvanceProgresses(db, f);
  }

  /** What a call-next that runs alone does. */
  lemma CallNextAlone(db: Db, q: nat)
    requires SerialInv(db)
    ensures var (after, out) := Alone(db, CallNext(q));
      if out.Saved? then
        var u := FindNextWaiting(db.rows, q, db.clock);
        && u.Some? && u.value.id < |db.rows| && db.rows[u.value.id] == u.value
        && after == db.(rows := db.rows[u.value.id := out.turn], nextVersion := db.nextVersion + 1)
        && out.turn == u.value.(status := Called, calledAt := Some(db.clock), version := db.nextVersion)
      else after == db
  {
    Unroll(db, Begin(CallNext(q)));
    if q in db.cfg.queues && db.cfg.queues[q].isActive {
      Unroll(db, CallQueueSeen(q));
      if FindCalled(db.rows, q).None? {
        Unroll(db, NoneCalled(q));
        var u := FindNextWaiting(db.rows, q, db.clock);
        if u.Some? {
          NextWaitingIsStored(db.rows, q, db.clock);
          StoredTurn(db, u.value);
          Unroll(db, Advance(db, NoneCalled(q)).1);
        } else {
          Unroll(db, NothingDue(q));
        }
      }
    }
  }

  ghost predicate QuietFlight(f: Flight, queue: nat) {
    match f
    case Begin(req) => Quiet(Do(req)) && req != CallNext(queue)
    case CallQueueSeen(q) => q != queue
    case NoneCalled(q) => q != queue
    case Saving(base, _, _) => base.queue != queue || !base.status.Waiting?
    case JoinQueueSeen(_, _) => false
    case JoinOpen(_, _, _) => false
    case Inserting(_) => false
    case _ => true
  }

  lemma {:induction false} FilterIgnores(rows: seq<Turn>, i: nat, row: Turn, p: Turn -> bool)
    requires i < |rows| && !p(rows[i]) && !p(row)
    ensures Filter(rows[i := row], p) == Filter(rows, p)
  {
    if i == 0 {
      assert rows[i := row][1..] == rows[1..];
    } else {
      assert rows[i := row][1..] == rows[1..][i - 1 := row];
      FilterIgnores(rows[1..], i - 1, row, p);
    }
  }

  lemma QuietAdvance(db: Db, f: Flight, queue: nat)
    requires DbInv(db) && FlightOk(db, f) && QuietFlight(f, queue) && !f.Done?
    ensures QuietFlight(Advance(db, f).1, queue)
    ensures WaitingOf(Advance(db, f).0.rows, queue) == WaitingOf(db.rows, queue)
  {
    if f.Saving? {
      var (after, out) := Save(db, f.entity, f.claims);
      SaveSafe(db, f.base, f.entity, f.claims);
      if out.Saved? { FilterIgnores(db.rows, f.base.id, out.turn, IsWaitingIn(queue)); }
    } else {
      ReadPhasesDoNotWrite(db, f);
      QuietRead(db, f, queue);
    }
  }

  lemma QuietRead(db: Db, f: Flight, queue: nat)
    requires FlightOk(db, f) && QuietFlight(f, queue) && !f.Done? && !f.Saving?
    ensures QuietFlight(Advance(db, f).1, queue)
  {
    if f.NoneCalled? { NextWaitingIsStored(db.rows, f.queue, db.clock); }
  }

  lemma {:induction false} QuietFinish(db: Db, f: Flight, queue: nat)
    requires DbInv(db) && FlightOk(db, f) && QuietFlight(f, queue)
    ensures WaitingOf(Finish(db, f).0.rows, queue) == WaitingOf(db.rows, queue)
    decreases Phases(f)
  {
    if !f.Done? {
      Unroll(db, f);
      AdvanceProgresses(db, f);
      AdvanceSafe(db, f);
      QuietAdvance(db, f, queue);
      QuietFinish(Advance(db, f).0, Advance(db, f).1, queue);
    }
  }

  lemma {:induction false} CountBeforeIsZero(xs: seq<Turn>, t: Turn)
    ensures CountBefore(xs, t, NotAfter) == 0 <==> forall x :: x in xs ==> NotAfter(t, x)
  {
    if xs != [] {
      CountBeforeIsZero(xs[1..], t);
      assert xs == [xs[0]] + xs[1..];
    }
  }

  /** Taking one waiting row away lowers the count by one if it was before. */
  lemma {:induction false} CountBeforeAfterRemoval(rows: seq<Turn>, i: nat, row: Turn, queue: nat, t: Turn)
    requires i < |rows| && IsWaitingIn(queue)(rows[i]) && !IsWaitingIn(queue)(row)
    ensures CountBefore(WaitingOf(rows, queue), t, NotAfter)
         == CountBefore(WaitingOf(rows[i := row], queue), t, NotAfter) + (if NotAfter(t, rows[i]) then 0 else 1)
  {
    var rest := WaitingOf(rows[1..], queue);
    assert ([rows[0]] + rest)[1..] == rest;
    if i == 0 {
      assert rows[i := row][1..] == rows[1..];
    } else {
      assert rows[i := row][1..] == rows[1..][i - 1 := row];
      CountBeforeAfterRemoval(rows[1..], i - 1, row, queue, t);
      var rest' := WaitingOf(rows[1..][i - 1 := row], queue);
      assert ([rows[0]] + rest')[1..] == rest';
    }
  }

  lemma HeadIsLeast(rows: seq<Turn>, queue: nat, now: int, t: Turn)
    requires t in rows && IsDueIn(queue, now)(t)
    ensures var u := FindNextWaiting(rows, queue, now);
      u.Some? && u.value in rows && IsDueIn(queue, now)(u.value) && NotAfter(u.value, t)
  {
    var due := Filter(rows, IsDueIn(queue, now));
    FilterMembers(rows, IsDueIn(queue, now));
    NotAfterIsTotal();
    SortIsSortedPermutation(due, NotAfter);
    var sorted := Sort(due, NotAfter);
    assert t in multiset(sorted);
    var k :| 0 <= k < |sorted| && sorted[k] == t;
    assert NotAfter(sorted[0], sorted[k]);
    NextWaitingIsStored(rows, queue, now);
  }

  /** With somebody ahead, the head of the due turns is not the turn itself. */
  lemma HeadIsAhead(db: Db, t: Turn)
    requires SerialInv(db) && Stored(db, t) && t.status.Waiting? && t.joinedAt <= db.clock
    requires KeysDiffer(db.rows, t.queue)
    ensures var u := FindNextWaiting(db.rows, t.queue, db.clock);
      && u.Some? && Stored(db, u.value) && IsWaitingIn(t.queue)(u.value)
      && (u.value.id == t.id <==> Ahead(db.rows, t) == 0)
      && (u.value.id != t.id ==> !NotAfter(t, u.value))
  {
    HeadIsLeast(db.rows, t.queue, db.clock, t);
    var u := FindNextWaiting(db.rows, t.queue, db.clock).value;
    StoredTurn(db, u);
    var ws := WaitingOf(db.rows, t.queue);
    AheadIsCountBefore(db.rows, t);
    CountBeforeIsZero(ws, t);
    FilterMembers(db.rows, IsWaitingIn(t.queue));
    if u.id != t.id {
      var (lo, hi) := if u.id < t.id then (u.id, t.id) else (t.id, u.id);
      assert Compare(db.rows[lo], db.rows[hi]) != 0;
      assert u in ws;
    } else if Ahead(db.rows, t) != 0 {
      var x :| x in ws && !NotAfter(t, x);
      AheadTurnIsDue(db, x, t);
      HeadIsLeast(db.rows, t.queue, db.clock, x);
      assert false;
    }
  }

  lemma AheadTurnIsDue(db: Db, x: Turn, t: Turn)
    requires DbInv(db) && x in db.rows && Stored(db, t) && t.joinedAt <= db.clock && !NotAfter(t, x)
    ensures x.joinedAt <= db.clock
  {
    StoredTurn(db, x);
    assert FutureOk(db.rows[x.id], db.clock);
  }

  /** A successful call takes the due turn itself when nobody is ahead, and
      otherwise one of the turns ahead. */
  lemma CallTakesHead(db: Db, t: Turn)
    requires SerialInv(db) && Stored(db, t) && t.status.Waiting? && t.joinedAt <= db.clock
    requires KeysDiffer(db.rows, t.queue) && Alone(db, CallNext(t.queue)).1.Saved?
    ensures var (after, out) := Alone(db, CallNext(t.queue));
      if Ahead(db.rows, t) == 0 then out.turn.id == t.id && after.rows == db.rows[t.id := out.turn]
          && out.turn.status.Called?
      else out.turn.id != t.id && Stored(after, t) && Ahead(after.rows, t) == Ahead(db.rows, t) - 1
  {
    var (after, out) := Alone(db, CallNext(t.queue));
    CallNextAlone(db, t.queue);
    HeadIsAhead(db, t);
    var u := FindNextWaiting(db.rows, t.queue, db.clock).value;
    if u.id != t.id {
      AheadIsCountBefore(db.rows, t);
      AheadIsCountBefore(after.rows, t);
      CountBeforeAfterRemoval(db.rows, u.id, out.turn, t.queue, t);
    }
  }

  lemma QuietStep(db: Db, e: SerialEvent, t: Turn)
    requires SerialInv(db) && Stored(db, t) && t.status.Waiting? && KeysDiffer(db.rows, t.queue)
    requires Quiet(e) && !TakesFrom(db, e, t.queue)
    ensures WaitingOf(SerialStep(db, e).rows, t.queue) == WaitingOf(db.rows, t.queue)
  {
    if e.Do? {
      if e.req == CallNext(t.queue) { CallNextAlone(db, t.queue); }
      else { QuietFinish(db, Begin(e.req), t.queue); }
    }
  }

  lemma {:induction false} FinishGrows(db: Db, f: Flight)
    requires DbInv(db) && FlightOk(db, f)
    ensures RowsEvolved(db.rows, Finish(db, f).0.rows) && db.clock <= Finish(db, f).0.clock
    decreases Phases(f)
  {
    if !f.Done? {
      var (mid, g) := Advance(db, f);
      Unroll(db, f);
      AdvanceProgresses(db, f);
      AdvanceSafe(db, f);
      GrownEvolves(db, mid);
      FinishGrows(mid, g);
      RowsEvolvedIsTransitive(db.rows, mid.rows, Finish(mid, g).0.rows);
    }
  }

  lemma StepGrows(db: Db, e: SerialEvent)
    requires SerialInv(db)
    ensures SerialInv(SerialStep(db, e))
    ensures RowsEvolved(db.rows, SerialStep(db, e).rows) && db.clock <= SerialStep(db, e).clock
  {
    match e
    case Do(req) => AloneKeepsExclusive(db, req); FinishGrows(db, Begin(req));
    case Pass(ms) => TickSafe(db, ms);
    case Change(cfg) => if QueuesKept(db.cfg, cfg) { ReconfigureSafe(db, cfg); }
  }

  /** The set of waiting rows only shrinks during a quiet step, and a row that
      is still waiting has not been written. */
  lemma QuietStepKeepsKeys(db: Db, e: SerialEvent, queue: nat)
    requires SerialInv(db) && KeysDiffer(db.rows, queue) && Quiet(e)
    ensures KeysDiffer(SerialStep(db, e).rows, queue)
  {
    var after := SerialStep(db, e);
    StepGrows(db, e);
    QuietAppendsNothing(db, e);
    forall i | 0 <= i < |after.rows| && IsWaitingIn(queue)(after.rows[i])
      ensures IsWaitingIn(queue)(db.rows[i]) && Compare(after.rows[i], db.rows[i]) == 0
    {
      QuietKeepsPriority(db, e, i);
    }
    forall i, j | 0 <= i < j < |after.rows| && IsWaitingIn(queue)(after.rows[i]) && IsWaitingIn(queue)(after.rows[j])
      ensures Compare(after.rows[i], after.rows[j]) != 0
    {
      assert Compare(db.rows[i], db.rows[j]) != 0;
    }
  }

  ghost predicate KeepsPriorities(a: Db, b: Db) {
    |b.rows| == |a.rows| && forall i :: 0 <= i < |a.rows| ==> b.rows[i].priority == a.rows[i].priority
  }

  ghost predicate CalmFlight(f: Flight) {
    match f
    case Begin(req) => Quiet(Do(req))
    case Saving(base, entity, _) => base.priority == entity.priority
    case JoinQueueSeen(_, _) => false
    case JoinOpen(_, _, _) => false
    case Inserting(_) => false
    case _ => true
  }

  lemma CalmAdvance(db: Db, f: Flight)
    requires DbInv(db) && FlightOk(db, f) && CalmFlight(f) && !f.Done?
    ensures CalmFlight(Advance(db, f).1) && KeepsPriorities(db, Advance(db, f).0)
  {
    if f.Saving? {
      SaveSafe(db, f.base, f.entity, f.claims);
    } else {
      ReadPhasesDoNotWrite(db, f);
      CalmRead(db, f);
    }
  }

  lemma CalmRead(db: Db, f: Flight)
    requires CalmFlight(f) && !f.Done? && !f.Saving?
    ensures CalmFlight(Advance(db, f).1)
  {
  }

  lemma {:induction false} CalmFinish(db: Db, f: Flight)
    requires DbInv(db) && FlightOk(db, f) && CalmFlight(f)
    ensures KeepsPriorities(db, Finish(db, f).0)
    decreases Phases(f)
  {
    if !f.Done? {
      Unroll(db, f);
      AdvanceProgresses(db, f);
      AdvanceSafe(db, f);
      CalmAdvance(db, f);
      CalmFinish(Advance(db, f).0, Advance(db, f).1);
    }
  }

  lemma QuietAppendsNothing(db: Db, e: SerialEvent)
    requires SerialInv(db) && Quiet(e)
    ensures KeepsPriorities(db, SerialStep(db, e))
  {
    if e.Do? { CalmFinish(db, Begin(e.req)); }
  }

  lemma WaitingWasWaiting(a: Turn, b: Turn)
    requires Evolved(a, b) && b.status.Waiting? && a.priority == b.priority
    ensures a.status.Waiting? && Compare(b, a) == 0
  {
  }

  lemma QuietKeepsPriority(db: Db, e: SerialEvent, i: nat)
    requires SerialInv(db) && Quiet(e) && i < |db.rows| && i < |SerialStep(db, e).rows|
    requires SerialStep(db, e).rows[i].status.Waiting?
    ensures db.rows[i].status.Waiting? && Compare(SerialStep(db, e).rows[i], db.rows[i]) == 0
    ensures db.rows[i].queue == SerialStep(db, e).rows[i].queue
  {
    StepGrows(db, e);
    QuietAppendsNothing(db, e);
    WaitingWasWaiting(db.rows[i], SerialStep(db, e).rows[i]);
  }

  lemma {:induction false} QuietRun(db: Db, events: seq<SerialEvent>, queue: nat)
    requires SerialInv(db) && KeysDiffer(db.rows, queue) && forall e :: e in events ==> Quiet(e)
    ensures var after := SerialRun(db, events);
      && SerialInv(after) && KeysDiffer(after.rows, queue) && db.clock <= after.clock && |after.rows| == |db.rows|
  {
    if events != [] {
      var (before, e) := (events[..|events| - 1], events[|events| - 1]);
      QuietRun(db, before, queue);
      var mid := SerialRun(db, before);
      StepGrows(mid, e);
      QuietStepKeepsKeys(mid, e, queue);
      QuietAppendsNothing(mid, e);
    }
  }

  /** One quiet event, seen by a due turn that waits. */
  lemma OneEvent(db: Db, e: SerialEvent, t: Turn)
    requires SerialInv(db) && Stored(db, t) && t.status.Waiting? && t.joinedAt <= db.clock
    requires KeysDiffer(db.rows, t.queue) && Quiet(e)
    ensures var after := SerialStep(db, e);
      if !TakesFrom(db, e, t.queue) then Stored(after, t) && Ahead(after.rows, t) == Ahead(db.rows, t)
      else if Ahead(db.rows, t) > 0 then Stored(after, t) && Ahead(after.rows, t) == Ahead(db.rows, t) - 1
      else t.id < |after.rows| && after.rows[t.id].status.Called?
  {
    if TakesFrom(db, e, t.queue) {
      CallTakesHead(db, t);
    } else {
      QuietStep(db, e, t);
      StillWaiting(db, e, t);
      AheadIsCountBefore(db.rows, t);
      AheadIsCountBefore(SerialStep(db, e).rows, t);
    }
  }

  lemma NeverWaitsAgain(db: Db, e: SerialEvent, id: nat)
    requires SerialInv(db) && id < |db.rows| && !db.rows[id].status.Waiting?
    ensures id < |SerialStep(db, e).rows| && !SerialStep(db, e).rows[id].status.Waiting?
  {
    StepGrows(db, e);
    assert Evolved(db.rows[id], SerialStep(db, e).rows[id]);
  }

  /** The number of turns ahead of a due turn is exactly the number of other
      turns call-next takes first: over any run without joins, cancels or
      confirmations the turn is still waiting if and only if no more than that
      many calls succeeded, and until then each call brings it one closer. */
  lemma {:induction false} CalledAfterExactlyAhead(db: Db, events: seq<SerialEvent>, t: Turn)
    requires SerialInv(db) && Stored(db, t) && t.status.Waiting? && t.joinedAt <= db.clock
    requires KeysDiffer(db.rows, t.queue) && forall e :: e in events ==> Quiet(e)
    ensures t.id < |SerialRun(db, events).rows|
    ensures SerialRun(db, events).rows[t.id].status.Waiting? <==> CallsTaken(db, events, t.queue) <= Ahead(db.rows, t)
    ensures SerialRun(db, events).rows[t.id].status.Waiting? ==>
      && Stored(SerialRun(db, events), t)
      && Ahead(SerialRun(db, events).rows, t) == Ahead(db.rows, t) - CallsTaken(db, events, t.queue)
  {
    if events != [] {
      var (before, e) := (events[..|events| - 1], events[|events| - 1]);
      CalledAfterExactlyAhead(db, before, t);
      QuietRun(db, before, t.queue);
      var mid := SerialRun(db, before);
      if mid.rows[t.id].status.Waiting? { OneEvent(mid, e, t); }
      else { NeverWaitsAgain(mid, e, t.id); }
    }
  }

  /** If the waiting rows are the same, a waiting row is untouched. */
  lemma StillWaiting(db: Db, e: SerialEvent, t: Turn)
    requires SerialInv(db) && Stored(db, t) && t.status.Waiting? && Quiet(e)
    requires WaitingOf(SerialStep(db, e).rows, t.queue) == WaitingOf(db.rows, t.queue)
    ensures Stored(SerialStep(db, e), t)
  {
    var after := SerialStep(db, e);
    StepGrows(db, e);
    FilterMembers(db.rows, IsWaitingIn(t.queue));
    FilterMembers(after.rows, IsWaitingIn(t.queue));
    assert t in WaitingOf(db.rows, t.queue);
    assert t in after.rows;
    StoredTurn(after, t);
  }
}
