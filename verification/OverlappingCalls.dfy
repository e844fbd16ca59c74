/** Two call-next requests of one queue that overlap, from an empty table. */
module OverlappingCalls {
  import opened Options
  import opened Sorting
  import opened Turns
  import opened TurnProtocol
  import opened TurnSafety
  import opened TurnSerial
  import opened ServiceOrder
  import opened TurnDiagram

  // ----- runs ---------------------------------------------------------------

  lemma {:induction false} RunConcat(s: Sys, before: seq<Event>, after: seq<Event>)
    ensures Run(s, before + after) == Run(Run(s, before), after)
  {
    if after == [] {
      assert before + after == before;
    } else {
      assert (before + after)[..|before + after| - 1] == before + after[..|after| - 1];
      RunConcat(s, before, after[..|after| - 1]);
    }
  }

  lemma RunOne(s: Sys, e: Event)
    ensures Run(s, [e]) == Step(s, e)
  {
    assert [e][..0] == [];
    assert Run(s, []) == s;
  }

  lemma RunTwo(s: Sys, e: Event, f: Event)
    ensures Run(s, [e, f]) == Step(Step(s, e), f)
  {
    RunOne(s, e);
    RunOne(Step(s, e), f);
    RunConcat(s, [e], [f]);
    assert [e] + [f] == [e, f];
  }

  /** Flight `k` runs to its end while the others stand still. */
  function Drive(k: nat, n: nat): seq<Event> { seq(n, _ => Go(k)) }

  function Driving(s: Sys, k: nat, n: nat): Sys
    decreases n
  {
    if n == 0 then s else Driving(Step(s, Go(k)), k, n - 1)
  }

  lemma {:induction false} DriveIsDriving(s: Sys, k: nat, n: nat)
    ensures Run(s, Drive(k, n)) == Driving(s, k, n)
    decreases n
  {
    if n == 0 {
      assert Drive(k, 0) == [];
    } else {
      assert Drive(k, n) == [Go(k)] + Drive(k, n - 1);
      RunConcat(s, [Go(k)], Drive(k, n - 1));
      RunOne(s, Go(k));
      DriveIsDriving(Step(s, Go(k)), k, n - 1);
    }
  }

  lemma GoAdvances(s: Sys, k: nat)
    requires k < |s.flights|
    ensures Step(s, Go(k)) == Sys(Advance(s.db, s.flights[k]).0, s.flights[k := Advance(s.db, s.flights[k]).1])
  {
  }

  lemma DoneRests(s: Sys, k: nat)
    requires k < |s.flights| && s.flights[k].Done?
    ensures Step(s, Go(k)) == s
  {
    assert s.flights[k := s.flights[k]] == s.flights;
  }

  /** Where flight `k` ends if the others stand still. */
  function Driven(db: Db, flights: seq<Flight>, k: nat): Sys
    requires k < |flights|
  {
    var (after, out) := Finish(db, flights[k]);
    Sys(after, flights[k := Done(out)])
  }

  lemma DrivenOn(db: Db, flights: seq<Flight>, k: nat)
    requires k < |flights| && !flights[k].Done?
    ensures var (mid, g) := Advance(db, flights[k]);
      Driven(db, flights, k) == Driven(mid, flights[k := g], k)
  {
    var (mid, g) := Advance(db, flights[k]);
    Unroll(db, flights[k]);
    assert flights[k := g][k := Done(Finish(mid, g).1)] == flights[k := Done(Finish(mid, g).1)];
  }

  lemma DrivenRests(db: Db, flights: seq<Flight>, k: nat)
    requires k < |flights| && flights[k].Done?
    ensures Driven(db, flights, k) == Sys(db, flights)
  {
    assert flights[k := flights[k]] == flights;
  }

  lemma {:induction false} DriveFinishes(s: Sys, k: nat, n: nat)
    requires k < |s.flights| && Phases(s.flights[k]) <= n
    ensures Driving(s, k, n) == Driven(s.db, s.flights, k)
    decreases n
  {
    if n == 0 {
      DrivenRests(s.db, s.flights, k);
    } else {
      var t := Step(s, Go(k));
      GoComesCloser(s, k);
      DriveFinishes(t, k, n - 1);
    }
  }

  lemma GoComesCloser(s: Sys, k: nat)
    requires k < |s.flights|
    ensures var t := Step(s, Go(k));
      && |t.flights| == |s.flights| && Phases(t.flights[k]) <= Phases(s.flights[k])
      && (Phases(s.flights[k]) > 0 ==> Phases(t.flights[k]) < Phases(s.flights[k]))
      && Driven(t.db, t.flights, k) == Driven(s.db, s.flights, k)
  {
    GoAdvances(s, k);
    if s.flights[k].Done? {
      DoneRests(s, k);
    } else {
      AdvanceProgresses(s.db, s.flights[k]);
      DrivenOn(s.db, s.flights, k);
    }
  }

  /** A request that is launched and meets nobody. */
  function Whole(req: Request, k: nat): seq<Event> { [Launch(req)] + Drive(k, 4) }

  lemma WholeIsAlone(s: Sys, req: Request)
    ensures var (db, out) := Alone(s.db, req);
      Run(s, Whole(req, |s.flights|)) == Sys(db, s.flights + [Done(out)])
  {
    var k, flights := |s.flights|, s.flights + [Begin(req)];
    RunOne(s, Launch(req));
    RunConcat(s, [Launch(req)], Drive(k, 4));
    DriveIsDriving(Sys(s.db, flights), k, 4);
    DriveFinishes(Sys(s.db, flights), k, 4);
    assert flights[k := Done(Alone(s.db, req).1)] == s.flights + [Done(Alone(s.db, req).1)];
  }

  // ----- two walk-ins -------------------------------------------------------

  function WalkIn(q: nat): Request { JoinQueue(TakeManualTurn(q, false, 0)) }

  /** A walk-in's row, waiting since `now`. */
  predicate IsWalkIn(t: Turn, id: nat, q: nat, now: int) {
    && t.id == id && t.queue == q && t.status.Waiting? && t.customer.None? && t.window.None?
    && t.priority.Physical? && t.joinedAt == now
  }

  lemma WalkInJoins(db: Db, q: nat)
    requires SerialInv(db) && TakesTurns(db, TakeManualTurn(q, false, 0))
    ensures var (after, out) := Alone(db, WalkIn(q));
      && out.Saved? && SerialInv(after) && IsWalkIn(out.turn, |db.rows|, q, db.clock)
      && after == db.(rows := db.rows + [out.turn], nextVersion := db.nextVersion + 1)
  {
    JoinAnswers(db, TakeManualTurn(q, false, 0));
    AloneKeepsExclusive(db, WalkIn(q));
    var (after, out) := Alone(db, WalkIn(q));
    assert RowOk(after.rows[|db.rows|], after.clock);
  }

  lemma TwoWalkIns(cfg: Config, clock: int, indexed: bool, q: nat)
    requires TakesTurns(Start(cfg, clock, indexed).db, TakeManualTurn(q, false, 0))
    ensures var s := Run(Start(cfg, clock, indexed), Whole(WalkIn(q), 0) + Whole(WalkIn(q), 1));
      && SerialInv(s.db) && |s.flights| == 2 && s.db.cfg == cfg && s.db.clock == clock && |s.db.rows| == 2
      && IsWalkIn(s.db.rows[0], 0, q, clock) && IsWalkIn(s.db.rows[1], 1, q, clock)
      && NotAfter(s.db.rows[0], s.db.rows[1])
  {
    var s := Start(cfg, clock, indexed);
    Reachable(cfg, clock, indexed, []);
    WholeIsAlone(s, WalkIn(q));
    WalkInJoins(s.db, q);
    var t := Run(s, Whole(WalkIn(q), 0));
    WholeIsAlone(t, WalkIn(q));
    WalkInJoins(t.db, q);
    RunConcat(s, Whole(WalkIn(q), 0), Whole(WalkIn(q), 1));
    FirstComesFirst(Alone(t.db, WalkIn(q)).0, q);
  }

  lemma FirstComesFirst(db: Db, q: nat)
    requires DbInv(db) && |db.rows| == 2
    requires IsWalkIn(db.rows[0], 0, q, db.clock) && IsWalkIn(db.rows[1], 1, q, db.clock)
    ensures NotAfter(db.rows[0], db.rows[1])
  {
    var a, b := db.rows[0], db.rows[1];
    assert NumberOk(db.rows, 0) && NumberOk(db.rows, 1);
    assert db.rows[..0] == [] && CountDay([], a.queue, a.date) == 0;
  }

  // ----- the overlap --------------------------------------------------------

  lemma CallPicks(s: Sys, k: nat, queue: nat, t: Turn)
    requires k < |s.flights| && s.flights[k] == NoneCalled(queue)
    requires FindNextWaiting(s.db.rows, queue, s.db.clock) == Some(t)
    ensures Step(s, Go(k))
         == Sys(s.db, s.flights[k := Saving(t, t.(status := Called, calledAt := Some(s.db.clock)), false)])
  {
  }

  /** Neither index covers a called turn of a guest. */
  lemma GuestCallSaves(s: Sys, k: nat, base: Turn, entity: Turn)
    requires k < |s.flights| && s.flights[k] == Saving(base, entity, false)
    requires Stored(s.db, base) && entity == base.(status := Called, calledAt := entity.calledAt)
    requires entity.customer.None? && entity.window.None?
    ensures Step(s, Go(k)).db == s.db.(rows := s.db.rows[base.id := entity.(version := s.db.nextVersion)],
      nextVersion := s.db.nextVersion + 1)
    ensures Step(s, Go(k)).flights == s.flights[k := Done(Saved(entity.(version := s.db.nextVersion)))]
  {
    var row := Written(base, entity, s.db.nextVersion);
    assert !Collides(s.db.rows, row);
  }

  /** One of the two requests runs from its check to its end. */
  lemma CallsTurn(s: Sys, k: nat, queue: nat, t: Turn)
    requires k < |s.flights| && s.flights[k] == NoneCalled(queue)
    requires FindNextWaiting(s.db.rows, queue, s.db.clock) == Some(t)
    requires Stored(s.db, t) && t.customer.None? && t.window.None?
    ensures var after := Step(Step(s, Go(k)), Go(k));
            var row := t.(status := Called, calledAt := Some(s.db.clock), version := s.db.nextVersion);
      && after.db == s.db.(rows := s.db.rows[t.id := row], nextVersion := s.db.nextVersion + 1)
      && after.flights == s.flights[k := Done(Saved(row))]
  {
    CallPicks(s, k, queue, t);
    var mid := Step(s, Go(k));
    GuestCallSaves(mid, k, t, t.(status := Called, calledAt := Some(s.db.clock)));
  }

  lemma FirstDue(q: nat, a: Turn, b: Turn, now: int)
    requires IsDueIn(q, now)(a) && IsDueIn(q, now)(b) && NotAfter(a, b)
    ensures FindNextWaiting([a, b], q, now) == Some(a)
  {
    assert [a, b][1..] == [b] && [b][1..] == [];
    assert Filter([b], IsDueIn(q, now)) == [b];
    assert Sort([b], NotAfter) == [b];
    assert Sort([a, b], NotAfter) == [a] + [b];
  }

  lemma SecondDue(q: nat, a: Turn, b: Turn, now: int)
    requires !IsDueIn(q, now)(a) && IsDueIn(q, now)(b)
    ensures FindNextWaiting([a, b], q, now) == Some(b)
  {
    assert [a, b][1..] == [b] && [b][1..] == [];
    assert Filter([b], IsDueIn(q, now)) == [b];
    assert Sort([b], NotAfter) == [b];
  }

  lemma BothCall(s: Sys, q: nat, j: nat, k: nat)
    requires j < |s.flights| && k < |s.flights| && j != k
    requires s.flights[j] == NoneCalled(q) && s.flights[k] == NoneCalled(q) && |s.db.rows| == 2
    requires IsWalkIn(s.db.rows[0], 0, q, s.db.clock) && IsWalkIn(s.db.rows[1], 1, q, s.db.clock)
    requires NotAfter(s.db.rows[0], s.db.rows[1])
    ensures !OneCalled(Step(Step(Step(Step(s, Go(j)), Go(j)), Go(k)), Go(k)).db.rows, q)
  {
    var a, b := s.db.rows[0], s.db.rows[1];
    assert s.db.rows == [a, b];
    FirstDue(q, a, b, s.db.clock);
    CallsTurn(s, j, q, a);
    var t := Step(Step(s, Go(j)), Go(j));
    var called := t.db.rows[0];
    assert t.db.rows == [called, b] && t.flights[k] == NoneCalled(q);
    SecondDue(q, called, b, s.db.clock);
    CallsTurn(t, k, q, b);
    var rows := Step(Step(t, Go(k)), Go(k)).db.rows;
    assert BothCalled(rows[0], rows[1]);
  }

  /** The last two flights take the same reading step. */
  lemma PairSteps(s: Sys, f: Flight, g: Flight)
    requires |s.flights| >= 2 && s.flights[|s.flights| - 2] == f && s.flights[|s.flights| - 1] == f
    requires Advance(s.db, f) == (s.db, g)
    ensures var k := |s.flights| - 2;
      Run(s, [Go(k), Go(k + 1)]) == Sys(s.db, s.flights[..k] + [g, g])
  {
    var k := |s.flights| - 2;
    var half := s.flights[k := g];
    RunTwo(s, Go(k), Go(k + 1));
    GoAdvances(s, k);
    assert Step(s, Go(k)) == Sys(s.db, half);
    assert half[k + 1] == f;
    GoAdvances(Sys(s.db, half), k + 1);
    assert half[k + 1 := g] == s.flights[..k] + [g, g];
  }

  lemma TwoLaunches(s: Sys, req: Request)
    ensures Run(s, [Launch(req), Launch(req)]) == Sys(s.db, s.flights + [Begin(req), Begin(req)])
  {
    RunTwo(s, Launch(req), Launch(req));
    assert s.flights + [Begin(req)] + [Begin(req)] == s.flights + [Begin(req), Begin(req)];
  }

  lemma CallReads(db: Db, q: nat)
    requires OpenQueue(db, q) && !SomebodyCalled(db.rows, q)
    ensures Advance(db, Begin(CallNext(q))) == (db, CallQueueSeen(q))
    ensures Advance(db, CallQueueSeen(q)) == (db, NoneCalled(q))
  {
    var found := FindCalled(db.rows, q);
    assert found.None?;
  }

  /** Launched together, both find the queue open and nobody called. */
  lemma BothSeeNobody(s: Sys, q: nat)
    requires OpenQueue(s.db, q) && !SomebodyCalled(s.db.rows, q)
    ensures var k := |s.flights|;
      Run(s, [Launch(CallNext(q)), Launch(CallNext(q))] + [Go(k), Go(k + 1)] + [Go(k), Go(k + 1)])
        == Sys(s.db, s.flights + [NoneCalled(q), NoneCalled(q)])
  {
    var k, launches := |s.flights|, [Launch(CallNext(q)), Launch(CallNext(q))];
    var flights := s.flights;
    CallReads(s.db, q);
    TwoLaunches(s, CallNext(q));
    RunConcat(s, launches, [Go(k), Go(k + 1)]);
    RunConcat(s, launches + [Go(k), Go(k + 1)], [Go(k), Go(k + 1)]);
    var launched := flights + [Begin(CallNext(q)), Begin(CallNext(q))];
    var seen := flights + [CallQueueSeen(q), CallQueueSeen(q)];
    assert launched[..k] == flights && seen[..k] == flights;
    PairSteps(Sys(s.db, launched), Begin(CallNext(q)), CallQueueSeen(q));
    PairSteps(Sys(s.db, seen), CallQueueSeen(q), NoneCalled(q));
  }

  /** Two walk-ins take a turn, then two calls overlap. */
  function Overlap(q: nat): seq<Event> {
    Whole(WalkIn(q), 0) + Whole(WalkIn(q), 1)
    + ([Launch(CallNext(q)), Launch(CallNext(q))] + [Go(2), Go(3)] + [Go(2), Go(3)])
    + ([Go(2), Go(2)] + [Go(3), Go(3)])
  }

  /** From an empty table, whatever the configuration, as long as the queue
      takes turns: both calls see that nobody is called, then each calls a
      turn. The indexes do not help. */
  lemma OverlappingCallsCallTwo(cfg: Config, clock: int, q: nat)
    requires TakesTurns(Start(cfg, clock, true).db, TakeManualTurn(q, false, 0))
    ensures !OneCalled(Run(Start(cfg, clock, true), Overlap(q)).db.rows, q)
  {
    var start := Start(cfg, clock, true);
    var joins := Whole(WalkIn(q), 0) + Whole(WalkIn(q), 1);
    var looks := [Launch(CallNext(q)), Launch(CallNext(q))] + [Go(2), Go(3)] + [Go(2), Go(3)];
    var calls := [Go(2), Go(2)] + [Go(3), Go(3)];
    TwoWalkIns(cfg, clock, true, q);
    var s := Run(start, joins);
    BothSeeNobody(s, q);
    RunConcat(start, joins, looks);
    RunConcat(start, joins + looks, calls);
    var t := Run(s, looks);
    RunConcat(t, [Go(2), Go(2)], [Go(3), Go(3)]);
    RunTwo(t, Go(2), Go(2));
    RunTwo(Step(Step(t, Go(2)), Go(2)), Go(3), Go(3));
    BothCall(t, q, 2, 3);
  }
}
