/** The use cases that change plans, queues and windows, step by step. */
module AccountDesk {
  import opened Options
  import opened Sorting
  import opened Plans
  import opened Enforcement
  import opened KeepOldest

  function Elements(ids: seq<nat>): set<nat> { set i | i in ids }
  function QueueIdsOf(rows: seq<Queue>): seq<nat> { seq(|rows|, i requires 0 <= i < |rows| => rows[i].id) }
  function WindowIdsOf(rows: seq<Window>): seq<nat> { seq(|rows|, i requires 0 <= i < |rows| => rows[i].id) }

  /** Writes left of a budget; without a budget the process does not stop. */
  function Left(stopAfter: Option<nat>, spent: nat): Option<nat> {
    if stopAfter.None? then None else if stopAfter.value <= spent then Some(0) else Some(stopAfter.value - spent)
  }

  // ----- the part of a trim that concerns one business, or one queue --------

  function ExcessWindowsOf(a: Account, limit: Limit, queue: nat): set<nat> {
    set i: nat | i < |a.windows| && ActiveWindowsOf(queue)(a.windows[i])
      && !AmongFirst(ActiveWindows(a, queue), limit.maxWindows, OlderWindow)(a.windows[i])
  }

  function ExcessQueuesIn(a: Account, limit: Limit, business: nat): set<nat> {
    set i: nat | i < |a.queues| && ActiveQueuesOf(business)(a.queues[i]) && !StaysActive(a, limit, a.queues[i])
  }

  /** Excess windows of the given queues. */
  function ExcessWindowsAmong(a: Account, limit: Limit, queueIds: seq<nat>): set<nat> {
    set i: nat | i < |a.windows| && a.windows[i].queue in queueIds && i in ExcessWindowsOf(a, limit, a.windows[i].queue)
  }

  function ExcessWindowsIn(a: Account, limit: Limit, business: nat): set<nat> {
    set i: nat | i < |a.windows| && a.windows[i].queue < |a.queues| && a.queues[a.windows[i].queue].business == business
      && StaysActive(a, limit, a.queues[a.windows[i].queue]) && i in ExcessWindowsOf(a, limit, a.windows[i].queue)
  }

  lemma OffTwice(a: Account, q1: set<nat>, w1: set<nat>, q2: set<nat>, w2: set<nat>)
    ensures Off(Off(a, q1, w1), q2, w2) == Off(a, q1 + q2, w1 + w2)
  {
    assert Off(Off(a, q1, w1), q2, w2).queues == Off(a, q1 + q2, w1 + w2).queues;
    assert Off(Off(a, q1, w1), q2, w2).windows == Off(a, q1 + q2, w1 + w2).windows;
  }

  lemma OffNothing(a: Account)
    ensures Off(a, {}, {}) == a
  {
    assert QueuesOff(a.queues, {}) == a.queues && WindowsOff(a.windows, {}) == a.windows;
  }

  /** Switching off rows of other queues and of other businesses does not
      change what is in excess here. */
  lemma ExcessWindowsUndisturbed(a: Account, limit: Limit, queueIds: set<nat>, windowIds: set<nat>, queue: nat)
    requires WellFormed(a) && forall i :: 0 <= i < |a.windows| && a.windows[i].queue == queue ==> i !in windowIds
    ensures ActiveWindows(Off(a, queueIds, windowIds), queue) == ActiveWindows(a, queue)
    ensures ExcessWindowsOf(Off(a, queueIds, windowIds), limit, queue) == ExcessWindowsOf(a, limit, queue)
  {
    ActiveWindowsAfterOff(a.windows, windowIds, queue);
    forall w | w in ActiveWindows(a, queue) ensures WindowNotIn(windowIds)(w) { ActiveWindowIsRow(a, queue, w); }
    FilterAll(ActiveWindows(a, queue), WindowNotIn(windowIds));
  }

  lemma QueuesUndisturbed(a: Account, limit: Limit, queueIds: set<nat>, windowIds: set<nat>, business: nat)
    requires WellFormed(a) && forall i :: 0 <= i < |a.queues| && a.queues[i].business == business ==> i !in queueIds
    ensures ActiveQueues(Off(a, queueIds, windowIds), business) == ActiveQueues(a, business)
    ensures ExcessQueuesIn(Off(a, queueIds, windowIds), limit, business) == ExcessQueuesIn(a, limit, business)
    ensures forall i :: 0 <= i < |a.queues| && a.queues[i].business == business ==>
      (StaysActive(Off(a, queueIds, windowIds), limit, a.queues[i]) <==> StaysActive(a, limit, a.queues[i]))
  {
    ActiveQueuesAfterOff(a.queues, queueIds, business);
    forall q | q in ActiveQueues(a, business) ensures QueueNotIn(queueIds)(q) { ActiveQueueIsRow(a, business, q); }
    FilterAll(ActiveQueues(a, business), QueueNotIn(queueIds));
  }

  lemma ExcessUndisturbed(a: Account, limit: Limit, queueIds: set<nat>, windowIds: set<nat>, business: nat)
    requires WellFormed(a) && forall i :: 0 <= i < |a.queues| && a.queues[i].business == business ==> i !in queueIds
    requires forall i :: 0 <= i < |a.windows| && a.queues[a.windows[i].queue].business == business ==> i !in windowIds
    ensures ExcessQueuesIn(Off(a, queueIds, windowIds), limit, business) == ExcessQueuesIn(a, limit, business)
    ensures ExcessWindowsIn(Off(a, queueIds, windowIds), limit, business) == ExcessWindowsIn(a, limit, business)
  {
    var c := Off(a, queueIds, windowIds);
    QueuesUndisturbed(a, limit, queueIds, windowIds, business);
    forall i: nat | i < |a.windows| && a.queues[a.windows[i].queue].business == business
      ensures i in ExcessWindowsIn(c, limit, business) <==> i in ExcessWindowsIn(a, limit, business)
    {
      ExcessWindowsUndisturbed(a, limit, queueIds, windowIds, a.windows[i].queue);
      assert c.queues[a.windows[i].queue] == a.queues[a.windows[i].queue];
    }
  }

  lemma WindowIdsAreRows(a: Account, rows: seq<Window>)
    requires WellFormed(a) && forall w :: w in rows ==> w.id < |a.windows| && a.windows[w.id] == w
    ensures forall i :: i in WindowIdsOf(rows) <==> 0 <= i < |a.windows| && a.windows[i] in rows
  {
    forall i | 0 <= i < |a.windows| && a.windows[i] in rows ensures i in WindowIdsOf(rows) {
      var k :| 0 <= k < |rows| && rows[k] == a.windows[i];
      assert WindowIdsOf(rows)[k] == i;
    }
  }

  lemma QueueIdsAreRows(a: Account, rows: seq<Queue>)
    requires WellFormed(a) && forall q :: q in rows ==> q.id < |a.queues| && a.queues[q.id] == q
    ensures forall i :: i in QueueIdsOf(rows) <==> 0 <= i < |a.queues| && a.queues[i] in rows
  {
    forall i | 0 <= i < |a.queues| && a.queues[i] in rows ensures i in QueueIdsOf(rows) {
      var k :| 0 <= k < |rows| && rows[k] == a.queues[i];
      assert QueueIdsOf(rows)[k] == i;
    }
  }

  /** The rows after the cut of the sorted list are the ones in excess. */
  lemma WindowCut(a: Account, limit: Limit, queue: nat)
    requires WellFormed(a)
    ensures var xs := Sort(ActiveWindows(a, queue), OlderWindow);
      var cut := Least(limit.maxWindows, |xs|);
      && (forall w :: w in xs ==> w.id < |a.windows| && a.windows[w.id] == w)
      && Elements(WindowIdsOf(xs[cut..])) == ExcessWindowsOf(a, limit, queue)
  {
    var active := ActiveWindows(a, queue);
    var xs := Sort(active, OlderWindow);
    var cut := Least(limit.maxWindows, |xs|);
    AgesAreOrders();
    WindowAgesDiffer(a, queue);
    SortedCut(active, cut, OlderWindow);
    SortedCut(active, 0, OlderWindow);
    assert xs[0..] == xs;
    forall w | w in active
      ensures w.id < |a.windows| && a.windows[w.id] == w && ActiveWindowsOf(queue)(w)
    {
      ActiveWindowIsRow(a, queue, w);
    }
    FilterMembers(a.windows, ActiveWindowsOf(queue));
    forall w | w in active ensures CountBefore(active, w, OlderWindow) < |active| {
      var i :| 0 <= i < |active| && active[i] == w;
      SortedIndexOf(active, i, OlderWindow);
    }
    WindowIdsAreRows(a, xs[cut..]);
  }

  /** Every active queue of the business is in the sorted list, before the cut
      if it stays and after the cut if it does not. */
  lemma QueueCutRows(a: Account, limit: Limit, business: nat, cut: nat)
    requires WellFormed(a) && cut == Least(limit.maxQueues, |ActiveQueues(a, business)|)
    ensures var xs := Sort(ActiveQueues(a, business), OlderQueue);
      && (forall q :: q in xs[..cut] ==> q in ActiveQueues(a, business) && StaysActive(a, limit, q))
      && (forall q :: q in xs[cut..] ==> q in ActiveQueues(a, business) && !StaysActive(a, limit, q))
      && (forall q ::
            q in ActiveQueues(a, business) ==> if StaysActive(a, limit, q) then q in xs[..cut] else q in xs[cut..])
  {
    var active := ActiveQueues(a, business);
    AgesAreOrders();
    QueueAgesDiffer(a, business);
    SortedCut(active, cut, OlderQueue);
    forall q | q in active
      ensures q.business == business && q.isActive && CountBefore(active, q, OlderQueue) < |active|
    {
      ActiveQueueIsRow(a, business, q);
      var i :| 0 <= i < |active| && active[i] == q;
      SortedIndexOf(active, i, OlderQueue);
    }
  }

  lemma QueueCut(a: Account, limit: Limit, business: nat, cut: nat)
    requires WellFormed(a) && cut == Least(limit.maxQueues, |ActiveQueues(a, business)|)
    ensures var xs := Sort(ActiveQueues(a, business), OlderQueue);
      && (forall q :: q in xs[..cut] || q in xs[cut..] ==> q.id < |a.queues| && a.queues[q.id] == q)
      && Elements(QueueIdsOf(xs[cut..])) == ExcessQueuesIn(a, limit, business)
      && (forall i :: i in QueueIdsOf(xs[..cut])
            <==> 0 <= i < |a.queues| && a.queues[i].business == business && StaysActive(a, limit, a.queues[i]))
  {
    var xs := Sort(ActiveQueues(a, business), OlderQueue);
    QueueCutRows(a, limit, business, cut);
    FilterMembers(a.queues, ActiveQueuesOf(business));
    forall q | q in ActiveQueues(a, business)
      ensures q.id < |a.queues| && a.queues[q.id] == q
    {
      ActiveQueueIsRow(a, business, q);
    }
    QueueIdsAreRows(a, xs[cut..]);
    QueueIdsAreRows(a, xs[..cut]);
  }

  lemma PrefixIds(rows: seq<Window>, n: nat)
    requires n <= |rows|
    ensures Elements(WindowIdsOf(rows[..n])) <= Elements(WindowIdsOf(rows))
  {
    forall i | i in WindowIdsOf(rows[..n]) ensures i in WindowIdsOf(rows) {
      var k :| 0 <= k < n && rows[..n][k].id == i;
      assert WindowIdsOf(rows)[k] == i;
    }
  }

  lemma PrefixQueueIds(rows: seq<Queue>, n: nat)
    requires n <= |rows|
    ensures Elements(QueueIdsOf(rows[..n])) <= Elements(QueueIdsOf(rows))
  {
    forall i | i in QueueIdsOf(rows[..n]) ensures i in QueueIdsOf(rows) {
      var k :| 0 <= k < n && rows[..n][k].id == i;
      assert QueueIdsOf(rows)[k] == i;
    }
  }

  lemma ElementsConcat(xs: seq<nat>, ys: seq<nat>)
    ensures Elements(xs + ys) == Elements(xs) + Elements(ys)
  {
  }

  /** Trimming the windows of one more queue that stays. */
  lemma OneMoreQueue(a: Account, limit: Limit, before: seq<nat>, queue: nat, queueIds: set<nat>, done: set<nat>)
    requires WellFormed(a) && queue !in before && done == ExcessWindowsAmong(a, limit, before)
    ensures var c := Off(a, queueIds, done);
      && ExcessWindowsOf(c, limit, queue) == ExcessWindowsOf(a, limit, queue)
      && ExcessWindowsAmong(a, limit, before + [queue]) == done + ExcessWindowsOf(a, limit, queue)
  {
    ExcessWindowsUndisturbed(a, limit, queueIds, done, queue);
  }

  lemma KeptQueuesCover(a: Account, limit: Limit, business: nat, kept: seq<nat>)
    requires WellFormed(a)
    requires forall i ::
      i in kept <==> 0 <= i < |a.queues| && a.queues[i].business == business && StaysActive(a, limit, a.queues[i])
    ensures ExcessWindowsAmong(a, limit, kept) == ExcessWindowsIn(a, limit, business)
  {
  }

  lemma AmongFewer(a: Account, limit: Limit, queueIds: seq<nat>, n: nat)
    requires n <= |queueIds|
    ensures ExcessWindowsAmong(a, limit, queueIds[..n]) <= ExcessWindowsAmong(a, limit, queueIds)
  {
  }

  lemma SameWindows(a: Account, queueIds: set<nat>, limit: Limit, kept: seq<nat>)
    ensures ExcessWindowsAmong(Off(a, queueIds, {}), limit, kept) == ExcessWindowsAmong(a, limit, kept)
  {
    assert WindowsOff(a.windows, {}) == a.windows;
  }

  lemma KeptOnce(a: Account, business: nat, n: nat)
    requires WellFormed(a) && n <= |ActiveQueues(a, business)|
    ensures var kept := QueueIdsOf(Sort(ActiveQueues(a, business), OlderQueue)[..n]);
      forall k :: 0 <= k < |kept| ==> kept[k] !in kept[..k]
  {
    var xs := Sort(ActiveQueues(a, business), OlderQueue);
    AgesAreOrders();
    QueueAgesDiffer(a, business);
    SortKeepsDistinct(ActiveQueues(a, business), OlderQueue);
    SortIsSortedPermutation(ActiveQueues(a, business), OlderQueue);
    forall k | 0 <= k < |xs| ensures xs[k].id < |a.queues| && a.queues[xs[k].id] == xs[k] {
      assert xs[k] in multiset(xs);
      ActiveQueueIsRow(a, business, xs[k]);
    }
  }

  /** What a trim switches off in the first `n` businesses. */
  function ExcessQueuesBelow(a: Account, organization: nat, limit: Limit, n: nat): set<nat> {
    set i: nat | i < |a.queues| && a.queues[i].business < n && i in ExcessQueueIds(a, organization, limit)
  }

  function ExcessWindowsBelow(a: Account, organization: nat, limit: Limit, n: nat): set<nat> {
    set i: nat | i < |a.windows| && a.windows[i].queue < |a.queues| && a.queues[a.windows[i].queue].business < n
      && i in ExcessWindowIds(a, organization, limit)
  }

  lemma OneMoreBusiness(a: Account, organization: nat, limit: Limit, b: nat)
    requires WellFormed(a) && b < |a.businesses|
    ensures var mine := a.businesses[b].organization == organization;
      && ExcessQueuesBelow(a, organization, limit, b + 1)
         == ExcessQueuesBelow(a, organization, limit, b) + (if mine then ExcessQueuesIn(a, limit, b) else {})
      && ExcessWindowsBelow(a, organization, limit, b + 1)
         == ExcessWindowsBelow(a, organization, limit, b) + (if mine then ExcessWindowsIn(a, limit, b) else {})
  {
    forall i: nat | i < |a.windows| && a.queues[a.windows[i].queue].business == b
      && a.businesses[b].organization == organization
      ensures i in ExcessWindowIds(a, organization, limit) <==> i in ExcessWindowsIn(a, limit, b)
    {
    }
  }

  lemma UndisturbedByEarlier(a: Account, organization: nat, limit: Limit, b: nat)
    requires WellFormed(a)
    ensures var c :=
        Off(a, ExcessQueuesBelow(a, organization, limit, b), ExcessWindowsBelow(a, organization, limit, b));
      WellFormed(c) && ExcessQueuesIn(c, limit, b) == ExcessQueuesIn(a, limit, b)
          && ExcessWindowsIn(c, limit, b) == ExcessWindowsIn(a, limit, b)
  {
    OffKeepsWellFormed(a, ExcessQueuesBelow(a, organization, limit, b), ExcessWindowsBelow(a, organization, limit, b));
    ExcessUndisturbed(
      a, limit, ExcessQueuesBelow(a, organization, limit, b), ExcessWindowsBelow(a, organization, limit, b), b);
  }

  lemma BelowAllIsAll(a: Account, organization: nat, limit: Limit)
    requires WellFormed(a)
    ensures ExcessQueuesBelow(a, organization, limit, |a.businesses|) == ExcessQueueIds(a, organization, limit)
    ensures ExcessWindowsBelow(a, organization, limit, |a.businesses|) == ExcessWindowIds(a, organization, limit)
  {
  }

  class Desk {
    const limits: PlanLimits
    var subscriptions: map<nat, Subscription>
    var businesses: seq<Business>
    var queues: seq<Queue>
    var windows: seq<Window>
    var pendingOwners: set<nat>
    var clock: int

    function State(): Account
      reads this
    {
      Account(limits, subscriptions, businesses, queues, windows, pendingOwners, clock)
    }

    constructor (a: Account)
      ensures State() == a
    {
      limits, subscriptions, businesses := a.limits, a.subscriptions, a.businesses;
      queues, windows, pendingOwners, clock := a.queues, a.windows, a.pendingOwners, a.clock;
    }

    // ----- enforcing the limits ---------------------------------------------

    /** Saves each row with its flag off; `done` lists the rows saved before
        the process stopped. */
    method SwitchQueuesOff(rows: seq<Queue>, stopAfter: Option<nat>) returns (done: seq<nat>)
      requires WellFormed(State()) && forall q :: q in rows ==> q.id < |queues| && queues[q.id] == q
      modifies `queues
      ensures State() == Off(old(State()), Elements(done), {})
      ensures |done| <= |rows| && done == QueueIdsOf(rows[..|done|])
      ensures |done| < |rows| ==> Left(stopAfter, |done|) == Some(0)
    {
      done := [];
      OffNothing(State());
      for k := 0 to |rows|
        invariant done == QueueIdsOf(rows[..k])
        invariant State() == Off(old(State()), Elements(done), {})
      {
        if Left(stopAfter, k) == Some(0) { return; }
        assert rows[k] in rows;
        queues := queues[rows[k].id := rows[k].(isActive := false)];
        done := done + [rows[k].id];
      }
      assert rows[..|rows|] == rows;
    }

    method SwitchWindowsOff(rows: seq<Window>, stopAfter: Option<nat>) returns (done: seq<nat>)
      requires WellFormed(State()) && forall w :: w in rows ==> w.id < |windows| && windows[w.id] == w
      modifies `windows
      ensures State() == Off(old(State()), {}, Elements(done))
      ensures |done| <= |rows| && done == WindowIdsOf(rows[..|done|])
      ensures |done| < |rows| ==> Left(stopAfter, |done|) == Some(0)
    {
      done := [];
      OffNothing(State());
      for k := 0 to |rows|
        invariant done == WindowIdsOf(rows[..k])
        invariant State() == Off(old(State()), {}, Elements(done))
      {
        if Left(stopAfter, k) == Some(0) { return; }
        assert rows[k] in rows;
        windows := windows[rows[k].id := rows[k].(isActive := false)];
        done := done + [rows[k].id];
      }
      assert rows[..|rows|] == rows;
    }

    /** The windows of one queue that stays. */
    method TrimWindowsOf(queue: nat, limit: Limit, stopAfter: Option<nat>) returns (stopped: bool, windowIds: seq<nat>)
      requires WellFormed(State())
      modifies `windows
      ensures State() == Off(old(State()), {}, Elements(windowIds))
      ensures Elements(windowIds) <= ExcessWindowsOf(old(State()), limit, queue)
      ensures !stopped ==> Elements(windowIds) == ExcessWindowsOf(old(State()), limit, queue)
      ensures stopAfter.None? ==> !stopped
    {
      var activeWindows := Sort(Filter(windows, ActiveWindowsOf(queue)), OlderWindow);
      var windowsToDeactivate := activeWindows[Least(limit.maxWindows, |activeWindows|)..];
      WindowCut(State(), limit, queue);
      windowIds := SwitchWindowsOff(windowsToDeactivate, stopAfter);
      stopped := |windowIds| < |windowsToDeactivate|;
      assert windowsToDeactivate[..|windowsToDeactivate|] == windowsToDeactivate;
      PrefixIds(windowsToDeactivate, |windowIds|);
    }

    /** The windows of the queues kept, queue by queue. */
    method TrimWindowsOfEach(kept: seq<nat>, limit: Limit, stopAfter: Option<nat>) returns (stopped: bool,
        windowIds: seq<nat>)
      requires WellFormed(State()) && forall k :: 0 <= k < |kept| ==> kept[k] !in kept[..k]
      modifies `windows
      ensures State() == Off(old(State()), {}, Elements(windowIds))
      ensures Elements(windowIds) <= ExcessWindowsAmong(old(State()), limit, kept)
      ensures !stopped ==> Elements(windowIds) == ExcessWindowsAmong(old(State()), limit, kept)
      ensures stopAfter.None? ==> !stopped
    {
      ghost var a := State();
      OffNothing(a);
      windowIds := [];
      for k := 0 to |kept|
        invariant State() == Off(a, {}, Elements(windowIds))
        invariant Elements(windowIds) == ExcessWindowsAmong(a, limit, kept[..k])
      {
        ghost var before := Elements(windowIds);
        var more;
        OffKeepsWellFormed(a, {}, before);
        OneMoreQueue(a, limit, kept[..k], kept[k], {}, before);
        assert kept[..k] + [kept[k]] == kept[..k + 1];
        stopped, more := TrimWindowsOf(kept[k], limit, Left(stopAfter, |windowIds|));
        OffTwice(a, {}, before, {}, Elements(more));
        ElementsConcat(windowIds, more);
        windowIds := windowIds + more;
        if stopped {
          AmongFewer(a, limit, kept, k + 1);
          return true, windowIds;
        }
      }
      assert kept[..|kept|] == kept;
      stopped := false;
    }

    /** One business: first its queues, then the windows of the queues kept. */
    method TrimBusiness(business: nat, limit: Limit, stopAfter: Option<nat>)
      returns (stopped: bool, queueIds: seq<nat>, windowIds: seq<nat>)
      requires WellFormed(State())
      modifies `queues, `windows
      ensures State() == Off(old(State()), Elements(queueIds), Elements(windowIds))
      ensures Elements(queueIds) <= ExcessQueuesIn(old(State()), limit, business)
      ensures Elements(windowIds) <= ExcessWindowsIn(old(State()), limit, business)
      ensures !stopped ==> Elements(queueIds) == ExcessQueuesIn(old(State()), limit, business)
      ensures !stopped ==> Elements(windowIds) == ExcessWindowsIn(old(State()), limit, business)
      ensures stopAfter.None? ==> !stopped
    {
      ghost var a := State();
      var activeQueues := Sort(Filter(queues, ActiveQueuesOf(business)), OlderQueue);
      var cut := Least(limit.maxQueues, |activeQueues|);
      var queuesToKeep, queuesToDeactivate := activeQueues[..cut], activeQueues[cut..];
      QueueCut(a, limit, business, cut);
      windowIds := [];
      queueIds := SwitchQueuesOff(queuesToDeactivate, stopAfter);
      PrefixQueueIds(queuesToDeactivate, |queueIds|);
      if |queueIds| < |queuesToDeactivate| { return true, queueIds, windowIds; }
      assert queuesToDeactivate[..|queuesToDeactivate|] == queuesToDeactivate;
      KeptQueuesCover(a, limit, business, QueueIdsOf(queuesToKeep));
      KeptOnce(a, business, cut);
      OffKeepsWellFormed(a, Elements(queueIds), {});
      stopped, windowIds := TrimWindowsOfEach(QueueIdsOf(queuesToKeep), limit, Left(stopAfter, |queueIds|));
      SameWindows(a, Elements(queueIds), limit, QueueIdsOf(queuesToKeep));
      OffTwice(a, Elements(queueIds), {}, {}, Elements(windowIds));
    }

    /** Every business of the organization. Stopped anywhere, it has done part
        of the trim; otherwise it has done the trim and lists what it did. */
    method EnforceLimits(organization: nat, limit: Limit, stopAfter: Option<nat>)
      returns (stopped: bool, deactivatedQueueIds: seq<nat>, deactivatedWindowIds: seq<nat>)
      requires WellFormed(State())
      modifies `queues, `windows
      ensures State() == Off(old(State()), Elements(deactivatedQueueIds), Elements(deactivatedWindowIds))
      ensures PartOfTrim(old(State()), organization, limit, Elements(deactivatedQueueIds),
        Elements(deactivatedWindowIds))
      ensures !stopped ==> State() == Trimmed(old(State()), organization, limit)
      ensures stopped || KeptOldest(old(State()), State(), organization, limit)
      ensures !stopped ==> Elements(deactivatedQueueIds) == ExcessQueueIds(old(State()), organization, limit)
      ensures !stopped ==> Elements(deactivatedWindowIds) == ExcessWindowIds(old(State()), organization, limit)
      ensures stopAfter.None? ==> !stopped
    {
      ghost var a := State();
      OffNothing(a);
      deactivatedQueueIds, deactivatedWindowIds := [], [];
      for b := 0 to |businesses|
        invariant State() == Off(a, Elements(deactivatedQueueIds), Elements(deactivatedWindowIds))
        invariant Elements(deactivatedQueueIds) == ExcessQueuesBelow(a, organization, limit, b)
        invariant Elements(deactivatedWindowIds) == ExcessWindowsBelow(a, organization, limit, b)
      {
        OneMoreBusiness(a, organization, limit, b);
        if businesses[b].organization == organization {
          ghost var queuesOff, windowsOff := Elements(deactivatedQueueIds), Elements(deactivatedWindowIds);
          UndisturbedByEarlier(a, organization, limit, b);
          var queueIds, windowIds;
          stopped, queueIds, windowIds :=
            TrimBusiness(b, limit, Left(stopAfter, |deactivatedQueueIds| + |deactivatedWindowIds|));
          OffTwice(a, queuesOff, windowsOff, Elements(queueIds), Elements(windowIds));
          ElementsConcat(deactivatedQueueIds, queueIds);
          ElementsConcat(deactivatedWindowIds, windowIds);
          deactivatedQueueIds, deactivatedWindowIds := deactivatedQueueIds + queueIds, deactivatedWindowIds + windowIds;
          if stopped { return; }
        }
      }
      BelowAllIsAll(a, organization, limit);
      assert State() == Trimmed(a, organization, limit);
      TrimmedKeptOldest(a, State(), organization, limit);
      stopped := false;
    }

    // ----- the plan gate ----------------------------------------------------

    /** Persists the expiry of a trial the first time it is seen. */
    method ResolveEffectiveStatus(organization: nat) returns (subscription: Option<Subscription>)
      modifies `subscriptions
      ensures State() == Resolve(old(State()), organization)
      ensures subscription == if organization in subscriptions then Some(subscriptions[organization]) else None
    {
      if organization !in subscriptions { return None; }
      var stored := subscriptions[organization];
      var trialExpired := stored.status.Trial? && stored.trialEndsAt.Some? && stored.trialEndsAt.value <= clock;
      if !trialExpired {
        assert subscriptions == subscriptions[organization := stored];
        return Some(stored);
      }
      stored := stored.(status := Expired);
      subscriptions := subscriptions[organization := stored];
      return Some(stored);
    }

    /** The plan in force, or none and the organization trimmed to Basic. */
    method ResolveActivePlan(organization: nat) returns (plan: Option<Plan>)
      requires WellFormed(State())
      modifies `subscriptions, `queues, `windows
      ensures (State(), plan.Some?) == Gate(old(State()), organization)
      ensures plan.Some? ==> plan.value == PlanOf(State(), organization)
    {
      var subscription := ResolveEffectiveStatus(organization);
      if subscription.Some? && Lapsed(subscription.value) {
        var _, _, _ := EnforceLimits(organization, LimitOf(State(), Basic), None);
        return None;
      }
      return Some(if subscription.Some? then subscription.value.plan else Basic);
    }

    method EnsureQueueCreationAllowed(organization: nat, count: nat) returns (code: Code)
      requires WellFormed(State())
      modifies `subscriptions, `queues, `windows
      ensures State() == Gate(old(State()), organization).0
      ensures code == if !Gate(old(State()), organization).1 then SubscriptionInactive
                      else if count >= LimitOf(State(), PlanOf(State(), organization)).maxQueues
                          then PlanQueueLimitReached else Ok
    {
      var plan := ResolveActivePlan(organization);
      if plan.None? { return SubscriptionInactive; }
      return if count >= LimitOf(State(), plan.value).maxQueues then PlanQueueLimitReached else Ok;
    }

    method EnsureWindowCreationAllowed(organization: nat, count: nat) returns (code: Code)
      requires WellFormed(State())
      modifies `subscriptions, `queues, `windows
      ensures State() == Gate(old(State()), organization).0
      ensures code == if !Gate(old(State()), organization).1 then SubscriptionInactive
                      else if count >= LimitOf(State(), PlanOf(State(), organization)).maxWindows
                          then PlanWindowLimitReached else Ok
    {
      var plan := ResolveActivePlan(organization);
      if plan.None? { return SubscriptionInactive; }
      return if count >= LimitOf(State(), plan.value).maxWindows then PlanWindowLimitReached else Ok;
    }

    // ----- queues and windows -----------------------------------------------

    method InsertQueue(business: nat, prefix: Prefix)
      modifies `queues, `windows, `clock
      ensures State() == WithQueue(old(State()), business, prefix)
    {
      var id, now := |queues|, clock;
      clock := clock + 1;
      queues := queues + [Queue(id, business, prefix, true, now)];
      windows := windows + [Window(|windows|, id, true, now)];
    }

    method CreateQueue(business: nat, prefix: Prefix) returns (code: Code)
      requires WellFormed(State())
      modifies this
      ensures (State(), code) == DoCreateQueue(old(State()), business, prefix)
    {
      if business >= |businesses| { return NotFound; }
      if businesses[business].status != Approved { return BusinessNotOperating; }
      var existingQueues := queues;
      var activeQueueCount := |Filter(existingQueues, ActiveQueuesOf(business))|;
      code := EnsureQueueCreationAllowed(businesses[business].organization, activeQueueCount);
      if code != Ok { return; }
      if exists q :: q in existingQueues && q.business == business && Upper(q.prefix) == Upper(prefix) {
        return PrefixInUse;
      }
      InsertQueue(business, Upper(prefix));
    }

    method ToggleQueue(id: nat) returns (code: Code)
      requires WellFormed(State())
      modifies this
      ensures (State(), code) == DoToggleQueue(old(State()), id)
    {
      if id >= |queues| || queues[id].business >= |businesses| { return NotFound; }
      var queue := queues[id];
      var otherActive := |Filter(queues, (q: Queue) => q.business == queue.business && q.id != queue.id && q.isActive)|;
      assert otherActive == OtherActiveQueues(State(), queue);
      code := Ok;
      if queue.isActive {
        if otherActive == 0 { return QueueLastActive; }
      } else {
        code := EnsureQueueCreationAllowed(businesses[queue.business].organization, otherActive);
        if code != Ok { return; }
      }
      queues := queues[id := queue.(isActive := !queue.isActive)];
    }

    method CreateWindow(queue: nat) returns (code: Code)
      requires WellFormed(State())
      modifies this
      ensures (State(), code) == DoCreateWindow(old(State()), queue)
    {
      if queue >= |queues| || queues[queue].business >= |businesses| { return NotFound; }
      var activeWindowCount := |Filter(windows, ActiveWindowsOf(queue))|;
      code := EnsureWindowCreationAllowed(businesses[queues[queue].business].organization, activeWindowCount);
      if code != Ok { return; }
      windows := windows + [Window(|windows|, queue, true, clock)];
      clock := clock + 1;
    }

    method ToggleWindow(id: nat, occupied: bool) returns (code: Code)
      requires WellFormed(State())
      modifies this
      ensures (State(), code) == DoToggleWindow(old(State()), id, occupied)
    {
      if id >= |windows| || windows[id].queue >= |queues| { return NotFound; }
      var window, business := windows[id], queues[windows[id].queue].business;
      if business >= |businesses| { return NotFound; }
      code := Ok;
      if window.isActive {
        if occupied { return WindowInUse; }
      } else {
        var otherActive := |Filter(windows, (w: Window) => w.queue == window.queue && w.id != window.id && w.isActive)|;
        assert otherActive == OtherActiveWindows(State(), window);
        code := EnsureWindowCreationAllowed(businesses[business].organization, otherActive);
        if code != Ok { return; }
      }
      windows := windows[id := window.(isActive := !window.isActive)];
    }

    // ----- businesses -------------------------------------------------------

    method ApproveBusiness(id: nat, organizationApproved: bool, noteMissing: bool) returns (code: Code)
      requires WellFormed(State())
      modifies this
      ensures (State(), code) == DoApprove(old(State()), id, organizationApproved, noteMissing)
    {
      if id >= |businesses| { return NotFound; }
      var business := businesses[id];
      if business.status == Approved { return AlreadyApproved; }
      if business.status == Suspended { return UseReactivate; }
      if !organizationApproved { return OrganizationNotApproved; }
      var subscription := ResolveEffectiveStatus(business.organization);
      if subscription.Some? && Lapsed(subscription.value) { return SubscriptionNotActive; }
      if noteMissing { return ApprovalNoteRequired; }
      var existingQueues := Filter(queues, ActiveQueuesOf(id));
      businesses := businesses[id := business.(status := Approved)];
      pendingOwners := pendingOwners - {business.owner};
      if subscription.Some? && subscription.value.status.SubPending? {
        subscriptions := subscriptions[business.organization :=
          subscription.value.(status := Trial, trialEndsAt := Some(clock + TRIAL_MS))];
      }
      if existingQueues == [] { InsertQueue(id, "A"); }
      return Ok;
    }

    // ----- subscriptions ----------------------------------------------------

    /** The busiest business and the busiest queue decide. */
    method ChangePlan(organization: nat, newPlan: Plan) returns (code: Code)
      modifies `subscriptions
      ensures (State(), code) == DoChangePlan(old(State()), organization, newPlan)
    {
      var currentBusinessCount := |Filter(businesses, CountedBusiness(organization))|;
      var maxActiveQueues := 0;
      for b := 0 to |businesses|
        invariant maxActiveQueues == MaxActiveQueues(State(), organization, b)
      {
        if businesses[b].organization == organization {
          maxActiveQueues := Max(maxActiveQueues, |Filter(queues, ActiveQueuesOf(b))|);
        }
      }
      var maxActiveWindows := 0;
      for q := 0 to |queues|
        invariant maxActiveWindows == MaxActiveWindows(State(), organization, q)
      {
        if queues[q].business < |businesses| && businesses[queues[q].business].organization == organization {
          maxActiveWindows := Max(maxActiveWindows, |Filter(windows, ActiveWindowsOf(q))|);
        }
      }
      if organization !in subscriptions { return NotFound; }
      var newLimit := LimitOf(State(), newPlan);
      if currentBusinessCount > newLimit.maxBusinesses { return DowngradeBlockedBusinesses; }
      if maxActiveQueues > newLimit.maxQueues { return DowngradeBlockedQueues; }
      if maxActiveWindows > newLimit.maxWindows { return DowngradeBlockedWindows; }
      subscriptions := subscriptions[organization := subscriptions[organization].(plan := newPlan)];
      return Ok;
    }

    method CancelSubscription(organization: nat) returns (code: Code)
      modifies `subscriptions
      ensures code == if organization !in old(subscriptions) then NotFound
                      else if old(subscriptions)[organization].status in {Cancelled, Expired} then AlreadyTerminal
                      else Ok
      ensures subscriptions == if code != Ok then old(subscriptions)
        else old(subscriptions)[organization := Subscription(
               old(subscriptions)[organization].plan, Cancelled, old(subscriptions)[organization].trialEndsAt)]
    {
      if organization !in subscriptions { return NotFound; }
      if Lapsed(subscriptions[organization]) { return AlreadyTerminal; }
      subscriptions := subscriptions[organization := subscriptions[organization].(status := Cancelled)];
      return Ok;
    }

    /** Cancels and trims to Basic. The process may stop after any number of
        writes; the subscription's is the first. */
    method CancelAndEnforce(organization: nat, stopAfter: Option<nat>) returns (stopped: bool, code: Code)
      requires WellFormed(State())
      modifies `subscriptions, `queues, `windows
      ensures !stopped ==> (State(), code) == DoCancelAndEnforce(old(State()), organization)
      ensures stopped ==> StoppedWithin(old(State()), organization, State())
      ensures stopAfter.None? ==> !stopped
    {
      if stopAfter == Some(0) { return true, Ok; }
      ghost var a := State();
      code := CancelSubscription(organization);
      var left := Left(stopAfter, 1);
      if code != Ok {
        if code != AlreadyTerminal { return false, code; }
        var existing := subscriptions[organization];
        if existing.status != Cancelled { return false, code; }
        left := stopAfter;
        assert a.subscriptions == a.subscriptions[organization := existing.(status := Cancelled)];
      }
      ghost var cancelled := SetSubscriptionStatus(a, organization, Cancelled);
      assert State() == cancelled;
      var queueIds, windowIds;
      stopped, queueIds, windowIds := EnforceLimits(organization, LimitOf(State(), Basic), left);
      assert PartOfTrim(cancelled, organization, LimitOf(cancelled, Basic), Elements(queueIds), Elements(windowIds));
      code := Ok;
    }

    method ActivateSubscription(organization: nat) returns (code: Code)
      modifies `subscriptions
      ensures (State(), code) == DoActivate(old(State()), organization)
    {
      if organization !in subscriptions { return NotFound; }
      var status := subscriptions[organization].status;
      if !(status.SubPending? || status.Trial? || status.Cancelled? || status.Expired?) { return CannotBeActivated; }
      subscriptions := subscriptions[organization := subscriptions[organization].(status := Active)];
      return Ok;
    }
  }
}
