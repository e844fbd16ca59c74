/** Trimming an organization to a limit: who survives, and why it may be
    interrupted anywhere and started again. */
module Enforcement {
  import opened Options
  import opened Sorting
  import opened Plans

  /** Rows know their index; rows that compete have different ages. */
  ghost predicate WellFormed(a: Account) {
    && (forall i :: 0 <= i < |a.queues| ==> a.queues[i].id == i && a.queues[i].business < |a.businesses|)
    && (forall i :: 0 <= i < |a.windows| ==> a.windows[i].id == i && a.windows[i].queue < |a.queues|)
    && (forall i, j :: 0 <= i < j < |a.queues| && a.queues[i].business == a.queues[j].business ==>
          a.queues[i].createdAt != a.queues[j].createdAt)
    && (forall i, j :: 0 <= i < j < |a.windows| && a.windows[i].queue == a.windows[j].queue ==>
          a.windows[i].createdAt != a.windows[j].createdAt)
  }

  lemma AgesAreOrders()
    ensures TotalPreorder(OlderQueue) && TotalPreorder(OlderWindow)
  {
  }

  lemma QueueAgesDiffer(a: Account, business: nat)
    requires WellFormed(a)
    ensures DistinctKeys(ActiveQueues(a, business), OlderQueue)
  {
    FilterKeepsDistinct(a.queues, ActiveQueuesOf(business), OlderQueue);
  }

  lemma WindowAgesDiffer(a: Account, queue: nat)
    requires WellFormed(a)
    ensures DistinctKeys(ActiveWindows(a, queue), OlderWindow)
  {
    FilterKeepsDistinct(a.windows, ActiveWindowsOf(queue), OlderWindow);
  }

  // ----- switching rows off -------------------------------------------------

  function QueueNotIn(ids: set<nat>): Queue -> bool { (q: Queue) => q.id !in ids }
  function WindowNotIn(ids: set<nat>): Window -> bool { (w: Window) => w.id !in ids }

  lemma QueuesOffTail(queues: seq<Queue>, ids: set<nat>)
    requires queues != []
    ensures QueuesOff(queues, ids)[1..] == QueuesOff(queues[1..], ids)
  {
    var off, tail := QueuesOff(queues, ids), QueuesOff(queues[1..], ids);
    forall i | 0 <= i < |tail| ensures off[1..][i] == tail[i] { assert off[1..][i] == off[i + 1]; }
  }

  lemma WindowsOffTail(windows: seq<Window>, ids: set<nat>)
    requires windows != []
    ensures WindowsOff(windows, ids)[1..] == WindowsOff(windows[1..], ids)
  {
    var off, tail := WindowsOff(windows, ids), WindowsOff(windows[1..], ids);
    forall i | 0 <= i < |tail| ensures off[1..][i] == tail[i] { assert off[1..][i] == off[i + 1]; }
  }

  lemma {:induction false} ActiveQueuesAfterOff(queues: seq<Queue>, ids: set<nat>, business: nat)
    ensures Filter(QueuesOff(queues, ids), ActiveQueuesOf(business))
         == Filter(Filter(queues, ActiveQueuesOf(business)), QueueNotIn(ids))
  {
    if queues != [] {
      ActiveQueuesAfterOff(queues[1..], ids, business);
      QueuesOffTail(queues, ids);
      var rest := Filter(queues[1..], ActiveQueuesOf(business));
      assert ([queues[0]] + rest)[1..] == rest;
    }
  }

  lemma {:induction false} ActiveWindowsAfterOff(windows: seq<Window>, ids: set<nat>, queue: nat)
    ensures Filter(WindowsOff(windows, ids), ActiveWindowsOf(queue))
         == Filter(Filter(windows, ActiveWindowsOf(queue)), WindowNotIn(ids))
  {
    if windows != [] {
      ActiveWindowsAfterOff(windows[1..], ids, queue);
      WindowsOffTail(windows, ids);
      var rest := Filter(windows[1..], ActiveWindowsOf(queue));
      assert ([windows[0]] + rest)[1..] == rest;
    }
  }

  lemma OffKeepsWellFormed(a: Account, queueIds: set<nat>, windowIds: set<nat>)
    requires WellFormed(a)
    ensures WellFormed(Off(a, queueIds, windowIds))
  {
  }

  lemma ActiveQueueIsRow(a: Account, business: nat, q: Queue)
    requires WellFormed(a) && q in ActiveQueues(a, business)
    ensures q.id < |a.queues| && a.queues[q.id] == q && q.business == business && q.isActive
  {
    FilterMembers(a.queues, ActiveQueuesOf(business));
    var i :| 0 <= i < |a.queues| && a.queues[i] == q;
  }

  lemma ActiveWindowIsRow(a: Account, queue: nat, w: Window)
    requires WellFormed(a) && w in ActiveWindows(a, queue)
    ensures w.id < |a.windows| && a.windows[w.id] == w && w.queue == queue && w.isActive
  {
    FilterMembers(a.windows, ActiveWindowsOf(queue));
    var i :| 0 <= i < |a.windows| && a.windows[i] == w;
  }

  // ----- a partly trimmed account -------------------------------------------

  /** `queueIds` and `windowIds` are rows that trimming would switch off. */
  ghost predicate PartOfTrim(a: Account, organization: nat, limit: Limit, queueIds: set<nat>, windowIds: set<nat>) {
    queueIds <= ExcessQueueIds(a, organization, limit) && windowIds <= ExcessWindowIds(a, organization, limit)
  }

  lemma SameSurvivors(a: Account, organization: nat, limit: Limit, queueIds: set<nat>, windowIds: set<nat>, i: nat)
    requires WellFormed(a) && PartOfTrim(a, organization, limit, queueIds, windowIds) && i < |a.queues|
    ensures var b := Off(a, queueIds, windowIds);
      StaysActive(b, limit, b.queues[i]) <==> StaysActive(a, limit, a.queues[i])
  {
    var b := Off(a, queueIds, windowIds);
    var q := a.queues[i];
    var xs := ActiveQueues(a, q.business);
    AgesAreOrders();
    QueueAgesDiffer(a, q.business);
    ActiveQueuesAfterOff(a.queues, queueIds, q.business);
    forall y | y in xs && CountBefore(xs, y, OlderQueue) < limit.maxQueues ensures QueueNotIn(queueIds)(y) {
      ActiveQueueIsRow(a, q.business, y);
    }
    AmongFirstIsStable(xs, QueueNotIn(queueIds), limit.maxQueues, q, OlderQueue);
    CountBeforeSameKey(ActiveQueues(b, q.business), q, b.queues[i], OlderQueue);
  }

  lemma ExcessQueuesAfterPart(a: Account, organization: nat, limit: Limit, queueIds: set<nat>, windowIds: set<nat>)
    requires WellFormed(a) && PartOfTrim(a, organization, limit, queueIds, windowIds)
    ensures ExcessQueueIds(Off(a, queueIds, windowIds), organization, limit)
      == ExcessQueueIds(a, organization, limit) - queueIds
  {
    var b := Off(a, queueIds, windowIds);
    forall i: nat | i < |a.queues|
      ensures i in ExcessQueueIds(b, organization, limit) <==> i in ExcessQueueIds(a, organization, limit) - queueIds
    {
      SameSurvivors(a, organization, limit, queueIds, windowIds, i);
    }
  }

  lemma SameWindowSurvivors(a: Account, organization: nat, limit: Limit, queueIds: set<nat>, windowIds: set<nat>,
      i: nat)
    requires WellFormed(a) && PartOfTrim(a, organization, limit, queueIds, windowIds) && i < |a.windows|
    ensures var b := Off(a, queueIds, windowIds);
      ExcessWindow(b, organization, limit, b.windows[i])
      <==> ExcessWindow(a, organization, limit, a.windows[i]) && i !in windowIds
  {
    var b := Off(a, queueIds, windowIds);
    var w := a.windows[i];
    var xs := ActiveWindows(a, w.queue);
    SameSurvivors(a, organization, limit, queueIds, windowIds, w.queue);
    if StaysActive(a, limit, a.queues[w.queue]) {
      AgesAreOrders();
      WindowAgesDiffer(a, w.queue);
      ActiveWindowsAfterOff(a.windows, windowIds, w.queue);
      forall y | y in xs && CountBefore(xs, y, OlderWindow) < limit.maxWindows ensures WindowNotIn(windowIds)(y) {
        ActiveWindowIsRow(a, w.queue, y);
      }
      AmongFirstIsStable(xs, WindowNotIn(windowIds), limit.maxWindows, w, OlderWindow);
    }
  }

  lemma ExcessWindowsAfterPart(a: Account, organization: nat, limit: Limit, queueIds: set<nat>, windowIds: set<nat>)
    requires WellFormed(a) && PartOfTrim(a, organization, limit, queueIds, windowIds)
    ensures ExcessWindowIds(Off(a, queueIds, windowIds), organization, limit)
      == ExcessWindowIds(a, organization, limit) - windowIds
  {
    var b := Off(a, queueIds, windowIds);
    forall i: nat | i < |a.windows|
      ensures i in ExcessWindowIds(b, organization, limit) <==> i in ExcessWindowIds(a, organization, limit) - windowIds
    {
      SameWindowSurvivors(a, organization, limit, queueIds, windowIds, i);
    }
  }

  // ----- main results -------------------------------------------------------

  /** Trimming interrupted after any part of its writes and run again ends
      where one uninterrupted run ends. */
  lemma InterruptedTrimConverges(a: Account, organization: nat, limit: Limit, queueIds: set<nat>, windowIds: set<nat>)
    requires WellFormed(a) && PartOfTrim(a, organization, limit, queueIds, windowIds)
    ensures Trimmed(Off(a, queueIds, windowIds), organization, limit) == Trimmed(a, organization, limit)
  {
    ExcessQueuesAfterPart(a, organization, limit, queueIds, windowIds);
    ExcessWindowsAfterPart(a, organization, limit, queueIds, windowIds);
    var again, once := Trimmed(Off(a, queueIds, windowIds), organization, limit), Trimmed(a, organization, limit);
    assert again.queues == once.queues && again.windows == once.windows;
  }

  /** A further run has nothing to do. */
  lemma TrimIsIdempotent(a: Account, organization: nat, limit: Limit)
    requires WellFormed(a)
    ensures ExcessQueueIds(Trimmed(a, organization, limit), organization, limit) == {}
    ensures ExcessWindowIds(Trimmed(a, organization, limit), organization, limit) == {}
  {
    var queueIds, windowIds := ExcessQueueIds(a, organization, limit), ExcessWindowIds(a, organization, limit);
    ExcessQueuesAfterPart(a, organization, limit, queueIds, windowIds);
    ExcessWindowsAfterPart(a, organization, limit, queueIds, windowIds);
  }

  /** The survivors among a business's active queues are the oldest ones, as
      many as the limit allows. */
  lemma OldestQueuesSurvive(a: Account, organization: nat, limit: Limit, business: nat)
    requires WellFormed(a) && business < |a.businesses| && a.businesses[business].organization == organization
    ensures ActiveQueues(Trimmed(a, organization, limit), business)
         == Filter(ActiveQueues(a, business), AmongFirst(ActiveQueues(a, business), limit.maxQueues, OlderQueue))
    ensures var n := |ActiveQueues(a, business)|;
      |ActiveQueues(Trimmed(a, organization, limit), business)| == if limit.maxQueues < n then limit.maxQueues else n
  {
    var xs, ids := ActiveQueues(a, business), ExcessQueueIds(a, organization, limit);
    ActiveQueuesAfterOff(a.queues, ids, business);
    forall q | q in xs ensures QueueNotIn(ids)(q) <==> AmongFirst(xs, limit.maxQueues, OlderQueue)(q) {
      ActiveQueueIsRow(a, business, q);
    }
    FilterSame(xs, QueueNotIn(ids), AmongFirst(xs, limit.maxQueues, OlderQueue));
    AgesAreOrders();
    QueueAgesDiffer(a, business);
    AmongFirstCount(xs, limit.maxQueues, OlderQueue);
  }

  /** The same for the windows of each queue that stays active; the windows of
      other queues are left alone. */
  lemma OldestWindowsSurvive(a: Account, organization: nat, limit: Limit, queue: nat)
    requires WellFormed(a) && queue < |a.queues| && OrganizationOf(a, a.queues[queue]) == Some(organization)
    ensures var xs := ActiveWindows(a, queue);
      ActiveWindows(Trimmed(a, organization, limit), queue) ==
        if StaysActive(a, limit, a.queues[queue]) then Filter(xs, AmongFirst(xs, limit.maxWindows, OlderWindow)) else xs
    ensures var n := |ActiveWindows(a, queue)|; StaysActive(a, limit, a.queues[queue]) ==>
      |ActiveWindows(Trimmed(a, organization, limit), queue)| == if limit.maxWindows < n then limit.maxWindows else n
  {
    var xs, ids := ActiveWindows(a, queue), ExcessWindowIds(a, organization, limit);
    ActiveWindowsAfterOff(a.windows, ids, queue);
    AgesAreOrders();
    WindowAgesDiffer(a, queue);
    AmongFirstCount(xs, limit.maxWindows, OlderWindow);
    forall w | w in xs
      ensures WindowNotIn(ids)(w)
        <==> (StaysActive(a, limit, a.queues[queue]) ==> AmongFirst(xs, limit.maxWindows, OlderWindow)(w))
    {
      ActiveWindowIsRow(a, queue, w);
    }
    if StaysActive(a, limit, a.queues[queue]) {
      FilterSame(xs, WindowNotIn(ids), AmongFirst(xs, limit.maxWindows, OlderWindow));
    } else {
      FilterAll(xs, WindowNotIn(ids));
    }
  }

  // ----- cancel and enforce, interrupted ------------------------------------

  /** Where cancel-and-enforce can have stopped: before its first write, or
      with the subscription cancelled and part of the trim done. */
  ghost predicate StoppedWithin(a: Account, organization: nat, c: Account) {
    || c == a
    || (organization in a.subscriptions && !a.subscriptions[organization].status.Expired? &&
        exists queueIds: set<nat>, windowIds: set<nat> ::
          var cancelled := SetSubscriptionStatus(a, organization, Cancelled);
          && PartOfTrim(cancelled, organization, LimitOf(a, Basic), queueIds, windowIds)
          && c == Off(cancelled, queueIds, windowIds))
  }

  /** Crash and retry converge: wherever cancel-and-enforce stopped, running
      it again ends as one uninterrupted run ends, and once more changes
      nothing. */
  lemma CrashAndRetryConverge(a: Account, organization: nat, c: Account)
    requires WellFormed(a) && StoppedWithin(a, organization, c)
    ensures DoCancelAndEnforce(c, organization) == DoCancelAndEnforce(a, organization)
    ensures DoCancelAndEnforce(DoCancelAndEnforce(c, organization).0, organization)
      == DoCancelAndEnforce(a, organization)
  {
    if c != a { RetryConverges(a, organization, c); }
    var done := DoCancelAndEnforce(a, organization).0;
    if organization in a.subscriptions && !a.subscriptions[organization].status.Expired? {
      var cancelled := SetSubscriptionStatus(a, organization, Cancelled);
      RetryConverges(a, organization, done) by {
        var (queueIds, windowIds) := (ExcessQueueIds(cancelled, organization, LimitOf(a, Basic)),
          ExcessWindowIds(cancelled, organization, LimitOf(a, Basic)));
        assert PartOfTrim(cancelled, organization, LimitOf(a, Basic), queueIds, windowIds)
          && done == Off(cancelled, queueIds, windowIds);
      }
    }
  }

  lemma RetryConverges(a: Account, organization: nat, c: Account)
    requires WellFormed(a) && organization in a.subscriptions && !a.subscriptions[organization].status.Expired?
    requires exists queueIds: set<nat>, windowIds: set<nat> ::
          var cancelled := SetSubscriptionStatus(a, organization, Cancelled);
          && PartOfTrim(cancelled, organization, LimitOf(a, Basic), queueIds, windowIds)
          && c == Off(cancelled, queueIds, windowIds)
    ensures DoCancelAndEnforce(c, organization) == DoCancelAndEnforce(a, organization)
  {
    var cancelled := SetSubscriptionStatus(a, organization, Cancelled);
    var queueIds: set<nat>, windowIds: set<nat> :|
      PartOfTrim(cancelled, organization, LimitOf(a, Basic), queueIds, windowIds)
          && c == Off(cancelled, queueIds, windowIds);
    InterruptedTrimConverges(cancelled, organization, LimitOf(a, Basic), queueIds, windowIds);
    assert SetSubscriptionStatus(c, organization, Cancelled).subscriptions == c.subscriptions;
  }
}
