/** What a trim leaves, said of the rows: the oldest stay, as many as the limit
    allows, and nothing else changes. */
module KeepOldest {
  import opened Options
  import opened Sorting
  import opened Plans
  import opened Enforcement

  // ----- how many are active ------------------------------------------------

  function ActiveQueueIds(a: Account, business: nat): set<nat> {
    set i: nat | i < |a.queues| && a.queues[i].business == business && a.queues[i].isActive
  }

  function ActiveWindowIds(a: Account, queue: nat): set<nat> {
    set i: nat | i < |a.windows| && a.windows[i].queue == queue && a.windows[i].isActive
  }

  function Places<T>(xs: seq<T>, p: T -> bool): set<nat> { set i: nat | i < |xs| && p(xs[i]) }

  lemma {:induction false} FilterSize<T>(xs: seq<T>, p: T -> bool)
    ensures |Filter(xs, p)| == |Places(xs, p)|
  {
    if xs != [] {
      var before, last := xs[..|xs| - 1], |xs| - 1;
      FilterSize(before, p);
      FilterAppend(before, xs[last], p);
      assert before + [xs[last]] == xs;
      assert Places(xs, p) == Places(before, p) + (if p(xs[last]) then {last} else {});
    }
  }

  lemma ActiveQueuesCount(a: Account, business: nat)
    ensures |ActiveQueues(a, business)| == |ActiveQueueIds(a, business)|
  {
    FilterSize(a.queues, ActiveQueuesOf(business));
    assert Places(a.queues, ActiveQueuesOf(business)) == ActiveQueueIds(a, business);
  }

  lemma ActiveWindowsCount(a: Account, queue: nat)
    ensures |ActiveWindows(a, queue)| == |ActiveWindowIds(a, queue)|
  {
    FilterSize(a.windows, ActiveWindowsOf(queue));
    assert Places(a.windows, ActiveWindowsOf(queue)) == ActiveWindowIds(a, queue);
  }

  // ----- what may change ----------------------------------------------------

  predicate BelongsTo(a: Account, queue: Queue, organization: nat) {
    queue.business < |a.businesses| && a.businesses[queue.business].organization == organization
  }

  /** Only flags of the organization's queues are cleared, and of the windows
      of those of its queues that stay active. */
  ghost predicate OnlySwitchesOff(a: Account, c: Account, organization: nat) {
    && c == a.(queues := c.queues, windows := c.windows) && |c.queues| == |a.queues| && |c.windows| == |a.windows|
    && (forall i :: 0 <= i < |a.queues| ==>
          || c.queues[i] == a.queues[i]
          || (BelongsTo(a, a.queues[i], organization) && c.queues[i] == a.queues[i].(isActive := false)))
    && (forall i :: 0 <= i < |a.windows| ==>
          || c.windows[i] == a.windows[i]
          || (a.windows[i].queue < |a.queues| && BelongsTo(a, a.queues[a.windows[i].queue], organization)
              && c.queues[a.windows[i].queue].isActive && c.windows[i] == a.windows[i].(isActive := false)))
  }

  lemma TrimOnlySwitchesOff(a: Account, organization: nat, limit: Limit)
    requires WellFormed(a)
    ensures OnlySwitchesOff(a, Trimmed(a, organization, limit), organization)
  {
  }

  // ----- the oldest stay ----------------------------------------------------

  /** Of two queues of the business, `i` stays active and `j` is switched off. */
  predicate QueueOutlives(a: Account, c: Account, business: nat, i: nat, j: nat)
    requires |c.queues| == |a.queues| && i < |a.queues| && j < |a.queues|
  {
    && a.queues[i].business == business && a.queues[j].business == business
    && c.queues[i].isActive && a.queues[j].isActive && !c.queues[j].isActive
  }

  predicate WindowOutlives(a: Account, c: Account, queue: nat, i: nat, j: nat)
    requires |c.windows| == |a.windows| && i < |a.windows| && j < |a.windows|
  {
    && a.windows[i].queue == queue && a.windows[j].queue == queue
    && c.windows[i].isActive && a.windows[j].isActive && !c.windows[j].isActive
  }

  /** Every queue of the business that stays active was created before every
      one that is switched off. */
  ghost predicate OlderQueuesStay(a: Account, c: Account, business: nat)
    requires |c.queues| == |a.queues|
  {
    forall i, j :: 0 <= i < |a.queues| && 0 <= j < |a.queues| && QueueOutlives(a, c, business, i, j) ==>
      a.queues[i].createdAt < a.queues[j].createdAt
  }

  ghost predicate OlderWindowsStay(a: Account, c: Account, queue: nat)
    requires |c.windows| == |a.windows|
  {
    forall i, j :: 0 <= i < |a.windows| && 0 <= j < |a.windows| && WindowOutlives(a, c, queue, i, j) ==>
      a.windows[i].createdAt < a.windows[j].createdAt
  }

  lemma FewerBeforeMeansOlder(xs: seq<Queue>, x: Queue, y: Queue, n: nat)
    requires CountBefore(xs, x, OlderQueue) < n <= CountBefore(xs, y, OlderQueue)
    ensures x.createdAt < y.createdAt
  {
    AgesAreOrders();
    if y.createdAt <= x.createdAt { CountBeforeMonotone(xs, y, x, OlderQueue); }
  }

  lemma FewerWindowsBeforeMeansOlder(xs: seq<Window>, x: Window, y: Window, n: nat)
    requires CountBefore(xs, x, OlderWindow) < n <= CountBefore(xs, y, OlderWindow)
    ensures x.createdAt < y.createdAt
  {
    AgesAreOrders();
    if y.createdAt <= x.createdAt { CountBeforeMonotone(xs, y, x, OlderWindow); }
  }

  lemma TrimKeepsOlderQueues(a: Account, organization: nat, limit: Limit, business: nat)
    requires WellFormed(a) && business < |a.businesses| && a.businesses[business].organization == organization
    ensures OlderQueuesStay(a, Trimmed(a, organization, limit), business)
  {
    var c, xs := Trimmed(a, organization, limit), ActiveQueues(a, business);
    forall i, j | 0 <= i < |a.queues| && 0 <= j < |a.queues| && QueueOutlives(a, c, business, i, j)
      ensures a.queues[i].createdAt < a.queues[j].createdAt
    {
      assert i !in ExcessQueueIds(a, organization, limit) && j in ExcessQueueIds(a, organization, limit);
      FewerBeforeMeansOlder(xs, a.queues[i], a.queues[j], limit.maxQueues);
    }
  }

  lemma TrimKeepsOlderWindows(a: Account, organization: nat, limit: Limit, queue: nat)
    requires WellFormed(a) && queue < |a.queues| && BelongsTo(a, a.queues[queue], organization)
    ensures OlderWindowsStay(a, Trimmed(a, organization, limit), queue)
  {
    var c, xs := Trimmed(a, organization, limit), ActiveWindows(a, queue);
    forall i, j | 0 <= i < |a.windows| && 0 <= j < |a.windows| && WindowOutlives(a, c, queue, i, j)
      ensures a.windows[i].createdAt < a.windows[j].createdAt
    {
      assert i !in ExcessWindowIds(a, organization, limit) && j in ExcessWindowIds(a, organization, limit);
      FewerWindowsBeforeMeansOlder(xs, a.windows[i], a.windows[j], limit.maxWindows);
    }
  }

  /** The business is left with as many active queues as it had, or the limit
      if that is less. */
  lemma TrimmedQueueCount(a: Account, organization: nat, limit: Limit, business: nat)
    requires WellFormed(a) && business < |a.businesses| && a.businesses[business].organization == organization
    ensures |ActiveQueueIds(Trimmed(a, organization, limit), business)|
         == Least(limit.maxQueues, |ActiveQueueIds(a, business)|)
  {
    OldestQueuesSurvive(a, organization, limit, business);
    ActiveQueuesCount(a, business);
    ActiveQueuesCount(Trimmed(a, organization, limit), business);
  }

  lemma TrimmedWindowCount(a: Account, organization: nat, limit: Limit, queue: nat)
    requires WellFormed(a) && queue < |a.queues| && BelongsTo(a, a.queues[queue], organization)
    requires Trimmed(a, organization, limit).queues[queue].isActive
    ensures |ActiveWindowIds(Trimmed(a, organization, limit), queue)|
         == Least(limit.maxWindows, |ActiveWindowIds(a, queue)|)
  {
    OldestWindowsSurvive(a, organization, limit, queue);
    ActiveWindowsCount(a, queue);
    ActiveWindowsCount(Trimmed(a, organization, limit), queue);
  }

  // ----- main result --------------------------------------------------------

  /** The organization is trimmed: of each business the oldest active queues
      stay, as many as the limit allows, and of each queue that stays the
      oldest active windows; nothing else changes. */
  ghost predicate KeptOldest(a: Account, c: Account, organization: nat, limit: Limit) {
    && OnlySwitchesOff(a, c, organization)
    && (forall b :: 0 <= b < |a.businesses| && a.businesses[b].organization == organization ==>
          && OlderQueuesStay(a, c, b)
          && |ActiveQueueIds(c, b)| == Least(limit.maxQueues, |ActiveQueueIds(a, b)|))
    && (forall q :: 0 <= q < |a.queues| && BelongsTo(a, a.queues[q], organization) && c.queues[q].isActive ==>
          && OlderWindowsStay(a, c, q)
          && |ActiveWindowIds(c, q)| == Least(limit.maxWindows, |ActiveWindowIds(a, q)|))
  }

  lemma TrimmedKeptOldest(a: Account, c: Account, organization: nat, limit: Limit)
    requires WellFormed(a) && c == Trimmed(a, organization, limit)
    ensures KeptOldest(a, c, organization, limit)
  {
    TrimKeepsOldest(a, organization, limit);
  }

  lemma TrimKeepsOldest(a: Account, organization: nat, limit: Limit)
    requires WellFormed(a)
    ensures KeptOldest(a, Trimmed(a, organization, limit), organization, limit)
  {
    var c := Trimmed(a, organization, limit);
    TrimOnlySwitchesOff(a, organization, limit);
    forall b | 0 <= b < |a.businesses| && a.businesses[b].organization == organization
      ensures OlderQueuesStay(a, c, b)
      ensures |ActiveQueueIds(c, b)| == Least(limit.maxQueues, |ActiveQueueIds(a, b)|)
    {
      TrimKeepsOlderQueues(a, organization, limit, b);
      TrimmedQueueCount(a, organization, limit, b);
    }
    forall q | 0 <= q < |a.queues| && BelongsTo(a, a.queues[q], organization) && c.queues[q].isActive
      ensures OlderWindowsStay(a, c, q)
      ensures |ActiveWindowIds(c, q)| == Least(limit.maxWindows, |ActiveWindowIds(a, q)|)
    {
      TrimKeepsOlderWindows(a, organization, limit, q);
      TrimmedWindowCount(a, organization, limit, q);
    }
  }
}
