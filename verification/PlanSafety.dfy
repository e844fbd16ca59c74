/** What every serial run of the account requests keeps. */
module PlanSafety {
  import opened Options
  import opened Sorting
  import opened Plans
  import opened Enforcement

  // ----- the invariant ------------------------------------------------------

  function LimitFor(a: Account, organization: nat): Limit { LimitOf(a, PlanOf(a, organization)) }

  predicate Operating(s: BusinessStatus) { s == Approved || s == Suspended }

  predicate CeilingOk(a: Account, b: nat)
    requires b < |a.businesses|
  {
    |ActiveQueues(a, b)| <= LimitFor(a, a.businesses[b].organization).maxQueues
  }

  predicate FloorOk(a: Account, b: nat)
    requires b < |a.businesses|
  {
    Operating(a.businesses[b].status) ==> 1 <= |ActiveQueues(a, b)|
  }

  /** The queue's windows fit the plan, and its business has an active queue. */
  predicate QueueOk(a: Account, q: nat)
    requires q < |a.queues|
  {
    && a.queues[q].business < |a.businesses|
    && |ActiveWindows(a, q)| <= LimitFor(a, a.businesses[a.queues[q].business].organization).maxWindows
    && 1 <= |ActiveQueues(a, a.queues[q].business)|
  }

  /** The plan bounds, but for the floor of the exempted business. */
  ghost predicate CountsOk(a: Account, exempt: Option<nat>) {
    && (forall b :: 0 <= b < |a.businesses| ==> CeilingOk(a, b) && (Some(b) != exempt ==> FloorOk(a, b)))
    && (forall q :: 0 <= q < |a.queues| ==> QueueOk(a, q))
  }

  ghost predicate Stamped(a: Account) {
    && (forall i :: 0 <= i < |a.queues| ==> a.queues[i].createdAt < a.clock)
    && (forall i :: 0 <= i < |a.windows| ==> a.windows[i].createdAt < a.clock)
  }

  /** Stored prefixes are upper case and differ within a business. */
  ghost predicate PrefixesOk(queues: seq<Queue>) {
    && (forall i :: 0 <= i < |queues| ==> Upper(queues[i].prefix) == queues[i].prefix)
    && (forall i, j ::
          0 <= i < j < |queues| && queues[i].business == queues[j].business ==> queues[i].prefix != queues[j].prefix)
  }

  /** What holds of the tables however full they are: no plan is involved. */
  ghost predicate Aged(a: Account) { WellFormed(a) && Stamped(a) }

  ghost predicate TablesOk(a: Account) { Aged(a) && PrefixesOk(a.queues) }

  ghost predicate PlanInv(a: Account) { TablesOk(a) && CountsOk(a, None) }

  /** The invariant, spelled out. */
  lemma PlanBounds(a: Account)
    requires PlanInv(a)
    ensures forall b :: 0 <= b < |a.businesses| && Operating(a.businesses[b].status) ==>
      1 <= |ActiveQueues(a, b)| <= LimitOf(a, PlanOf(a, a.businesses[b].organization)).maxQueues
    ensures forall q :: 0 <= q < |a.queues| ==>
      |ActiveWindows(a, q)| <= LimitOf(a, PlanOf(a, a.businesses[a.queues[q].business].organization)).maxWindows
    ensures forall i, j :: 0 <= i < j < |a.queues| && a.queues[i].business == a.queues[j].business ==>
      a.queues[i].prefix != a.queues[j].prefix
  {
    forall b | 0 <= b < |a.businesses| && Operating(a.businesses[b].status)
      ensures 1 <= |ActiveQueues(a, b)| <= LimitOf(a, PlanOf(a, a.businesses[b].organization)).maxQueues
    {
      assert CeilingOk(a, b) && FloorOk(a, b);
    }
    forall q | 0 <= q < |a.queues|
      ensures |ActiveWindows(a, q)| <= LimitOf(a, PlanOf(a, a.businesses[a.queues[q].business].organization)).maxWindows
    {
      assert QueueOk(a, q);
    }
  }

  // ----- how the counts move ------------------------------------------------

  lemma {:induction false} NoRowsNoCount(queues: seq<Queue>, business: nat)
    requires forall i :: 0 <= i < |queues| ==> queues[i].business != business
    ensures Filter(queues, ActiveQueuesOf(business)) == []
  {
    if queues != [] { NoRowsNoCount(queues[1..], business); }
  }

  lemma {:induction false} NoWindowsNoCount(windows: seq<Window>, queue: nat)
    requires forall i :: 0 <= i < |windows| ==> windows[i].queue != queue
    ensures Filter(windows, ActiveWindowsOf(queue)) == []
  {
    if windows != [] { NoWindowsNoCount(windows[1..], queue); }
  }

  lemma CountsAfterWithQueue(a: Account, business: nat, prefix: Prefix)
    requires WellFormed(a)
    ensures var c := WithQueue(a, business, prefix);
      && (forall b: nat :: |ActiveQueues(c, b)| == |ActiveQueues(a, b)| + (if b == business then 1 else 0))
      && (forall q: nat :: q < |a.queues| ==> ActiveWindows(c, q) == ActiveWindows(a, q))
      && |ActiveWindows(c, |a.queues|)| == 1
  {
    var c := WithQueue(a, business, prefix);
    var queue, window := c.queues[|a.queues|], c.windows[|a.windows|];
    forall b: nat ensures |ActiveQueues(c, b)| == |ActiveQueues(a, b)| + (if b == business then 1 else 0) {
      FilterAppend(a.queues, queue, ActiveQueuesOf(b));
    }
    forall q: nat ensures ActiveWindows(c, q) == ActiveWindows(a, q) + (if q == |a.queues| then [window] else []) {
      FilterAppend(a.windows, window, ActiveWindowsOf(q));
    }
    NoWindowsNoCount(a.windows, |a.queues|);
  }

  lemma CountsAfterQueueFlag(a: Account, id: nat, on: bool)
    requires WellFormed(a) && id < |a.queues| && a.queues[id].isActive != on
    ensures var c := a.(queues := a.queues[id := a.queues[id].(isActive := on)]);
      forall b: nat ::
        if b != a.queues[id].business then |ActiveQueues(c, b)| == |ActiveQueues(a, b)|
        else if on then |ActiveQueues(c, b)| == |ActiveQueues(a, b)| + 1
        else |ActiveQueues(c, b)| + 1 == |ActiveQueues(a, b)|
  {
    var c := a.(queues := a.queues[id := a.queues[id].(isActive := on)]);
    forall b: nat ensures |ActiveQueues(c, b)| + (if ActiveQueuesOf(b)(a.queues[id]) then 1 else 0)
                       == |ActiveQueues(a, b)| + (if ActiveQueuesOf(b)(c.queues[id]) then 1 else 0) {
      FilterUpdate(a.queues, id, c.queues[id], ActiveQueuesOf(b));
    }
  }

  lemma CountsAfterWindowFlag(a: Account, id: nat, on: bool)
    requires WellFormed(a) && id < |a.windows| && a.windows[id].isActive != on
    ensures var c := a.(windows := a.windows[id := a.windows[id].(isActive := on)]);
      forall q: nat ::
        if q != a.windows[id].queue then |ActiveWindows(c, q)| == |ActiveWindows(a, q)|
        else if on then |ActiveWindows(c, q)| == |ActiveWindows(a, q)| + 1
        else |ActiveWindows(c, q)| + 1 == |ActiveWindows(a, q)|
  {
    var c := a.(windows := a.windows[id := a.windows[id].(isActive := on)]);
    forall q: nat ensures |ActiveWindows(c, q)| + (if ActiveWindowsOf(q)(a.windows[id]) then 1 else 0)
                       == |ActiveWindows(a, q)| + (if ActiveWindowsOf(q)(c.windows[id]) then 1 else 0) {
      FilterUpdate(a.windows, id, c.windows[id], ActiveWindowsOf(q));
    }
  }

  lemma CountsAfterWindow(a: Account, window: Window, clock: int)
    requires window.isActive
    ensures var c := a.(windows := a.windows + [window], clock := clock);
      forall q: nat :: |ActiveWindows(c, q)| == |ActiveWindows(a, q)| + (if q == window.queue then 1 else 0)
  {
    var c := a.(windows := a.windows + [window], clock := clock);
    forall q: nat ensures |ActiveWindows(c, q)| == |ActiveWindows(a, q)| + (if q == window.queue then 1 else 0) {
      FilterAppend(a.windows, window, ActiveWindowsOf(q));
    }
  }

  /** The toggles count the other rows; that is the whole count when the row
      itself is off. */
  lemma OthersAreAllQueues(a: Account, id: nat)
    requires WellFormed(a) && id < |a.queues|
    ensures OtherActiveQueues(a, a.queues[id]) + (if a.queues[id].isActive then 1 else 0)
         == |ActiveQueues(a, a.queues[id].business)|
  {
    var queue := a.queues[id];
    var others := (q: Queue) => q.business == queue.business && q.id != queue.id && q.isActive;
    var off := queue.(isActive := false);
    FilterUpdate(a.queues, id, off, ActiveQueuesOf(queue.business));
    FilterUpdate(a.queues, id, off, others);
    var rows := a.queues[id := off];
    forall q | q in rows ensures others(q) <==> ActiveQueuesOf(queue.business)(q) {
      var i :| 0 <= i < |rows| && rows[i] == q;
    }
    FilterSame(rows, others, ActiveQueuesOf(queue.business));
  }

  lemma OthersAreAllWindows(a: Account, id: nat)
    requires WellFormed(a) && id < |a.windows|
    ensures OtherActiveWindows(a, a.windows[id]) + (if a.windows[id].isActive then 1 else 0)
         == |ActiveWindows(a, a.windows[id].queue)|
  {
    var window := a.windows[id];
    var others := (w: Window) => w.queue == window.queue && w.id != window.id && w.isActive;
    var off := window.(isActive := false);
    FilterUpdate(a.windows, id, off, ActiveWindowsOf(window.queue));
    FilterUpdate(a.windows, id, off, others);
    var rows := a.windows[id := off];
    forall w | w in rows ensures others(w) <==> ActiveWindowsOf(window.queue)(w) {
      var i :| 0 <= i < |rows| && rows[i] == w;
    }
    FilterSame(rows, others, ActiveWindowsOf(window.queue));
  }

  /** What trimming an organization does to every count. */
  lemma CountsAfterTrim(a: Account, organization: nat, limit: Limit)
    requires WellFormed(a)
    ensures var c := Trimmed(a, organization, limit);
      && (forall b :: 0 <= b < |a.businesses| ==>
            if a.businesses[b].organization == organization
            then |ActiveQueues(c, b)| == Least(limit.maxQueues, |ActiveQueues(a, b)|)
            else ActiveQueues(c, b) == ActiveQueues(a, b))
      && (forall q :: 0 <= q < |a.queues| ==>
            && |ActiveWindows(c, q)| <= |ActiveWindows(a, q)|
            && (OrganizationOf(a, a.queues[q]) == Some(organization) && c.queues[q].isActive ==>
                  |ActiveWindows(c, q)| == Least(limit.maxWindows, |ActiveWindows(a, q)|)))
  {
    var c := Trimmed(a, organization, limit);
    var queueIds, windowIds := ExcessQueueIds(a, organization, limit), ExcessWindowIds(a, organization, limit);
    forall b | 0 <= b < |a.businesses|
      ensures if a.businesses[b].organization == organization
              then |ActiveQueues(c, b)| == Least(limit.maxQueues, |ActiveQueues(a, b)|)
              else ActiveQueues(c, b) == ActiveQueues(a, b)
    {
      if a.businesses[b].organization == organization {
        OldestQueuesSurvive(a, organization, limit, b);
      } else {
        ActiveQueuesAfterOff(a.queues, queueIds, b);
        forall q | q in ActiveQueues(a, b) ensures QueueNotIn(queueIds)(q) { ActiveQueueIsRow(a, b, q); }
        FilterAll(ActiveQueues(a, b), QueueNotIn(queueIds));
      }
    }
    forall q | 0 <= q < |a.queues|
      ensures |ActiveWindows(c, q)| <= |ActiveWindows(a, q)|
      ensures OrganizationOf(a, a.queues[q]) == Some(organization) && c.queues[q].isActive ==>
        |ActiveWindows(c, q)| == Least(limit.maxWindows, |ActiveWindows(a, q)|)
    {
      ActiveWindowsAfterOff(a.windows, windowIds, q);
      FilterLength(ActiveWindows(a, q), WindowNotIn(windowIds), WindowNotIn(windowIds));
      if OrganizationOf(a, a.queues[q]) == Some(organization) && c.queues[q].isActive {
        OldestWindowsSurvive(a, organization, limit, q);
      }
    }
  }

  // ----- what a request leaves ----------------------------------------------

  function QueueFlag(a: Account, id: nat, on: bool): Account
    requires id < |a.queues|
  {
    a.(queues := a.queues[id := a.queues[id].(isActive := on)])
  }

  function WindowFlag(a: Account, id: nat, on: bool): Account
    requires id < |a.windows|
  {
    a.(windows := a.windows[id := a.windows[id].(isActive := on)])
  }

  function NewWindow(a: Account, queue: nat): Account {
    a.(windows := a.windows + [Window(|a.windows|, queue, true, a.clock)], clock := a.clock + 1)
  }

  function NewBusiness(a: Account, organization: nat, owner: nat): Account {
    a.(businesses := a.businesses + [Business(organization, owner, Pending)])
  }

  function OwnerOf(a: Account, queue: nat): nat
    requires WellFormed(a) && queue < |a.queues|
  {
    a.businesses[a.queues[queue].business].organization
  }

  predicate RoomForQueue(a: Account, business: nat)
    requires business < |a.businesses|
  {
    |ActiveQueues(a, business)| < LimitFor(a, a.businesses[business].organization).maxQueues
  }

  predicate RoomForWindow(a: Account, queue: nat)
    requires queue < |a.queues| && a.queues[queue].business < |a.businesses|
  {
    |ActiveWindows(a, queue)| < LimitFor(a, a.businesses[a.queues[queue].business].organization).maxWindows
  }

  predicate PrefixFree(a: Account, business: nat, prefix: Prefix) {
    forall i :: 0 <= i < |a.queues| && a.queues[i].business == business ==> Upper(a.queues[i].prefix) != Upper(prefix)
  }

  /** A request that the gate stops, or that fails behind it, leaves the
      account as it was or as the gate left it. */
  predicate Stopped(a: Account, c: Account, organization: nat) {
    c == a || c == Gate(a, organization).0
  }

  lemma GateOpens(a: Account, organization: nat)
    requires Gate(a, organization).1
    ensures Gate(a, organization).0 == Resolve(a, organization)
  {
  }

  lemma PrefixTaken(a: Account, c: Account, business: nat, prefix: Prefix)
    requires c.queues == a.queues
    ensures (exists q :: q in a.queues && q.business == business && Upper(q.prefix) == Upper(prefix))
      <==> !PrefixFree(c, business, prefix)
  {
    if !PrefixFree(c, business, prefix) {
      var i :| 0 <= i < |c.queues| && c.queues[i].business == business && Upper(c.queues[i].prefix) == Upper(prefix);
      assert a.queues[i] in a.queues;
    }
  }

  lemma QueueCreated(a: Account, business: nat, prefix: Prefix)
    requires business < |a.businesses|
    ensures var organization := a.businesses[business].organization;
            var resolved := Resolve(a, organization);
            var (c, code) := DoCreateQueue(a, business, prefix);
      && (code != Ok ==> Stopped(a, c, organization))
      && (code == Ok ==>
            && Gate(a, organization).1 && RoomForQueue(resolved, business) && PrefixFree(resolved, business, prefix)
            && c == WithQueue(resolved, business, Upper(prefix)))
  {
    var organization := a.businesses[business].organization;
    var resolved := Resolve(a, organization);
    assert ActiveQueues(resolved, business) == ActiveQueues(a, business);
    PrefixTaken(a, resolved, business, prefix);
    if Gate(a, organization).1 { GateOpens(a, organization); }
  }

  lemma QueueToggled(a: Account, id: nat)
    requires WellFormed(a) && id < |a.queues|
    ensures var organization := OwnerOf(a, id);
            var resolved := Resolve(a, organization);
            var (c, code) := DoToggleQueue(a, id);
      && (code != Ok ==> Stopped(a, c, organization))
      && (code == Ok && a.queues[id].isActive ==>
            |ActiveQueues(a, a.queues[id].business)| > 1 && c == QueueFlag(a, id, false))
      && (code == Ok && !a.queues[id].isActive ==>
            && Gate(a, organization).1 && RoomForQueue(resolved, a.queues[id].business)
            && c == QueueFlag(resolved, id, true))
  {
    var organization := OwnerOf(a, id);
    OthersAreAllQueues(a, id);
    assert ActiveQueues(Resolve(a, organization), a.queues[id].business) == ActiveQueues(a, a.queues[id].business);
    if Gate(a, organization).1 { GateOpens(a, organization); }
  }

  lemma WindowCreated(a: Account, queue: nat)
    requires WellFormed(a) && queue < |a.queues|
    ensures var organization := OwnerOf(a, queue);
            var (c, code) := DoCreateWindow(a, queue);
      && (code != Ok ==> Stopped(a, c, organization))
      && (code == Ok ==>
            && Gate(a, organization).1 && RoomForWindow(Resolve(a, organization), queue)
            && c == NewWindow(Resolve(a, organization), queue))
  {
    var organization := OwnerOf(a, queue);
    assert ActiveWindows(Resolve(a, organization), queue) == ActiveWindows(a, queue);
    if Gate(a, organization).1 { GateOpens(a, organization); }
  }

  lemma WindowToggled(a: Account, id: nat, occupied: bool)
    requires WellFormed(a) && id < |a.windows|
    ensures var queue := a.windows[id].queue; var organization := OwnerOf(a, queue);
            var resolved := Resolve(a, organization);
            var (c, code) := DoToggleWindow(a, id, occupied);
      && (code != Ok ==> Stopped(a, c, organization))
      && (code == Ok && a.windows[id].isActive ==> c == WindowFlag(a, id, false))
      && (code == Ok && !a.windows[id].isActive ==>
            Gate(a, organization).1 && RoomForWindow(resolved, queue) && c == WindowFlag(resolved, id, true))
  {
    var queue := a.windows[id].queue;
    var organization := OwnerOf(a, queue);
    OthersAreAllWindows(a, id);
    assert ActiveWindows(Resolve(a, organization), queue) == ActiveWindows(a, queue);
    if Gate(a, organization).1 { GateOpens(a, organization); }
  }

  function Approval(a: Account, business: nat): Account
    requires business < |a.businesses|
  {
    StartTrial(Accept(a, business), a.businesses[business].organization)
  }

  lemma BusinessApproved(a: Account, business: nat, organizationApproved: bool, noteMissing: bool)
    requires business < |a.businesses|
    ensures var resolved := Resolve(a, a.businesses[business].organization);
            var approved := Approval(resolved, business);
            var (c, code) := DoApprove(a, business, organizationApproved, noteMissing);
      && (code != Ok ==> c == a || c == resolved)
      && (code == Ok ==> !IsLapsed(resolved, a.businesses[business].organization))
      && (code == Ok && ActiveQueues(resolved, business) != [] ==> c == approved)
      && (code == Ok && ActiveQueues(resolved, business) == [] ==> c == WithQueue(approved, business, "A"))
  {
    assert ActiveQueues(Resolve(a, a.businesses[business].organization), business) == ActiveQueues(a, business);
  }

  lemma BusinessRegistered(a: Account, organization: nat, owner: nat)
    ensures var resolved := Resolve(a, organization);
            var (c, code) := DoRegister(a, organization, owner);
      && (code != Ok ==> c == resolved)
      && (code == Ok ==> !IsLapsed(resolved, organization) && c == NewBusiness(resolved, organization, owner))
  {
  }

  // ----- every request keeps the tables sound -------------------------------

  /** Flags, businesses, subscriptions and the clock do not matter here. */
  ghost predicate SameBirths(a: Account, c: Account) {
    && |c.queues| == |a.queues| && |c.windows| == |a.windows| && |a.businesses| <= |c.businesses| && a.clock <= c.clock
    && (forall i :: 0 <= i < |a.queues| ==> c.queues[i] == a.queues[i].(isActive := c.queues[i].isActive))
    && (forall i :: 0 <= i < |a.windows| ==> c.windows[i] == a.windows[i].(isActive := c.windows[i].isActive))
  }

  lemma SameBirthsKeepAged(a: Account, c: Account)
    requires Aged(a) && SameBirths(a, c)
    ensures Aged(c)
  {
  }

  lemma SameBirthsKeepTables(a: Account, c: Account)
    requires TablesOk(a) && SameBirths(a, c)
    ensures TablesOk(c)
  {
    SameBirthsKeepAged(a, c);
  }

  lemma GateKeepsBirths(a: Account, organization: nat)
    ensures SameBirths(a, Resolve(a, organization)) && SameBirths(a, Gate(a, organization).0)
  {
  }

  lemma WithQueueKeepsAged(a: Account, business: nat, prefix: Prefix)
    requires Aged(a) && business < |a.businesses|
    ensures Aged(WithQueue(a, business, prefix))
  {
  }

  lemma NewWindowKeepsAged(a: Account, queue: nat)
    requires Aged(a) && queue < |a.queues|
    ensures Aged(NewWindow(a, queue))
  {
  }

  lemma GateKeepsAged(a: Account, organization: nat)
    requires Aged(a)
    ensures Aged(Resolve(a, organization)) && Aged(Gate(a, organization).0)
  {
    GateKeepsBirths(a, organization);
    SameBirthsKeepAged(a, Resolve(a, organization));
    SameBirthsKeepAged(a, Gate(a, organization).0);
  }

  lemma FlagKeepsAged(a: Account, id: nat, on: bool)
    requires Aged(a)
    ensures id < |a.queues| ==> Aged(QueueFlag(a, id, on))
    ensures id < |a.windows| ==> Aged(WindowFlag(a, id, on))
  {
    if id < |a.queues| { SameBirthsKeepAged(a, QueueFlag(a, id, on)); }
    if id < |a.windows| { SameBirthsKeepAged(a, WindowFlag(a, id, on)); }
  }

  lemma CreateQueueKeepsAged(a: Account, business: nat, prefix: Prefix)
    requires Aged(a)
    ensures Aged(Do(a, CreateQueue(business, prefix)).0)
  {
    if business < |a.businesses| {
      var organization := a.businesses[business].organization;
      GateKeepsAged(a, organization);
      QueueCreated(a, business, prefix);
      WithQueueKeepsAged(Resolve(a, organization), business, Upper(prefix));
    }
  }

  lemma ToggleQueueKeepsAged(a: Account, id: nat)
    requires Aged(a)
    ensures Aged(Do(a, ToggleQueue(id)).0)
  {
    if id < |a.queues| {
      var organization := OwnerOf(a, id);
      GateKeepsAged(a, organization);
      QueueToggled(a, id);
      FlagKeepsAged(a, id, false);
      FlagKeepsAged(Resolve(a, organization), id, true);
    }
  }

  lemma CreateWindowKeepsAged(a: Account, queue: nat)
    requires Aged(a)
    ensures Aged(Do(a, CreateWindow(queue)).0)
  {
    if queue < |a.queues| {
      var organization := OwnerOf(a, queue);
      GateKeepsAged(a, organization);
      WindowCreated(a, queue);
      NewWindowKeepsAged(Resolve(a, organization), queue);
    }
  }

  lemma ToggleWindowKeepsAged(a: Account, id: nat, occupied: bool)
    requires Aged(a)
    ensures Aged(Do(a, ToggleWindow(id, occupied)).0)
  {
    if id < |a.windows| {
      var organization := OwnerOf(a, a.windows[id].queue);
      GateKeepsAged(a, organization);
      WindowToggled(a, id, occupied);
      FlagKeepsAged(a, id, false);
      FlagKeepsAged(Resolve(a, organization), id, true);
    }
  }

  lemma ApprovalKeepsAged(a: Account, business: nat)
    requires Aged(a) && business < |a.businesses|
    ensures Aged(Approval(a, business)) && Aged(WithQueue(Approval(a, business), business, "A"))
  {
    SameBirthsKeepAged(a, Approval(a, business));
    WithQueueKeepsAged(Approval(a, business), business, "A");
  }

  lemma ApproveKeepsAged(a: Account, business: nat, organizationApproved: bool, noteMissing: bool)
    requires Aged(a)
    ensures Aged(Do(a, Approve(business, organizationApproved, noteMissing)).0)
  {
    if business < |a.businesses| {
      var organization := a.businesses[business].organization;
      GateKeepsAged(a, organization);
      BusinessApproved(a, business, organizationApproved, noteMissing);
      ApprovalKeepsAged(Resolve(a, organization), business);
    }
  }

  lemma CancelKeepsAged(a: Account, organization: nat)
    requires Aged(a)
    ensures Aged(Do(a, CancelAndEnforce(organization)).0)
  {
    SameBirthsKeepAged(a, DoCancelAndEnforce(a, organization).0);
  }

  lemma NewBusinessKeepsAged(a: Account, organization: nat, owner: nat)
    requires Aged(a)
    ensures Aged(NewBusiness(a, organization, owner))
  {
    SameBirthsKeepAged(a, NewBusiness(a, organization, owner));
  }

  lemma RegisterKeepsAged(a: Account, organization: nat, owner: nat)
    requires Aged(a)
    ensures Aged(Do(a, Register(organization, owner)).0)
  {
    GateKeepsAged(a, organization);
    BusinessRegistered(a, organization, owner);
    NewBusinessKeepsAged(Resolve(a, organization), organization, owner);
  }

  lemma OtherRequestKeepsAged(a: Account, r: Request)
    requires Aged(a)
    requires r.Reject? || r.Suspend? || r.Reactivate? || r.ChangePlan? || r.Activate? || r.Observe? || r.Wait?
    ensures Aged(Do(a, r).0)
  {
    SameBirthsKeepAged(a, Do(a, r).0);
  }

  lemma EveryRequestKeepsAged(a: Account, r: Request)
    requires Aged(a)
    ensures Aged(Do(a, r).0)
  {
    match r
    case CreateQueue(business, prefix) => CreateQueueKeepsAged(a, business, prefix);
    case ToggleQueue(queue) => ToggleQueueKeepsAged(a, queue);
    case CreateWindow(line) => CreateWindowKeepsAged(a, line);
    case ToggleWindow(window, occupied) => ToggleWindowKeepsAged(a, window, occupied);
    case Approve(candidate, organizationApproved, noteMissing) =>
      ApproveKeepsAged(a, candidate, organizationApproved, noteMissing);
    case CancelAndEnforce(organization) => CancelKeepsAged(a, organization);
    case Register(organization, owner) => RegisterKeepsAged(a, organization, owner);
    case _ => OtherRequestKeepsAged(a, r);
  }

  lemma {:induction false} EveryRunKeepsAged(a: Account, requests: seq<Request>)
    requires Aged(a)
    ensures Aged(RunAll(a, requests))
  {
    if requests != [] {
      EveryRunKeepsAged(a, requests[..|requests| - 1]);
      EveryRequestKeepsAged(RunAll(a, requests[..|requests| - 1]), requests[|requests| - 1]);
    }
  }

  // ----- every request keeps the invariant ----------------------------------

  lemma TrimKeepsCounts(a: Account, organization: nat)
    requires WellFormed(a) && CountsOk(a, None)
    ensures CountsOk(Trimmed(a, organization, LimitOf(a, Basic)), None)
  {
    var c := Trimmed(a, organization, LimitOf(a, Basic));
    CountsAfterTrim(a, organization, LimitOf(a, Basic));
    forall b | 0 <= b < |c.businesses|
      ensures CeilingOk(c, b) && FloorOk(c, b)
    {
      assert CeilingOk(a, b) && FloorOk(a, b);
    }
    forall q | 0 <= q < |c.queues| ensures QueueOk(c, q) { assert QueueOk(a, q); }
  }

  lemma TrimKeepsInv(a: Account, organization: nat)
    requires PlanInv(a)
    ensures PlanInv(Trimmed(a, organization, LimitOf(a, Basic)))
  {
    SameBirthsKeepTables(a, Trimmed(a, organization, LimitOf(a, Basic)));
    TrimKeepsCounts(a, organization);
  }

  /** Same rows, same plans: same bounds. */
  lemma SameRowsSameCounts(a: Account, c: Account, exempt: Option<nat>)
    requires CountsOk(a, exempt) && c.limits == a.limits && c.queues == a.queues && c.windows == a.windows
    requires |c.businesses| == |a.businesses|
    requires forall o: nat :: PlanOf(c, o) == PlanOf(a, o)
    requires forall b :: 0 <= b < |a.businesses| ==> c.businesses[b].organization == a.businesses[b].organization
    requires forall b :: 0 <= b < |a.businesses| && Some(b) != exempt && Operating(c.businesses[b].status) ==>
      Operating(a.businesses[b].status)
    ensures CountsOk(c, exempt)
  {
    forall b | 0 <= b < |c.businesses| ensures CeilingOk(c, b) && (Some(b) != exempt ==> FloorOk(c, b)) {
      assert ActiveQueues(c, b) == ActiveQueues(a, b);
      assert CeilingOk(a, b) && (Some(b) != exempt ==> FloorOk(a, b));
    }
    forall q | 0 <= q < |c.queues| ensures QueueOk(c, q) {
      assert QueueOk(a, q);
      assert ActiveWindows(c, q) == ActiveWindows(a, q);
      assert ActiveQueues(c, c.queues[q].business) == ActiveQueues(a, a.queues[q].business);
    }
  }

  lemma ResolveKeepsInv(a: Account, organization: nat)
    requires PlanInv(a)
    ensures PlanInv(Resolve(a, organization))
  {
    SameBirthsKeepTables(a, Resolve(a, organization));
    SameRowsSameCounts(a, Resolve(a, organization), None);
  }

  lemma GateKeepsInv(a: Account, organization: nat)
    requires PlanInv(a)
    ensures PlanInv(Resolve(a, organization)) && PlanInv(Gate(a, organization).0)
  {
    ResolveKeepsInv(a, organization);
    TrimKeepsInv(Resolve(a, organization), organization);
  }

  lemma WithQueueKeepsPrefixes(a: Account, business: nat, prefix: Prefix)
    requires PrefixesOk(a.queues) && Upper(prefix) == prefix && PrefixFree(a, business, prefix)
    ensures PrefixesOk(WithQueue(a, business, prefix).queues)
  {
  }

  /** A new queue with its window fits if the business has room for it. */
  lemma WithQueueKeepsCounts(a: Account, business: nat, prefix: Prefix)
    requires WellFormed(a) && CountsOk(a, Some(business)) && business < |a.businesses| && RoomForQueue(a, business)
    ensures CountsOk(WithQueue(a, business, prefix), None)
  {
    var c := WithQueue(a, business, prefix);
    CountsAfterWithQueue(a, business, prefix);
    forall b | 0 <= b < |c.businesses| ensures CeilingOk(c, b) && FloorOk(c, b) {
      assert CeilingOk(a, b) && (b != business ==> FloorOk(a, b));
    }
    forall q | 0 <= q < |c.queues| ensures QueueOk(c, q) {
      if q < |a.queues| { assert QueueOk(a, q); }
    }
  }

  lemma WithQueueKeepsInv(a: Account, business: nat, prefix: Prefix)
    requires TablesOk(a) && CountsOk(a, Some(business)) && business < |a.businesses| && RoomForQueue(a, business)
    requires Upper(prefix) == prefix && PrefixFree(a, business, prefix)
    ensures PlanInv(WithQueue(a, business, prefix))
  {
    WithQueueKeepsAged(a, business, prefix);
    WithQueueKeepsPrefixes(a, business, prefix);
    WithQueueKeepsCounts(a, business, prefix);
  }

  lemma ExemptingIsWeaker(a: Account, b: nat)
    requires CountsOk(a, None)
    ensures CountsOk(a, Some(b))
  {
  }

  lemma CreateQueueKeepsInv(a: Account, business: nat, prefix: Prefix)
    requires PlanInv(a)
    ensures PlanInv(Do(a, CreateQueue(business, prefix)).0)
  {
    if business < |a.businesses| {
      var resolved := Resolve(a, a.businesses[business].organization);
      GateKeepsInv(a, a.businesses[business].organization);
      QueueCreated(a, business, prefix);
      if DoCreateQueue(a, business, prefix).1 == Ok {
        ExemptingIsWeaker(resolved, business);
        WithQueueKeepsInv(resolved, business, Upper(prefix));
      }
    }
  }

  lemma QueueFlagKeepsInv(a: Account, id: nat, on: bool)
    requires PlanInv(a) && id < |a.queues| && a.queues[id].isActive != on
    requires if on then RoomForQueue(a, a.queues[id].business) else |ActiveQueues(a, a.queues[id].business)| > 1
    ensures PlanInv(QueueFlag(a, id, on))
  {
    var c := QueueFlag(a, id, on);
    SameBirthsKeepTables(a, c);
    CountsAfterQueueFlag(a, id, on);
    forall b | 0 <= b < |c.businesses|
      ensures CeilingOk(c, b) && FloorOk(c, b)
    {
      assert CeilingOk(a, b) && FloorOk(a, b);
    }
    forall q | 0 <= q < |c.queues| ensures QueueOk(c, q) {
      assert QueueOk(a, q);
      assert ActiveWindows(c, q) == ActiveWindows(a, q);
    }
  }

  lemma ToggleQueueKeepsInv(a: Account, id: nat)
    requires PlanInv(a)
    ensures PlanInv(Do(a, ToggleQueue(id)).0)
  {
    if id < |a.queues| {
      GateKeepsInv(a, OwnerOf(a, id));
      QueueToggled(a, id);
      if DoToggleQueue(a, id).1 == Ok {
        if a.queues[id].isActive {
          QueueFlagKeepsInv(a, id, false);
        } else {
          QueueFlagKeepsInv(Resolve(a, OwnerOf(a, id)), id, true);
        }
      }
    }
  }

  lemma NewWindowKeepsInv(a: Account, queue: nat)
    requires PlanInv(a) && queue < |a.queues| && RoomForWindow(a, queue)
    ensures PlanInv(NewWindow(a, queue))
  {
    var c := NewWindow(a, queue);
    NewWindowKeepsAged(a, queue);
    CountsAfterWindow(a, Window(|a.windows|, queue, true, a.clock), a.clock + 1);
    forall b | 0 <= b < |c.businesses| ensures CeilingOk(c, b) && FloorOk(c, b) {
      assert CeilingOk(a, b) && FloorOk(a, b);
      assert ActiveQueues(c, b) == ActiveQueues(a, b);
    }
    forall q | 0 <= q < |c.queues| ensures QueueOk(c, q) {
      assert QueueOk(a, q);
      assert ActiveQueues(c, c.queues[q].business) == ActiveQueues(a, c.queues[q].business);
    }
  }

  lemma CreateWindowKeepsInv(a: Account, queue: nat)
    requires PlanInv(a)
    ensures PlanInv(Do(a, CreateWindow(queue)).0)
  {
    if queue < |a.queues| {
      GateKeepsInv(a, OwnerOf(a, queue));
      WindowCreated(a, queue);
      if DoCreateWindow(a, queue).1 == Ok { NewWindowKeepsInv(Resolve(a, OwnerOf(a, queue)), queue); }
    }
  }

  lemma WindowFlagKeepsInv(a: Account, id: nat, on: bool)
    requires PlanInv(a) && id < |a.windows| && a.windows[id].isActive != on
    requires on ==> RoomForWindow(a, a.windows[id].queue)
    ensures PlanInv(WindowFlag(a, id, on))
  {
    var c := WindowFlag(a, id, on);
    SameBirthsKeepTables(a, c);
    CountsAfterWindowFlag(a, id, on);
    forall b | 0 <= b < |c.businesses| ensures CeilingOk(c, b) && FloorOk(c, b) {
      assert CeilingOk(a, b) && FloorOk(a, b);
      assert ActiveQueues(c, b) == ActiveQueues(a, b);
    }
    forall q | 0 <= q < |c.queues| ensures QueueOk(c, q) {
      assert QueueOk(a, q);
      assert ActiveQueues(c, c.queues[q].business) == ActiveQueues(a, c.queues[q].business);
    }
  }

  lemma ToggleWindowKeepsInv(a: Account, id: nat, occupied: bool)
    requires PlanInv(a)
    ensures PlanInv(Do(a, ToggleWindow(id, occupied)).0)
  {
    if id < |a.windows| {
      var organization := OwnerOf(a, a.windows[id].queue);
      GateKeepsInv(a, organization);
      WindowToggled(a, id, occupied);
      if DoToggleWindow(a, id, occupied).1 == Ok {
        if a.windows[id].isActive {
          WindowFlagKeepsInv(a, id, false);
        } else {
          WindowFlagKeepsInv(Resolve(a, organization), id, true);
        }
      }
    }
  }

  /** Moving between approved and suspended, or out of operation. */
  lemma StatusChangeKeepsInv(a: Account, business: nat, status: BusinessStatus)
    requires PlanInv(a) && business < |a.businesses|
    requires Operating(status) ==> Operating(a.businesses[business].status)
    ensures PlanInv(SetStatus(a, business, status))
  {
    SameBirthsKeepTables(a, SetStatus(a, business, status));
    SameRowsSameCounts(a, SetStatus(a, business, status), None);
  }

  lemma ApprovalKeepsBounds(a: Account, business: nat)
    requires PlanInv(a) && business < |a.businesses|
    ensures var approved := Approval(a, business);
      && TablesOk(approved) && CountsOk(approved, Some(business))
      && ActiveQueues(approved, business) == ActiveQueues(a, business)
  {
    var approved := Approval(a, business);
    SameBirthsKeepTables(a, approved);
    ExemptingIsWeaker(a, business);
    assert forall o: nat :: PlanOf(approved, o) == PlanOf(a, o);
    SameRowsSameCounts(a, approved, Some(business));
    assert ActiveQueues(approved, business) == ActiveQueues(a, business);
  }

  /** No active queue means no queue at all: the prefix is free. */
  lemma FirstQueueFits(a: Account, business: nat, prefix: Prefix)
    requires CountsOk(a, Some(business)) && business < |a.businesses| && ActiveQueues(a, business) == []
    ensures RoomForQueue(a, business) && PrefixFree(a, business, prefix)
  {
    forall i | 0 <= i < |a.queues| ensures a.queues[i].business != business { assert QueueOk(a, i); }
  }

  lemma FloorRestored(a: Account, business: nat)
    requires TablesOk(a) && CountsOk(a, Some(business)) && ActiveQueues(a, business) != []
    ensures PlanInv(a)
  {
    forall b | 0 <= b < |a.businesses| ensures CeilingOk(a, b) && FloorOk(a, b) {
      assert CeilingOk(a, b) && (Some(b) != Some(business) ==> FloorOk(a, b));
    }
  }

  lemma ApprovalKeepsInv(a: Account, business: nat)
    requires PlanInv(a) && business < |a.businesses|
    ensures ActiveQueues(a, business) != [] ==> PlanInv(Approval(a, business))
    ensures ActiveQueues(a, business) == [] ==> PlanInv(WithQueue(Approval(a, business), business, "A"))
  {
    ApprovalKeepsBounds(a, business);
    if ActiveQueues(a, business) != [] {
      FloorRestored(Approval(a, business), business);
    } else {
      FirstQueueFits(Approval(a, business), business, "A");
      WithQueueKeepsInv(Approval(a, business), business, "A");
    }
  }

  lemma ApproveKeepsInv(a: Account, business: nat, organizationApproved: bool, noteMissing: bool)
    requires PlanInv(a)
    ensures PlanInv(Do(a, Approve(business, organizationApproved, noteMissing)).0)
  {
    if business < |a.businesses| {
      ResolveKeepsInv(a, a.businesses[business].organization);
      BusinessApproved(a, business, organizationApproved, noteMissing);
      ApprovalKeepsInv(Resolve(a, a.businesses[business].organization), business);
    }
  }

  lemma {:induction false} MaxActiveQueuesBounds(a: Account, organization: nat, upTo: nat, b: nat)
    requires b < upTo <= |a.businesses| && a.businesses[b].organization == organization
    ensures |ActiveQueues(a, b)| <= MaxActiveQueues(a, organization, upTo)
  {
    if b < upTo - 1 { MaxActiveQueuesBounds(a, organization, upTo - 1, b); }
  }

  lemma {:induction false} MaxActiveWindowsBounds(a: Account, organization: nat, upTo: nat, q: nat)
    requires q < upTo <= |a.queues| && OrganizationOf(a, a.queues[q]) == Some(organization)
    ensures |ActiveWindows(a, q)| <= MaxActiveWindows(a, organization, upTo)
  {
    if q < upTo - 1 { MaxActiveWindowsBounds(a, organization, upTo - 1, q); }
  }

  lemma NewPlanKeepsInv(a: Account, organization: nat, plan: Plan)
    requires PlanInv(a) && DoChangePlan(a, organization, plan).1 == Ok
    ensures PlanInv(DoChangePlan(a, organization, plan).0)
  {
    var c := DoChangePlan(a, organization, plan).0;
    SameBirthsKeepTables(a, c);
    forall b | 0 <= b < |c.businesses| ensures CeilingOk(c, b) && FloorOk(c, b) {
      assert CeilingOk(a, b) && FloorOk(a, b);
      assert ActiveQueues(c, b) == ActiveQueues(a, b);
      if a.businesses[b].organization == organization { MaxActiveQueuesBounds(a, organization, |a.businesses|, b); }
    }
    forall q | 0 <= q < |c.queues| ensures QueueOk(c, q) {
      assert QueueOk(a, q);
      assert ActiveWindows(c, q) == ActiveWindows(a, q);
      assert ActiveQueues(c, c.queues[q].business) == ActiveQueues(a, c.queues[q].business);
      if a.businesses[a.queues[q].business].organization == organization {
        MaxActiveWindowsBounds(a, organization, |a.queues|, q);
      }
    }
  }

  lemma ChangePlanKeepsInv(a: Account, organization: nat, plan: Plan)
    requires PlanInv(a)
    ensures PlanInv(Do(a, ChangePlan(organization, plan)).0)
  {
    if DoChangePlan(a, organization, plan).1 == Ok { NewPlanKeepsInv(a, organization, plan); }
  }

  lemma NewBusinessKeepsInv(a: Account, organization: nat, owner: nat)
    requires PlanInv(a)
    ensures PlanInv(NewBusiness(a, organization, owner))
  {
    var c := NewBusiness(a, organization, owner);
    SameBirthsKeepTables(a, c);
    forall b | 0 <= b < |c.businesses| ensures CeilingOk(c, b) && FloorOk(c, b) {
      assert ActiveQueues(c, b) == ActiveQueues(a, b);
      if b < |a.businesses| { assert CeilingOk(a, b) && FloorOk(a, b); } else { NoRowsNoCount(a.queues, b); }
    }
    forall q | 0 <= q < |c.queues| ensures QueueOk(c, q) {
      assert QueueOk(a, q);
      assert ActiveWindows(c, q) == ActiveWindows(a, q);
      assert ActiveQueues(c, c.queues[q].business) == ActiveQueues(a, c.queues[q].business);
    }
  }

  lemma RegisterKeepsInv(a: Account, organization: nat, owner: nat)
    requires PlanInv(a)
    ensures PlanInv(Do(a, Register(organization, owner)).0)
  {
    ResolveKeepsInv(a, organization);
    BusinessRegistered(a, organization, owner);
    NewBusinessKeepsInv(Resolve(a, organization), organization, owner);
  }

  lemma SubscriptionStatusKeepsInv(a: Account, organization: nat, status: SubscriptionStatus)
    requires PlanInv(a) && organization in a.subscriptions
    ensures PlanInv(SetSubscriptionStatus(a, organization, status))
  {
    SameBirthsKeepTables(a, SetSubscriptionStatus(a, organization, status));
    SameRowsSameCounts(a, SetSubscriptionStatus(a, organization, status), None);
  }

  lemma CancelKeepsInv(a: Account, organization: nat)
    requires PlanInv(a)
    ensures PlanInv(Do(a, CancelAndEnforce(organization)).0)
  {
    if organization in a.subscriptions {
      SubscriptionStatusKeepsInv(a, organization, Cancelled);
      TrimKeepsInv(SetSubscriptionStatus(a, organization, Cancelled), organization);
    }
  }

  lemma ActivateKeepsInv(a: Account, organization: nat)
    requires PlanInv(a)
    ensures PlanInv(Do(a, Activate(organization)).0)
  {
    if organization in a.subscriptions { SubscriptionStatusKeepsInv(a, organization, Active); }
  }

  lemma ObserveKeepsInv(a: Account, organization: nat)
    requires PlanInv(a)
    ensures PlanInv(Do(a, Observe(organization)).0)
  {
    ResolveKeepsInv(a, organization);
  }

  lemma LaterKeepsInv(a: Account, clock: int)
    requires PlanInv(a) && a.clock <= clock
    ensures PlanInv(a.(clock := clock))
  {
    SameBirthsKeepTables(a, a.(clock := clock));
    SameRowsSameCounts(a, a.(clock := clock), None);
  }

  lemma WaitKeepsInv(a: Account, ms: nat)
    requires PlanInv(a)
    ensures PlanInv(Do(a, Wait(ms)).0)
  {
    assert Do(a, Wait(ms)).0 == a.(clock := a.clock + ms);
    LaterKeepsInv(a, a.clock + ms);
  }

  lemma SetStatusKeepsInv(a: Account, business: nat, from: BusinessStatus, to: BusinessStatus)
    requires PlanInv(a) && (Operating(to) ==> Operating(from))
    ensures PlanInv(DoSetStatus(a, business, from, to).0)
  {
    if business < |a.businesses| && a.businesses[business].status == from { StatusChangeKeepsInv(a, business, to); }
  }

  lemma BusinessStatusKeepsInv(a: Account, r: Request)
    requires PlanInv(a) && (r.Reject? || r.Suspend? || r.Reactivate?)
    ensures PlanInv(Do(a, r).0)
  {
    match r
    case Reject(candidate) =>
      assert Do(a, r) == DoSetStatus(a, candidate, Pending, Rejected);
      SetStatusKeepsInv(a, candidate, Pending, Rejected);
    case Suspend(operating) =>
      assert Do(a, r) == DoSetStatus(a, operating, Approved, Suspended);
      SetStatusKeepsInv(a, operating, Approved, Suspended);
    case Reactivate(suspended) =>
      assert Do(a, r) == DoSetStatus(a, suspended, Suspended, Approved);
      SetStatusKeepsInv(a, suspended, Suspended, Approved);
  }

  lemma EveryRequestKeepsInv(a: Account, r: Request)
    requires PlanInv(a)
    ensures PlanInv(Do(a, r).0)
  {
    match r
    case CreateQueue(business, prefix) => CreateQueueKeepsInv(a, business, prefix);
    case ToggleQueue(queue) => ToggleQueueKeepsInv(a, queue);
    case CreateWindow(line) => CreateWindowKeepsInv(a, line);
    case ToggleWindow(window, occupied) => ToggleWindowKeepsInv(a, window, occupied);
    case Approve(candidate, organizationApproved, noteMissing) =>
      ApproveKeepsInv(a, candidate, organizationApproved, noteMissing);
    case Register(organization, owner) => RegisterKeepsInv(a, organization, owner);
    case ChangePlan(organization, plan) => ChangePlanKeepsInv(a, organization, plan);
    case CancelAndEnforce(organization) => CancelKeepsInv(a, organization);
    case Activate(organization) => ActivateKeepsInv(a, organization);
    case Observe(organization) => ObserveKeepsInv(a, organization);
    case Wait(ms) => WaitKeepsInv(a, ms);
    case _ => BusinessStatusKeepsInv(a, r);
  }

  /** Every serial run keeps each approved or suspended business between one
      and the plan's active queues, every queue within the plan's active
      windows, and prefixes distinct within a business (see `PlanBounds`). */
  lemma {:induction false} EveryRunStaysWithinPlan(a: Account, requests: seq<Request>)
    requires PlanInv(a)
    ensures PlanInv(RunAll(a, requests))
  {
    if requests != [] {
      EveryRunStaysWithinPlan(a, requests[..|requests| - 1]);
      EveryRequestKeepsInv(RunAll(a, requests[..|requests| - 1]), requests[|requests| - 1]);
    }
  }

  /** Starting without businesses, after any run of requests: every approved
      or suspended business has at least one active queue and no more than its
      plan allows, and every queue no more active windows than that. */
  lemma RunFromScratchStaysWithinPlan(
    limits: PlanLimits, subscriptions: map<nat, Subscription>, pendingOwners: set<nat>, clock: int,
    requests: seq<Request>)
    ensures var a := RunAll(Account(limits, subscriptions, [], [], [], pendingOwners, clock), requests);
      && PlanInv(a)
      && (forall b :: 0 <= b < |a.businesses| && Operating(a.businesses[b].status) ==>
            1 <= |ActiveQueues(a, b)| <= LimitFor(a, a.businesses[b].organization).maxQueues)
      && (forall q :: 0 <= q < |a.queues| ==>
            |ActiveWindows(a, q)| <= LimitFor(a, a.businesses[a.queues[q].business].organization).maxWindows)
  {
    var empty := Account(limits, subscriptions, [], [], [], pendingOwners, clock);
    EveryRunStaysWithinPlan(empty, requests);
    PlanBounds(RunAll(empty, requests));
  }

  // ----- after a cancellation -----------------------------------------------

  /** The organization has lapsed and is down to Basic's limits. */
  ghost predicate DownToBasic(a: Account, organization: nat) {
    && IsLapsed(a, organization)
    && (forall b :: 0 <= b < |a.businesses| && a.businesses[b].organization == organization ==>
          |ActiveQueues(a, b)| <= LimitOf(a, Basic).maxQueues)
    && (forall q ::
          0 <= q < |a.queues| && a.queues[q].isActive && OrganizationOf(a, a.queues[q]) == Some(organization) ==>
          |ActiveWindows(a, q)| <= LimitOf(a, Basic).maxWindows)
  }

  lemma TrimBringsDownToBasic(a: Account, organization: nat)
    requires WellFormed(a) && IsLapsed(a, organization)
    ensures DownToBasic(Trimmed(a, organization, LimitOf(a, Basic)), organization)
  {
    CountsAfterTrim(a, organization, LimitOf(a, Basic));
  }

  /** However many queues and windows there were. */
  lemma CancelBringsDownToBasic(a: Account, organization: nat)
    requires WellFormed(a) && Do(a, CancelAndEnforce(organization)).1 == Ok
    ensures DownToBasic(Do(a, CancelAndEnforce(organization)).0, organization)
  {
    var cancelled := SetSubscriptionStatus(a, organization, Cancelled);
    assert Do(a, CancelAndEnforce(organization)).0 == Trimmed(cancelled, organization, LimitOf(cancelled, Basic));
    TrimBringsDownToBasic(cancelled, organization);
  }

  /** Nothing of the organization has been switched on or added. */
  ghost predicate NoMore(a: Account, c: Account, organization: nat) {
    && |a.queues| <= |c.queues| && |a.businesses| <= |c.businesses| && c.limits == a.limits
    && IsLapsed(c, organization)
    && (forall b :: 0 <= b < |c.businesses| && c.businesses[b].organization == organization ==>
          |ActiveQueues(c, b)| <= if b < |a.businesses| && a.businesses[b].organization == organization
              then |ActiveQueues(a, b)| else 0)
    && (forall q :: 0 <= q < |c.queues| && OrganizationOf(c, c.queues[q]) == Some(organization) ==>
          && q < |a.queues| && OrganizationOf(a, a.queues[q]) == Some(organization)
          && (c.queues[q].isActive ==> a.queues[q].isActive) && |ActiveWindows(c, q)| <= |ActiveWindows(a, q)|)
  }

  lemma NoMoreStaysDown(a: Account, c: Account, organization: nat)
    requires DownToBasic(a, organization) && NoMore(a, c, organization)
    ensures DownToBasic(c, organization)
  {
  }

  lemma NoMoreIsTransitive(a: Account, b: Account, c: Account, organization: nat)
    requires NoMore(a, b, organization) && NoMore(b, c, organization)
    ensures NoMore(a, c, organization)
  {
  }

  lemma ResolveIsNoMore(a: Account, other: nat, organization: nat)
    requires WellFormed(a) && IsLapsed(a, organization)
    ensures NoMore(a, Resolve(a, other), organization) && WellFormed(Resolve(a, other))
  {
    var c := Resolve(a, other);
    assert forall b: nat :: ActiveQueues(c, b) == ActiveQueues(a, b);
    assert forall q: nat :: ActiveWindows(c, q) == ActiveWindows(a, q);
  }

  lemma TrimIsNoMore(a: Account, other: nat, organization: nat)
    requires WellFormed(a) && IsLapsed(a, organization)
    ensures NoMore(a, Trimmed(a, other, LimitOf(a, Basic)), organization)
  {
    CountsAfterTrim(a, other, LimitOf(a, Basic));
  }

  /** The gate lets no request of the lapsed organization through, and does
      not switch anything on for it. */
  lemma GateIsNoMore(a: Account, other: nat, organization: nat)
    requires WellFormed(a) && IsLapsed(a, organization)
    ensures var (gated, open) := Gate(a, other);
      NoMore(a, gated, organization) && (open ==>
          other != organization && gated == Resolve(a, other) && WellFormed(gated))
  {
    ResolveIsNoMore(a, other, organization);
    if IsLapsed(Resolve(a, other), other) {
      TrimIsNoMore(Resolve(a, other), other, organization);
      NoMoreIsTransitive(a, Resolve(a, other), Gate(a, other).0, organization);
    }
  }

  lemma OtherQueueIsNoMore(a: Account, business: nat, prefix: Prefix, organization: nat)
    requires WellFormed(a) && IsLapsed(a, organization)
    requires business < |a.businesses| && a.businesses[business].organization != organization
    ensures NoMore(a, WithQueue(a, business, prefix), organization)
  {
    CountsAfterWithQueue(a, business, prefix);
  }

  /** Changing a business's status or a subscription other than by activating
      the organization moves no count. */
  lemma SameRowsIsNoMore(a: Account, c: Account, organization: nat)
    requires IsLapsed(a, organization) && IsLapsed(c, organization) && c.limits == a.limits
    requires c.queues == a.queues && c.windows == a.windows
    requires |c.businesses| == |a.businesses|
    requires forall b :: 0 <= b < |a.businesses| ==> c.businesses[b].organization == a.businesses[b].organization
    ensures NoMore(a, c, organization)
  {
    assert forall b: nat :: ActiveQueues(c, b) == ActiveQueues(a, b);
    assert forall q: nat :: ActiveWindows(c, q) == ActiveWindows(a, q);
  }

  lemma StoppedIsNoMore(a: Account, c: Account, other: nat, organization: nat)
    requires WellFormed(a) && IsLapsed(a, organization) && Stopped(a, c, other)
    ensures NoMore(a, c, organization)
  {
    SameRowsIsNoMore(a, a, organization);
    GateIsNoMore(a, other, organization);
  }

  lemma CreateQueueIsNoMore(a: Account, business: nat, prefix: Prefix, organization: nat)
    requires WellFormed(a) && IsLapsed(a, organization)
    ensures NoMore(a, Do(a, CreateQueue(business, prefix)).0, organization)
  {
    SameRowsIsNoMore(a, a, organization);
    if business < |a.businesses| {
      var (c, code) := DoCreateQueue(a, business, prefix);
      var other := a.businesses[business].organization;
      QueueCreated(a, business, prefix);
      if code == Ok {
        GateIsNoMore(a, other, organization);
        OtherQueueIsNoMore(Resolve(a, other), business, Upper(prefix), organization);
        NoMoreIsTransitive(a, Resolve(a, other), c, organization);
      } else {
        StoppedIsNoMore(a, c, other, organization);
      }
    }
  }

  lemma QueueFlagIsNoMore(a: Account, id: nat, on: bool, organization: nat)
    requires WellFormed(a) && IsLapsed(a, organization) && id < |a.queues| && a.queues[id].isActive != on
    requires on ==> OwnerOf(a, id) != organization
    ensures NoMore(a, QueueFlag(a, id, on), organization)
  {
    var c := QueueFlag(a, id, on);
    CountsAfterQueueFlag(a, id, on);
    assert forall q: nat :: ActiveWindows(c, q) == ActiveWindows(a, q);
  }

  lemma QueueBackIsNoMore(a: Account, id: nat, organization: nat)
    requires WellFormed(a) && IsLapsed(a, organization) && id < |a.queues| && !a.queues[id].isActive
    requires Gate(a, OwnerOf(a, id)).1
    ensures NoMore(a, QueueFlag(Resolve(a, OwnerOf(a, id)), id, true), organization)
  {
    var resolved := Resolve(a, OwnerOf(a, id));
    GateIsNoMore(a, OwnerOf(a, id), organization);
    QueueFlagIsNoMore(resolved, id, true, organization);
    NoMoreIsTransitive(a, resolved, QueueFlag(resolved, id, true), organization);
  }

  lemma ToggleQueueIsNoMore(a: Account, id: nat, organization: nat)
    requires WellFormed(a) && IsLapsed(a, organization)
    ensures NoMore(a, Do(a, ToggleQueue(id)).0, organization)
  {
    SameRowsIsNoMore(a, a, organization);
    if id < |a.queues| {
      var (c, code) := DoToggleQueue(a, id);
      var other := OwnerOf(a, id);
      QueueToggled(a, id);
      if code != Ok {
        StoppedIsNoMore(a, c, other, organization);
      } else if a.queues[id].isActive {
        QueueFlagIsNoMore(a, id, false, organization);
      } else {
        QueueBackIsNoMore(a, id, organization);
      }
    }
  }

  lemma NewWindowIsNoMore(a: Account, queue: nat, organization: nat)
    requires WellFormed(a) && IsLapsed(a, organization) && queue < |a.queues| && OwnerOf(a, queue) != organization
    ensures NoMore(a, NewWindow(a, queue), organization)
  {
    var c := NewWindow(a, queue);
    CountsAfterWindow(a, Window(|a.windows|, queue, true, a.clock), a.clock + 1);
    assert forall b: nat :: ActiveQueues(c, b) == ActiveQueues(a, b);
  }

  lemma WindowPastGateIsNoMore(a: Account, queue: nat, organization: nat)
    requires WellFormed(a) && IsLapsed(a, organization) && queue < |a.queues| && Gate(a, OwnerOf(a, queue)).1
    ensures NoMore(a, NewWindow(Resolve(a, OwnerOf(a, queue)), queue), organization)
  {
    var resolved := Resolve(a, OwnerOf(a, queue));
    GateIsNoMore(a, OwnerOf(a, queue), organization);
    NewWindowIsNoMore(resolved, queue, organization);
    NoMoreIsTransitive(a, resolved, NewWindow(resolved, queue), organization);
  }

  lemma CreateWindowIsNoMore(a: Account, queue: nat, organization: nat)
    requires WellFormed(a) && IsLapsed(a, organization)
    ensures NoMore(a, Do(a, CreateWindow(queue)).0, organization)
  {
    SameRowsIsNoMore(a, a, organization);
    if queue < |a.queues| {
      var (c, code) := DoCreateWindow(a, queue);
      var other := OwnerOf(a, queue);
      WindowCreated(a, queue);
      if code == Ok {
        WindowPastGateIsNoMore(a, queue, organization);
      } else {
        StoppedIsNoMore(a, c, other, organization);
      }
    }
  }

  lemma WindowFlagIsNoMore(a: Account, id: nat, on: bool, organization: nat)
    requires WellFormed(a) && IsLapsed(a, organization) && id < |a.windows| && a.windows[id].isActive != on
    requires on ==> OwnerOf(a, a.windows[id].queue) != organization
    ensures NoMore(a, WindowFlag(a, id, on), organization)
  {
    var c := WindowFlag(a, id, on);
    CountsAfterWindowFlag(a, id, on);
    assert forall b: nat :: ActiveQueues(c, b) == ActiveQueues(a, b);
  }

  lemma WindowBackIsNoMore(a: Account, id: nat, organization: nat)
    requires WellFormed(a) && IsLapsed(a, organization) && id < |a.windows| && !a.windows[id].isActive
    requires Gate(a, OwnerOf(a, a.windows[id].queue)).1
    ensures NoMore(a, WindowFlag(Resolve(a, OwnerOf(a, a.windows[id].queue)), id, true), organization)
  {
    var resolved := Resolve(a, OwnerOf(a, a.windows[id].queue));
    GateIsNoMore(a, OwnerOf(a, a.windows[id].queue), organization);
    WindowFlagIsNoMore(resolved, id, true, organization);
    NoMoreIsTransitive(a, resolved, WindowFlag(resolved, id, true), organization);
  }

  lemma ToggleWindowIsNoMore(a: Account, id: nat, occupied: bool, organization: nat)
    requires WellFormed(a) && IsLapsed(a, organization)
    ensures NoMore(a, Do(a, ToggleWindow(id, occupied)).0, organization)
  {
    SameRowsIsNoMore(a, a, organization);
    if id < |a.windows| {
      var (c, code) := DoToggleWindow(a, id, occupied);
      var other := OwnerOf(a, a.windows[id].queue);
      WindowToggled(a, id, occupied);
      if code != Ok {
        StoppedIsNoMore(a, c, other, organization);
      } else if a.windows[id].isActive {
        WindowFlagIsNoMore(a, id, false, organization);
      } else {
        WindowBackIsNoMore(a, id, organization);
      }
    }
  }

  lemma ApprovalIsNoMore(a: Account, business: nat, organization: nat)
    requires WellFormed(a) && IsLapsed(a, organization)
    requires business < |a.businesses| && !IsLapsed(a, a.businesses[business].organization)
    ensures var approved := Approval(a, business);
      NoMore(a, approved, organization) && NoMore(a, WithQueue(approved, business, "A"), organization)
  {
    var approved := Approval(a, business);
    SameRowsIsNoMore(a, approved, organization);
    assert WellFormed(approved);
    OtherQueueIsNoMore(approved, business, "A", organization);
    NoMoreIsTransitive(a, approved, WithQueue(approved, business, "A"), organization);
  }

  lemma ApprovalPastCheckIsNoMore(a: Account, business: nat, organization: nat)
    requires WellFormed(a) && IsLapsed(a, organization) && business < |a.businesses|
    requires var other := a.businesses[business].organization; !IsLapsed(Resolve(a, other), other)
    ensures var approved := Approval(Resolve(a, a.businesses[business].organization), business);
      NoMore(a, approved, organization) && NoMore(a, WithQueue(approved, business, "A"), organization)
  {
    var resolved := Resolve(a, a.businesses[business].organization);
    var approved := Approval(resolved, business);
    ResolveIsNoMore(a, a.businesses[business].organization, organization);
    ApprovalIsNoMore(resolved, business, organization);
    NoMoreIsTransitive(a, resolved, approved, organization);
    NoMoreIsTransitive(a, resolved, WithQueue(approved, business, "A"), organization);
  }

  lemma ApproveIsNoMore(a: Account, business: nat, organizationApproved: bool, noteMissing: bool, organization: nat)
    requires WellFormed(a) && IsLapsed(a, organization)
    ensures NoMore(a, Do(a, Approve(business, organizationApproved, noteMissing)).0, organization)
  {
    SameRowsIsNoMore(a, a, organization);
    if business < |a.businesses| {
      BusinessApproved(a, business, organizationApproved, noteMissing);
      ResolveIsNoMore(a, a.businesses[business].organization, organization);
      if DoApprove(a, business, organizationApproved, noteMissing).1 == Ok {
        ApprovalPastCheckIsNoMore(a, business, organization);
      }
    }
  }

  lemma NewBusinessIsNoMore(a: Account, other: nat, owner: nat, organization: nat)
    requires WellFormed(a) && IsLapsed(a, organization) && other != organization
    ensures NoMore(a, NewBusiness(a, other, owner), organization)
  {
    var c := NewBusiness(a, other, owner);
    assert forall b: nat :: ActiveQueues(c, b) == ActiveQueues(a, b);
    assert forall q: nat :: ActiveWindows(c, q) == ActiveWindows(a, q);
  }

  lemma RegisterIsNoMore(a: Account, other: nat, owner: nat, organization: nat)
    requires WellFormed(a) && IsLapsed(a, organization)
    ensures NoMore(a, Do(a, Register(other, owner)).0, organization)
  {
    var (c, code) := DoRegister(a, other, owner);
    BusinessRegistered(a, other, owner);
    ResolveIsNoMore(a, other, organization);
    if code == Ok {
      NewBusinessIsNoMore(Resolve(a, other), other, owner, organization);
      NoMoreIsTransitive(a, Resolve(a, other), c, organization);
    }
  }

  lemma CancelIsNoMore(a: Account, other: nat, organization: nat)
    requires WellFormed(a) && IsLapsed(a, organization)
    ensures NoMore(a, Do(a, CancelAndEnforce(other)).0, organization)
  {
    SameRowsIsNoMore(a, a, organization);
    if DoCancelAndEnforce(a, other).1 == Ok {
      var cancelled := SetSubscriptionStatus(a, other, Cancelled);
      SameRowsIsNoMore(a, cancelled, organization);
      TrimIsNoMore(cancelled, other, organization);
      NoMoreIsTransitive(a, cancelled, DoCancelAndEnforce(a, other).0, organization);
    }
  }

  lemma OtherRequestIsNoMore(a: Account, r: Request, organization: nat)
    requires WellFormed(a) && IsLapsed(a, organization) && r != Activate(organization)
    requires r.Reject? || r.Suspend? || r.Reactivate? || r.ChangePlan? || r.Activate? || r.Observe? || r.Wait?
    ensures NoMore(a, Do(a, r).0, organization)
  {
    SameRowsIsNoMore(a, Do(a, r).0, organization);
  }

  /** Whatever the request, short of activating the organization. */
  lemma EveryRequestIsNoMore(a: Account, r: Request, organization: nat)
    requires WellFormed(a) && IsLapsed(a, organization) && r != Activate(organization)
    ensures NoMore(a, Do(a, r).0, organization)
  {
    match r
    case CreateQueue(business, prefix) => CreateQueueIsNoMore(a, business, prefix, organization);
    case ToggleQueue(queue) => ToggleQueueIsNoMore(a, queue, organization);
    case CreateWindow(line) => CreateWindowIsNoMore(a, line, organization);
    case ToggleWindow(window, occupied) => ToggleWindowIsNoMore(a, window, occupied, organization);
    case Approve(candidate, organizationApproved, noteMissing) =>
      ApproveIsNoMore(a, candidate, organizationApproved, noteMissing, organization);
    case Register(other, owner) => RegisterIsNoMore(a, other, owner, organization);
    case CancelAndEnforce(other) => CancelIsNoMore(a, other, organization);
    case _ => OtherRequestIsNoMore(a, r, organization);
  }

  lemma {:induction false} LapsedStaysDownToBasic(a: Account, requests: seq<Request>, organization: nat)
    requires Aged(a) && DownToBasic(a, organization)
    requires forall k :: 0 <= k < |requests| ==> requests[k] != Activate(organization)
    ensures DownToBasic(RunAll(a, requests), organization)
  {
    if requests != [] {
      var before := RunAll(a, requests[..|requests| - 1]);
      LapsedStaysDownToBasic(a, requests[..|requests| - 1], organization);
      EveryRunKeepsAged(a, requests[..|requests| - 1]);
      EveryRequestIsNoMore(before, requests[|requests| - 1], organization);
      NoMoreStaysDown(before, RunAll(a, requests), organization);
    }
  }

  /** From a completed cancel-and-enforce until the next activation, no run of
      requests gets the organization past Basic's limits again, however far
      past them it was before. */
  lemma CancelledStaysDownToBasic(a: Account, requests: seq<Request>, organization: nat)
    requires Aged(a) && Do(a, CancelAndEnforce(organization)).1 == Ok
    requires forall k :: 0 <= k < |requests| ==> requests[k] != Activate(organization)
    ensures DownToBasic(RunAll(Do(a, CancelAndEnforce(organization)).0, requests), organization)
  {
    CancelBringsDownToBasic(a, organization);
    EveryRequestKeepsAged(a, CancelAndEnforce(organization));
    LapsedStaysDownToBasic(Do(a, CancelAndEnforce(organization)).0, requests, organization);
  }
}
