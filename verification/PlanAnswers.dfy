/** Which answer each account request gets, and what the account is then, down
    to the last column. */
module PlanAnswers {
  import opened Options
  import opened Sorting
  import opened Plans
  import opened Enforcement
  import opened KeepOldest
  import opened PlanSafety

  // ----- words the answers are made of ---------------------------------------

  /** A trial whose end has come. */
  predicate TrialOver(s: Subscription, now: int) {
    s.status.Trial? && s.trialEndsAt.Some? && s.trialEndsAt.value <= now
  }

  /** The subscription is over, whether or not that has been noticed. */
  predicate LapsedNow(a: Account, organization: nat) {
    organization in a.subscriptions &&
    var s := a.subscriptions[organization];
    s.status.Cancelled? || s.status.Expired? || TrialOver(s, a.clock)
  }

  /** A trial of the organization that is over has been marked expired; nothing
      else differs. */
  predicate ExpiryNoticed(a: Account, c: Account, organization: nat) {
    if organization in a.subscriptions && TrialOver(a.subscriptions[organization], a.clock)
    then
      var s := a.subscriptions[organization];
      c == a.(subscriptions := a.subscriptions[organization := Subscription(s.plan, Expired, s.trialEndsAt)])
    else c == a
  }

  /** The expiry has been noticed and the organization trimmed to Basic. */
  ghost predicate TurnedAway(a: Account, c: Account, organization: nat) {
    && ExpiryNoticed(a, a.(subscriptions := c.subscriptions), organization)
    && KeptOldest(a.(subscriptions := c.subscriptions), c, organization, a.limits.basic)
    && DownToBasic(c, organization)
  }

  function LimitNow(a: Account, organization: nat): Limit {
    if organization !in a.subscriptions then a.limits.basic
    else match a.subscriptions[organization].plan
      case Basic => a.limits.basic
      case Pro => a.limits.pro
      case Premium => a.limits.premium
  }

  predicate HasRoomForQueue(a: Account, business: nat)
    requires business < |a.businesses|
  {
    |ActiveQueueIds(a, business)| < LimitNow(a, a.businesses[business].organization).maxQueues
  }

  predicate HasRoomForWindow(a: Account, queue: nat)
    requires queue < |a.queues| && a.queues[queue].business < |a.businesses|
  {
    |ActiveWindowIds(a, queue)| < LimitNow(a, a.businesses[a.queues[queue].business].organization).maxWindows
  }

  lemma RoomsAreRooms(a: Account)
    requires WellFormed(a)
    ensures forall b :: 0 <= b < |a.businesses| ==> (RoomForQueue(a, b) <==> HasRoomForQueue(a, b))
    ensures forall q :: 0 <= q < |a.queues| ==> (RoomForWindow(a, q) <==> HasRoomForWindow(a, q))
  {
    forall b | 0 <= b < |a.businesses| ensures RoomForQueue(a, b) <==> HasRoomForQueue(a, b) {
      ActiveQueuesCount(a, b);
    }
    forall q | 0 <= q < |a.queues| ensures RoomForWindow(a, q) <==> HasRoomForWindow(a, q) {
      ActiveWindowsCount(a, q);
    }
  }

  // ----- the gate -----------------------------------------------------------

  lemma ResolveNotices(a: Account, organization: nat)
    ensures ExpiryNoticed(a, Resolve(a, organization), organization)
    ensures IsLapsed(Resolve(a, organization), organization) <==> LapsedNow(a, organization)
  {
    if organization in a.subscriptions {
      assert a.subscriptions[organization := a.subscriptions[organization]] == a.subscriptions;
    }
  }

  /** The gate opens exactly for organizations that have not lapsed, and then
      changes nothing; it closes behind a trim to Basic. */
  lemma GateAnswers(a: Account, organization: nat)
    requires WellFormed(a)
    ensures var (c, open) := Gate(a, organization);
      && (open <==> !LapsedNow(a, organization))
      && (open ==> c == a)
      && (!open ==> TurnedAway(a, c, organization))
  {
    ResolveNotices(a, organization);
    var resolved := Resolve(a, organization);
    if LapsedNow(a, organization) {
      assert WellFormed(resolved);
      TrimKeepsOldest(resolved, organization, a.limits.basic);
      TrimBringsDownToBasic(resolved, organization);
      assert a.(subscriptions := Gate(a, organization).0.subscriptions) == resolved;
    }
  }

  /** Observing a subscription writes down an expiry, and nothing else. */
  lemma ObserveAnswers(a: Account, organization: nat)
    ensures Do(a, Observe(organization)).1 == Ok && ExpiryNoticed(a, Do(a, Observe(organization)).0, organization)
  {
    ResolveNotices(a, organization);
  }

  // ----- queues -------------------------------------------------------------

  /** A queue is created exactly for an operating business of an organization
      that has not lapsed and has room, under a prefix its other queues leave
      free; it comes active, in upper case, and with one active window. */
  lemma CreateQueueAnswers(a: Account, business: nat, prefix: Prefix)
    requires WellFormed(a) && business < |a.businesses|
    ensures var organization := a.businesses[business].organization;
            var (c, code) := Do(a, CreateQueue(business, prefix));
      && code == (if a.businesses[business].status != Approved then BusinessNotOperating
                  else if LapsedNow(a, organization) then SubscriptionInactive
                  else if !HasRoomForQueue(a, business) then PlanQueueLimitReached
                  else if !PrefixFree(a, business, prefix) then PrefixInUse else Ok)
      && (code == Ok ==> c == a.(clock := a.clock + 1,
            queues := a.queues + [Queue(|a.queues|, business, Upper(prefix), true, a.clock)],
            windows := a.windows + [Window(|a.windows|, |a.queues|, true, a.clock)]))
      && (code == SubscriptionInactive ==> TurnedAway(a, c, organization))
      && (code != Ok && code != SubscriptionInactive ==> c == a)
  {
    GateAnswers(a, a.businesses[business].organization);
    RoomsAreRooms(a);
    PrefixTaken(a, a, business, prefix);
  }

  predicate IsOtherActive(a: Account, id: nat, j: nat)
    requires id < |a.queues| && j < |a.queues|
  {
    j != id && a.queues[j].business == a.queues[id].business && a.queues[j].isActive
  }

  lemma {:induction false} SomeMember(queues: seq<Queue>, p: Queue -> bool)
    ensures |Filter(queues, p)| > 0 <==> exists i :: 0 <= i < |queues| && p(queues[i])
  {
    if queues != [] {
      SomeMember(queues[1..], p);
      if exists i :: 0 <= i < |queues| && p(queues[i]) {
        var i :| 0 <= i < |queues| && p(queues[i]);
        if i > 0 { assert p(queues[1..][i - 1]); }
      }
    }
  }

  lemma OtherActiveIffSome(a: Account, id: nat)
    requires WellFormed(a) && id < |a.queues|
    ensures OtherActiveQueues(a, a.queues[id]) > 0 <==> exists j :: 0 <= j < |a.queues| && IsOtherActive(a, id, j)
  {
    var queue := a.queues[id];
    var p := (q: Queue) => q.business == queue.business && q.id != queue.id && q.isActive;
    SomeMember(a.queues, p);
    assert forall j :: 0 <= j < |a.queues| ==> (p(a.queues[j]) <==> IsOtherActive(a, id, j));
  }

  /** An active queue is switched off exactly if another one of the business
      stays; an inactive one comes back exactly if the organization has not
      lapsed and the business has room. Nothing but the flag changes. */
  lemma ToggleQueueAnswers(a: Account, id: nat)
    requires WellFormed(a) && id < |a.queues|
    ensures var organization := OwnerOf(a, id); var queue := a.queues[id];
            var (c, code) := Do(a, ToggleQueue(id));
      && code == (if queue.isActive then
                    if exists j :: 0 <= j < |a.queues| && IsOtherActive(a, id, j) then Ok else QueueLastActive
                  else if LapsedNow(a, organization) then SubscriptionInactive
                  else if HasRoomForQueue(a, queue.business) then Ok else PlanQueueLimitReached)
      && (code == Ok ==> c == a.(queues := a.queues[id := queue.(isActive := !queue.isActive)]))
      && (code == SubscriptionInactive ==> TurnedAway(a, c, organization))
      && (code != Ok && code != SubscriptionInactive ==> c == a)
  {
    GateAnswers(a, OwnerOf(a, id));
    RoomsAreRooms(a);
    OthersAreAllQueues(a, id);
    OtherActiveIffSome(a, id);
  }

  // ----- windows ------------------------------------------------------------

  /** A window is created exactly if the organization has not lapsed and the
      queue has room for it. */
  lemma CreateWindowAnswers(a: Account, queue: nat)
    requires WellFormed(a) && queue < |a.queues|
    ensures var organization := OwnerOf(a, queue);
            var (c, code) := Do(a, CreateWindow(queue));
      && code == (if LapsedNow(a, organization) then SubscriptionInactive
                  else if HasRoomForWindow(a, queue) then Ok else PlanWindowLimitReached)
      && (code == Ok ==> c == a.(clock := a.clock + 1,
                                 windows := a.windows + [Window(|a.windows|, queue, true, a.clock)]))
      && (code == SubscriptionInactive ==> TurnedAway(a, c, organization))
      && (code == PlanWindowLimitReached ==> c == a)
  {
    GateAnswers(a, OwnerOf(a, queue));
    RoomsAreRooms(a);
  }

  /** A window in use stays; an inactive one comes back exactly if the
      organization has not lapsed and the queue has room. */
  lemma ToggleWindowAnswers(a: Account, id: nat, occupied: bool)
    requires WellFormed(a) && id < |a.windows|
    ensures var window := a.windows[id]; var organization := OwnerOf(a, window.queue);
            var (c, code) := Do(a, ToggleWindow(id, occupied));
      && code == (if window.isActive then if occupied then WindowInUse else Ok
                  else if LapsedNow(a, organization) then SubscriptionInactive
                  else if HasRoomForWindow(a, window.queue) then Ok else PlanWindowLimitReached)
      && (code == Ok ==> c == a.(windows := a.windows[id := window.(isActive := !window.isActive)]))
      && (code == SubscriptionInactive ==> TurnedAway(a, c, organization))
      && (code != Ok && code != SubscriptionInactive ==> c == a)
  {
    GateAnswers(a, OwnerOf(a, a.windows[id].queue));
    RoomsAreRooms(a);
    OthersAreAllWindows(a, id);
  }

  // ----- businesses ---------------------------------------------------------

  /** What approval leaves: the business and its owner approved, a pending
      subscription on trial for thirty days, and a first queue with a window
      if the business has no active one. */
  function Opened(a: Account, business: nat): Account
    requires business < |a.businesses|
  {
    var b := a.businesses[business];
    var first := ActiveQueueIds(a, business) == {};
    a.(businesses := a.businesses[business := Business(b.organization, b.owner, Approved)],
       pendingOwners := a.pendingOwners - {b.owner},
       subscriptions :=
         if b.organization in a.subscriptions && a.subscriptions[b.organization].status.SubPending?
         then a.subscriptions[b.organization := Subscription(
                a.subscriptions[b.organization].plan, Trial, Some(a.clock + 30 * 86_400_000))]
         else a.subscriptions,
       queues := a.queues + (if first then [Queue(|a.queues|, business, "A", true, a.clock)] else []),
       windows := a.windows + (if first then [Window(|a.windows|, |a.queues|, true, a.clock)] else []),
       clock := if first then a.clock + 1 else a.clock)
  }

  function WhyNotApproved(a: Account, business: nat, organizationApproved: bool): Code
    requires business < |a.businesses|
  {
    if a.businesses[business].status == Approved then AlreadyApproved
    else if a.businesses[business].status == Suspended then UseReactivate
    else if !organizationApproved then OrganizationNotApproved
    else if LapsedNow(a, a.businesses[business].organization) then SubscriptionNotActive
    else ApprovalNoteRequired
  }

  /** A pending or rejected business of an approved organization that has not
      lapsed is approved, with a note if one is required. */
  lemma ApproveAnswers(a: Account, business: nat, organizationApproved: bool, noteMissing: bool)
    requires WellFormed(a) && business < |a.businesses|
    ensures var organization := a.businesses[business].organization; var status := a.businesses[business].status;
            var (c, code) := Do(a, Approve(business, organizationApproved, noteMissing));
      && (code == Ok <==>
            && (status == Pending || status == Rejected) && organizationApproved
            && !LapsedNow(a, organization) && !noteMissing)
      && (code == Ok ==> c == Opened(a, business))
      && (code != Ok ==> code == WhyNotApproved(a, business, organizationApproved))
      && (code == SubscriptionNotActive ==> ExpiryNoticed(a, c, organization))
      && (code != Ok && code != SubscriptionNotActive ==> c == a)
  {
    ResolveNotices(a, a.businesses[business].organization);
    ActiveQueuesCount(a, business);
    if Do(a, Approve(business, organizationApproved, noteMissing)).1 == Ok { ApprovedIsOpened(a, business); }
  }

  lemma ApprovedIsOpened(a: Account, business: nat)
    requires business < |a.businesses| && !LapsedNow(a, a.businesses[business].organization)
    ensures var approved := Approval(a, business);
      Opened(a, business) == if ActiveQueues(a, business) != [] then approved else WithQueue(approved, business, "A")
  {
    ActiveQueuesCount(a, business);
    assert a.queues + [] == a.queues && a.windows + [] == a.windows;
  }

  /** An approved business ends with an active queue. */
  lemma ApprovedBusinessOperates(a: Account, business: nat, organizationApproved: bool, noteMissing: bool)
    requires WellFormed(a) && business < |a.businesses|
    requires Do(a, Approve(business, organizationApproved, noteMissing)).1 == Ok
    ensures var c := Do(a, Approve(business, organizationApproved, noteMissing)).0;
      && c.businesses[business].status == Approved && c.businesses[business].owner !in c.pendingOwners
      && |ActiveQueueIds(c, business)| == Max(1, |ActiveQueueIds(a, business)|)
      && (ActiveQueueIds(a, business) == {} ==> |ActiveWindowIds(c, |a.queues|)| == 1)
  {
    ApproveAnswers(a, business, organizationApproved, noteMissing);
    OpenedHasQueue(a, business);
  }

  lemma OpenedHasQueue(a: Account, business: nat)
    requires WellFormed(a) && business < |a.businesses|
    ensures var c := Opened(a, business);
      && |ActiveQueueIds(c, business)| == Max(1, |ActiveQueueIds(a, business)|)
      && (ActiveQueueIds(a, business) == {} ==> |ActiveWindowIds(c, |a.queues|)| == 1)
  {
    var c := Opened(a, business);
    if ActiveQueueIds(a, business) == {} {
      assert ActiveQueueIds(c, business) == {|a.queues|} && ActiveWindowIds(c, |a.queues|) == {|a.windows|};
    } else {
      assert ActiveQueueIds(c, business) == ActiveQueueIds(a, business);
    }
  }

  /** Rejecting, suspending and reactivating move the status of one business,
      from the one status that allows it. */
  lemma StatusAnswers(a: Account, business: nat)
    requires business < |a.businesses|
    ensures var b := a.businesses[business];
      && Do(a, Reject(business)) ==
           (if b.status == Pending then (a.(businesses := a.businesses[business := b.(status := Rejected)]), Ok)
            else (a, WrongStatus))
      && Do(a, Suspend(business)) ==
           (if b.status == Approved then (a.(businesses := a.businesses[business := b.(status := Suspended)]), Ok)
            else (a, WrongStatus))
      && Do(a, Reactivate(business)) ==
           (if b.status == Suspended then (a.(businesses := a.businesses[business := b.(status := Approved)]), Ok)
            else (a, WrongStatus))
  {
  }

  /** The businesses that count against the plan. */
  function CountedIds(a: Account, organization: nat): set<nat> {
    set b: nat |
      b < |a.businesses| && a.businesses[b].organization == organization && a.businesses[b].status != Rejected
  }

  lemma CountedCount(a: Account, organization: nat)
    ensures |Filter(a.businesses, CountedBusiness(organization))| == |CountedIds(a, organization)|
  {
    FilterSize(a.businesses, CountedBusiness(organization));
    assert Places(a.businesses, CountedBusiness(organization)) == CountedIds(a, organization);
  }

  /** A business is registered exactly for an organization that has not lapsed
      and whose plan has room for it; it comes pending. */
  lemma RegisterAnswers(a: Account, organization: nat, owner: nat)
    ensures var (c, code) := Do(a, Register(organization, owner));
      && code == (if LapsedNow(a, organization) then SubscriptionInactive
                  else if |CountedIds(a, organization)| < LimitNow(a, organization).maxBusinesses then Ok
                  else PlanBusinessLimitReached)
      && (code == Ok ==> c == a.(businesses := a.businesses + [Business(organization, owner, Pending)]))
      && (code == SubscriptionInactive ==> ExpiryNoticed(a, c, organization))
      && (code == PlanBusinessLimitReached ==> c == a)
  {
    ResolveNotices(a, organization);
    CountedCount(a, organization);
  }

  /** A request about a row that is not there changes nothing. */
  lemma UnknownRows(a: Account, r: Request, id: nat)
    requires || (id >= |a.businesses| && (r == Reject(id) || r == Suspend(id) || r == Reactivate(id)
                   || (r.CreateQueue? && r.business == id) || (r.Approve? && r.candidate == id)))
             || (id >= |a.queues| && (r == ToggleQueue(id) || r == CreateWindow(id)))
             || (id >= |a.windows| && r.ToggleWindow? && r.window == id)
    ensures Do(a, r) == (a, NotFound)
  {
  }

  // ----- subscriptions ------------------------------------------------------

  lemma {:induction false} MaxQueuesWithin(a: Account, organization: nat, upTo: nat, bound: nat)
    requires upTo <= |a.businesses|
    ensures MaxActiveQueues(a, organization, upTo) <= bound
      <==> forall b :: 0 <= b < upTo && a.businesses[b].organization == organization ==> |ActiveQueues(a, b)| <= bound
  {
    if upTo > 0 { MaxQueuesWithin(a, organization, upTo - 1, bound); }
  }

  lemma {:induction false} MaxWindowsWithin(a: Account, organization: nat, upTo: nat, bound: nat)
    requires upTo <= |a.queues|
    ensures MaxActiveWindows(a, organization, upTo) <= bound
      <==> forall q ::
          0 <= q < upTo && OrganizationOf(a, a.queues[q]) == Some(organization) ==> |ActiveWindows(a, q)| <= bound
  {
    if upTo > 0 { MaxWindowsWithin(a, organization, upTo - 1, bound); }
  }

  function LimitOfPlan(a: Account, plan: Plan): Limit {
    match plan
    case Basic => a.limits.basic
    case Pro => a.limits.pro
    case Premium => a.limits.premium
  }

  /** Everything the organization has fits the plan, business by business and
      queue by queue. */
  ghost predicate QueuesFit(a: Account, organization: nat, plan: Plan) {
    forall b :: 0 <= b < |a.businesses| && a.businesses[b].organization == organization ==>
      |ActiveQueueIds(a, b)| <= LimitOfPlan(a, plan).maxQueues
  }

  ghost predicate WindowsFit(a: Account, organization: nat, plan: Plan) {
    forall q :: 0 <= q < |a.queues| && BelongsTo(a, a.queues[q], organization) ==>
      |ActiveWindowIds(a, q)| <= LimitOfPlan(a, plan).maxWindows
  }

  lemma MaximaFit(a: Account, organization: nat, plan: Plan)
    ensures MaxActiveQueues(a, organization, |a.businesses|) <= LimitOf(a, plan).maxQueues
      <==> QueuesFit(a, organization, plan)
    ensures MaxActiveWindows(a, organization, |a.queues|) <= LimitOf(a, plan).maxWindows
      <==> WindowsFit(a, organization, plan)
  {
    MaxQueuesWithin(a, organization, |a.businesses|, LimitOf(a, plan).maxQueues);
    MaxWindowsWithin(a, organization, |a.queues|, LimitOf(a, plan).maxWindows);
    forall b: nat ensures |ActiveQueues(a, b)| == |ActiveQueueIds(a, b)| { ActiveQueuesCount(a, b); }
    forall q: nat ensures |ActiveWindows(a, q)| == |ActiveWindowIds(a, q)| { ActiveWindowsCount(a, q); }
  }

  /** A plan change goes through exactly if everything the organization has
      fits the new plan; then the plan changes, and nothing else of the
      subscription or the account. */
  lemma ChangePlanAnswers(a: Account, organization: nat, plan: Plan)
    ensures var (c, code) := Do(a, ChangePlan(organization, plan));
      && code == (if organization !in a.subscriptions then NotFound
                  else if |CountedIds(a, organization)| > LimitOfPlan(a, plan).maxBusinesses
                  then DowngradeBlockedBusinesses
                  else if !QueuesFit(a, organization, plan) then DowngradeBlockedQueues
                  else if !WindowsFit(a, organization, plan) then DowngradeBlockedWindows else Ok)
      && (code == Ok ==>
            var s := a.subscriptions[organization];
            c == a.(subscriptions := a.subscriptions[organization := Subscription(plan, s.status, s.trialEndsAt)]))
      && (code != Ok ==> c == a)
  {
    CountedCount(a, organization);
    MaximaFit(a, organization, plan);
  }

  /** An activation is refused only for an active subscription; it leaves plan
      and trial end as they were, reopens the gate and switches nothing on. */
  lemma ActivateAnswers(a: Account, organization: nat)
    ensures var (c, code) := Do(a, Activate(organization));
      && code == (if organization !in a.subscriptions then NotFound
                  else if a.subscriptions[organization].status == Active then CannotBeActivated else Ok)
      && (code == Ok ==>
            var s := a.subscriptions[organization];
            c == a.(subscriptions := a.subscriptions[organization := Subscription(s.plan, Active, s.trialEndsAt)])
              && Gate(c, organization) == (c, true))
      && (code != Ok ==> c == a)
  {
    var c := Do(a, Activate(organization)).0;
    if organization in a.subscriptions {
      assert c.subscriptions[organization := c.subscriptions[organization]] == c.subscriptions;
    }
  }

  /** Cancelling marks the subscription cancelled, leaves plan and trial end as
      they were, and trims the organization to Basic; only an expired one is
      past cancelling. */
  lemma CancelAnswers(a: Account, organization: nat)
    requires WellFormed(a)
    ensures var (c, code) := Do(a, CancelAndEnforce(organization));
      && code == (if organization !in a.subscriptions then NotFound
                  else if a.subscriptions[organization].status == Expired then AlreadyTerminal else Ok)
      && (code == Ok ==>
            var s := a.subscriptions[organization];
            KeptOldest(a.(subscriptions := a.subscriptions[organization := Subscription(s.plan, Cancelled,
                                                                                        s.trialEndsAt)]),
                       c, organization, a.limits.basic))
      && (code != Ok ==> c == a)
  {
    if organization in a.subscriptions {
      var s := a.subscriptions[organization];
      var cancelled := a.(subscriptions := a.subscriptions[organization := Subscription(s.plan, Cancelled,
                                                                                        s.trialEndsAt)]);
      assert WellFormed(cancelled);
      TrimKeepsOldest(cancelled, organization, a.limits.basic);
    }
  }

  // ----- the grid as shipped ------------------------------------------------

  lemma RequestKeepsLimits(a: Account, r: Request)
    ensures Do(a, r).0.limits == a.limits
  {
  }

  lemma {:induction false} RunKeepsLimits(a: Account, requests: seq<Request>)
    ensures RunAll(a, requests).limits == a.limits
  {
    if requests != [] {
      RunKeepsLimits(a, requests[..|requests| - 1]);
      RequestKeepsLimits(RunAll(a, requests[..|requests| - 1]), requests[|requests| - 1]);
    }
  }

  /** Under the shipped grid, from an account within its plan, no request
      creates a second queue or switches one on or off, and trimming finds no
      queue to switch off. */
  lemma ShippedGridGrantsNoSecondQueue(a: Account, business: nat, prefix: Prefix, id: nat, organization: nat)
    requires PlanInv(a) && a.limits == PLAN_LIMITS
    ensures DoCreateQueue(a, business, prefix).1 != Ok && DoToggleQueue(a, id).1 != Ok
    ensures ExcessQueueIds(a, organization, LimitOf(a, Basic)) == {}
  {
    if business < |a.businesses| {
      CreateQueueAnswers(a, business, prefix);
      assert FloorOk(a, business);
    }
    NoQueueToggles(a, id);
    NothingToTrim(a, organization);
  }

  lemma NoQueueToggles(a: Account, id: nat)
    requires PlanInv(a) && a.limits == PLAN_LIMITS
    ensures DoToggleQueue(a, id).1 != Ok
  {
    if id < |a.queues| {
      QueueToggled(a, id);
      assert QueueOk(a, id) && CeilingOk(a, a.queues[id].business);
      var resolved := Resolve(a, OwnerOf(a, id));
      assert ActiveQueues(resolved, a.queues[id].business) == ActiveQueues(a, a.queues[id].business);
    }
  }

  lemma NothingToTrim(a: Account, organization: nat)
    requires PlanInv(a) && a.limits == PLAN_LIMITS
    ensures ExcessQueueIds(a, organization, LimitOf(a, Basic)) == {}
  {
    forall i | 0 <= i < |a.queues| && a.queues[i].isActive ensures StaysActive(a, LimitOf(a, Basic), a.queues[i]) {
      var active := ActiveQueues(a, a.queues[i].business);
      assert CeilingOk(a, a.queues[i].business);
      FilterMembers(a.queues, ActiveQueuesOf(a.queues[i].business));
      assert a.queues[i] in active && |active| <= 1;
      assert active == [a.queues[i]] && active[1..] == [];
      assert CountBefore(active, a.queues[i], OlderQueue) == 0;
    }
  }

  /** From scratch under the shipped grid: one active queue for every business
      in operation, and up to one, ten or twenty active windows per queue. */
  lemma ShippedGridBounds(
    subscriptions: map<nat, Subscription>, pendingOwners: set<nat>, clock: int, requests: seq<Request>)
    ensures var a := RunAll(Account(PLAN_LIMITS, subscriptions, [], [], [], pendingOwners, clock), requests);
      && (forall b :: 0 <= b < |a.businesses| && a.businesses[b].status in {Approved, Suspended} ==>
            |ActiveQueueIds(a, b)| == 1)
      && (forall q :: 0 <= q < |a.queues| ==>
            a.queues[q].business < |a.businesses| &&
            var organization := a.businesses[a.queues[q].business].organization;
            |ActiveWindowIds(a, q)| <=
              if organization !in a.subscriptions || a.subscriptions[organization].plan.Basic? then 1
              else if a.subscriptions[organization].plan.Pro? then 10 else 20)
  {
    var a := RunAll(Account(PLAN_LIMITS, subscriptions, [], [], [], pendingOwners, clock), requests);
    RunFromScratchStaysWithinPlan(PLAN_LIMITS, subscriptions, pendingOwners, clock, requests);
    RunKeepsLimits(Account(PLAN_LIMITS, subscriptions, [], [], [], pendingOwners, clock), requests);
    forall b: nat ensures |ActiveQueues(a, b)| == |ActiveQueueIds(a, b)| { ActiveQueuesCount(a, b); }
    forall q: nat ensures |ActiveWindows(a, q)| == |ActiveWindowIds(a, q)| { ActiveWindowsCount(a, q); }
  }

  /** From scratch under any grid, after any run of requests: every approved or
      suspended business has at least one active queue and at most as many as
      its organization's plan allows, every queue at most as many active
      windows, and the queues of a business have different prefixes. */
  lemma AccountsStayWithinPlan(
    limits: PlanLimits, subscriptions: map<nat, Subscription>, pendingOwners: set<nat>, clock: int,
    requests: seq<Request>)
    ensures var a := RunAll(Account(limits, subscriptions, [], [], [], pendingOwners, clock), requests);
      && a.limits == limits
      && (forall b :: 0 <= b < |a.businesses| && a.businesses[b].status in {Approved, Suspended} ==>
            1 <= |ActiveQueueIds(a, b)| <= LimitNow(a, a.businesses[b].organization).maxQueues)
      && (forall q :: 0 <= q < |a.queues| ==>
            && a.queues[q].business < |a.businesses|
            && |ActiveWindowIds(a, q)| <= LimitNow(a, a.businesses[a.queues[q].business].organization).maxWindows)
      && (forall p, q :: 0 <= p < q < |a.queues| && a.queues[p].business == a.queues[q].business ==>
            a.queues[p].prefix != a.queues[q].prefix)
  {
    var a := RunAll(Account(limits, subscriptions, [], [], [], pendingOwners, clock), requests);
    RunFromScratchStaysWithinPlan(limits, subscriptions, pendingOwners, clock, requests);
    RunKeepsLimits(Account(limits, subscriptions, [], [], [], pendingOwners, clock), requests);
    PlanBounds(a);
    forall b: nat ensures |ActiveQueues(a, b)| == |ActiveQueueIds(a, b)| { ActiveQueuesCount(a, b); }
    forall q: nat ensures |ActiveWindows(a, q)| == |ActiveWindowIds(a, q)| { ActiveWindowsCount(a, q); }
  }

  /** A grid with room for a second queue does grant it. */
  lemma RoomyGridGrantsSecondQueue(a: Account, business: nat, prefix: Prefix)
    requires PlanInv(a) && business < |a.businesses| && a.businesses[business].status == Approved
    requires !LapsedNow(a, a.businesses[business].organization) && PrefixFree(a, business, prefix)
    requires |ActiveQueueIds(a, business)| == 1 && HasRoomForQueue(a, business)
    ensures var (c, code) := Do(a, CreateQueue(business, prefix));
      && code == Ok && PlanInv(c) && |ActiveQueueIds(c, business)| == 2
      && Do(c, ToggleQueue(|a.queues|)).1 == Ok
  {
    CreateQueueAnswers(a, business, prefix);
    CreateQueueKeepsInv(a, business, prefix);
    var c := Do(a, CreateQueue(business, prefix)).0;
    assert ActiveQueueIds(c, business) == ActiveQueueIds(a, business) + {|a.queues|};
    var other :| other in ActiveQueueIds(a, business);
    assert IsOtherActive(c, |a.queues|, other);
    ToggleQueueAnswers(c, |a.queues|);
  }

  const TWO_QUEUES: PlanLimits := PlanTable(Limit(1, 2, 1), Limit(1, 2, 10), Limit(3, 2, 20))

  const EMPTY := Account(TWO_QUEUES, map[], [], [], [], {}, 0)
  const ONE_QUEUE := Account(
    TWO_QUEUES, map[], [Business(0, 0, Approved)], [Queue(0, 0, "A", true, 0)], [Window(0, 0, true, 0)], {}, 1)

  lemma RegisteredAndApproved()
    ensures Do(EMPTY, Register(0, 0)).0 == EMPTY.(businesses := [Business(0, 0, Pending)])
    ensures Do(EMPTY.(businesses := [Business(0, 0, Pending)]), Approve(0, true, false)).0 == ONE_QUEUE
  {
    var registered := EMPTY.(businesses := [Business(0, 0, Pending)]);
    assert ActiveQueues(registered, 0) == [];
    assert registered.businesses[0 := Business(0, 0, Approved)] == [Business(0, 0, Approved)];
  }

  /** And accounts in which it does are reached from scratch. */
  lemma SecondQueueIsReached()
    ensures RunAll(EMPTY, [Register(0, 0), Approve(0, true, false)]) == ONE_QUEUE
    ensures PlanInv(ONE_QUEUE) && DoCreateQueue(ONE_QUEUE, 0, "B").1 == Ok
  {
    var first, second := Register(0, 0), Approve(0, true, false);
    assert [first, second][..1] == [first] && [first][..0] == [];
    RegisteredAndApproved();
    assert RunAll(EMPTY, [first]) == Do(RunAll(EMPTY, []), first).0;
    EveryRunStaysWithinPlan(EMPTY, [first, second]);
    SecondQueueFits();
  }

  lemma SecondQueueFits()
    ensures DoCreateQueue(ONE_QUEUE, 0, "B").1 == Ok
  {
    assert Upper("B")[0] == 'B' && Upper("A")[0] == 'A';
    assert ONE_QUEUE.queues[1..] == [];
    CreateQueueAnswers(ONE_QUEUE, 0, "B");
  }
}
