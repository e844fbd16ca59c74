/** Organizations, their plan, and the queues and service windows the plan
    lets them keep active. One request at a time. */
module Plans {
  import opened Options
  import opened Sorting

  datatype Plan = Basic | Pro | Premium
  datatype SubscriptionStatus = SubPending | Trial | Active | Expired | Cancelled
  datatype Subscription = Subscription(plan: Plan, status: SubscriptionStatus, trialEndsAt: Option<int>)
  datatype Limit = Limit(maxBusinesses: nat, maxQueues: nat, maxWindows: nat)

  /** The plan grid. Its numbers are settings; what the code relies on is that
      every plan grants a queue and a window. */
  datatype PlanTable = PlanTable(basic: Limit, pro: Limit, premium: Limit)

  predicate Serves(limit: Limit) { 1 <= limit.maxQueues && 1 <= limit.maxWindows }

  type PlanLimits = t: PlanTable | Serves(t.basic) && Serves(t.pro) && Serves(t.premium)
    witness PlanTable(Limit(1, 1, 1), Limit(1, 1, 10), Limit(3, 1, 20))

  /** The grid as shipped. */
  const PLAN_LIMITS: PlanLimits := PlanTable(Limit(1, 1, 1), Limit(1, 1, 10), Limit(3, 1, 20))

  datatype BusinessStatus = Pending | Approved | Rejected | Suspended

  /** What request parsing leaves of a queue prefix. */
  predicate IsPrefix(s: string) {
    1 <= |s| <= 3 && forall i :: 0 <= i < |s| ==> 'a' <= s[i] <= 'z' || 'A' <= s[i] <= 'Z'
  }

  type Prefix = s: string | IsPrefix(s) witness "A"

  function UpperChar(c: char): char {
    if 'a' <= c <= 'z' then 'A' + (c - 'a') else c
  }

  function Upper(s: Prefix): (r: Prefix)
    ensures forall i :: 0 <= i < |r| ==> 'A' <= r[i] <= 'Z'
    ensures (forall i :: 0 <= i < |s| ==> 'A' <= s[i] <= 'Z') ==> r == s
    ensures |r| == |s| && forall i :: 0 <= i < |s| ==>
      r[i] as int == if 97 <= s[i] as int <= 122 then s[i] as int - 32 else s[i] as int
  {
    seq(|s|, i requires 0 <= i < |s| => UpperChar(s[i]))
  }

  datatype Business = Business(organization: nat, owner: nat, status: BusinessStatus)
  datatype Queue = Queue(id: nat, business: nat, prefix: Prefix, isActive: bool, createdAt: int)
  datatype Window = Window(id: nat, queue: nat, isActive: bool, createdAt: int)

  /** The plan grid and the tables; a row's id is its index. `subscriptions`
      has at most one entry per organization, `pendingOwners` are the users
      whose own approval is pending. */
  datatype Account = Account(
    limits: PlanLimits, subscriptions: map<nat, Subscription>, businesses: seq<Business>,
    queues: seq<Queue>, windows: seq<Window>, pendingOwners: set<nat>, clock: int)

  function LimitOf(a: Account, plan: Plan): Limit {
    match plan
    case Basic => a.limits.basic
    case Pro => a.limits.pro
    case Premium => a.limits.premium
  }

  datatype Code =
    | Ok | NotFound | BusinessNotOperating | SubscriptionInactive | SubscriptionNotActive
    | PlanBusinessLimitReached | PlanQueueLimitReached | PlanWindowLimitReached
    | PrefixInUse | QueueLastActive | WindowInUse
    | AlreadyApproved | UseReactivate | OrganizationNotApproved | ApprovalNoteRequired
    | DowngradeBlockedBusinesses | DowngradeBlockedQueues | DowngradeBlockedWindows
    | CannotBeActivated | AlreadyTerminal | WrongStatus

  // ----- counting -----------------------------------------------------------

  function ActiveQueuesOf(business: nat): Queue -> bool { (q: Queue) => q.business == business && q.isActive }
  function ActiveWindowsOf(queue: nat): Window -> bool { (w: Window) => w.queue == queue && w.isActive }

  function ActiveQueues(a: Account, business: nat): seq<Queue> { Filter(a.queues, ActiveQueuesOf(business)) }
  function ActiveWindows(a: Account, queue: nat): seq<Window> { Filter(a.windows, ActiveWindowsOf(queue)) }

  predicate OlderQueue(x: Queue, y: Queue) { x.createdAt <= y.createdAt }
  predicate OlderWindow(x: Window, y: Window) { x.createdAt <= y.createdAt }

  function OrganizationOf(a: Account, queue: Queue): Option<nat> {
    if queue.business < |a.businesses| then Some(a.businesses[queue.business].organization) else None
  }

  function PlanOf(a: Account, organization: nat): Plan {
    if organization in a.subscriptions then a.subscriptions[organization].plan else Basic
  }

  // ----- trimming to a limit ------------------------------------------------

  /** The queue stays: it is active and among the oldest active ones. */
  predicate StaysActive(a: Account, limit: Limit, q: Queue) {
    q.isActive && AmongFirst(ActiveQueues(a, q.business), limit.maxQueues, OlderQueue)(q)
  }

  predicate ExcessQueue(a: Account, organization: nat, limit: Limit, q: Queue) {
    OrganizationOf(a, q) == Some(organization) && q.isActive && !StaysActive(a, limit, q)
  }

  /** Only windows of queues that stay active are trimmed. */
  predicate ExcessWindow(a: Account, organization: nat, limit: Limit, w: Window) {
    && w.isActive && w.queue < |a.queues|
    && OrganizationOf(a, a.queues[w.queue]) == Some(organization) && StaysActive(a, limit, a.queues[w.queue])
    && !AmongFirst(ActiveWindows(a, w.queue), limit.maxWindows, OlderWindow)(w)
  }

  function ExcessQueueIds(a: Account, organization: nat, limit: Limit): set<nat> {
    set i: nat | i < |a.queues| && ExcessQueue(a, organization, limit, a.queues[i])
  }

  function ExcessWindowIds(a: Account, organization: nat, limit: Limit): set<nat> {
    set i: nat | i < |a.windows| && ExcessWindow(a, organization, limit, a.windows[i])
  }

  function QueuesOff(queues: seq<Queue>, ids: set<nat>): seq<Queue> {
    seq(|queues|, i requires 0 <= i < |queues| =>
      if queues[i].id in ids then queues[i].(isActive := false) else queues[i])
  }

  function WindowsOff(windows: seq<Window>, ids: set<nat>): seq<Window> {
    seq(|windows|, i requires 0 <= i < |windows| =>
      if windows[i].id in ids then windows[i].(isActive := false) else windows[i])
  }

  /** The account with some queues and windows switched off. */
  function Off(a: Account, queueIds: set<nat>, windowIds: set<nat>): Account {
    a.(queues := QueuesOff(a.queues, queueIds), windows := WindowsOff(a.windows, windowIds))
  }

  function Trimmed(a: Account, organization: nat, limit: Limit): Account {
    Off(a, ExcessQueueIds(a, organization, limit), ExcessWindowIds(a, organization, limit))
  }

  // ----- subscriptions ------------------------------------------------------

  predicate Lapsed(s: Subscription) { s.status.Cancelled? || s.status.Expired? }

  function Reconciled(s: Subscription, now: int): Subscription {
    if s.status.Trial? && s.trialEndsAt.Some? && s.trialEndsAt.value <= now then s.(status := Expired) else s
  }

  /** Persists the expiry of a trial when it is first observed. */
  function Resolve(a: Account, organization: nat): Account {
    if organization in a.subscriptions
    then a.(subscriptions := a.subscriptions[organization := Reconciled(a.subscriptions[organization], a.clock)])
    else a
  }

  predicate IsLapsed(a: Account, organization: nat) {
    organization in a.subscriptions && Lapsed(a.subscriptions[organization])
  }

  /** The gate of every creation path: the account after it, and whether it
      let the request through. */
  function Gate(a: Account, organization: nat): (Account, bool) {
    var resolved := Resolve(a, organization);
    if IsLapsed(resolved, organization) then (Trimmed(resolved, organization, LimitOf(resolved, Basic)), false)
    else (resolved, true)
  }

  // ----- requests -----------------------------------------------------------

  datatype Request =
    | CreateQueue(business: nat, prefix: Prefix)
    | ToggleQueue(queue: nat)
    | CreateWindow(line: nat)
    | ToggleWindow(window: nat, occupied: bool)
    | Approve(candidate: nat, organizationApproved: bool, noteMissing: bool)
    | Reject(candidate: nat)
    | Suspend(operating: nat)
    | Reactivate(suspended: nat)
    | Register(organization: nat, owner: nat)
    | ChangePlan(organization: nat, plan: Plan)
    | CancelAndEnforce(organization: nat)
    | Activate(organization: nat)
    | Observe(organization: nat)
    | Wait(ms: nat)

  /** New rows are stamped with the clock, which then moves on: creation times
      are distinct. */
  function WithQueue(a: Account, business: nat, prefix: Prefix): Account {
    var queue := Queue(|a.queues|, business, prefix, true, a.clock);
    var window := Window(|a.windows|, queue.id, true, a.clock);
    a.(queues := a.queues + [queue], windows := a.windows + [window], clock := a.clock + 1)
  }

  function DoCreateQueue(a: Account, business: nat, prefix: Prefix): (Account, Code) {
    if business >= |a.businesses| then (a, NotFound)
    else if a.businesses[business].status != Approved then (a, BusinessNotOperating)
    else
      var organization := a.businesses[business].organization;
      var (gated, open) := Gate(a, organization);
      if !open then (gated, SubscriptionInactive)
      else if |ActiveQueues(a, business)| >= LimitOf(gated, PlanOf(gated, organization)).maxQueues
          then (gated, PlanQueueLimitReached)
      else if exists q ::
          q in a.queues && q.business == business && Upper(q.prefix) == Upper(prefix) then (gated, PrefixInUse)
      else (WithQueue(gated, business, Upper(prefix)), Ok)
  }

  function OtherActiveQueues(a: Account, queue: Queue): nat {
    |Filter(a.queues, (q: Queue) => q.business == queue.business && q.id != queue.id && q.isActive)|
  }

  function DoToggleQueue(a: Account, id: nat): (Account, Code) {
    if id >= |a.queues| || a.queues[id].business >= |a.businesses| then (a, NotFound)
    else
      var queue := a.queues[id];
      if queue.isActive then
        if OtherActiveQueues(a, queue) == 0 then (a, QueueLastActive)
        else (a.(queues := a.queues[id := queue.(isActive := false)]), Ok)
      else
        var organization := a.businesses[queue.business].organization;
        var (gated, open) := Gate(a, organization);
        if !open then (gated, SubscriptionInactive)
        else if OtherActiveQueues(a, queue) >= LimitOf(gated, PlanOf(gated, organization)).maxQueues
            then (gated, PlanQueueLimitReached)
        else (gated.(queues := gated.queues[id := queue.(isActive := true)]), Ok)
  }

  function DoCreateWindow(a: Account, queue: nat): (Account, Code) {
    if queue >= |a.queues| || a.queues[queue].business >= |a.businesses| then (a, NotFound)
    else
      var organization := a.businesses[a.queues[queue].business].organization;
      var (gated, open) := Gate(a, organization);
      if !open then (gated, SubscriptionInactive)
      else if |ActiveWindows(a, queue)| >= LimitOf(gated, PlanOf(gated, organization)).maxWindows
          then (gated, PlanWindowLimitReached)
      else (gated.(windows := gated.windows + [Window(|a.windows|, queue, true, a.clock)], clock := a.clock + 1), Ok)
  }

  function OtherActiveWindows(a: Account, window: Window): nat {
    |Filter(a.windows, (w: Window) => w.queue == window.queue && w.id != window.id && w.isActive)|
  }

  function DoToggleWindow(a: Account, id: nat, occupied: bool): (Account, Code) {
    if id >= |a.windows| || a.windows[id].queue >= |a.queues|
        || a.queues[a.windows[id].queue].business >= |a.businesses|
    then (a, NotFound)
    else
      var window := a.windows[id];
      if window.isActive then
        if occupied then (a, WindowInUse) else (a.(windows := a.windows[id := window.(isActive := false)]), Ok)
      else
        var organization := a.businesses[a.queues[window.queue].business].organization;
        var (gated, open) := Gate(a, organization);
        if !open then (gated, SubscriptionInactive)
        else if OtherActiveWindows(a, window) >= LimitOf(gated, PlanOf(gated, organization)).maxWindows
            then (gated, PlanWindowLimitReached)
        else (gated.(windows := gated.windows[id := window.(isActive := true)]), Ok)
  }

  const TRIAL_MS := 30 * 86_400_000

  function DoApprove(a: Account, business: nat, organizationApproved: bool, noteMissing: bool): (Account, Code) {
    if business >= |a.businesses| then (a, NotFound)
    else if a.businesses[business].status == Approved then (a, AlreadyApproved)
    else if a.businesses[business].status == Suspended then (a, UseReactivate)
    else if !organizationApproved then (a, OrganizationNotApproved)
    else
      var organization := a.businesses[business].organization;
      var resolved := Resolve(a, organization);
      if IsLapsed(resolved, organization) then (resolved, SubscriptionNotActive)
      else if noteMissing then (resolved, ApprovalNoteRequired)
      else
        var approved := StartTrial(Accept(resolved, business), organization);
        if ActiveQueues(a, business) != [] then (approved, Ok)
        else (WithQueue(approved, business, "A"), Ok)
  }

  function SetStatus(a: Account, business: nat, status: BusinessStatus): Account
    requires business < |a.businesses|
  {
    a.(businesses := a.businesses[business := a.businesses[business].(status := status)])
  }

  /** The business is approved, and with it an owner still pending. */
  function Accept(a: Account, business: nat): Account
    requires business < |a.businesses|
  {
    SetStatus(a, business, Approved).(pendingOwners := a.pendingOwners - {a.businesses[business].owner})
  }

  function StartTrial(a: Account, organization: nat): Account {
    if organization in a.subscriptions && a.subscriptions[organization].status.SubPending?
    then a.(subscriptions := a.subscriptions[organization :=
              a.subscriptions[organization].(status := Trial, trialEndsAt := Some(a.clock + TRIAL_MS))])
    else a
  }

  function DoSetStatus(a: Account, business: nat, from: BusinessStatus, to: BusinessStatus): (Account, Code) {
    if business >= |a.businesses| then (a, NotFound)
    else if a.businesses[business].status != from then (a, WrongStatus)
    else (SetStatus(a, business, to), Ok)
  }

  // ----- changing plan ------------------------------------------------------

  function CountedBusiness(organization: nat): Business -> bool {
    (b: Business) => b.organization == organization && b.status != Rejected
  }

  function Max(a: nat, b: nat): nat { if a >= b then a else b }

  /** `Math.max(0, ...)` of the active queues of each business. */
  function MaxActiveQueues(a: Account, organization: nat, upTo: nat): nat
    requires upTo <= |a.businesses|
  {
    if upTo == 0 then 0
    else
      var before := MaxActiveQueues(a, organization, upTo - 1);
      if a.businesses[upTo - 1].organization == organization then Max(before, |ActiveQueues(a, upTo - 1)|) else before
  }

  /** The same over the active windows of each queue, active or not. */
  function MaxActiveWindows(a: Account, organization: nat, upTo: nat): nat
    requires upTo <= |a.queues|
  {
    if upTo == 0 then 0
    else
      var before := MaxActiveWindows(a, organization, upTo - 1);
      if OrganizationOf(a, a.queues[upTo - 1]) == Some(organization)
          then Max(before, |ActiveWindows(a, upTo - 1)|) else before
  }

  function DoChangePlan(a: Account, organization: nat, plan: Plan): (Account, Code) {
    if organization !in a.subscriptions then (a, NotFound)
    else if |Filter(a.businesses, CountedBusiness(organization))| > LimitOf(a, plan).maxBusinesses
        then (a, DowngradeBlockedBusinesses)
    else if MaxActiveQueues(a, organization, |a.businesses|) > LimitOf(a, plan).maxQueues
        then (a, DowngradeBlockedQueues)
    else if MaxActiveWindows(a, organization, |a.queues|) > LimitOf(a, plan).maxWindows
        then (a, DowngradeBlockedWindows)
    else (a.(subscriptions := a.subscriptions[organization := a.subscriptions[organization].(plan := plan)]), Ok)
  }

  // ----- cancelling, activating ---------------------------------------------

  function SetSubscriptionStatus(a: Account, organization: nat, status: SubscriptionStatus): Account
    requires organization in a.subscriptions
  {
    a.(subscriptions := a.subscriptions[organization := a.subscriptions[organization].(status := status)])
  }

  /** Cancels, or takes an earlier cancellation as done, then trims. */
  function DoCancelAndEnforce(a: Account, organization: nat): (Account, Code) {
    if organization !in a.subscriptions then (a, NotFound)
    else if a.subscriptions[organization].status.Expired? then (a, AlreadyTerminal)
    else (Trimmed(SetSubscriptionStatus(a, organization, Cancelled), organization, LimitOf(a, Basic)), Ok)
  }

  function DoActivate(a: Account, organization: nat): (Account, Code) {
    if organization !in a.subscriptions then (a, NotFound)
    else if a.subscriptions[organization].status.Active? then (a, CannotBeActivated)
    else (SetSubscriptionStatus(a, organization, Active), Ok)
  }

  function DoRegister(a: Account, organization: nat, owner: nat): (Account, Code) {
    var resolved := Resolve(a, organization);
    if IsLapsed(resolved, organization) then (resolved, SubscriptionInactive)
    else if |Filter(a.businesses, CountedBusiness(organization))|
        >= LimitOf(resolved, PlanOf(resolved, organization)).maxBusinesses
    then (resolved, PlanBusinessLimitReached)
    else (resolved.(businesses := a.businesses + [Business(organization, owner, Pending)]), Ok)
  }

  function Do(a: Account, r: Request): (Account, Code) {
    match r
    case CreateQueue(business, prefix) => DoCreateQueue(a, business, prefix)
    case ToggleQueue(queue) => DoToggleQueue(a, queue)
    case CreateWindow(line) => DoCreateWindow(a, line)
    case ToggleWindow(window, occupied) => DoToggleWindow(a, window, occupied)
    case Approve(candidate, organizationApproved, noteMissing) =>
      DoApprove(a, candidate, organizationApproved, noteMissing)
    case Reject(candidate) => DoSetStatus(a, candidate, Pending, Rejected)
    case Suspend(operating) => DoSetStatus(a, operating, Approved, Suspended)
    case Reactivate(suspended) => DoSetStatus(a, suspended, Suspended, Approved)
    case Register(organization, owner) => DoRegister(a, organization, owner)
    case ChangePlan(organization, plan) => DoChangePlan(a, organization, plan)
    case CancelAndEnforce(organization) => DoCancelAndEnforce(a, organization)
    case Activate(organization) => DoActivate(a, organization)
    case Observe(organization) => (Resolve(a, organization), Ok)
    case Wait(ms) => (a.(clock := a.clock + ms), Ok)
  }

  function RunAll(a: Account, requests: seq<Request>): Account {
    if requests == [] then a else Do(RunAll(a, requests[..|requests| - 1]), requests[|requests| - 1]).0
  }
}
