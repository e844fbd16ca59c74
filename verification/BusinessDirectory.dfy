/** The operators' list of businesses: the subscription filters pushed into
    SQL, and the pages. */
module BusinessDirectory {
  import opened Options
  import opened Sorting
  import opened Plans

  datatype CommercialState = PendingApproval | Trialing(plan: Plan) | Paying(plan: Plan) | HasExpired | WasCancelled

  function ComputeCommercialState(s: Subscription): CommercialState {
    match s.status
    case SubPending => PendingApproval
    case Trial => Trialing(s.plan)
    case Active => Paying(s.plan)
    case Expired => HasExpired
    case Cancelled => WasCancelled
  }

  // ----- the filters --------------------------------------------------------

  datatype Filters = Filters(plan: Option<Plan>, effectiveStatus: Option<SubscriptionStatus>)

  function CommercialStateFilters(state: CommercialState): Filters {
    match state
    case PendingApproval => Filters(None, Some(SubPending))
    case Trialing(plan) => Filters(Some(plan), Some(Trial))
    case Paying(plan) => Filters(Some(plan), Some(Active))
    case HasExpired => Filters(None, Some(Expired))
    case WasCancelled => Filters(None, Some(Cancelled))
  }

  /** The individual parameters win over what the commercial state says. */
  function ToSubscriptionFilters(plan: Option<Plan>, status: Option<SubscriptionStatus>,
      state: Option<CommercialState>): Option<Filters> {
    var fromState := if state.Some? then CommercialStateFilters(state.value) else Filters(None, None);
    var filters := Filters(
      if plan.Some? then plan else fromState.plan, if status.Some? then status else fromState.effectiveStatus);
    if filters == Filters(None, None) then None else Some(filters)
  }

  // ----- the SQL condition --------------------------------------------------

  datatype Condition =
    | Anything
    | PlanIs(plan: Plan)
    | StatusIs(status: SubscriptionStatus)
    | TrialEndIsNull
    | TrialEndAfter(instant: int)
    | TrialEndUpTo(instant: int)
    | Both(left: Condition, right: Condition)
    | Either(left: Condition, right: Condition)

  datatype Truth = Yes | No | Unknown

  function TruthOf(b: bool): Truth { if b then Yes else No }

  /** SQL's three-valued logic: comparing with NULL is unknown. */
  function Eval(c: Condition, s: Subscription): Truth {
    match c
    case Anything => Yes
    case PlanIs(plan) => TruthOf(s.plan == plan)
    case StatusIs(status) => TruthOf(s.status == status)
    case TrialEndIsNull => TruthOf(s.trialEndsAt.None?)
    case TrialEndAfter(t) => if s.trialEndsAt.None? then Unknown else TruthOf(s.trialEndsAt.value > t)
    case TrialEndUpTo(t) => if s.trialEndsAt.None? then Unknown else TruthOf(s.trialEndsAt.value <= t)
    case Both(l, r) =>
      var (x, y) := (Eval(l, s), Eval(r, s));
      if x == No || y == No then No else if x == Yes && y == Yes then Yes else Unknown
    case Either(l, r) =>
      var (x, y) := (Eval(l, s), Eval(r, s));
      if x == Yes || y == Yes then Yes else if x == No && y == No then No else Unknown
  }

  function ToSubscriptionWhere(f: Filters, now: int): Condition {
    var plan := if f.plan.Some? then PlanIs(f.plan.value) else Anything;
    match f.effectiveStatus
    case None => plan
    case Some(Trial) => Both(plan, Both(StatusIs(Trial), Either(TrialEndIsNull, TrialEndAfter(now))))
    case Some(Expired) => Both(plan, Either(StatusIs(Expired), Both(StatusIs(Trial), TrialEndUpTo(now))))
    case Some(status) => Both(plan, StatusIs(status))
  }

  /** A row is returned when the condition is true, not when it is unknown; an
      organization without a subscription row satisfies no condition on it. */
  predicate Selected(f: Option<Filters>, s: Option<Subscription>, now: int) {
    f.None? || (s.Some? && Eval(ToSubscriptionWhere(f.value, now), s.value) == Yes)
  }

  predicate Agrees<T(==)>(wanted: Option<T>, actual: T) { wanted.None? || wanted.value == actual }

  /** Pushdown preserves meaning: the condition on the stored row says what the
      filters say of the reconciled row. */
  lemma WhereMeansReconciled(f: Filters, s: Subscription, now: int)
    ensures Eval(ToSubscriptionWhere(f, now), s) == Yes
      <==> Agrees(f.plan, s.plan) && Agrees(f.effectiveStatus, Reconciled(s, now).status)
  {
    var plan := if f.plan.Some? then PlanIs(f.plan.value) else Anything;
    assert Eval(plan, s) == TruthOf(Agrees(f.plan, s.plan));
    var trial, expired := Either(TrialEndIsNull, TrialEndAfter(now)), Both(StatusIs(Trial), TrialEndUpTo(now));
    assert Eval(trial, s) == TruthOf(s.trialEndsAt.None? || s.trialEndsAt.value > now);
    assert Eval(expired, s) == Yes <==> s.status == Trial && s.trialEndsAt.Some? && s.trialEndsAt.value <= now;
    assert Eval(Both(StatusIs(Trial), trial), s) == Yes <==> Reconciled(s, now).status == Trial;
    assert Eval(Either(StatusIs(Expired), expired), s) == Yes <==> Reconciled(s, now).status == Expired;
  }

  /** Asking for a commercial state finds exactly the subscriptions that show
      that state, whether or not an expiry has been persisted. */
  lemma CommercialStateFilterIsExact(state: CommercialState, s: Subscription, now: int)
    ensures var f := ToSubscriptionFilters(None, None, Some(state));
      && (Selected(f, Some(s), now) <==> ComputeCommercialState(Reconciled(s, now)) == state)
      && (Selected(f, Some(Reconciled(s, now)), now) <==> Selected(f, Some(s), now))
      && !Selected(f, None, now)
  {
    var f := CommercialStateFilters(state);
    WhereMeansReconciled(f, s, now);
    WhereMeansReconciled(f, Reconciled(s, now), now);
    assert ToSubscriptionFilters(None, None, Some(state)) == Some(f);
  }

  // ----- combined parameters ------------------------------------------------

  /** What ticking several boxes is documented to mean: every one applies. */
  predicate EveryConditionApplies(
    plan: Option<Plan>, status: Option<SubscriptionStatus>, state: Option<CommercialState>, s: Subscription, now: int)
  {
    var r := Reconciled(s, now);
    Agrees(plan, r.plan) && Agrees(status, r.status) && Agrees(state, ComputeCommercialState(r))
  }

  /** The boxes do not contradict each other. */
  predicate Consistent(plan: Option<Plan>, status: Option<SubscriptionStatus>, state: Option<CommercialState>) {
    state.None? ||
      (&& (plan.None? || Agrees(CommercialStateFilters(state.value).plan, plan.value))
       && (status.None? || Agrees(CommercialStateFilters(state.value).effectiveStatus, status.value)))
  }

  /** A subscription the combined filters select. */
  function Sample(plan: Option<Plan>, status: Option<SubscriptionStatus>,
      state: Option<CommercialState>): Subscription {
    var f := ToSubscriptionFilters(plan, status, state);
    Subscription(if f.Some? && f.value.plan.Some? then f.value.plan.value else Basic,
                 if f.Some? && f.value.effectiveStatus.Some? then f.value.effectiveStatus.value else Active, None)
  }

  lemma CombinedFiltersWhenConsistent(
    plan: Option<Plan>, status: Option<SubscriptionStatus>, state: Option<CommercialState>, s: Subscription, now: int)
    requires Consistent(plan, status, state)
    ensures Selected(ToSubscriptionFilters(plan, status, state), Some(s), now)
      <==> EveryConditionApplies(plan, status, state, s, now)
  {
    var f := ToSubscriptionFilters(plan, status, state);
    if f.Some? { WhereMeansReconciled(f.value, s, now); }
    if state.Some? { WhereMeansReconciled(CommercialStateFilters(state.value), s, now); }
  }

  /** For this subscription the filters say what the boxes say. */
  predicate MeansEveryCondition(
    plan: Option<Plan>, status: Option<SubscriptionStatus>, state: Option<CommercialState>, s: Subscription, now: int)
  {
    Selected(ToSubscriptionFilters(plan, status, state), Some(s), now)
    <==> EveryConditionApplies(plan, status, state, s, now)
  }

  /** Every condition applies exactly when the parameters do not contradict the
      commercial state; when they do, the individual parameter wins. */
  lemma CombinedFiltersAreConjunctionIffConsistent(
    plan: Option<Plan>, status: Option<SubscriptionStatus>, state: Option<CommercialState>, now: int)
    ensures (forall s :: MeansEveryCondition(plan, status, state, s, now)) <==> Consistent(plan, status, state)
  {
    if Consistent(plan, status, state) {
      forall s ensures MeansEveryCondition(plan, status, state, s, now) {
        CombinedFiltersWhenConsistent(plan, status, state, s, now);
      }
    } else {
      var s, f := Sample(plan, status, state), ToSubscriptionFilters(plan, status, state);
      WhereMeansReconciled(f.value, s, now);
      assert Selected(f, Some(s), now) && !EveryConditionApplies(plan, status, state, s, now);
      assert !MeansEveryCondition(plan, status, state, s, now);
    }
  }

  /** A contradictory combination does not match nothing: asked for paying_pro
      and plan basic, the list shows paying basic organizations. */
  lemma ContradictionStillMatches(now: int)
    ensures Selected(
      ToSubscriptionFilters(Some(Basic), None, Some(Paying(Pro))), Some(Subscription(Basic, Active, None)), now)
    ensures ComputeCommercialState(Reconciled(Subscription(Basic, Active, None), now)) != Paying(Pro)
  {
  }

  // ----- pages --------------------------------------------------------------

  /** An answer the database may give: the matches in order, those with equal
      keys in any order, and possibly another one for the next query. */
  ghost predicate ValidOrder<T>(order: seq<T>, matches: seq<T>, le: (T, T) -> bool) {
    Sorted(order, le) && multiset(order) == multiset(matches)
  }

  function PageStart(n: nat, pageSize: nat, k: nat): nat { if k * pageSize < n then k * pageSize else n }

  /** Page `k`, counted from zero: skip and take. */
  function Page<T>(order: seq<T>, pageSize: nat, k: nat): seq<T> {
    order[PageStart(|order|, pageSize, k)..PageStart(|order|, pageSize, k + 1)]
  }

  /** The first `pages` pages, each cut from its own query's order. */
  function Pages<T>(orders: seq<seq<T>>, pageSize: nat): seq<T> {
    if orders == [] then []
    else Pages(orders[..|orders| - 1], pageSize) + Page(orders[|orders| - 1], pageSize, |orders| - 1)
  }

  /** Equal keys sit on both sides of the cut. */
  predicate TieAt<T>(order: seq<T>, cut: nat, le: (T, T) -> bool) {
    0 < cut < |order| && le(order[cut], order[cut - 1])
  }

  /** No page boundary separates equal keys. */
  ghost predicate NoTieStraddles<T>(order: seq<T>, pageSize: nat, le: (T, T) -> bool) {
    forall k: nat :: 0 < k ==> !TieAt(order, k * pageSize, le)
  }

  lemma {:induction false} FilterOfMultiset<T>(xs: seq<T>, p: T -> bool, x: T)
    ensures multiset(Filter(xs, p))[x] == if p(x) then multiset(xs)[x] else 0
  {
    if xs != [] {
      FilterOfMultiset(xs[1..], p, x);
      assert xs == [xs[0]] + xs[1..];
    }
  }

  lemma {:induction false} FilterOfPrefix<T>(xs: seq<T>, p: T -> bool, n: nat)
    requires n <= |xs| && forall k :: 0 <= k < |xs| ==> (p(xs[k]) <==> k < n)
    ensures Filter(xs, p) == xs[..n]
  {
    if xs != [] {
      FilterOfPrefix(xs[1..], p, if n == 0 then 0 else n - 1);
      if n > 0 { assert xs[..n] == [xs[0]] + xs[1..][..n - 1]; }
    }
  }

  function UpTo<T>(t: T, le: (T, T) -> bool): T -> bool { x => le(x, t) }

  /** In a sorted list the elements not after a given one form a prefix. */
  lemma {:induction false} SortedFilterIsPrefix<T(!new)>(xs: seq<T>, t: T, le: (T, T) -> bool)
    requires TotalPreorder(le) && Sorted(xs, le)
    ensures |Filter(xs, UpTo(t, le))| <= |xs|
    ensures Filter(xs, UpTo(t, le)) == xs[..|Filter(xs, UpTo(t, le))|]
  {
    var p := UpTo(t, le);
    FilterLength(xs, p, p);
    if xs != [] {
      if p(xs[0]) {
        SortedFilterIsPrefix(xs[1..], t, le);
        var n := |Filter(xs[1..], p)|;
        assert xs[..n + 1] == [xs[0]] + xs[1..][..n];
      } else {
        forall k | 0 <= k < |xs| ensures !p(xs[k]) { if k > 0 { assert le(xs[0], xs[k]); } }
        FilterOfPrefix(xs, p, 0);
      }
    }
  }

  /** Two answers agree on what comes before a cut that splits no tie. */
  lemma CutsAgree<T(!new)>(a: seq<T>, b: seq<T>, cut: nat, le: (T, T) -> bool)
    requires TotalPreorder(le) && Sorted(a, le) && Sorted(b, le) && multiset(a) == multiset(b)
    requires cut <= |a| && !TieAt(a, cut, le)
    ensures |b| == |a| && multiset(a[..cut]) == multiset(b[..cut])
  {
    assert |b| == |multiset(b)| == |multiset(a)| == |a|;
    if cut == |a| {
      assert a[..cut] == a && b[..cut] == b;
    } else if cut > 0 {
      var p := UpTo(a[cut - 1], le);
      forall k | 0 <= k < |a| ensures p(a[k]) <==> k < cut {
        if k > cut { assert le(a[cut], a[k]); }
      }
      FilterOfPrefix(a, p, cut);
      SortedFilterIsPrefix(b, a[cut - 1], le);
      forall x ensures multiset(Filter(a, p))[x] == multiset(Filter(b, p))[x] {
        FilterOfMultiset(a, p, x);
        FilterOfMultiset(b, p, x);
      }
      assert multiset(Filter(a, p)) == multiset(Filter(b, p));
      assert |Filter(b, p)| == |multiset(Filter(b, p))| == cut;
    }
  }

  lemma PageOfCuts<T>(order: seq<T>, pageSize: nat, k: nat)
    ensures var (lo, hi) := (PageStart(|order|, pageSize, k), PageStart(|order|, pageSize, k + 1));
      lo <= hi && multiset(order[..lo]) + multiset(Page(order, pageSize, k)) == multiset(order[..hi])
  {
    var lo, hi := PageStart(|order|, pageSize, k), PageStart(|order|, pageSize, k + 1);
    assert (k + 1) * pageSize == k * pageSize + pageSize;
    assert order[..hi] == order[..lo] + order[lo..hi];
  }

  /** The pages read so far list exactly what comes before the next one. */
  lemma {:induction false} PagesCoverPrefix<T(!new)>(
    matches: seq<T>, orders: seq<seq<T>>, pageSize: nat, le: (T, T) -> bool, order: seq<T>)
    requires TotalPreorder(le) && ValidOrder(order, matches, le)
    requires forall k :: 0 <= k < |orders| ==> ValidOrder(orders[k], matches, le)
    requires NoTieStraddles(order, pageSize, le)
    ensures |order| == |matches|
    ensures multiset(Pages(orders, pageSize)) == multiset(order[..PageStart(|order|, pageSize, |orders|)])
  {
    assert |order| == |multiset(order)| == |multiset(matches)| == |matches|;
    if orders == [] {
      assert order[..0] == [];
    } else {
      var k := |orders| - 1;
      var last := orders[k];
      PagesCoverPrefix(matches, orders[..k], pageSize, le, order);
      PageOfCuts(last, pageSize, k);
      StartsAgree(order, last, pageSize, k, le);
      StartsAgree(order, last, pageSize, k + 1, le);
    }
  }

  lemma StartsAgree<T(!new)>(a: seq<T>, b: seq<T>, pageSize: nat, k: nat, le: (T, T) -> bool)
    requires TotalPreorder(le) && Sorted(a, le) && Sorted(b, le) && multiset(a) == multiset(b)
    requires 0 < k ==> !TieAt(a, k * pageSize, le)
    ensures |b| == |a|
    ensures multiset(a[..PageStart(|a|, pageSize, k)]) == multiset(b[..PageStart(|a|, pageSize, k)])
  {
    if k == 0 {
      assert |b| == |multiset(b)| == |multiset(a)| == |a|;
    } else {
      CutsAgree(a, b, PageStart(|a|, pageSize, k), le);
    }
  }

  /** If no tie straddles a page boundary, the pages together list each match
      exactly once, however the database breaks ties from query to query. */
  lemma PagesListEachMatchOnce<T(!new)>(matches: seq<T>, orders: seq<seq<T>>, pageSize: nat, le: (T, T) -> bool,
      order: seq<T>)
    requires TotalPreorder(le) && ValidOrder(order, matches, le)
    requires forall k :: 0 <= k < |orders| ==> ValidOrder(orders[k], matches, le)
    requires NoTieStraddles(order, pageSize, le)
    requires |matches| <= |orders| * pageSize
    ensures multiset(Pages(orders, pageSize)) == multiset(matches)
  {
    PagesCoverPrefix(matches, orders, pageSize, le, order);
    assert order[..|order|] == order;
  }

  /** Distinct keys leave no tie. */
  lemma DistinctKeysHaveNoTies<T(!new)>(matches: seq<T>, le: (T, T) -> bool, cut: nat)
    requires TotalPreorder(le) && DistinctKeys(matches, le)
    ensures ValidOrder(Sort(matches, le), matches, le) && !TieAt(Sort(matches, le), cut, le)
  {
    SortIsSortedPermutation(matches, le);
    SortKeepsDistinct(matches, le);
    if 0 < cut < |matches| {
      var s := Sort(matches, le);
      assert le(s[cut - 1], s[cut]);
      assert !(le(s[cut - 1], s[cut]) && le(s[cut], s[cut - 1]));
    }
  }

  /** A tie across a boundary can make two neighbouring pages list the same
      match: the database may swap the two between the queries. */
  lemma TieAcrossPagesCanRepeat<T(!new)>(matches: seq<T>, order: seq<T>, pageSize: nat, k: nat, le: (T, T) -> bool)
    requires TotalPreorder(le) && ValidOrder(order, matches, le) && 0 < pageSize && 0 < k
    requires TieAt(order, k * pageSize, le)
    ensures var listed := order[k * pageSize - 1];
      listed in Page(order, pageSize, k - 1) && exists other ::
          ValidOrder(other, matches, le) && listed in Page(other, pageSize, k)
  {
    var cut := k * pageSize;
    var other := order[cut - 1 := order[cut]][cut := order[cut - 1]];
    assert (k - 1) * pageSize == cut - pageSize && (k + 1) * pageSize == cut + pageSize;
    forall i, j | 0 <= i < j < |other| ensures le(other[i], other[j]) {
      var x, y := if i == cut - 1 then cut else if i == cut then cut - 1 else i, if j == cut - 1 then cut
        else if j == cut then cut - 1 else j;
      assert other[i] == order[x] && other[j] == order[y];
    }
    assert Page(order, pageSize, k - 1)[pageSize - 1] == order[cut - 1];
    assert Page(other, pageSize, k)[0] == order[cut - 1];
    assert ValidOrder(other, matches, le);
  }

  /** The number of times the pages list `x`. */
  function TimesListed<T(==)>(orders: seq<seq<T>>, pageSize: nat, x: T): nat { multiset(Pages(orders, pageSize))[x] }

  function Concat<T>(parts: seq<seq<T>>): seq<T> {
    if parts == [] then [] else Concat(parts[..|parts| - 1]) + parts[|parts| - 1]
  }

  lemma {:induction false} PagesAreConcat<T>(orders: seq<seq<T>>, pageSize: nat, parts: seq<seq<T>>)
    requires |parts| == |orders| && forall i :: 0 <= i < |orders| ==> parts[i] == Page(orders[i], pageSize, i)
    ensures Pages(orders, pageSize) == Concat(parts)
  {
    if orders != [] { PagesAreConcat(orders[..|orders| - 1], pageSize, parts[..|orders| - 1]); }
  }

  lemma {:induction false} InOnePart<T>(parts: seq<seq<T>>, k: nat, x: T)
    requires k < |parts| && x in parts[k]
    ensures multiset(Concat(parts))[x] >= 1
  {
    if k < |parts| - 1 { InOnePart(parts[..|parts| - 1], k, x); }
  }

  lemma {:induction false} InTwoParts<T>(parts: seq<seq<T>>, j: nat, k: nat, x: T)
    requires j < k < |parts| && x in parts[j] && x in parts[k]
    ensures multiset(Concat(parts))[x] >= 2
  {
    if k < |parts| - 1 {
      InTwoParts(parts[..|parts| - 1], j, k, x);
    } else {
      InOnePart(parts[..|parts| - 1], j, x);
    }
  }

  lemma ListedTwice<T>(orders: seq<seq<T>>, pageSize: nat, k: nat, x: T)
    requires 0 < k < |orders| && x in Page(orders[k - 1], pageSize, k - 1) && x in Page(orders[k], pageSize, k)
    ensures TimesListed(orders, pageSize, x) >= 2
  {
    var parts := seq(|orders|, i requires 0 <= i < |orders| => Page(orders[i], pageSize, i));
    PagesAreConcat(orders, pageSize, parts);
    InTwoParts(parts, k - 1, k, x);
  }

  ghost predicate AllValid<T>(orders: seq<seq<T>>, matches: seq<T>, le: (T, T) -> bool) {
    forall k :: 0 <= k < |orders| ==> ValidOrder(orders[k], matches, le)
  }

  /** However the database breaks ties, reading all pages lists each match
      once. */
  ghost predicate AlwaysExact<T(!new)>(matches: seq<T>, pages: nat, pageSize: nat, le: (T, T) -> bool) {
    forall orders: seq<seq<T>> :: |orders| == pages && AllValid(orders, matches, le) ==>
      multiset(Pages(orders, pageSize)) == multiset(matches)
  }

  /** The pages are exact precisely when no two matches with equal keys stand
      on the two sides of a page boundary. */
  lemma PagesAreExactIffNoTieStraddles<T(!new)>(
    matches: seq<T>, order: seq<T>, pages: nat, pageSize: nat, le: (T, T) -> bool)
    requires TotalPreorder(le) && ValidOrder(order, matches, le) && 0 < pageSize && |matches| <= pages * pageSize
    requires forall x :: x in matches ==> multiset(matches)[x] == 1
    ensures AlwaysExact(matches, pages, pageSize, le) <==> NoTieStraddles(order, pageSize, le)
  {
    if NoTieStraddles(order, pageSize, le) {
      forall orders: seq<seq<T>> | |orders| == pages && AllValid(orders, matches, le)
        ensures multiset(Pages(orders, pageSize)) == multiset(matches)
      {
        PagesListEachMatchOnce(matches, orders, pageSize, le, order);
      }
    } else {
      var k: nat :| 0 < k && TieAt(order, k * pageSize, le);
      TieMakesPagesInexact(matches, order, pages, pageSize, k, le);
    }
  }

  lemma TieMakesPagesInexact<T(!new)>(
    matches: seq<T>, order: seq<T>, pages: nat, pageSize: nat, k: nat, le: (T, T) -> bool)
    requires TotalPreorder(le) && ValidOrder(order, matches, le) && 0 < pageSize && |matches| <= pages * pageSize
    requires forall x :: x in matches ==> multiset(matches)[x] == 1
    requires 0 < k && TieAt(order, k * pageSize, le)
    ensures !AlwaysExact(matches, pages, pageSize, le)
  {
    TieAcrossPagesCanRepeat(matches, order, pageSize, k, le);
    var listed := order[k * pageSize - 1];
    var other :| ValidOrder(other, matches, le) && listed in Page(other, pageSize, k);
    assert k < pages by { PageWithin(matches, order, pages, pageSize, k); }
    SwappedOrdersListTwice(matches, order, other, pages, pageSize, k, listed, le);
    assert listed in multiset(order);
  }

  lemma PageWithin<T>(matches: seq<T>, order: seq<T>, pages: nat, pageSize: nat, k: nat)
    requires multiset(order) == multiset(matches) && |matches| <= pages * pageSize && k * pageSize < |order|
    ensures k < pages
  {
    assert |order| == |multiset(order)| == |multiset(matches)| == |matches|;
    assert pages <= k ==> pages * pageSize <= k * pageSize;
  }

  lemma SwappedOrdersListTwice<T>(
    matches: seq<T>, order: seq<T>, other: seq<T>, pages: nat, pageSize: nat, k: nat, listed: T, le: (T, T) -> bool)
    requires ValidOrder(order, matches, le) && ValidOrder(other, matches, le) && 0 < k < pages
    requires listed in Page(order, pageSize, k - 1) && listed in Page(other, pageSize, k)
    ensures exists orders: seq<seq<T>> ::
      |orders| == pages && AllValid(orders, matches, le) && TimesListed(orders, pageSize, listed) >= 2
  {
    var orders := seq(pages, i requires 0 <= i < pages => if i == k then other else order);
    assert orders[k - 1] == order && orders[k] == other;
    ListedTwice(orders, pageSize, k, listed);
    assert AllValid(orders, matches, le);
  }

  // ----- the list -----------------------------------------------------------

  datatype Row = Row(id: nat, organization: nat, category: nat, status: BusinessStatus, nameRank: int, createdAt: int)

  datatype SortBy = BusinessName | CreatedAt

  datatype Query = Query(organization: Option<nat>, category: Option<nat>, status: Option<BusinessStatus>,
      subscription: Option<Filters>)

  datatype Item = Item(business: nat, plan: Option<Plan>, status: Option<SubscriptionStatus>,
      commercialState: Option<CommercialState>)

  function InOrder(sortBy: SortBy, ascending: bool): (Row, Row) -> bool {
    (x: Row, y: Row) =>
      var (a, b) := if sortBy.BusinessName? then (x.nameRank, y.nameRank) else (x.createdAt, y.createdAt);
      if ascending then a <= b else b <= a
  }

  function SubscriptionOf(subscriptions: map<nat, Subscription>, organization: nat): Option<Subscription> {
    if organization in subscriptions then Some(subscriptions[organization]) else None
  }

  function ToFindManyWhere(q: Query, subscriptions: map<nat, Subscription>, now: int): Row -> bool {
    (r: Row) => Agrees(q.organization, r.organization) && Agrees(q.category, r.category) && Agrees(q.status, r.status)
      && Selected(q.subscription, SubscriptionOf(subscriptions, r.organization), now)
  }

  /** What the list shows of a business, given its resolved subscription. */
  function ItemOf(r: Row, resolved: Option<Subscription>): Item {
    if resolved.None? then Item(r.id, None, None, None)
    else Item(r.id, Some(resolved.value.plan), Some(resolved.value.status),
        Some(ComputeCommercialState(resolved.value)))
  }

  function ReconciledOf(subscriptions: map<nat, Subscription>, organization: nat, now: int): Option<Subscription> {
    if organization in subscriptions then Some(Reconciled(subscriptions[organization], now)) else None
  }

  function ShownFor(r: Row, subscriptions: map<nat, Subscription>, now: int): Item {
    ItemOf(r, ReconciledOf(subscriptions, r.organization, now))
  }

  function ItemsFor(found: seq<Row>, subscriptions: map<nat, Subscription>, now: int): seq<Item> {
    seq(|found|, i requires 0 <= i < |found| =>
      ItemOf(found[i], ReconciledOf(subscriptions, found[i].organization, now)))
  }

  /** The trials of the listed organizations that are over have been marked
      expired; every other subscription is as it was. */
  ghost predicate ExpiriesWritten(
    before: map<nat, Subscription>, after: map<nat, Subscription>, found: seq<Row>, now: int)
  {
    && after.Keys == before.Keys
    && forall o :: o in before ==>
         after[o] == if IsAmong(found, o) && before[o].status.Trial? && before[o].trialEndsAt.Some?
                        && before[o].trialEndsAt.value <= now
                     then Subscription(before[o].plan, Expired, before[o].trialEndsAt) else before[o]
  }

  predicate IsAmong(found: seq<Row>, organization: nat) { exists r :: r in found && r.organization == organization }

  lemma AmongOneMore(found: seq<Row>, r: Row, organization: nat)
    ensures IsAmong(found + [r], organization) <==> IsAmong(found, organization) || r.organization == organization
  {
    if IsAmong(found, organization) {
      var x :| x in found && x.organization == organization;
      assert x in found + [r];
    }
    assert r in found + [r];
  }

  /** What one query may return. */
  ghost predicate IsPage(page: seq<Row>, matches: seq<Row>, le: (Row, Row) -> bool, skip: nat, take: nat) {
    exists order :: ValidOrder(order, matches, le) && page == order[Least(skip, |order|)..Least(skip + take, |order|)]
  }

  lemma InOrderIsTotal(sortBy: SortBy, ascending: bool)
    ensures TotalPreorder(InOrder(sortBy, ascending))
  {
  }

  lemma PageRowsMatch(page: seq<Row>, matches: seq<Row>, le: (Row, Row) -> bool, skip: nat, take: nat)
    requires IsPage(page, matches, le, skip, take)
    ensures forall r :: r in page ==> r in matches
  {
    var order :| ValidOrder(order, matches, le) && page == order[Least(skip, |order|)..Least(skip + take, |order|)];
    forall r | r in page ensures r in matches { assert r in multiset(order); }
  }

  /** What the list may show, and leave in the table: the items of a page of the
      matches, and the expiries noticed on that page. */
  ghost predicate IsListing(
    items: seq<Item>, after: map<nat, Subscription>, rows: seq<Row>, q: Query, subscriptions: map<nat, Subscription>,
    now: int, le: (Row, Row) -> bool, skip: nat, take: nat)
  {
    exists found: seq<Row> ::
      && IsPage(found, Filter(rows, ToFindManyWhere(q, subscriptions, now)), le, skip, take)
      && items == ItemsFor(found, subscriptions, now) && ExpiriesWritten(subscriptions, after, found, now)
  }

  lemma PageIsListing(
    found: seq<Row>, after: map<nat, Subscription>, rows: seq<Row>, q: Query, subscriptions: map<nat, Subscription>,
    now: int, le: (Row, Row) -> bool, skip: nat, take: nat)
    requires IsPage(found, Filter(rows, ToFindManyWhere(q, subscriptions, now)), le, skip, take)
    requires ExpiriesWritten(subscriptions, after, found, now)
    ensures IsListing(ItemsFor(found, subscriptions, now), after, rows, q, subscriptions, now, le, skip, take)
  {
  }

  lemma RowShowsState(r: Row, q: Query, subscriptions: map<nat, Subscription>, now: int,
                      plan: Option<Plan>, status: Option<SubscriptionStatus>, state: Option<CommercialState>)
    requires ToFindManyWhere(q, subscriptions, now)(r)
    requires q.subscription == ToSubscriptionFilters(plan, status, state) && state.Some?
    requires Consistent(plan, status, state)
    ensures ItemOf(r, ReconciledOf(subscriptions, r.organization, now)).commercialState == state
  {
    CombinedFiltersWhenConsistent(plan, status, state, subscriptions[r.organization], now);
  }

  lemma ListedRowsMatch(
    items: seq<Item>, after: map<nat, Subscription>, rows: seq<Row>, q: Query, subscriptions: map<nat, Subscription>,
    now: int, le: (Row, Row) -> bool, skip: nat, take: nat, item: Item)
    requires IsListing(items, after, rows, q, subscriptions, now, le, skip, take) && item in items
    ensures exists r ::
      r in rows && ToFindManyWhere(q, subscriptions, now)(r) && item == ShownFor(r, subscriptions, now)
  {
    var p := ToFindManyWhere(q, subscriptions, now);
    var found: seq<Row> :| IsPage(found, Filter(rows, p), le, skip, take)
      && items == ItemsFor(found, subscriptions, now);
    var i :| 0 <= i < |items| && items[i] == item;
    PageRowsMatch(found, Filter(rows, p), le, skip, take);
    FilterMembers(rows, p);
    assert found[i] in found;
  }

  /** Every item listed for a commercial state shows that state. */
  lemma ListingShowsState(
    items: seq<Item>, after: map<nat, Subscription>, rows: seq<Row>, q: Query, subscriptions: map<nat, Subscription>,
    now: int, le: (Row, Row) -> bool, skip: nat, take: nat,
    plan: Option<Plan>, status: Option<SubscriptionStatus>, state: Option<CommercialState>)
    requires IsListing(items, after, rows, q, subscriptions, now, le, skip, take)
    requires q.subscription == ToSubscriptionFilters(plan, status, state) && state.Some?
    requires Consistent(plan, status, state)
    ensures forall item :: item in items ==> item.commercialState == state
  {
    forall item | item in items ensures item.commercialState == state {
      ListedRowsMatch(items, after, rows, q, subscriptions, now, le, skip, take, item);
      var r: Row :| r in rows && ToFindManyWhere(q, subscriptions, now)(r)
        && item == ItemOf(r, ReconciledOf(subscriptions, r.organization, now));
      RowShowsState(r, q, subscriptions, now, plan, status, state);
    }
  }

  /** How many rows come before a page that is counted from one. */
  function Skip(page: nat, pageSize: nat): nat
    requires 1 <= page
  {
    (page - 1) * pageSize
  }

  // ----- what the words mean ------------------------------------------------

  /** What one request lists is one of the pages that the page theorems cut. */
  lemma ListedPageIsPage(found: seq<Row>, matches: seq<Row>, le: (Row, Row) -> bool, page: nat, pageSize: nat)
    requires 1 <= page && IsPage(found, matches, le, Skip(page, pageSize), pageSize)
    ensures exists order :: ValidOrder(order, matches, le) && found == Page(order, pageSize, page - 1)
  {
    var order :| ValidOrder(order, matches, le)
      && found == order[Least(Skip(page, pageSize), |order|)..Least(Skip(page, pageSize) + pageSize, |order|)];
    StartIsSkip(|order|, page, pageSize);
  }

  lemma StartIsSkip(n: nat, page: nat, pageSize: nat)
    requires 1 <= page
    ensures PageStart(n, pageSize, page - 1) == Least(Skip(page, pageSize), n)
    ensures PageStart(n, pageSize, page - 1 + 1) == Least(Skip(page, pageSize) + pageSize, n)
  {
    var k := page - 1;
    assert (k + 1) * pageSize == k * pageSize + pageSize;
  }

  /** In every valid order names, or dates, rise or fall as asked. */
  lemma OrderRuns(order: seq<Row>, matches: seq<Row>, i: nat, j: nat)
    requires i < j < |order|
    ensures ValidOrder(order, matches, InOrder(BusinessName, true)) ==> order[i].nameRank <= order[j].nameRank
    ensures ValidOrder(order, matches, InOrder(BusinessName, false)) ==> order[i].nameRank >= order[j].nameRank
    ensures ValidOrder(order, matches, InOrder(CreatedAt, true)) ==> order[i].createdAt <= order[j].createdAt
    ensures ValidOrder(order, matches, InOrder(CreatedAt, false)) ==> order[i].createdAt >= order[j].createdAt
  {
    assert InOrder(BusinessName, true)(order[i], order[j]) ==> order[i].nameRank <= order[j].nameRank;
    assert InOrder(BusinessName, false)(order[i], order[j]) ==> order[i].nameRank >= order[j].nameRank;
    assert InOrder(CreatedAt, true)(order[i], order[j]) ==> order[i].createdAt <= order[j].createdAt;
    assert InOrder(CreatedAt, false)(order[i], order[j]) ==> order[i].createdAt >= order[j].createdAt;
  }

  /** The status of a subscription as of now. */
  function StatusNow(s: Subscription, now: int): SubscriptionStatus {
    if s.status.Trial? && s.trialEndsAt.Some? && s.trialEndsAt.value <= now then Expired else s.status
  }

  /** A business matches if its organization, category and status are those
      asked for, and its organization has a subscription whose plan and status
      as of now are. */
  lemma MatchMeans(r: Row, q: Query, subscriptions: map<nat, Subscription>, now: int)
    ensures ToFindManyWhere(q, subscriptions, now)(r) <==>
      && (q.organization.Some? ==> r.organization == q.organization.value)
      && (q.category.Some? ==> r.category == q.category.value)
      && (q.status.Some? ==> r.status == q.status.value)
      && (q.subscription.Some? ==>
            && r.organization in subscriptions
            && var (f, s) := (q.subscription.value, subscriptions[r.organization]);
               (f.plan.Some? ==> s.plan == f.plan.value)
                 && (f.effectiveStatus.Some? ==> StatusNow(s, now) == f.effectiveStatus.value))
  {
    if q.subscription.Some? && r.organization in subscriptions {
      WhereMeansReconciled(q.subscription.value, subscriptions[r.organization], now);
    }
  }

  /** What the list shows of a business: plan, status and commercial state of
      its organization's subscription as of now, or none of them. */
  lemma ItemShows(r: Row, subscriptions: map<nat, Subscription>, now: int)
    ensures ShownFor(r, subscriptions, now) ==
      if r.organization !in subscriptions then Item(r.id, None, None, None)
      else
        var s := subscriptions[r.organization];
        Item(r.id, Some(s.plan), Some(StatusNow(s, now)), Some(
          match StatusNow(s, now)
          case SubPending => PendingApproval
          case Trial => Trialing(s.plan)
          case Active => Paying(s.plan)
          case Expired => HasExpired
          case Cancelled => WasCancelled))
  {
  }

  class Directory {
    var rows: seq<Row>
    var subscriptions: map<nat, Subscription>
    var clock: int

    constructor (rows: seq<Row>, subscriptions: map<nat, Subscription>, clock: int)
      ensures this.rows == rows && this.subscriptions == subscriptions && this.clock == clock
    {
      this.rows, this.subscriptions, this.clock := rows, subscriptions, clock;
    }

    method FindMany(q: Query, sortBy: SortBy, ascending: bool, skip: nat, take: nat) returns (page: seq<Row>)
      ensures IsPage(page, Filter(rows, ToFindManyWhere(q, subscriptions, clock)), InOrder(sortBy, ascending), skip,
        take)
    {
      var matches := Filter(rows, ToFindManyWhere(q, subscriptions, clock));
      InOrderIsTotal(sortBy, ascending);
      SortIsSortedPermutation(matches, InOrder(sortBy, ascending));
      var order := Sort(matches, InOrder(sortBy, ascending));
      page := order[Least(skip, |order|)..Least(skip + take, |order|)];
    }

    /** Persists the expiry of a trial the first time it is seen. */
    method ResolveEffectiveStatus(organization: nat) returns (subscription: Option<Subscription>)
      modifies `subscriptions
      ensures subscription == ReconciledOf(old(subscriptions), organization, clock)
      ensures subscriptions == if subscription.Some?
        then old(subscriptions)[organization := subscription.value] else old(subscriptions)
    {
      if organization !in subscriptions { return None; }
      var stored := Reconciled(subscriptions[organization], clock);
      subscriptions := subscriptions[organization := stored];
      return Some(stored);
    }

    /** The items of a page; each organization is resolved once. */
    method ToListItems(found: seq<Row>) returns (items: seq<Item>)
      modifies `subscriptions
      ensures items == ItemsFor(found, old(subscriptions), clock)
      ensures ExpiriesWritten(old(subscriptions), subscriptions, found, clock)
    {
      ghost var before := subscriptions;
      var subscriptionByOrg: map<nat, Option<Subscription>> := map[];
      items := [];
      for i := 0 to |found|
        invariant items == ItemsFor(found[..i], before, clock)
        invariant ExpiriesWritten(before, subscriptions, found[..i], clock)
        invariant forall o :: o in subscriptionByOrg <==> IsAmong(found[..i], o)
        invariant forall o :: o in subscriptionByOrg ==> subscriptionByOrg[o] == ReconciledOf(before, o, clock)
      {
        var o := found[i].organization;
        forall other: nat
          ensures IsAmong(found[..i + 1], other) <==> IsAmong(found[..i], other) || found[i].organization == other
        {
          AmongOneMore(found[..i], found[i], other);
          assert found[..i + 1] == found[..i] + [found[i]];
        }
        if o !in subscriptionByOrg {
          var subscription := ResolveEffectiveStatus(o);
          subscriptionByOrg := subscriptionByOrg[o := subscription];
        }
        items := items + [ItemOf(found[i], subscriptionByOrg[o])];
        assert found[..i + 1] == found[..i] + [found[i]];
      }
      assert found[..|found|] == found;
    }

    /** One page, counted from one, and the total; the table changes only by
        persisted expiries. */
    method ListAllBusinesses(
      organization: Option<nat>, category: Option<nat>, status: Option<BusinessStatus>,
      plan: Option<Plan>, subscriptionStatus: Option<SubscriptionStatus>, state: Option<CommercialState>,
      sortBy: SortBy, ascending: bool, page: nat, pageSize: nat)
      returns (items: seq<Item>, total: nat)
      requires 1 <= page && 1 <= pageSize
      modifies `subscriptions
      ensures var q := Query(organization, category, status, ToSubscriptionFilters(plan, subscriptionStatus, state));
        && total == |Filter(rows, ToFindManyWhere(q, old(subscriptions), clock))|
        && IsListing(items, subscriptions, rows, q, old(subscriptions), clock, InOrder(sortBy, ascending),
                     Skip(page, pageSize), pageSize)
    {
      var q := Query(organization, category, status, ToSubscriptionFilters(plan, subscriptionStatus, state));
      var skip := Skip(page, pageSize);
      var found := FindMany(q, sortBy, ascending, skip, pageSize);
      ghost var before := subscriptions;
      total := |Filter(rows, ToFindManyWhere(q, subscriptions, clock))|;
      items := ToListItems(found);
      PageIsListing(found, subscriptions, rows, q, before, clock, InOrder(sortBy, ascending), skip, pageSize);
    }
  }
}
