/** Where the parts meet: queues made by the account requests carry the
    prefixes that the turn protocol prints. */
module Tickets {
  import opened Options
  import Plans
  import Enforcement
  import PlanSafety
  import Turns
  import opened TurnProtocol
  import opened TurnSafety
  import opened TurnDiagram
  import opened Numbering

  /** The queue rows as the turn use cases read them. */
  function QueueRows(queues: seq<Plans.Queue>): map<nat, QueueRow> {
    map i: nat | i < |queues| :: QueueRow(queues[i].business, queues[i].prefix, queues[i].isActive)
  }

  predicate RowKept(q: Plans.Queue, r: Plans.Queue) { r == q.(isActive := r.isActive) }

  predicate RowsKept(a: seq<Plans.Queue>, c: seq<Plans.Queue>) {
    |a| <= |c| && forall i :: 0 <= i < |a| ==> RowKept(a[i], c[i])
  }

  lemma GateKeepsRows(a: Plans.Account, organization: nat)
    ensures RowsKept(a.queues, Plans.Gate(a, organization).0.queues)
  {
  }

  lemma CreateQueueKeepsRows(a: Plans.Account, business: nat, prefix: Plans.Prefix)
    ensures RowsKept(a.queues, Plans.DoCreateQueue(a, business, prefix).0.queues)
  {
    if business < |a.businesses| { GateKeepsRows(a, a.businesses[business].organization); }
  }

  lemma ToggleQueueKeepsRows(a: Plans.Account, id: nat)
    ensures RowsKept(a.queues, Plans.DoToggleQueue(a, id).0.queues)
  {
    if id < |a.queues| && a.queues[id].business < |a.businesses| {
      GateKeepsRows(a, a.businesses[a.queues[id].business].organization);
    }
  }

  lemma CreateWindowKeepsRows(a: Plans.Account, id: nat)
    ensures RowsKept(a.queues, Plans.DoCreateWindow(a, id).0.queues)
  {
    if id < |a.queues| && a.queues[id].business < |a.businesses| {
      GateKeepsRows(a, a.businesses[a.queues[id].business].organization);
    }
  }

  lemma ToggleWindowKeepsRows(a: Plans.Account, id: nat, occupied: bool)
    ensures RowsKept(a.queues, Plans.DoToggleWindow(a, id, occupied).0.queues)
  {
    if id < |a.windows| && a.windows[id].queue < |a.queues| && a.queues[a.windows[id].queue].business < |a.businesses| {
      GateKeepsRows(a, a.businesses[a.queues[a.windows[id].queue].business].organization);
    }
  }

  lemma RequestKeepsRows(a: Plans.Account, r: Plans.Request)
    ensures RowsKept(a.queues, Plans.Do(a, r).0.queues)
  {
    match r
    case CreateQueue(business, prefix) => CreateQueueKeepsRows(a, business, prefix);
    case ToggleQueue(id) => ToggleQueueKeepsRows(a, id);
    case CreateWindow(id) => CreateWindowKeepsRows(a, id);
    case ToggleWindow(id, occupied) => ToggleWindowKeepsRows(a, id, occupied);
    case _ =>
  }

  /** A queue keeps its business and its prefix in every run. */
  lemma {:induction false} RunKeepsRows(a: Plans.Account, requests: seq<Plans.Request>)
    ensures RowsKept(a.queues, Plans.RunAll(a, requests).queues)
  {
    if requests != [] {
      var before := requests[..|requests| - 1];
      RunKeepsRows(a, before);
      RequestKeepsRows(Plans.RunAll(a, before), requests[|requests| - 1]);
    }
  }

  lemma UpperHasNoDash(s: Plans.Prefix)
    requires Plans.Upper(s) == s
    ensures '-' !in s
  {
    var u := Plans.Upper(s);
    assert forall i :: 0 <= i < |u| ==> 'A' <= u[i] <= 'Z';
  }

  lemma PrefixesOkDiffer(queues: seq<Plans.Queue>, cfg: Config)
    requires PlanSafety.PrefixesOk(queues) && cfg.queues == QueueRows(queues)
    ensures PrefixesDiffer(cfg)
  {
    forall q | q in cfg.queues ensures '-' !in cfg.queues[q].prefix { UpperHasNoDash(queues[q].prefix); }
    forall p, q | p in cfg.queues && q in cfg.queues && p != q && cfg.queues[p].business == cfg.queues[q].business
      ensures cfg.queues[p].prefix != cfg.queues[q].prefix
    {
      if p < q { assert queues[p].prefix != queues[q].prefix; } else { assert queues[q].prefix != queues[p].prefix; }
    }
  }

  /** Every turn's ticket is unlike every other of its business and day. */
  ghost predicate TicketsApart(s: Sys) {
    forall i, j :: 0 <= i < j < |s.db.rows| && SameBusinessAndDay(s.db.rows[i], s.db.rows[j]) ==>
      s.db.rows[i].display != s.db.rows[j].display
  }

  predicate SameBusinessAndDay(t: Turns.Turn, u: Turns.Turn) { t.business == u.business && t.date == u.date }

  lemma PrefixesKeepTicketsApart(s: Sys)
    requires SysInv(s) && PrefixesDiffer(s.db.cfg)
    ensures TicketsApart(s)
  {
    forall i, j | 0 <= i < j < |s.db.rows| && SameBusinessAndDay(s.db.rows[i], s.db.rows[j])
      ensures s.db.rows[i].display != s.db.rows[j].display
    {
      TicketsDiffer(s, i, j);
    }
  }

  // ----- both stores at once ------------------------------------------------

  /** The account tables, what businesses say of their operation, and the turn
      table with the requests in flight. */
  datatype World = World(account: Plans.Account, operational: map<nat, Operational>, sys: Sys)

  /** An account request, a change of operation, or one step of the turn
      requests: a launch, one database access, the passing of time. */
  datatype WorldEvent =
    | Manage(request: Plans.Request)
    | Announce(business: nat, status: Operational)
    | Serve(event: Event)

  /** What the turn use cases read of the account tables. */
  function ConfigOf(a: Plans.Account, operational: map<nat, Operational>): Config {
    Config(
      QueueRows(a.queues),
      map b: nat | b < |a.businesses| ::
        BusinessRow(a.businesses[b].status == Plans.Approved, if b in operational then operational[b] else Normal),
      map w: nat | w < |a.windows| :: WindowRow(a.windows[w].queue, a.windows[w].isActive))
  }

  function Show(w: World): World { w.(sys := Step(w.sys, Reconfigure(ConfigOf(w.account, w.operational)))) }

  function WorldStep(w: World, e: WorldEvent): World {
    match e
    case Manage(request) => Show(w.(account := Plans.Do(w.account, request).0))
    case Announce(business, status) => Show(w.(operational := w.operational[business := status]))
    case Serve(event) => if event.Reconfigure? then w else w.(sys := Step(w.sys, event))
  }

  function WorldRun(w: World, events: seq<WorldEvent>): World {
    if events == [] then w else WorldStep(WorldRun(w, events[..|events| - 1]), events[|events| - 1])
  }

  function EmptyWorld(
    limits: Plans.PlanLimits, subscriptions: map<nat, Plans.Subscription>, pendingOwners: set<nat>, clock: int,
    indexed: bool): World
  {
    var account := Plans.Account(limits, subscriptions, [], [], [], pendingOwners, clock);
    World(account, map[], Start(ConfigOf(account, map[]), clock, indexed))
  }

  ghost predicate WorldInv(w: World) {
    PlanSafety.PlanInv(w.account) && SysInv(w.sys) && w.sys.db.cfg == ConfigOf(w.account, w.operational)
  }

  /** The turn requests take every change of the account tables as one of the
      reconfigurations they reckon with. */
  lemma ShowIsReconfiguration(s: Sys, a: Plans.Account, c: Plans.Account, operational: map<nat, Operational>)
    requires SysInv(s) && s.db.cfg.queues == QueueRows(a.queues) && RowsKept(a.queues, c.queues)
    ensures QueuesKept(s.db.cfg, ConfigOf(c, operational))
    ensures SysInv(Step(s, Reconfigure(ConfigOf(c, operational))))
    ensures Step(s, Reconfigure(ConfigOf(c, operational))).db.cfg == ConfigOf(c, operational)
  {
    var cfg := ConfigOf(c, operational);
    forall q | q in s.db.cfg.queues
      ensures q in cfg.queues && cfg.queues[q].business == s.db.cfg.queues[q].business
      ensures cfg.queues[q].prefix == s.db.cfg.queues[q].prefix
    {
      assert RowKept(a.queues[q], c.queues[q]);
    }
    StepSafe(s, Reconfigure(cfg));
  }

  lemma ServingKeepsConfig(s: Sys, e: Event)
    requires !e.Reconfigure?
    ensures Step(s, e).db.cfg == s.db.cfg
  {
    if e.Go? && e.k < |s.flights| { AdvanceKeepsConfig(s.db, s.flights[e.k]); }
  }

  lemma AdvanceKeepsConfig(db: Db, f: Flight)
    ensures Advance(db, f).0.cfg == db.cfg
  {
    if !f.Saving? && !f.Inserting? { ReadPhasesDoNotWrite(db, f); }
  }

  lemma ManagingKeepsInv(w: World, request: Plans.Request)
    requires WorldInv(w)
    ensures WorldInv(WorldStep(w, Manage(request)))
  {
    PlanSafety.EveryRequestKeepsInv(w.account, request);
    RequestKeepsRows(w.account, request);
    ShowIsReconfiguration(w.sys, w.account, Plans.Do(w.account, request).0, w.operational);
  }

  lemma AnnouncingKeepsInv(w: World, business: nat, status: Operational)
    requires WorldInv(w)
    ensures WorldInv(WorldStep(w, Announce(business, status)))
  {
    ShowIsReconfiguration(w.sys, w.account, w.account, w.operational[business := status]);
  }

  lemma ServingKeepsInv(w: World, e: Event)
    requires WorldInv(w)
    ensures WorldInv(WorldStep(w, Serve(e)))
  {
    if !e.Reconfigure? {
      StepSafe(w.sys, e);
      ServingKeepsConfig(w.sys, e);
    }
  }

  lemma {:induction false} WorldRunKeepsInv(w: World, events: seq<WorldEvent>)
    requires WorldInv(w)
    ensures WorldInv(WorldRun(w, events))
  {
    if events != [] {
      WorldRunKeepsInv(w, events[..|events| - 1]);
      var before := WorldRun(w, events[..|events| - 1]);
      match events[|events| - 1]
      case Manage(request) => ManagingKeepsInv(before, request);
      case Announce(business, status) => AnnouncingKeepsInv(before, business, status);
      case Serve(e) => ServingKeepsInv(before, e);
    }
  }

  /** Whatever interleaves, a turn is only ever taken from a queue that is
      active and of a business that is approved in the account tables, and that
      has not announced that it pauses or is closed. */
  lemma TurnsAreTakenWhereOpen(w: World, join: Join)
    requires w.sys.db.cfg == ConfigOf(w.account, w.operational) && Alone(w.sys.db, JoinQueue(join)).1.Saved?
    ensures join.queue < |w.account.queues|
    ensures var queue := w.account.queues[join.queue];
      && queue.isActive && queue.business < |w.account.businesses|
      && w.account.businesses[queue.business].status == Plans.Approved
      && (queue.business in w.operational ==> w.operational[queue.business] in {Normal, Delayed})
  {
    JoinedWhereOpen(w.sys.db, join);
  }

  lemma EmptyWorldIsFine(
    limits: Plans.PlanLimits, subscriptions: map<nat, Plans.Subscription>, pendingOwners: set<nat>, clock: int,
    indexed: bool)
    ensures WorldInv(EmptyWorld(limits, subscriptions, pendingOwners, clock, indexed))
  {
    Reachable(EmptyWorld(limits, subscriptions, pendingOwners, clock, indexed).sys.db.cfg, clock, indexed, []);
  }

  /** From empty tables, in every state of every run that mixes account
      requests, one at a time, with any interleaving of turn requests, no two
      turns of one business and day print the same ticket. */
  lemma TicketsStayApart(
    limits: Plans.PlanLimits, subscriptions: map<nat, Plans.Subscription>, pendingOwners: set<nat>, clock: int,
    indexed: bool, events: seq<WorldEvent>)
    ensures TicketsApart(WorldRun(EmptyWorld(limits, subscriptions, pendingOwners, clock, indexed), events).sys)
  {
    EmptyWorldIsFine(limits, subscriptions, pendingOwners, clock, indexed);
    WorldRunKeepsInv(EmptyWorld(limits, subscriptions, pendingOwners, clock, indexed), events);
    var w := WorldRun(EmptyWorld(limits, subscriptions, pendingOwners, clock, indexed), events);
    PrefixesOkDiffer(w.account.queues, w.sys.db.cfg);
    PrefixesKeepTicketsApart(w.sys);
  }
}

/** The requests that run beside a suspension are the turn requests. */
module SuspensionRaces {
  import opened Options
  import opened Turns
  import opened TurnProtocol
  import opened TurnSafety
  import S = Suspension

  function TableOf(rows: seq<Turn>): S.Table { seq(|rows|, i requires 0 <= i < |rows| => Some(rows[i])) }

  /** Any interleaving of turn requests is something the suspension reckons
      with, as long as the rows it has locked wait for it. */
  lemma TurnRequestsAreOtherWriters(s: Sys, events: seq<Event>, locked: set<nat>)
    requires SysInv(s)
    requires forall i :: i in locked && i < |s.db.rows| && i < |Run(s, events).db.rows| ==>
      Run(s, events).db.rows[i] == s.db.rows[i]
    ensures S.OthersRan(TableOf(s.db.rows), TableOf(Run(s, events).db.rows), locked)
  {
    NoLostUpdates(s, events);
    RunSafe(s, events);
  }
}

/** When the line has no ties. */
module LineKeys {
  import opened Options
  import opened Turns
  import opened TurnProtocol
  import opened TurnSafety
  import opened Numbering
  import opened ServiceOrder

  /** Waiting turns of a queue that were issued on the same day never tie: the
      number decides. Only a turn left waiting from another day can tie. */
  lemma SameDayTurnsNeverTie(s: Sys, queue: nat, date: int)
    requires SysInv(s)
    requires forall i :: 0 <= i < |s.db.rows| && IsWaitingIn(queue)(s.db.rows[i]) ==> s.db.rows[i].date == date
    ensures KeysDiffer(s.db.rows, queue)
  {
    var rows := s.db.rows;
    forall i, j | 0 <= i < j < |rows| && IsWaitingIn(queue)(rows[i]) && IsWaitingIn(queue)(rows[j])
      ensures Compare(rows[i], rows[j]) != 0
    {
      NumbersDiffer(rows, i, j);
    }
  }
}
