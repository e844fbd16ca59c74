/** A turn in a waiting queue, the order in which turns are served, and the
    number printed on its ticket. */
module Turns {
  import opened Options

  datatype Status = Waiting | Called | Attending | Redirected | Cancelled | Completed | NoShow
  datatype Priority = Arrived | Physical | InTransit | Registered
  datatype Source = App | Web | Manual | Phone

  /** One row of the turn table. `id` is the row's index in the table and
      `version` stands for `updatedAt`, fresh on every committed write.
      Times are milliseconds, `date` is a day number. */
  datatype Turn = Turn(
    id: nat, queue: nat, business: nat, customer: Option<nat>, window: Option<nat>,
    number: nat, display: string, status: Status, priority: Priority, source: Source,
    date: int, joinedAt: int,
    calledAt: Option<int>, startedAt: Option<int>, attendedAt: Option<int>,
    cancelledAt: Option<int>, noShowAt: Option<int>, version: nat)

  predicate Terminal(s: Status) { s.Cancelled? || s.Completed? || s.NoShow? }
  predicate Active(s: Status) { !Terminal(s) }

  /** A redirected turn already claims its window, attended or not. */
  predicate Holding(s: Status) { s.Attending? || s.Redirected? }

  /** Lower is served sooner. */
  function Rank(p: Priority): nat {
    match p
    case Arrived => 1
    case Physical => 2
    case InTransit => 3
    case Registered => 4
  }

  /** The service-order comparator: priority, then joining time, then number. */
  function Compare(a: Turn, b: Turn): int {
    var rankDiff := Rank(a.priority) - Rank(b.priority);
    if rankDiff != 0 then rankDiff
    else
      var byJoin := a.joinedAt - b.joinedAt;
      if byJoin != 0 then byJoin else a.number - b.number
  }

  predicate NotAfter(a: Turn, b: Turn) { Compare(a, b) <= 0 }

  // ----- what may happen to a row ------------------------------------------

  /** The life of a turn, one committed write at a time. */
  predicate StatusEdge(a: Status, b: Status) {
    match a
    case Waiting => b.Called? || b.Cancelled?
    case Called => b.Attending? || b.NoShow? || b.Cancelled?
    case Attending => b.Completed? || b.Redirected? || b.Cancelled?
    case Redirected => b.Attending? || b.Cancelled?
    case _ => false
  }

  predicate PriorityEdge(a: Priority, b: Priority) {
    (a.Registered? && b.InTransit?) || (a.InTransit? && b.Arrived?)
  }

  predicate SameIdentity(a: Turn, b: Turn) {
    && a.id == b.id && a.queue == b.queue && a.business == b.business && a.customer == b.customer
    && a.number == b.number && a.display == b.display && a.source == b.source
    && a.date == b.date && a.joinedAt == b.joinedAt
  }

  /** One write: either the status moves along the diagram and the priority
      stays, or an active turn's priority moves and nothing else does. */
  predicate LegalEdge(a: Turn, b: Turn) {
    && SameIdentity(a, b)
    && (|| (StatusEdge(a.status, b.status) && a.priority == b.priority)
        || (Active(a.status) && PriorityEdge(a.priority, b.priority)
            && b == a.(priority := b.priority, version := b.version)))
  }

  /** Which statuses can follow after any number of writes. */
  predicate StatusReach(a: Status, b: Status) {
    match a
    case Waiting => true
    case Called => !b.Waiting?
    case Attending => Holding(b) || b.Completed? || b.Cancelled?
    case Redirected => Holding(b) || b.Completed? || b.Cancelled?
    case _ => a == b
  }

  predicate PriorityReach(a: Priority, b: Priority) {
    a == b || (a.Registered? && (b.InTransit? || b.Arrived?)) || (a.InTransit? && b.Arrived?)
  }

  /** What a row can have become after any number of other callers' writes. */
  predicate Evolved(a: Turn, b: Turn) {
    || a == b
    || (&& SameIdentity(a, b) && a.version < b.version && Active(a.status)
        && StatusReach(a.status, b.status) && PriorityReach(a.priority, b.priority))
  }

  lemma EvolvedIsTransitive(a: Turn, b: Turn, c: Turn)
    requires Evolved(a, b) && Evolved(b, c)
    ensures Evolved(a, c)
  {
  }

  // ----- the ticket ---------------------------------------------------------

  function Digit(d: nat): char
    requires d < 10
  {
    '0' + d as char
  }

  function Decimal(n: nat): string {
    if n < 10 then [Digit(n)] else Decimal(n / 10) + [Digit(n % 10)]
  }

  function Zeros(n: nat): string { seq(n, _ => '0') }

  function PadStart3(s: string): string {
    if |s| < 3 then Zeros(3 - |s|) + s else s
  }

  function Display(prefix: string, number: nat): string {
    prefix + "-" + PadStart3(Decimal(number))
  }

  const HOUR_MS := 3_600_000
  const DAY_MS := 86_400_000

  /** The Argentine calendar day, three hours behind UTC. */
  function Today(clock: int): int { (clock - 3 * HOUR_MS) / DAY_MS }
}
