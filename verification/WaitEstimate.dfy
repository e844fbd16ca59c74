/** The wait estimate: what it is worth, and how the staff list and the
    customer's own screen differ. */
module WaitEstimate {
  import opened Options
  import opened Sorting
  import opened Turns
  import opened TurnProtocol
  import opened ServiceOrder
  import opened TurnAnswers

  function Max(a: int, b: int): int { if a >= b then a else b }

  function Ceil(n: nat, w: nat): nat
    requires w > 0
  {
    (n + w - 1) / w
  }

  /** Minutes, or nothing when no service window is active. */
  function Estimate(waitingTurns: int, activeWindows: int, averageMinutes: real): Option<nat> {
    if activeWindows <= 0 then None
    else Some(Ceil(Max(0, waitingTurns), activeWindows) * Max(0, averageMinutes.Floor))
  }

  // ----- least makespan -----------------------------------------------------

  /** Job `i` is served by window `s[i]`. */
  ghost predicate IsSchedule(s: seq<nat>, n: nat, w: nat) {
    |s| == n && forall i :: 0 <= i < n ==> s[i] < w
  }

  function Load(s: seq<nat>, k: nat): nat {
    if s == [] then 0 else Load(s[..|s| - 1], k) + (if s[|s| - 1] == k then 1 else 0)
  }

  function MaxLoad(s: seq<nat>, w: nat): nat {
    if w == 0 then 0 else Max(MaxLoad(s, w - 1), Load(s, w - 1))
  }

  function TotalLoad(s: seq<nat>, w: nat): nat {
    if w == 0 then 0 else TotalLoad(s, w - 1) + Load(s, w - 1)
  }

  /** When every job takes `m` minutes, the last window is done at: */
  function Makespan(s: seq<nat>, w: nat, m: nat): nat { MaxLoad(s, w) * m }

  function RoundRobin(n: nat, w: nat): seq<nat>
    requires w > 0
  {
    if n == 0 then [] else RoundRobin(n - 1, w) + [(n - 1) % w]
  }

  lemma {:induction false} TotalOfEmpty(w: nat)
    ensures TotalLoad([], w) == 0
  {
    if w > 0 { TotalOfEmpty(w - 1); }
  }

  lemma {:induction false} TotalOfOneMore(s: seq<nat>, w: nat)
    requires s != []
    ensures TotalLoad(s, w) == TotalLoad(s[..|s| - 1], w) + (if s[|s| - 1] < w then 1 else 0)
  {
    if w > 0 { TotalOfOneMore(s, w - 1); }
  }

  lemma {:induction false} TotalIsJobs(s: seq<nat>, w: nat)
    requires IsSchedule(s, |s|, w)
    ensures TotalLoad(s, w) == |s|
  {
    if s == [] {
      TotalOfEmpty(w);
    } else {
      TotalIsJobs(s[..|s| - 1], w);
      TotalOfOneMore(s, w);
    }
  }

  lemma OneMoreTimes(k: nat, a: nat)
    ensures (k + 1) * a == k * a + a
  {
  }

  lemma {:induction false} TotalIsAtMostMax(s: seq<nat>, w: nat)
    ensures TotalLoad(s, w) <= w * MaxLoad(s, w)
  {
    if w > 0 {
      TotalIsAtMostMax(s, w - 1);
      MulMonotone(w - 1, MaxLoad(s, w - 1), MaxLoad(s, w));
      OneMoreTimes(w - 1, MaxLoad(s, w));
    }
  }

  lemma MulMonotone(k: nat, a: nat, b: nat)
    requires a <= b
    ensures k * a <= k * b
  {
  }

  /** Euclidean division is the only way to write `x` over `w`. */
  lemma DivOf(q: nat, r: nat, w: nat, x: nat)
    requires r < w && x == w * q + r
    ensures x / w == q && x % w == r
  {
    var (q', r') := (x / w, x % w);
    assert w * (q - q') == r' - r;
    if q > q' { MulMonotone(w, 1, q - q'); }
    if q < q' { MulMonotone(w, 1, q' - q); }
  }

  lemma CeilOf(q: nat, r: nat, w: nat)
    requires r < w
    ensures Ceil(w * q + r, w) == q + (if r > 0 then 1 else 0)
  {
    if r == 0 { DivOf(q, w - 1, w, w * q + r + w - 1); }
    else { assert w * (q + 1) == w * q + w; DivOf(q + 1, r - 1, w, w * q + r + w - 1); }
  }

  lemma Split(n: nat, w: nat) returns (q: nat, r: nat)
    requires w > 0
    ensures n == w * q + r && r < w && q == n / w && r == n % w
  {
    q, r := n / w, n % w;
  }

  lemma QuotientBound(q: nat, r: nat, w: nat, k: nat)
    requires r < w && w * q + r <= w * k
    ensures q + (if r > 0 then 1 else 0) <= k
  {
    assert w * (k + 1) == w * k + w;
    if q > k { MulMonotone(w, k + 1, q); }
  }

  lemma CeilIsLeast(n: nat, w: nat, k: nat)
    requires w > 0 && n <= w * k
    ensures Ceil(n, w) <= k
  {
    var q, r := Split(n, w);
    QuotientBound(q, r, w, k);
    CeilOf(q, r, w);
  }

  lemma CeilStep(q: nat, r: nat, w: nat)
    requires r < w
    ensures Ceil(w * q + r + 1, w) == Ceil(w * q + r, w) + (if r == 0 then 1 else 0)
  {
    CeilOf(q, r, w);
    if r + 1 < w {
      CeilOf(q, r + 1, w);
    } else {
      CeilOf(q + 1, 0, w);
      assert w * (q + 1) + 0 == w * q + r + 1;
    }
  }

  lemma CeilNext(n: nat, w: nat)
    requires w > 0
    ensures Ceil(n + 1, w) == Ceil(n, w) + (if n % w == 0 then 1 else 0)
  {
    var q, r := Split(n, w);
    CeilStep(q, r, w);
  }

  lemma PreviousJob(n: nat, w: nat, q: nat, r: nat) returns (q': nat, r': nat)
    requires n > 0 && r < w && n == w * q + r
    ensures r' < w && n - 1 == w * q' + r' && (n - 1) % w == r'
    ensures r > 0 ==> q' == q && r' == r - 1
    ensures r == 0 ==> q > 0 && q' == q - 1 && r' == w - 1
  {
    if r > 0 {
      q', r' := q, r - 1;
    } else {
      if q == 0 { assert false; }
      q', r' := q - 1, w - 1;
      assert w * q == w * (q - 1) + w;
    }
    DivOf(q', r', w, n - 1);
  }

  lemma {:induction false} RoundRobinLoads(n: nat, w: nat, k: nat, q: nat, r: nat)
    requires k < w && r < w && n == w * q + r
    ensures IsSchedule(RoundRobin(n, w), n, w)
    ensures Load(RoundRobin(n, w), k) == q + (if k < r then 1 else 0)
  {
    if n == 0 {
      QuotientBound(q, r, w, 0);
    } else {
      var q', r' := PreviousJob(n, w, q, r);
      RoundRobinLoads(n - 1, w, k, q', r');
      var s, before := RoundRobin(n, w), RoundRobin(n - 1, w);
      assert s == before + [r'];
      assert s[..|s| - 1] == before;
    }
  }

  lemma {:induction false} RoundRobinMax(n: nat, w: nat, v: nat)
    requires 0 < v <= w
    ensures MaxLoad(RoundRobin(n, w), v) == Ceil(n, w)
  {
    var q, r := Split(n, w);
    CeilOf(q, r, w);
    RoundRobinLoads(n, w, v - 1, q, r);
    if v > 1 { RoundRobinMax(n, w, v - 1); }
    else { assert MaxLoad(RoundRobin(n, w), 0) == 0; }
  }

  lemma NoScheduleBeats(s: seq<nat>, n: nat, w: nat, m: nat)
    requires w > 0 && IsSchedule(s, n, w)
    ensures Ceil(n, w) * m <= Makespan(s, w, m)
  {
    TotalIsJobs(s, w);
    TotalIsAtMostMax(s, w);
    CeilIsLeast(n, w, MaxLoad(s, w));
    MulMonotone(m, Ceil(n, w), MaxLoad(s, w));
  }

  /** The estimate is the least makespan of the waiting turns, each taking the
      whole average, on the active windows. */
  lemma EstimateIsLeastMakespan(n: nat, w: nat, average: real)
    requires w > 0
    ensures var m := Max(0, average.Floor);
      && Estimate(n, w, average) == Some(Makespan(RoundRobin(n, w), w, m))
      && IsSchedule(RoundRobin(n, w), n, w)
      && forall s :: IsSchedule(s, n, w) ==> Makespan(RoundRobin(n, w), w, m) <= Makespan(s, w, m)
  {
    var m := Max(0, average.Floor);
    var q, r := Split(n, w);
    RoundRobinMax(n, w, w);
    RoundRobinLoads(n, w, 0, q, r);
    forall s | IsSchedule(s, n, w) ensures Makespan(RoundRobin(n, w), w, m) <= Makespan(s, w, m) {
      NoScheduleBeats(s, n, w, m);
    }
  }

  // ----- the two screens ----------------------------------------------------

  const DEFAULT_SERVICE_MINUTES := 5.0

  function ServiceMinutes(average: Option<real>): real {
    if average.Some? then average.value else DEFAULT_SERVICE_MINUTES
  }

  datatype WaitStatus = WaitStatus(position: nat, minutes: Option<nat>, window: Option<nat>)

  /** What a customer polls for an active turn. */
  function ResolveTurnWaitStatus(rows: seq<Turn>, turn: Turn, activeWindows: nat, average: Option<real>): WaitStatus {
    if !turn.status.Waiting? then WaitStatus(0, Some(0), turn.window)
    else
      var ahead := Ahead(rows, turn);
      WaitStatus(ahead + 1, Estimate(ahead, activeWindows, ServiceMinutes(average)), None)
  }

  /** What the customer's screen says: before the call, one more than the number
      of turns served first, and the wait behind those; from then on position
      zero, no wait and the window. Without history a service takes five
      minutes; without a window there is no estimate. */
  lemma PolledAnswers(rows: seq<Turn>, turn: Turn, activeWindows: nat, average: Option<real>)
    ensures ResolveTurnWaitStatus(rows, turn, activeWindows, average) ==
      if !turn.status.Waiting? then WaitStatus(0, Some(0), turn.window)
      else WaitStatus(|ServedFirst(rows, turn)| + 1,
        if activeWindows == 0 then None
        else Estimate(|ServedFirst(rows, turn)|, activeWindows, if average.Some? then average.value else 5.0), None)
  {
    AheadIsNumberServedFirst(rows, turn);
  }

  datatype ListItem = ListItem(turn: nat, minutes: Option<nat>)

  /** The staff panel: waiting rows are numbered as they are met. */
  method GetQueueList(rows: seq<Turn>, queue: nat, activeWindows: nat,
      average: Option<real>) returns (items: seq<ListItem>)
    ensures |items| == |FindActiveByQueue(rows, queue)|
    ensures forall k :: 0 <= k < |items| ==>
      var list := FindActiveByQueue(rows, queue);
      items[k] == ListItem(list[k].id,
        if list[k].status.Waiting?
        then Estimate(|Filter(list[..k], IsWaiting())| + 1, activeWindows,
                      if average.Some? then average.value else 5.0)
        else None)
  {
    var summaries := FindActiveByQueue(rows, queue);
    var serviceMinutes := if average.Some? then average.value else DEFAULT_SERVICE_MINUTES;
    var waitingPosition := 0;
    items := [];
    for k := 0 to |summaries|
      invariant |items| == k
      invariant waitingPosition == |Filter(summaries[..k], IsWaiting())|
      invariant forall j :: 0 <= j < k ==>
        items[j] == ListItem(summaries[j].id,
          if summaries[j].status.Waiting?
          then Estimate(|Filter(summaries[..j], IsWaiting())| + 1, activeWindows, serviceMinutes) else None)
    {
      var minutes: Option<nat> := None;
      FilterSnoc(summaries, k, IsWaiting());
      if summaries[k].status.Waiting? {
        waitingPosition := waitingPosition + 1;
        minutes := Estimate(waitingPosition, activeWindows, serviceMinutes);
      }
      items := items + [ListItem(summaries[k].id, minutes)];
    }
  }

  lemma {:induction false} FilterSnoc(xs: seq<Turn>, k: nat, p: Turn -> bool)
    requires k < |xs|
    ensures |Filter(xs[..k + 1], p)| == |Filter(xs[..k], p)| + (if p(xs[k]) then 1 else 0)
  {
    if k == 0 {
      assert xs[..1] == [xs[0]] && xs[..0] == [];
      assert Filter([], p) == [];
      assert [xs[0]][1..] == [];
    } else {
      FilterSnoc(xs[1..], k - 1, p);
      assert xs[..k + 1][1..] == xs[1..][..k] && xs[..k][1..] == xs[1..][..k - 1];
    }
  }

  /** For the same turn the staff list says one service interval more than the
      customer's screen when the turns ahead fill the windows evenly, and the
      same number of minutes otherwise. */
  lemma ListExceedsPolledByAtMostOneInterval(rows: seq<Turn>, queue: nat, k: nat, w: nat, average: Option<real>)
    requires KeysDiffer(rows, queue) && k < |FindActiveByQueue(rows, queue)| && w > 0
    requires FindActiveByQueue(rows, queue)[k].status.Waiting?
    ensures var list := FindActiveByQueue(rows, queue); var interval := Max(0, ServiceMinutes(average).Floor);
      var listed := Estimate(|Filter(list[..k], IsWaiting())| + 1, w, ServiceMinutes(average));
      var polled := ResolveTurnWaitStatus(rows, list[k], w, average);
      && listed.Some? && polled.minutes.Some? && polled.position == |Filter(list[..k], IsWaiting())| + 1
      && listed.value == polled.minutes.value + (if Ahead(rows, list[k]) % w == 0 then interval else 0)
  {
    ListPositionIsAheadPlusOne(rows, queue, k);
    var ahead := Ahead(rows, FindActiveByQueue(rows, queue)[k]);
    CeilNext(ahead, w);
    var interval := Max(0, ServiceMinutes(average).Floor);
    assert (Ceil(ahead, w) + 1) * interval == Ceil(ahead, w) * interval + interval;
  }
}
