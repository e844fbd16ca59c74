/** A queue's figures for one day, and why no turn escapes them. */
module DayMetrics {
  import opened Options
  import opened Turns
  import opened TurnProtocol
  import opened TurnSafety
  import opened Numbering

  function CountStatus(rows: seq<Turn>, queue: nat, date: int, p: Status -> bool): nat {
    if rows == [] then 0
    else CountStatus(rows[..|rows| - 1], queue, date, p) +
         (if rows[|rows| - 1].queue == queue && rows[|rows| - 1].date == date && p(rows[|rows| - 1].status)
             then 1 else 0)
  }

  function IsActive(): Status -> bool { (s: Status) => Active(s) }
  function IsCancelled(): Status -> bool { (s: Status) => s.Cancelled? }
  function IsNoShow(): Status -> bool { (s: Status) => s.NoShow? }

  /** A completed turn as the metrics see it. */
  datatype Service = Service(startedAt: int, attendedAt: int)

  datatype DayRaw = DayRaw(completed: seq<Service>, cancelledCount: nat, noShowCount: nat)

  /** The completed rows that carry both timestamps. */
  function CompletedOf(rows: seq<Turn>, queue: nat, date: int): seq<Service> {
    if rows == [] then []
    else
      var (t, before) := (rows[|rows| - 1], CompletedOf(rows[..|rows| - 1], queue, date));
      if t.queue == queue && t.date == date && t.status.Completed? && t.startedAt.Some? && t.attendedAt.Some?
      then before + [Service(t.startedAt.value, t.attendedAt.value)] else before
  }

  function GetRawMetricsByDate(rows: seq<Turn>, queue: nat, date: int): DayRaw {
    DayRaw(CompletedOf(rows, queue, date),
           CountStatus(rows, queue, date, IsCancelled()), CountStatus(rows, queue, date, IsNoShow()))
  }

  /** Rates are in tenths of a percent. */
  datatype Metrics = Metrics(completedCount: nat, cancelledCount: nat, noShowCount: nat, totalCount: nat,
                             cancellationRate: int, noShowRate: int, avgServiceMinutes: Option<int>,
                             peakHour: Option<int>)

  /** `q` is the fraction rounded to the nearest integer, halves upwards. */
  predicate IsRounded(q: int, numerator: int, denominator: int) {
    2 * denominator * q - denominator <= 2 * numerator < 2 * denominator * q + denominator
  }

  function Round(numerator: int, denominator: int): (q: int)
    requires denominator > 0
    ensures IsRounded(q, numerator, denominator)
  {
    var twice := 2 * denominator;
    var q := (2 * numerator + denominator) / twice;
    assert 2 * numerator + denominator == twice * q + (2 * numerator + denominator) % twice;
    q
  }

  const MINUTE_MS := 60_000

  function TotalTime(done: seq<Service>): int {
    if done == [] then 0
    else TotalTime(done[..|done| - 1]) + done[|done| - 1].attendedAt - done[|done| - 1].startedAt
  }

  function CountHour(done: seq<Service>, hourOf: int -> int, hour: int): nat {
    if done == [] then 0
    else CountHour(done[..|done| - 1], hourOf, hour) + (if hourOf(done[|done| - 1].startedAt) == hour then 1 else 0)
  }

  /** The hours in which services started, in order of first appearance. */
  function HoursOf(done: seq<Service>, hourOf: int -> int): seq<int> {
    if done == [] then []
    else
      var (before, hour) := (HoursOf(done[..|done| - 1], hourOf), hourOf(done[|done| - 1].startedAt));
      if hour in before then before else before + [hour]
  }

  /** Together two lists of services take what each takes, and one service takes
      from its start to its end. */
  lemma {:induction false} TotalTimeAdds(a: seq<Service>, b: seq<Service>)
    ensures TotalTime(a + b) == TotalTime(a) + TotalTime(b)
    ensures |a| == 1 ==> TotalTime(a) == a[0].attendedAt - a[0].startedAt
  {
    if |a| == 1 { assert a[..0] == []; }
    if b == [] {
      assert a + b == a;
    } else {
      assert (a + b)[..|a + b| - 1] == a + b[..|b| - 1];
      TotalTimeAdds(a, b[..|b| - 1]);
    }
  }

  /** The services that started in the hour. */
  function StartedIn(done: seq<Service>, hourOf: int -> int, hour: int): set<nat> {
    set k: nat | k < |done| && hourOf(done[k].startedAt) == hour
  }

  lemma {:induction false} CountHourIsSize(done: seq<Service>, hourOf: int -> int, hour: int)
    ensures CountHour(done, hourOf, hour) == |StartedIn(done, hourOf, hour)|
  {
    if done != [] {
      var before, last := done[..|done| - 1], |done| - 1;
      CountHourIsSize(before, hourOf, hour);
      assert StartedIn(done, hourOf, hour)
        == StartedIn(before, hourOf, hour) + (if hourOf(done[last].startedAt) == hour then {last} else {});
    }
  }

  /** A service of the first hour comes before every service of the second. */
  ghost predicate SeenFirst(done: seq<Service>, hourOf: int -> int, first: int, second: int) {
    exists k :: 0 <= k < |done| && IsFirstSight(done, hourOf, first, second, k)
  }

  predicate IsFirstSight(done: seq<Service>, hourOf: int -> int, first: int, second: int, k: nat)
    requires k < |done|
  {
    hourOf(done[k].startedAt) == first && forall m :: 0 <= m <= k ==> hourOf(done[m].startedAt) != second
  }

  /** The hours are listed in the order in which they were first seen. */
  lemma {:induction false} HoursAreInOrder(done: seq<Service>, hourOf: int -> int, i: nat, j: nat)
    requires i < j < |HoursOf(done, hourOf)|
    ensures SeenFirst(done, hourOf, HoursOf(done, hourOf)[i], HoursOf(done, hourOf)[j])
  {
    var last := |done| - 1;
    var before, hours := done[..last], HoursOf(done, hourOf);
    var earlier := HoursOf(before, hourOf);
    HoursOfHaveServices(before, hourOf);
    assert earlier[i] in earlier && hours[i] == earlier[i];
    if j < |earlier| {
      HoursAreInOrder(before, hourOf, i, j);
      var k :| 0 <= k < |before| && IsFirstSight(before, hourOf, hours[i], hours[j], k);
      assert forall m :: 0 <= m <= k ==> done[m] == before[m];
      assert IsFirstSight(done, hourOf, hours[i], hours[j], k);
    } else {
      SomeServiceIn(before, hourOf, hours[i]);
      var k :| 0 <= k < |before| && hourOf(before[k].startedAt) == hours[i];
      forall m | 0 <= m <= k ensures hourOf(done[m].startedAt) != hours[j] {
        HourIsListed(before, hourOf, m);
        assert done[m] == before[m];
      }
      assert IsFirstSight(done, hourOf, hours[i], hours[j], k);
    }
  }

  lemma {:induction false} SomeServiceIn(done: seq<Service>, hourOf: int -> int, hour: int)
    requires CountHour(done, hourOf, hour) > 0
    ensures exists k :: 0 <= k < |done| && hourOf(done[k].startedAt) == hour
  {
    CountHourIsSize(done, hourOf, hour);
    var k :| k in StartedIn(done, hourOf, hour);
  }

  lemma HourIsListed(done: seq<Service>, hourOf: int -> int, m: nat)
    requires m < |done|
    ensures hourOf(done[m].startedAt) in HoursOf(done, hourOf)
  {
    HoursOfHaveServices(done, hourOf);
    CountHourIsSize(done, hourOf, hourOf(done[m].startedAt));
    assert m in StartedIn(done, hourOf, hourOf(done[m].startedAt));
  }

  predicate NoTwice(hours: seq<int>) { forall i, j :: 0 <= i < j < |hours| ==> hours[i] != hours[j] }

  lemma {:induction false} HoursOfHaveServices(done: seq<Service>, hourOf: int -> int)
    ensures NoTwice(HoursOf(done, hourOf))
    ensures forall h :: h in HoursOf(done, hourOf) <==> CountHour(done, hourOf, h) > 0
  {
    if done != [] {
      HoursOfHaveServices(done[..|done| - 1], hourOf);
      var before, hour := HoursOf(done[..|done| - 1], hourOf), hourOf(done[|done| - 1].startedAt);
      assert hour !in before ==> NoTwice(before + [hour]);
    }
  }

  lemma CountHourSnoc(done: seq<Service>, k: nat, hourOf: int -> int, hour: int)
    requires k < |done|
    ensures CountHour(done[..k + 1], hourOf, hour) ==
      CountHour(done[..k], hourOf, hour) + (if hourOf(done[k].startedAt) == hour then 1 else 0)
  {
    assert done[..k + 1][..k] == done[..k];
  }

  /** The hour in which most services started: no other hour had more, and no
      hour that appeared earlier had as many. */
  ghost predicate IsPeak(peak: int, done: seq<Service>, hourOf: int -> int) {
    exists k :: 0 <= k < |HoursOf(done, hourOf)| && HoursOf(done, hourOf)[k] == peak && PeaksAt(k, done, hourOf)
  }

  ghost predicate PeaksAt(k: nat, done: seq<Service>, hourOf: int -> int)
    requires k < |HoursOf(done, hourOf)|
  {
    var hours := HoursOf(done, hourOf);
    && (forall h :: CountHour(done, hourOf, h) <= CountHour(done, hourOf, hours[k]))
    && (forall j :: 0 <= j < k ==> CountHour(done, hourOf, hours[j]) < CountHour(done, hourOf, hours[k]))
  }

  /** There is one such hour. */
  lemma PeakIsUnique(p: int, q: int, done: seq<Service>, hourOf: int -> int)
    requires IsPeak(p, done, hourOf) && IsPeak(q, done, hourOf)
    ensures p == q
  {
    var hours := HoursOf(done, hourOf);
    var j :| 0 <= j < |hours| && hours[j] == p && PeaksAt(j, done, hourOf);
    var k :| 0 <= k < |hours| && hours[k] == q && PeaksAt(k, done, hourOf);
    assert j == k by {
      assert CountHour(done, hourOf, hours[j]) == CountHour(done, hourOf, hours[k]);
    }
  }

  /** Counts the hours. A JavaScript Map remembers insertion order: `order`
      lists its keys. */
  method CountByHour(done: seq<Service>, hourOf: int -> int) returns (countByHour: map<int, nat>, order: seq<int>)
    ensures order == HoursOf(done, hourOf)
    ensures forall h :: h in countByHour <==> h in order
    ensures forall h :: h in order ==> countByHour[h] == CountHour(done, hourOf, h)
  {
    countByHour, order := map[], [];
    for n := 0 to |done|
      invariant order == HoursOf(done[..n], hourOf)
      invariant forall h :: h in countByHour <==> h in order
      invariant forall h :: h in order ==> countByHour[h] == CountHour(done[..n], hourOf, h)
    {
      var hour := hourOf(done[n].startedAt);
      HoursOfHaveServices(done[..n], hourOf);
      assert done[..n + 1][..n] == done[..n];
      forall h
        ensures CountHour(done[..n + 1], hourOf, h) == CountHour(done[..n], hourOf, h) + (if hour == h then 1 else 0)
      {
        CountHourSnoc(done, n, hourOf, h);
      }
      if hour in countByHour {
        countByHour := countByHour[hour := countByHour[hour] + 1];
      } else {
        countByHour := countByHour[hour := 1];
        order := order + [hour];
      }
    }
    assert done[..|done|] == done;
  }

  method PeakHour(done: seq<Service>, hourOf: int -> int) returns (peak: int)
    requires done != []
    ensures IsPeak(peak, done, hourOf)
  {
    var countByHour, order := CountByHour(done, hourOf);
    HoursOfHaveServices(done, hourOf);
    assert order != [] by {
      assert CountHour(done, hourOf, hourOf(done[|done| - 1].startedAt)) > 0;
    }
    var best, i := 0, 1;
    while i < |order|
      invariant 0 <= best < i <= |order|
      invariant forall j :: 0 <= j < i ==> countByHour[order[j]] <= countByHour[order[best]]
      invariant forall j :: 0 <= j < best ==> countByHour[order[j]] < countByHour[order[best]]
    {
      if countByHour[order[i]] > countByHour[order[best]] { best := i; }
      i := i + 1;
    }
    peak := order[best];
    forall h ensures CountHour(done, hourOf, h) <= CountHour(done, hourOf, order[best]) {
      if CountHour(done, hourOf, h) > 0 { assert h in order; }
    }
    assert PeaksAt(best, done, hourOf);
  }

  /** The figures of a day: totals, rounded rates and average, peak hour. */
  method ComputeMetrics(raw: DayRaw, hourOf: int -> int) returns (m: Metrics)
    ensures m.completedCount == |raw.completed|
    ensures m.cancelledCount == raw.cancelledCount && m.noShowCount == raw.noShowCount
    ensures m.totalCount == |raw.completed| + raw.cancelledCount + raw.noShowCount
    ensures if m.totalCount == 0 then m.cancellationRate == 0 && m.noShowRate == 0
            else IsRounded(m.cancellationRate, 1000 * raw.cancelledCount, m.totalCount)
                 && IsRounded(m.noShowRate, 1000 * raw.noShowCount, m.totalCount)
    ensures m.avgServiceMinutes.Some? <==> |raw.completed| > 0
    ensures m.avgServiceMinutes.Some? ==>
      IsRounded(m.avgServiceMinutes.value, TotalTime(raw.completed), MINUTE_MS * |raw.completed|)
    ensures m.peakHour.Some? <==> |raw.completed| > 0
    ensures m.peakHour.Some? ==> IsPeak(m.peakHour.value, raw.completed, hourOf)
  {
    var completedCount := |raw.completed|;
    var totalCount := completedCount + raw.cancelledCount + raw.noShowCount;
    var cancellationRate := if totalCount > 0 then Round(1000 * raw.cancelledCount, totalCount) else 0;
    var noShowRate := if totalCount > 0 then Round(1000 * raw.noShowCount, totalCount) else 0;
    var avgServiceMinutes := AverageServiceMinutes(raw.completed);
    var peakHour: Option<int> := None;
    if completedCount > 0 {
      var peak := PeakHour(raw.completed, hourOf);
      peakHour := Some(peak);
    }
    m := Metrics(completedCount, raw.cancelledCount, raw.noShowCount, totalCount,
                 cancellationRate, noShowRate, avgServiceMinutes, peakHour);
  }

  method AverageServiceMinutes(done: seq<Service>) returns (average: Option<int>)
    ensures average.Some? <==> |done| > 0
    ensures average.Some? ==> IsRounded(average.value, TotalTime(done), MINUTE_MS * |done|)
  {
    if |done| == 0 { return None; }
    var sum := 0;
    for i := 0 to |done|
      invariant sum == TotalTime(done[..i])
    {
      sum := sum + done[i].attendedAt - done[i].startedAt;
      assert done[..i + 1][..i] == done[..i];
    }
    assert done[..|done|] == done;
    return Some(Round(sum, MINUTE_MS * |done|));
  }

  // ----- what the queries return --------------------------------------------

  /** The turns of the queue and day that were completed. */
  function CompletedIds(rows: seq<Turn>, queue: nat, date: int): set<nat> {
    set i: nat | i < |rows| && rows[i].queue == queue && rows[i].date == date && rows[i].status.Completed?
  }

  function IdsWith(rows: seq<Turn>, queue: nat, date: int, status: Status): set<nat> {
    set i: nat | i < |rows| && rows[i].queue == queue && rows[i].date == date && rows[i].status == status
  }

  /** Service `k` is that of a completed turn: from the start of its attention
      to its end. */
  ghost predicate IsServiceOf(service: Service, t: Turn, queue: nat, date: int) {
    && t.queue == queue && t.date == date && t.status.Completed?
    && t.startedAt == Some(service.startedAt) && t.attendedAt == Some(service.attendedAt)
  }

  /** Every completed turn has its service, and every service its turn. */
  ghost predicate ServicesMatch(done: seq<Service>, rows: seq<Turn>, queue: nat, date: int) {
    && (forall k :: 0 <= k < |done| ==> HasTurn(done[k], rows, queue, date))
    && (forall i :: 0 <= i < |rows| && i in CompletedIds(rows, queue, date) ==> HasService(done, rows[i], queue, date))
  }

  ghost predicate HasTurn(service: Service, rows: seq<Turn>, queue: nat, date: int) {
    exists i :: 0 <= i < |rows| && IsServiceOf(service, rows[i], queue, date)
  }

  ghost predicate HasService(done: seq<Service>, t: Turn, queue: nat, date: int) {
    exists k :: 0 <= k < |done| && IsServiceOf(done[k], t, queue, date)
  }

  lemma IdsWithSnoc(before: seq<Turn>, t: Turn, queue: nat, date: int, status: Status)
    ensures |IdsWith(before + [t], queue, date, status)| == |IdsWith(before, queue, date, status)|
      + (if t.queue == queue && t.date == date && t.status == status then 1 else 0)
  {
    var last, rows := |before|, before + [t];
    var fits := t.queue == queue && t.date == date && t.status == status;
    assert IdsWith(rows, queue, date, status) == IdsWith(before, queue, date, status) + (if fits then {last} else {});
  }

  lemma {:induction false} StatusCount(rows: seq<Turn>, queue: nat, date: int)
    ensures CountStatus(rows, queue, date, IsCancelled()) == |IdsWith(rows, queue, date, Cancelled)|
    ensures CountStatus(rows, queue, date, IsNoShow()) == |IdsWith(rows, queue, date, NoShow)|
  {
    if rows != [] {
      var before, t := rows[..|rows| - 1], rows[|rows| - 1];
      StatusCount(before, queue, date);
      assert rows == before + [t];
      IdsWithSnoc(before, t, queue, date, Cancelled);
      IdsWithSnoc(before, t, queue, date, NoShow);
    }
  }

  lemma TurnStays(service: Service, before: seq<Turn>, t: Turn, queue: nat, date: int)
    requires HasTurn(service, before, queue, date)
    ensures HasTurn(service, before + [t], queue, date)
  {
    var i :| 0 <= i < |before| && IsServiceOf(service, before[i], queue, date);
    assert IsServiceOf(service, (before + [t])[i], queue, date);
  }

  lemma ServiceStays(done: seq<Service>, service: Service, t: Turn, queue: nat, date: int)
    requires HasService(done, t, queue, date)
    ensures HasService(done + [service], t, queue, date)
  {
    var k :| 0 <= k < |done| && IsServiceOf(done[k], t, queue, date);
    assert IsServiceOf((done + [service])[k], t, queue, date);
  }

  lemma MatchAnother(done: seq<Service>, before: seq<Turn>, service: Service, t: Turn, queue: nat, date: int)
    requires ServicesMatch(done, before, queue, date) && IsServiceOf(service, t, queue, date)
    ensures ServicesMatch(done + [service], before + [t], queue, date)
  {
    var rows, more := before + [t], done + [service];
    forall k | 0 <= k < |more| ensures HasTurn(more[k], rows, queue, date) {
      if k < |done| {
        TurnStays(done[k], before, t, queue, date);
      } else {
        assert IsServiceOf(service, rows[|before|], queue, date);
      }
    }
    forall i | 0 <= i < |rows| && i in CompletedIds(rows, queue, date) ensures HasService(more, rows[i], queue, date) {
      if i < |before| {
        assert i in CompletedIds(before, queue, date);
        ServiceStays(done, service, before[i], queue, date);
      } else {
        assert IsServiceOf(more[|done|], t, queue, date);
      }
    }
  }

  lemma MatchNoOther(done: seq<Service>, before: seq<Turn>, t: Turn, queue: nat, date: int)
    requires ServicesMatch(done, before, queue, date)
    requires !(t.queue == queue && t.date == date && t.status.Completed?)
    ensures ServicesMatch(done, before + [t], queue, date)
  {
    var rows := before + [t];
    forall k | 0 <= k < |done| ensures HasTurn(done[k], rows, queue, date) {
      TurnStays(done[k], before, t, queue, date);
    }
    forall i | 0 <= i < |rows| && i in CompletedIds(rows, queue, date) ensures HasService(done, rows[i], queue, date) {
      assert i in CompletedIds(before, queue, date);
    }
  }

  lemma {:induction false} CompletedAreServices(rows: seq<Turn>, queue: nat, date: int)
    requires forall i :: 0 <= i < |rows| && rows[i].status.Completed? ==>
      rows[i].startedAt.Some? && rows[i].attendedAt.Some?
    ensures |CompletedOf(rows, queue, date)| == |IdsWith(rows, queue, date, Completed)|
    ensures ServicesMatch(CompletedOf(rows, queue, date), rows, queue, date)
  {
    if rows != [] {
      var before, t := rows[..|rows| - 1], rows[|rows| - 1];
      forall i | 0 <= i < |before| && before[i].status.Completed?
        ensures before[i].startedAt.Some? && before[i].attendedAt.Some?
      {
        assert before[i] == rows[i];
      }
      CompletedAreServices(before, queue, date);
      assert rows == before + [t];
      IdsWithSnoc(before, t, queue, date, Completed);
      if t.queue == queue && t.date == date && t.status.Completed? {
        var service := Service(t.startedAt.value, t.attendedAt.value);
        assert t == rows[|rows| - 1];
        MatchAnother(CompletedOf(before, queue, date), before, service, t, queue, date);
      } else {
        MatchNoOther(CompletedOf(before, queue, date), before, t, queue, date);
      }
    }
  }

  /** In every reachable state the day's figures are those of its rows: one
      service for each completed turn, lasting from the start of its attention
      to its end, and the numbers of cancelled turns and of no-shows. */
  lemma FiguresOfTheDay(s: Sys, queue: nat, date: int)
    requires SysInv(s)
    ensures var raw := GetRawMetricsByDate(s.db.rows, queue, date);
      && |raw.completed| == |IdsWith(s.db.rows, queue, date, Completed)|
      && raw.cancelledCount == |IdsWith(s.db.rows, queue, date, Cancelled)|
      && raw.noShowCount == |IdsWith(s.db.rows, queue, date, NoShow)|
      && ServicesMatch(raw.completed, s.db.rows, queue, date)
  {
    forall i | 0 <= i < |s.db.rows| && s.db.rows[i].status.Completed?
      ensures s.db.rows[i].startedAt.Some? && s.db.rows[i].attendedAt.Some?
    {
      TimestampsTellTheStory(s, i);
    }
    CompletedAreServices(s.db.rows, queue, date);
    StatusCount(s.db.rows, queue, date);
  }

  // ----- conservation -------------------------------------------------------

  lemma {:induction false} EveryTurnIsCountedOnce(rows: seq<Turn>, queue: nat, date: int)
    requires forall i :: 0 <= i < |rows| && rows[i].status.Completed? ==>
      rows[i].startedAt.Some? && rows[i].attendedAt.Some?
    ensures |CompletedOf(rows, queue, date)| + CountStatus(rows, queue, date, IsCancelled())
          + CountStatus(rows, queue, date, IsNoShow()) + CountStatus(rows, queue, date, IsActive())
         == CountDay(rows, queue, date)
  {
    if rows != [] {
      var before := rows[..|rows| - 1];
      forall i | 0 <= i < |before| && before[i].status.Completed?
        ensures before[i].startedAt.Some? && before[i].attendedAt.Some?
      {
        assert before[i] == rows[i];
      }
      EveryTurnIsCountedOnce(before, queue, date);
    }
  }

  /** Conservation: in every reachable state the day's completed, cancelled
      and no-show counts plus the turns still active add up to the highest
      number issued that day. */
  lemma CountsAddUpToLastNumber(s: Sys, queue: nat, date: int)
    requires SysInv(s)
    ensures var raw := GetRawMetricsByDate(s.db.rows, queue, date); var numbers := DayNumbers(s.db.rows, queue, date);
      var sum := |raw.completed| + raw.cancelledCount + raw.noShowCount
        + CountStatus(s.db.rows, queue, date, IsActive());
      && sum == |numbers|
      && (forall k :: 0 <= k < |numbers| ==> numbers[k] <= sum)
      && (sum > 0 ==> numbers[sum - 1] == sum)
  {
    forall i | 0 <= i < |s.db.rows| && s.db.rows[i].status.Completed?
      ensures s.db.rows[i].startedAt.Some? && s.db.rows[i].attendedAt.Some?
    {
      TimestampsTellTheStory(s, i);
    }
    EveryTurnIsCountedOnce(s.db.rows, queue, date);
    NumbersAreOneToN(s.db.rows, queue, date);
  }

  /** Every service the metrics average over has a non-negative duration. */
  lemma {:induction false} ServicesDoNotEndBeforeTheyStart(rows: seq<Turn>, queue: nat, date: int, now: int)
    requires forall i :: 0 <= i < |rows| ==> RowOk(rows[i], now)
    ensures forall k :: 0 <= k < |CompletedOf(rows, queue, date)| ==>
      CompletedOf(rows, queue, date)[k].startedAt <= CompletedOf(rows, queue, date)[k].attendedAt
  {
    if rows != [] {
      var before := rows[..|rows| - 1];
      ServicesDoNotEndBeforeTheyStart(before, queue, date, now);
      assert RowOk(rows[|rows| - 1], now);
    }
  }

  lemma {:induction false} TotalTimeIsNotNegative(done: seq<Service>)
    requires forall k :: 0 <= k < |done| ==> done[k].startedAt <= done[k].attendedAt
    ensures TotalTime(done) >= 0
  {
    if done != [] {
      var before := done[..|done| - 1];
      forall k | 0 <= k < |before| ensures before[k].startedAt <= before[k].attendedAt { assert before[k] == done[k]; }
      TotalTimeIsNotNegative(before);
    }
  }

  lemma RoundingKeepsSign(average: int, d: nat, total: int)
    requires d > 0 && total >= 0 && IsRounded(average, total, d)
    ensures average >= 0
  {
    if average < 0 { MulLess(d, average); }
  }

  lemma MulLess(d: int, average: int)
    requires d > 0 && average <= -1
    ensures d * average <= -d
  {
  }

  /** In every reachable state the day's total service time is not negative,
      and so is its rounded average. */
  lemma AverageIsNotNegative(s: Sys, queue: nat, date: int, average: int)
    requires SysInv(s)
    requires var done := CompletedOf(s.db.rows, queue, date);
      done != [] && IsRounded(average, TotalTime(done), MINUTE_MS * |done|)
    ensures average >= 0
  {
    var done := CompletedOf(s.db.rows, queue, date);
    ServicesDoNotEndBeforeTheyStart(s.db.rows, queue, date, s.db.clock);
    TotalTimeIsNotNegative(done);
    RoundingKeepsSign(average, MINUTE_MS * |done|, TotalTime(done));
  }
}
