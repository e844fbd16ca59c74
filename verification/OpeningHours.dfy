/** The weekly opening hours of a business: what is accepted when they are
    configured, and when they make the business open. */
module OpeningHours {
  import opened Sorting

  predicate IsDigit(c: char) { '0' <= c <= '9' }

  /** The `HH:mm` that request parsing lets through. */
  predicate IsTime(s: string) {
    && |s| == 5 && IsDigit(s[0]) && IsDigit(s[1]) && s[2] == ':' && IsDigit(s[3]) && IsDigit(s[4])
    && (s[0] <= '1' || (s[0] == '2' && s[1] <= '3')) && s[3] <= '5'
  }

  type Time = s: string | IsTime(s) witness "00:00"

  function DigitAt(s: string, i: nat): int
    requires i < |s|
  {
    s[i] as int - '0' as int
  }

  function ToMinutes(time: Time): int {
    (DigitAt(time, 0) * 10 + DigitAt(time, 1)) * 60 + DigitAt(time, 3) * 10 + DigitAt(time, 4)
  }

  lemma SameParts(unit: int, a: int, b: int, c: int, d: int)
    requires (unit == 10 || unit == 60) && 0 <= b < unit && 0 <= d < unit && a * unit + b == c * unit + d
    ensures a == c && b == d
  {
    if unit == 10 { assert a * 10 + b == c * 10 + d; } else { assert a * 60 + b == c * 60 + d; }
  }

  lemma MinutesBounds(t: Time)
    ensures 0 <= ToMinutes(t) < 1440 && 0 <= DigitAt(t, 3) * 10 + DigitAt(t, 4) < 60
  {
  }

  /** Different times are different minutes of the day. */
  lemma MinutesIdentifyTheTime(a: Time, b: Time)
    requires ToMinutes(a) == ToMinutes(b)
    ensures a == b
  {
    MinutesBounds(a);
    MinutesBounds(b);
    SameParts(60, DigitAt(a, 0) * 10 + DigitAt(a, 1), DigitAt(a, 3) * 10 + DigitAt(a, 4),
              DigitAt(b, 0) * 10 + DigitAt(b, 1), DigitAt(b, 3) * 10 + DigitAt(b, 4));
    SameParts(10, DigitAt(a, 0), DigitAt(a, 1), DigitAt(b, 0), DigitAt(b, 1));
    SameParts(10, DigitAt(a, 3), DigitAt(a, 4), DigitAt(b, 3), DigitAt(b, 4));
    forall i | 0 <= i < 5 ensures a[i] == b[i] { if i != 2 { assert DigitAt(a, i) == DigitAt(b, i); } }
  }

  datatype Opening = Opening(day: nat, opensAt: Time, closesAt: Time)
  datatype Range = Range(opensAt: int, closesAt: int)
  datatype Code = Ok | InvalidOpeningRange | OpeningRangesOverlap

  function RangeOf(h: Opening): Range { Range(ToMinutes(h.opensAt), ToMinutes(h.closesAt)) }

  // ----- what is to be accepted ---------------------------------------------

  predicate NonEmpty(r: Range) { r.opensAt < r.closesAt }

  predicate Disjoint(r: Range, s: Range) { r.closesAt <= s.opensAt || s.closesAt <= r.opensAt }

  predicate Compatible(g: Opening, h: Opening) { g.day == h.day ==> Disjoint(RangeOf(g), RangeOf(h)) }

  ghost predicate Pairwise<T>(xs: seq<T>, ok: (T, T) -> bool) {
    forall i, j :: 0 <= i < j < |xs| ==> ok(xs[i], xs[j])
  }

  ghost predicate Symmetric<T(!new)>(ok: (T, T) -> bool) { forall x, y :: ok(x, y) ==> ok(y, x) }

  ghost function Verdict(hours: seq<Opening>): Code {
    if exists h :: h in hours && !NonEmpty(RangeOf(h)) then InvalidOpeningRange
    else if !Pairwise(hours, Compatible) then OpeningRangesOverlap
    else Ok
  }

  // ----- what the verdict means ---------------------------------------------

  /** The range is open at that minute: from its first to before its last. */
  predicate Covers(h: Opening, minute: int) {
    ToMinutes(h.opensAt) <= minute < ToMinutes(h.closesAt)
  }

  lemma DisjointIffNoSharedMinute(g: Opening, h: Opening)
    requires NonEmpty(RangeOf(g)) && NonEmpty(RangeOf(h))
    ensures Disjoint(RangeOf(g), RangeOf(h)) <==> forall minute: int :: !(Covers(g, minute) && Covers(h, minute))
  {
    var later := if ToMinutes(g.opensAt) <= ToMinutes(h.opensAt) then ToMinutes(h.opensAt) else ToMinutes(g.opensAt);
    assert !Disjoint(RangeOf(g), RangeOf(h)) ==> Covers(g, later) && Covers(h, later);
  }

  lemma EmptyIffNoMinute(h: Opening)
    ensures NonEmpty(RangeOf(h)) <==> exists minute: int :: Covers(h, minute)
  {
    assert NonEmpty(RangeOf(h)) ==> Covers(h, ToMinutes(h.opensAt));
  }

  ghost predicate EveryRangeOpens(hours: seq<Opening>) {
    forall h :: h in hours ==> exists minute: int :: Covers(h, minute)
  }

  ghost predicate NoMinuteTwice(hours: seq<Opening>) {
    forall i, j, minute: int :: 0 <= i < j < |hours| && hours[i].day == hours[j].day ==>
      !(Covers(hours[i], minute) && Covers(hours[j], minute))
  }

  /** A grid is accepted exactly if every range is open for at least a minute
      and no minute of a day is in two ranges; ranges that only touch do not
      overlap. The first objection is to an empty range. */
  lemma VerdictMeans(hours: seq<Opening>)
    ensures Verdict(hours) == if !EveryRangeOpens(hours) then InvalidOpeningRange
                              else if !NoMinuteTwice(hours) then OpeningRangesOverlap else Ok
  {
    forall h | h in hours ensures NonEmpty(RangeOf(h)) <==> exists minute: int :: Covers(h, minute) {
      EmptyIffNoMinute(h);
    }
    if EveryRangeOpens(hours) {
      forall i, j | 0 <= i < j < |hours|
        ensures Compatible(hours[i], hours[j]) <==>
          (hours[i].day == hours[j].day ==>
            forall minute: int :: !(Covers(hours[i], minute) && Covers(hours[j], minute)))
      {
        assert hours[i] in hours && hours[j] in hours;
        DisjointIffNoSharedMinute(hours[i], hours[j]);
      }
      assert Pairwise(hours, Compatible) <==> NoMinuteTwice(hours);
    }
  }

  /** Sixty minutes to the hour. */
  lemma MinutesRead()
    ensures ToMinutes("00:00") == 0 && ToMinutes("09:30") == 570 && ToMinutes("23:59") == 1439
  {
  }

  // ----- order does not matter ----------------------------------------------

  lemma {:induction false} TwoOccurrences<T>(xs: seq<T>, x: T)
    requires multiset(xs)[x] >= 2
    ensures exists i, j :: 0 <= i < j < |xs| && xs[i] == x && xs[j] == x
  {
    var init, last := xs[..|xs| - 1], xs[|xs| - 1];
    assert xs == init + [last];
    if last == x {
      assert x in multiset(init);
      var i :| 0 <= i < |init| && init[i] == x;
      assert xs[i] == x && xs[|xs| - 1] == x;
    } else {
      TwoOccurrences(init, x);
      var i, j :| 0 <= i < j < |init| && init[i] == x && init[j] == x;
      assert xs[i] == x && xs[j] == x;
    }
  }

  lemma PairwisePermutes<T(!new)>(xs: seq<T>, ys: seq<T>, ok: (T, T) -> bool)
    requires Symmetric(ok) && multiset(xs) == multiset(ys) && Pairwise(ys, ok)
    ensures Pairwise(xs, ok)
  {
    forall i, j | 0 <= i < j < |xs| ensures ok(xs[i], xs[j]) {
      var x, y := xs[i], xs[j];
      if x == y {
        assert xs == xs[..i] + [x] + xs[i + 1..j] + [y] + xs[j + 1..];
        assert multiset(xs)[x] >= 2;
        TwoOccurrences(ys, x);
      } else {
        assert x in multiset(ys) && y in multiset(ys);
        var k :| 0 <= k < |ys| && ys[k] == x;
        var l :| 0 <= l < |ys| && ys[l] == y;
        assert ok(ys[k], ys[l]) || ok(ys[l], ys[k]) by { if k < l { } else { } }
      }
    }
  }

  /** The verdict does not depend on the order the ranges are sent in. */
  lemma OrderDoesNotMatter(a: seq<Opening>, b: seq<Opening>)
    requires multiset(a) == multiset(b)
    ensures Verdict(a) == Verdict(b)
  {
    forall h ensures h in a <==> h in b { assert h in a <==> h in multiset(a); assert h in b <==> h in multiset(b); }
    if Pairwise(a, Compatible) { PairwisePermutes(b, a, Compatible); }
    if Pairwise(b, Compatible) { PairwisePermutes(a, b, Compatible); }
  }

  // ----- sorting turns overlap into a check of neighbours --------------------

  predicate ByOpening(r: Range, s: Range) { r.opensAt <= s.opensAt }

  predicate NeighboursOk(sorted: seq<Range>, n: nat)
    requires n <= |sorted|
  {
    forall i :: 1 <= i < n ==> sorted[i].opensAt >= sorted[i - 1].closesAt
  }

  lemma {:induction false} NeighboursReachFar(sorted: seq<Range>, i: nat, j: nat)
    requires NeighboursOk(sorted, |sorted|) && i < j < |sorted|
    requires forall r :: r in sorted ==> NonEmpty(r)
    ensures sorted[i].closesAt <= sorted[j].opensAt
  {
    if i < j - 1 {
      NeighboursReachFar(sorted, i, j - 1);
      assert NonEmpty(sorted[j - 1]);
    }
  }

  /** Among non-empty ranges the check of neighbours misses nothing. */
  lemma NeighbourCheckIsExact(ranges: seq<Range>)
    requires forall r :: r in ranges ==> NonEmpty(r)
    ensures NeighboursOk(Sort(ranges, ByOpening), |ranges|) <==> Pairwise(ranges, Disjoint)
  {
    var sorted := Sort(ranges, ByOpening);
    assert TotalPreorder(ByOpening);
    SortIsSortedPermutation(ranges, ByOpening);
    forall r | r in sorted ensures NonEmpty(r) { assert r in multiset(sorted); }
    if Pairwise(ranges, Disjoint) {
      PairwisePermutes(sorted, ranges, Disjoint);
      forall i | 1 <= i < |sorted| ensures sorted[i].opensAt >= sorted[i - 1].closesAt {
        assert Disjoint(sorted[i - 1], sorted[i]) && ByOpening(sorted[i - 1], sorted[i]);
        assert NonEmpty(sorted[i]);
      }
    }
    if NeighboursOk(sorted, |sorted|) {
      forall i, j | 0 <= i < j < |sorted| ensures Disjoint(sorted[i], sorted[j]) { NeighboursReachFar(sorted, i, j); }
      PairwisePermutes(ranges, sorted, Disjoint);
    }
  }

  // ----- day by day ---------------------------------------------------------

  function RangesOf(hours: seq<Opening>, day: nat): seq<Range> {
    if hours == [] then []
    else
      var (last, before) := (hours[|hours| - 1], RangesOf(hours[..|hours| - 1], day));
      if last.day == day then before + [RangeOf(last)] else before
  }

  lemma {:induction false} RangesOfMembers(hours: seq<Opening>, day: nat)
    ensures forall r :: r in RangesOf(hours, day) <==> exists h :: h in hours && h.day == day && RangeOf(h) == r
  {
    if hours != [] {
      RangesOfMembers(hours[..|hours| - 1], day);
      assert hours == hours[..|hours| - 1] + [hours[|hours| - 1]];
    }
  }

  lemma PairwiseAppend<T>(xs: seq<T>, y: T, ok: (T, T) -> bool)
    ensures Pairwise(xs + [y], ok) <==> Pairwise(xs, ok) && forall x :: x in xs ==> ok(x, y)
  {
    var zs := xs + [y];
    if Pairwise(zs, ok) {
      forall i, j | 0 <= i < j < |xs| ensures ok(xs[i], xs[j]) { assert ok(zs[i], zs[j]); }
      forall x | x in xs ensures ok(x, y) {
        var i :| 0 <= i < |xs| && xs[i] == x;
        assert ok(zs[i], zs[|xs|]);
      }
    }
  }

  ghost predicate DayOk(hours: seq<Opening>, day: nat) { Pairwise(RangesOf(hours, day), Disjoint) }

  lemma OneMoreRange(init: seq<Opening>, last: Opening)
    ensures Pairwise(init + [last], Compatible) <==> Pairwise(init, Compatible) && forall g :: g in init ==>
      Compatible(g, last)
    ensures DayOk(init + [last], last.day) <==> DayOk(init, last.day) && forall g :: g in init ==> Compatible(g, last)
    ensures forall day: nat :: day != last.day ==> (DayOk(init + [last], day) <==> DayOk(init, day))
  {
    assert (init + [last])[..|init|] == init;
    PairwiseAppend(init, last, Compatible);
    PairwiseAppend(RangesOf(init, last.day), RangeOf(last), Disjoint);
    RangesOfMembers(init, last.day);
    forall g | g in init && (forall r :: r in RangesOf(init, last.day) ==> Disjoint(r, RangeOf(last)))
      ensures Compatible(g, last)
    {
      if g.day == last.day { assert RangeOf(g) in RangesOf(init, last.day); }
    }
  }

  /** The grid is free of overlaps exactly when each day's ranges are. */
  lemma {:induction false} DayByDay(hours: seq<Opening>)
    ensures Pairwise(hours, Compatible) <==> forall day: nat :: DayOk(hours, day)
  {
    if hours == [] {
      assert forall day: nat :: RangesOf(hours, day) == [];
    } else {
      var init, last := hours[..|hours| - 1], hours[|hours| - 1];
      DayByDay(init);
      OneMoreRange(init, last);
      assert hours == init + [last];
      assert DayOk(hours, last.day) ==> DayOk(init, last.day);
    }
  }

  // ----- the check ----------------------------------------------------------

  ghost predicate Grouped(hours: seq<Opening>, rangesByDay: map<nat, seq<Range>>, days: seq<nat>) {
    && (forall d: nat :: d in rangesByDay <==> d in days)
    && (forall d: nat :: d in rangesByDay ==> rangesByDay[d] == RangesOf(hours, d))
    && (forall d: nat :: d !in rangesByDay ==> RangesOf(hours, d) == [])
  }

  /** Collects each day's ranges, in the order the days first appear; stops at
      an empty range. */
  method GroupByDay(weeklyHours: seq<Opening>) returns (code: Code, rangesByDay: map<nat, seq<Range>>, days: seq<nat>)
    ensures code == if exists h :: h in weeklyHours && !NonEmpty(RangeOf(h)) then InvalidOpeningRange else Ok
    ensures code == Ok ==> Grouped(weeklyHours, rangesByDay, days)
  {
    rangesByDay, days := map[], [];
    for i := 0 to |weeklyHours|
      invariant forall h :: h in weeklyHours[..i] ==> NonEmpty(RangeOf(h))
      invariant Grouped(weeklyHours[..i], rangesByDay, days)
    {
      var hour := weeklyHours[i];
      assert weeklyHours[..i + 1] == weeklyHours[..i] + [hour];
      var opensAt, closesAt := ToMinutes(hour.opensAt), ToMinutes(hour.closesAt);
      if opensAt >= closesAt {
        assert hour in weeklyHours && !NonEmpty(RangeOf(hour));
        return InvalidOpeningRange, rangesByDay, days;
      }
      var ranges := if hour.day in rangesByDay then rangesByDay[hour.day] else [];
      if hour.day !in rangesByDay { days := days + [hour.day]; }
      rangesByDay := rangesByDay[hour.day := ranges + [Range(opensAt, closesAt)]];
    }
    assert weeklyHours[..|weeklyHours|] == weeklyHours;
    code := Ok;
  }

  /** One day: sorts, then compares neighbours. */
  method DayOverlaps(ranges: seq<Range>) returns (overlap: bool)
    requires forall r :: r in ranges ==> NonEmpty(r)
    ensures overlap <==> !Pairwise(ranges, Disjoint)
  {
    var sortedRanges := Sort(ranges, ByOpening);
    NeighbourCheckIsExact(ranges);
    var index := 1;
    while index < |sortedRanges|
      invariant 1 <= index && NeighboursOk(sortedRanges, Least(index, |sortedRanges|))
    {
      if sortedRanges[index].opensAt < sortedRanges[index - 1].closesAt { return true; }
      index := index + 1;
    }
    return false;
  }

  /** Accepts exactly the grids whose ranges are non-empty and, day by day,
      pairwise disjoint. */
  method EnsureValidOpeningRanges(weeklyHours: seq<Opening>) returns (code: Code)
    ensures code == Verdict(weeklyHours)
  {
    var rangesByDay, days;
    code, rangesByDay, days := GroupByDay(weeklyHours);
    if code != Ok { return; }
    DayByDay(weeklyHours);
    forall d: nat, r | r in RangesOf(weeklyHours, d) ensures NonEmpty(r) { RangesOfMembers(weeklyHours, d); }
    for k := 0 to |days|
      invariant forall d :: d in days[..k] ==> DayOk(weeklyHours, d)
    {
      assert days[k] in days;
      var overlap := DayOverlaps(rangesByDay[days[k]]);
      assert overlap <==> !DayOk(weeklyHours, days[k]);
      if overlap { return OpeningRangesOverlap; }
      assert days[..k + 1] == days[..k] + [days[k]];
    }
    assert days[..|days|] == days;
    code := Ok;
  }

  // ----- when the business is open ------------------------------------------

  predicate OpenAt(h: Opening, day: nat, minute: int) {
    h.day == day && ToMinutes(h.opensAt) <= minute < ToMinutes(h.closesAt)
  }

  /** A business without hours is always open. */
  predicate IsWithinOperatingHours(hours: seq<Opening>, nonWorkingDays: seq<string>, date: string, day: nat,
      minute: int) {
    hours == [] || (date !in nonWorkingDays && exists h :: h in hours && OpenAt(h, day, minute))
  }

  function OpenCount(hours: seq<Opening>, day: nat, minute: int): nat {
    |Filter(hours, (h: Opening) => OpenAt(h, day, minute))|
  }

  lemma {:induction false} AtMostOnePasses<T>(xs: seq<T>, p: T -> bool)
    requires forall i, j :: 0 <= i < j < |xs| ==> !(p(xs[i]) && p(xs[j]))
    ensures |Filter(xs, p)| <= 1
    ensures |Filter(xs, p)| == 1 <==> exists x :: x in xs && p(x)
  {
    FilterMembers(xs, p);
    if xs != [] {
      forall i, j | 0 <= i < j < |xs[1..]|
        ensures !(p(xs[1..][i]) && p(xs[1..][j]))
      {
        assert !(p(xs[i + 1]) && p(xs[j + 1]));
      }
      AtMostOnePasses(xs[1..], p);
      FilterMembers(xs[1..], p);
      assert Filter(xs[1..], p) == [] || Filter(xs[1..], p)[0] in Filter(xs[1..], p);
      if p(xs[0]) {
        forall x | x in xs[1..] ensures !p(x) {
          var i :| 0 <= i < |xs[1..]| && xs[1..][i] == x;
          assert !(p(xs[0]) && p(xs[i + 1]));
        }
      }
      if |Filter(xs, p)| == 1 { assert Filter(xs, p)[0] in Filter(xs, p); }
    }
  }

  /** Of an accepted grid at most one range is open at any day and minute, and
      one is open exactly when the business is, holidays aside. */
  lemma AcceptedGridOpensOnce(hours: seq<Opening>, nonWorkingDays: seq<string>, date: string, day: nat, minute: int)
    requires Verdict(hours) == Ok
    ensures OpenCount(hours, day, minute) <= 1
    ensures IsWithinOperatingHours(hours, nonWorkingDays, date, day, minute) <==>
      hours == [] || (date !in nonWorkingDays && OpenCount(hours, day, minute) == 1)
  {
    forall i, j | 0 <= i < j < |hours| ensures !(OpenAt(hours[i], day, minute) && OpenAt(hours[j], day, minute)) {
      assert Compatible(hours[i], hours[j]);
    }
    AtMostOnePasses(hours, (h: Opening) => OpenAt(h, day, minute));
  }
}
