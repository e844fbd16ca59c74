/** The request limiter while it counts in process memory. */
module RateLimiter {
  import opened Options
  import opened Sorting

  datatype Entry = Entry(count: nat, expiresAt: int)
  datatype Check = Check(key: string, limit: nat, windowSeconds: nat)
  datatype Policy = Policy(bucket: string, limit: nat, windowSeconds: nat, scopedLimit: Option<nat>)

  type Store = map<string, Entry>

  function Length(windowSeconds: nat): nat { windowSeconds * 1000 }

  /** Opens a counter window, or counts in the one that is open. */
  function Consume(store: Store, key: string, windowSeconds: nat, now: int): (Store, nat) {
    if key !in store || store[key].expiresAt <= now then (store[key := Entry(1, now + Length(windowSeconds))], 1)
    else (store[key := Entry(store[key].count + 1, store[key].expiresAt)], store[key].count + 1)
  }

  /** Consumes check by check, up to the first that is over its limit. */
  function Pass(store: Store, checks: seq<Check>, now: int): (Store, bool)
    decreases |checks|
  {
    if checks == [] then (store, true)
    else
      var (after, count) := Consume(store, checks[0].key, checks[0].windowSeconds, now);
      if count > checks[0].limit then (after, false) else Pass(after, checks[1..], now)
  }

  /** The same where Redis answers for some checks: `answers` are its counts,
      none where it is unavailable. Memory stands in for those only. */
  function PassWith(store: Store, checks: seq<Check>, answers: seq<Option<nat>>, now: int): (Store, bool)
    decreases |checks|
  {
    if checks == [] then (store, true)
    else
      var (after, count) := ConsumeWith(store, checks[0], FirstAnswer(answers), now);
      if count > checks[0].limit then (after, false) else PassWith(after, checks[1..], OtherAnswers(answers), now)
  }

  function FirstAnswer(answers: seq<Option<nat>>): Option<nat> { if answers == [] then None else answers[0] }

  function OtherAnswers(answers: seq<Option<nat>>): seq<Option<nat>> { if answers == [] then [] else answers[1..] }

  function ConsumeWith(store: Store, check: Check, answer: Option<nat>, now: int): (Store, nat) {
    if answer.Some? then (store, answer.value) else Consume(store, check.key, check.windowSeconds, now)
  }

  /** With Redis down for every check, memory alone decides. */
  lemma {:induction false} DegradedIsMemory(store: Store, checks: seq<Check>, answers: seq<Option<nat>>, now: int)
    requires forall i :: 0 <= i < |answers| ==> answers[i] == None
    ensures PassWith(store, checks, answers, now) == Pass(store, checks, now)
    decreases |checks|
  {
    if checks != [] {
      var after := Consume(store, checks[0].key, checks[0].windowSeconds, now).0;
      DegradedIsMemory(after, checks[1..], OtherAnswers(answers), now);
    }
  }

  /** With Redis up for every check, memory is not touched, and a request is
      admitted exactly if no count is over its limit. */
  lemma {:induction false} AnsweredByRedis(store: Store, checks: seq<Check>, answers: seq<Option<nat>>, now: int)
    requires |answers| == |checks| && forall i :: 0 <= i < |answers| ==> answers[i].Some?
    ensures PassWith(store, checks, answers, now).0 == store
    ensures PassWith(store, checks, answers, now).1 <==> forall i :: 0 <= i < |checks| ==>
      answers[i].value <= checks[i].limit
    decreases |checks|
  {
    if checks != [] {
      AnsweredByRedis(store, checks[1..], answers[1..], now);
      var within := forall i :: 0 <= i < |checks[1..]| ==> answers[1..][i].value <= checks[1..][i].limit;
      if within && answers[0].value <= checks[0].limit {
        forall i | 0 <= i < |checks| ensures answers[i].value <= checks[i].limit {
          if i > 0 { assert answers[1..][i - 1].value <= checks[1..][i - 1].limit; }
        }
      }
      if !within {
        var i :| 0 <= i < |checks[1..]| && answers[1..][i].value > checks[1..][i].limit;
        assert answers[i + 1].value > checks[i + 1].limit;
      }
    }
  }

  function PlainKey(bucket: string, requester: string): string { "rate-limit:" + bucket + ":" + requester }

  function ScopedKey(bucket: string, requester: string, scope: string): string {
    "rate-limit:" + bucket + ":scoped:" + requester + ":" + scope
  }

  function ChecksOf(policy: Policy, requester: string, scope: Option<string>): seq<Check> {
    [Check(PlainKey(policy.bucket, requester), policy.limit, policy.windowSeconds)] +
    if policy.scopedLimit.Some? && scope.Some? && scope.value != ""
    then [Check(ScopedKey(policy.bucket, requester, scope.value), policy.scopedLimit.value, policy.windowSeconds)]
    else []
  }

  class Limiter {
    var memoryStore: Store
    var isDegradedToMemory: bool
    var clock: int

    constructor (clock: int)
      ensures memoryStore == map[] && !isDegradedToMemory && this.clock == clock
    {
      memoryStore, isDegradedToMemory, this.clock := map[], false, clock;
    }

    method ConsumeFromMemory(key: string, windowSeconds: nat) returns (count: nat)
      modifies `memoryStore
      ensures (memoryStore, count) == Consume(old(memoryStore), key, windowSeconds, clock)
    {
      if key !in memoryStore || memoryStore[key].expiresAt <= clock {
        memoryStore := memoryStore[key := Entry(1, clock + windowSeconds * 1000)];
        return 1;
      }
      var existing := memoryStore[key];
      existing := existing.(count := existing.count + 1);
      memoryStore := memoryStore[key := existing];
      return existing.count;
    }

    /** One check. The warning is given once per episode, and so is the notice
        that Redis is back. */
    method ConsumeCheck(check: Check, answer: Option<nat>) returns (count: nat, warned: bool, recovered: bool)
      modifies `memoryStore, `isDegradedToMemory
      ensures (memoryStore, count) == ConsumeWith(old(memoryStore), check, answer, clock)
      ensures isDegradedToMemory <==> answer.None?
      ensures warned <==> !old(isDegradedToMemory) && isDegradedToMemory
      ensures recovered <==> old(isDegradedToMemory) && !isDegradedToMemory
    {
      warned, recovered := false, false;
      if answer.Some? {
        if isDegradedToMemory { isDegradedToMemory, recovered := false, true; }
        return answer.value, warned, recovered;
      }
      if !isDegradedToMemory { isDegradedToMemory, warned := true, true; }
      count := ConsumeFromMemory(check.key, check.windowSeconds);
    }

    /** A route without a policy is not limited. */
    method Limit(policy: Option<Policy>, requester: string, scope: Option<string>, answers: seq<Option<nat>>)
      returns (admitted: bool)
      modifies `memoryStore, `isDegradedToMemory
      ensures policy.None? ==> admitted && memoryStore == old(memoryStore)
      ensures policy.Some? ==>
        (memoryStore, admitted) == PassWith(old(memoryStore), ChecksOf(policy.value, requester, scope), answers, clock)
    {
      if policy.None? { return true; }
      var checks, pending := ChecksOf(policy.value, requester, scope), answers;
      for i := 0 to |checks|
        invariant PassWith(old(memoryStore), checks, answers, clock)
          == PassWith(memoryStore, checks[i..], pending, clock)
      {
        var count, _, _ := ConsumeCheck(checks[i], FirstAnswer(pending));
        assert checks[i..][1..] == checks[i + 1..];
        if count > checks[i].limit { return false; }
        pending := OtherAnswers(pending);
      }
      return true;
    }
  }

  // ----- one key ------------------------------------------------------------

  lemma {:induction false} OtherKeysUntouched(store: Store, checks: seq<Check>, now: int, key: string)
    requires forall i :: 0 <= i < |checks| ==> checks[i].key != key
    ensures var after := Pass(store, checks, now).0;
      (key in after <==> key in store) && (key in store ==> after[key] == store[key])
    decreases |checks|
  {
    if checks != [] {
      OtherKeysUntouched(Consume(store, checks[0].key, checks[0].windowSeconds, now).0, checks[1..], now, key);
    }
  }

  function Find(store: Store, key: string): Option<Entry> { if key in store then Some(store[key]) else None }

  predicate Checks(checks: seq<Check>, key: string) { exists i :: 0 <= i < |checks| && checks[i].key == key }

  /** No two checks of a request share a key, and every check of this key has
      this limit and window. */
  ghost predicate Uses(checks: seq<Check>, key: string, limit: nat, windowSeconds: nat) {
    && (forall i, j :: 0 <= i < j < |checks| ==> checks[i].key != checks[j].key)
    && (forall i :: 0 <= i < |checks| && checks[i].key == key ==>
          checks[i].limit == limit && checks[i].windowSeconds == windowSeconds)
  }

  /** The two keys of one request never coincide, so its checks are as a trace
      wants them, for the requester's key and for the scoped one. */
  lemma PolicyChecksAreUses(policy: Policy, requester: string, scope: string)
    requires scope != ""
    ensures var checks := ChecksOf(policy, requester, Some(scope));
      && Uses(checks, PlainKey(policy.bucket, requester), policy.limit, policy.windowSeconds)
      && Checks(checks, PlainKey(policy.bucket, requester))
      && (policy.scopedLimit.Some? ==>
            && Uses(checks, ScopedKey(policy.bucket, requester, scope), policy.scopedLimit.value, policy.windowSeconds)
            && Checks(checks, ScopedKey(policy.bucket, requester, scope)))
  {
    var checks := ChecksOf(policy, requester, Some(scope));
    assert |PlainKey(policy.bucket, requester)| < |ScopedKey(policy.bucket, requester, scope)|;
    assert checks[0].key == PlainKey(policy.bucket, requester);
    if policy.scopedLimit.Some? { assert checks[1].key == ScopedKey(policy.bucket, requester, scope); }
  }

  /** A request either leaves the key alone and is not admitted on its account,
      or consumes it once; it is admitted only within the limit. */
  lemma {:induction false} OneRequest(store: Store, checks: seq<Check>, now: int, key: string, limit: nat,
      windowSeconds: nat)
    requires Uses(checks, key, limit, windowSeconds)
    ensures var (after, admitted) := Pass(store, checks, now);
            var (consumed, count) := Consume(store, key, windowSeconds, now);
      || (Find(after, key) == Find(store, key) && !(admitted && Checks(checks, key)))
      || (Find(after, key) == Find(consumed, key) && (admitted ==> count <= limit))
    decreases |checks|
  {
    if checks != [] {
      var (after, count) := Consume(store, checks[0].key, checks[0].windowSeconds, now);
      if checks[0].key == key {
        OtherKeysUntouched(after, checks[1..], now, key);
      } else if count <= checks[0].limit {
        OneRequest(after, checks[1..], now, key, limit, windowSeconds);
        assert Checks(checks, key) ==> Checks(checks[1..], key) by {
          if Checks(checks, key) {
            var i :| 0 <= i < |checks| && checks[i].key == key;
            assert checks[1..][i - 1].key == key;
          }
        }
      }
    }
  }

  // ----- one request, spelled out -------------------------------------------

  /** The counter of the key is running. */
  predicate Running(store: Store, key: string, now: int) { key in store && now < store[key].expiresAt }

  /** What a request makes of a counter: it opens one for the window's length,
      or counts in the one that is running. */
  function Counted(store: Store, key: string, windowSeconds: nat, now: int): Entry {
    if Running(store, key, now) then Entry(store[key].count + 1, store[key].expiresAt)
    else Entry(1, now + windowSeconds * 1000)
  }

  /** Without a scope a request touches its requester's counter alone, and is
      admitted if that does not exceed the limit. */
  lemma PlainRequest(store: Store, policy: Policy, requester: string, now: int)
    ensures var key := "rate-limit:" + policy.bucket + ":" + requester;
            var entry := Counted(store, key, policy.windowSeconds, now);
      Pass(store, ChecksOf(policy, requester, None), now) == (store[key := entry], entry.count <= policy.limit)
  {
    var checks := ChecksOf(policy, requester, None);
    assert checks[1..] == [];
  }

  /** With a scope, a request that passes the requester's limit is also counted
      against the requester and the scope together; one that does not is not. */
  lemma ScopedRequest(store: Store, policy: Policy, requester: string, scope: string, now: int)
    requires policy.scopedLimit.Some? && scope != ""
    ensures var key := "rate-limit:" + policy.bucket + ":" + requester;
            var scoped := "rate-limit:" + policy.bucket + ":scoped:" + requester + ":" + scope;
            var entry := Counted(store, key, policy.windowSeconds, now);
            var second := Counted(store, scoped, policy.windowSeconds, now);
      Pass(store, ChecksOf(policy, requester, Some(scope)), now) ==
        if entry.count > policy.limit then (store[key := entry], false)
        else (store[key := entry][scoped := second], second.count <= policy.scopedLimit.value)
  {
    var checks := ChecksOf(policy, requester, Some(scope));
    assert |PlainKey(policy.bucket, requester)| < |ScopedKey(policy.bucket, requester, scope)|;
    assert checks[0].key == PlainKey(policy.bucket, requester);
    assert checks[1].key == ScopedKey(policy.bucket, requester, scope);
    assert checks[1..] == [checks[1]] && [checks[1]][1..] == [];
    var (after, count) := Consume(store, checks[0].key, policy.windowSeconds, now);
    assert Consume(after, checks[1].key, policy.windowSeconds, now).0
        == after[checks[1].key := Counted(store, checks[1].key, policy.windowSeconds, now)];
    if count <= policy.limit { OneCheck(after, checks[1], now); }
  }

  lemma OneCheck(store: Store, check: Check, now: int)
    ensures Pass(store, [check], now) ==
      (store[check.key := Counted(store, check.key, check.windowSeconds, now)],
       Counted(store, check.key, check.windowSeconds, now).count <= check.limit)
  {
    assert [check][1..] == [];
  }

  // ----- whose counter it is ------------------------------------------------

  lemma SameTail(head: string, a: string, b: string)
    requires head + a == head + b
    ensures a == b
  {
    assert (head + a)[|head|..] == a && (head + b)[|head|..] == b;
  }

  lemma {:induction false} FirstColonSplits(a: string, b: string, x: string, y: string)
    requires a + ":" + x == b + ":" + y && ':' !in a && ':' !in b
    ensures a == b && x == y
  {
    if a == [] || b == [] {
      assert (a + ":" + x)[0] == (b + ":" + y)[0];
      assert a == [] && b == [];
      assert a + ":" + x == ":" + x && b + ":" + y == ":" + y;
      SameTail(":", x, y);
    } else {
      assert (a + ":" + x)[0] == (b + ":" + y)[0];
      assert (a + ":" + x)[1..] == a[1..] + ":" + x && (b + ":" + y)[1..] == b[1..] + ":" + y;
      FirstColonSplits(a[1..], b[1..], x, y);
    }
  }

  /** Buckets have no colon in their names: then the counters of different
      requesters, and of different buckets, are different counters. */
  lemma PlainKeysIdentify(bucket: string, requester: string, otherBucket: string, other: string)
    requires ':' !in bucket && ':' !in otherBucket
    ensures PlainKey(bucket, requester) == PlainKey(otherBucket, other) <==> bucket == otherBucket && requester == other
  {
    var head := "rate-limit:";
    assert PlainKey(bucket, requester) == head + (bucket + ":" + requester);
    assert PlainKey(otherBucket, other) == head + (otherBucket + ":" + other);
    if PlainKey(bucket, requester) == PlainKey(otherBucket, other) {
      SameTail(head, bucket + ":" + requester, otherBucket + ":" + other);
      FirstColonSplits(bucket, otherBucket, requester, other);
    }
  }

  /** The last colon splits as well as the first. */
  lemma {:induction false} LastColonSplits(a: string, b: string, x: string, y: string)
    requires a + ":" + x == b + ":" + y && ':' !in x && ':' !in y
    ensures a == b && x == y
  {
    if x == [] || y == [] {
      assert (a + ":" + x)[|a + ":" + x| - 1] == (b + ":" + y)[|b + ":" + y| - 1];
      assert a == (a + ":" + x)[..|a|] && b == (b + ":" + y)[..|b|];
    } else {
      assert (a + ":" + x)[..|a + ":" + x| - 1] == a + ":" + x[..|x| - 1];
      assert (b + ":" + y)[..|b + ":" + y| - 1] == b + ":" + y[..|y| - 1];
      assert (a + ":" + x)[|a + ":" + x| - 1] == (b + ":" + y)[|b + ":" + y| - 1];
      LastColonSplits(a, b, x[..|x| - 1], y[..|y| - 1]);
    }
  }

  /** An address may contain colons; as long as the scopes do not, the scoped
      counters of a bucket are told apart as well. */
  lemma ScopedKeysIdentify(bucket: string, requester: string, scope: string, other: string, otherScope: string)
    requires ':' !in scope && ':' !in otherScope
    ensures ScopedKey(bucket, requester, scope) == ScopedKey(bucket, other, otherScope)
      <==> requester == other && scope == otherScope
  {
    var head := "rate-limit:" + bucket + ":scoped:";
    assert ScopedKey(bucket, requester, scope) == head + (requester + ":" + scope);
    assert ScopedKey(bucket, other, otherScope) == head + (other + ":" + otherScope);
    if ScopedKey(bucket, requester, scope) == ScopedKey(bucket, other, otherScope) {
      SameTail(head, requester + ":" + scope, other + ":" + otherScope);
      LastColonSplits(requester, other, scope, otherScope);
    }
  }

  /** With a colon in a scope two requesters can share a counter. */
  lemma ColonInScopeCollides(bucket: string)
    ensures ScopedKey(bucket, "::1", "2:x") == ScopedKey(bucket, "::1:2", "x")
  {
    var head := "rate-limit:" + bucket + ":scoped:";
    assert ScopedKey(bucket, "::1", "2:x") == head + "::1:2:x" && ScopedKey(bucket, "::1:2", "x") == head + "::1:2:x";
  }

  // ----- traces -------------------------------------------------------------

  datatype Arrival = Arrival(at: int, checks: seq<Check>)

  function StoreAfter(arrivals: seq<Arrival>): Store {
    if arrivals == [] then map[]
    else var last := arrivals[|arrivals| - 1]; Pass(StoreAfter(arrivals[..|arrivals| - 1]), last.checks, last.at).0
  }

  /** When requests that are limited by the key were admitted. */
  function AdmittedTimes(arrivals: seq<Arrival>, key: string): seq<int> {
    if arrivals == [] then []
    else
      var (before, last) := (arrivals[..|arrivals| - 1], arrivals[|arrivals| - 1]);
      AdmittedTimes(before, key) +
      if Checks(last.checks, key) && Pass(StoreAfter(before), last.checks, last.at).1 then [last.at] else []
  }

  /** How many of the times lie in the half-open interval. */
  function CountIn(times: seq<int>, from: int, upTo: int): nat {
    if times == [] then 0
    else CountIn(times[..|times| - 1], from, upTo) + if from <= times[|times| - 1] < upTo then 1 else 0
  }

  lemma {:induction false} CountInGrows(times: seq<int>, from: int, upTo: int, wideFrom: int, wideUpTo: int)
    requires wideFrom <= from && upTo <= wideUpTo
    ensures CountIn(times, from, upTo) <= CountIn(times, wideFrom, wideUpTo)
  {
    if times != [] { CountInGrows(times[..|times| - 1], from, upTo, wideFrom, wideUpTo); }
  }

  lemma {:induction false} CountInSplits(times: seq<int>, from: int, mid: int, upTo: int)
    requires from <= mid <= upTo
    ensures CountIn(times, from, upTo) == CountIn(times, from, mid) + CountIn(times, mid, upTo)
  {
    if times != [] { CountInSplits(times[..|times| - 1], from, mid, upTo); }
  }

  lemma {:induction false} NoneAfter(times: seq<int>, now: int, from: int, upTo: int)
    requires now < from && forall i :: 0 <= i < |times| ==> times[i] <= now
    ensures CountIn(times, from, upTo) == 0
  {
    if times != [] { NoneAfter(times[..|times| - 1], now, from, upTo); }
  }

  lemma CountInAppend(times: seq<int>, at: int, from: int, upTo: int)
    ensures CountIn(times + [at], from, upTo) == CountIn(times, from, upTo) + if from <= at < upTo then 1 else 0
  {
    assert (times + [at])[..|times|] == times;
  }

  /** The most that any interval of one window length can admit: the request
      that opens a window is never in one interval with the next window. */
  function Cap(limit: nat): nat { if limit == 0 then 0 else 2 * limit - 1 }

  predicate IntervalOk(times: seq<int>, from: int, limit: nat, length: nat) {
    CountIn(times, from, from + length) <= Cap(limit)
  }

  ghost predicate IntervalsOk(times: seq<int>, limit: nat, length: nat) {
    forall from: int :: IntervalOk(times, from, limit, length)
  }

  /** The counter window of an entry starts one length before it expires. */
  ghost predicate EntryOk(entry: Entry, times: seq<int>, limit: nat, length: nat, now: int) {
    var start := entry.expiresAt - length;
    && 1 <= entry.count && start <= now
    && (forall i :: 0 <= i < |times| ==> times[i] < entry.expiresAt)
    && CountIn(times, start, now + 1) <= Least(entry.count, limit)
    && CountIn(times, start + 1, now + 1) <= Least(entry.count, limit) - (if limit == 0 then 0 else 1)
    && CountIn(times, start - length + 1, start) <= (if limit == 0 then 0 else limit - 1)
  }

  ghost predicate KeyInv(entry: Option<Entry>, times: seq<int>, limit: nat, length: nat, now: int) {
    && (forall i :: 0 <= i < |times| ==> times[i] <= now)
    && (entry.None? ==> times == [])
    && (entry.Some? ==> EntryOk(entry.value, times, limit, length, now))
    && IntervalsOk(times, limit, length)
  }

  lemma TimePasses(entry: Option<Entry>, times: seq<int>, limit: nat, length: nat, now: int, later: int)
    requires KeyInv(entry, times, limit, length, now) && now <= later
    ensures KeyInv(entry, times, limit, length, later)
  {
    if entry.Some? {
      var start := entry.value.expiresAt - length;
      NoneAfter(times, now, now + 1, later + 1);
      CountInSplits(times, start, now + 1, later + 1);
      CountInSplits(times, start + 1, now + 1, later + 1);
    }
  }

  /** The request at `now` opens a counter window. */
  lemma WindowOpens(entry: Option<Entry>, times: seq<int>, limit: nat, length: nat, now: int, admitted: bool)
    requires KeyInv(entry, times, limit, length, now) && 0 < length
    requires entry.None? || entry.value.expiresAt <= now
    requires admitted ==> 1 <= limit
    ensures KeyInv(Some(Entry(1, now + length)), times + (if admitted then [now] else []), limit, length, now)
  {
    var after := times + if admitted then [now] else [];
    forall i | 0 <= i < |times| ensures times[i] <= now - 1 { assert entry.Some?; }
    forall from, upTo
      ensures CountIn(after, from, upTo) == CountIn(times, from, upTo) + if admitted && from <= now < upTo then 1 else 0
    {
      if admitted { CountInAppend(times, now, from, upTo); } else { assert after == times; }
    }
    NoneAfter(times, now - 1, now, now + 1);
    NoneAfter(times, now - 1, now + 1, now + 1);
    BeforeTheWindow(entry, times, limit, length, now, now - length + 1);
    forall from: int ensures IntervalOk(after, from, limit, length) {
      assert IntervalOk(times, from, limit, length);
      if admitted && from <= now < from + length {
        BeforeTheWindow(entry, times, limit, length, now, from);
        CountInSplits(times, from, now, from + length);
        NoneAfter(times, now - 1, now, from + length);
      }
    }
  }

  /** What an expired window has admitted within one length of its successor. */
  lemma BeforeTheWindow(entry: Option<Entry>, times: seq<int>, limit: nat, length: nat, now: int, from: int)
    requires KeyInv(entry, times, limit, length, now) && now - length < from <= now
    requires entry.None? || entry.value.expiresAt <= now
    ensures CountIn(times, from, now) <= (if limit == 0 then 0 else limit - 1)
  {
    if entry.Some? {
      CountInGrows(times, from, now, entry.value.expiresAt - length + 1, now + 1);
    }
  }

  /** The request at `now` is counted in the window that is open. */
  lemma WindowCounts(entry: Entry, times: seq<int>, limit: nat, length: nat, now: int, admitted: bool)
    requires KeyInv(Some(entry), times, limit, length, now) && now < entry.expiresAt
    requires admitted ==> entry.count + 1 <= limit
    ensures KeyInv(Some(entry.(count := entry.count + 1)), times + (if admitted then [now] else []), limit, length, now)
  {
    var after, start := times + if admitted then [now] else [], entry.expiresAt - length;
    forall from, upTo
      ensures CountIn(after, from, upTo) == CountIn(times, from, upTo) + if admitted && from <= now < upTo then 1 else 0
    {
      if admitted { CountInAppend(times, now, from, upTo); } else { assert after == times; }
    }
    forall from: int ensures IntervalOk(after, from, limit, length) {
      assert IntervalOk(times, from, limit, length);
      if admitted && from <= now < from + length {
        CountInSplits(after, from, now + 1, from + length);
        NoneAfter(after, now, now + 1, from + length);
        if from <= start {
          CountInSplits(after, from, start, now + 1);
          CountInGrows(after, from, start, start - length + 1, start);
        } else {
          CountInGrows(after, from, now + 1, start, now + 1);
        }
      }
    }
  }

  /** Requests come in time order, and each checks the key as its policy says. */
  ghost predicate Trace(arrivals: seq<Arrival>, key: string, limit: nat, windowSeconds: nat) {
    && (forall i :: 0 <= i < |arrivals| ==> Uses(arrivals[i].checks, key, limit, windowSeconds))
    && (forall i, j :: 0 <= i < j < |arrivals| ==> arrivals[i].at <= arrivals[j].at)
  }

  lemma RequestKeepsInv(store: Store, checks: seq<Check>, times: seq<int>, key: string, limit: nat,
      windowSeconds: nat, now: int)
    requires KeyInv(Find(store, key), times, limit, Length(windowSeconds), now) && 0 < windowSeconds
    requires Uses(checks, key, limit, windowSeconds)
    ensures var (after, passed) := Pass(store, checks, now);
      KeyInv(Find(after, key), times + (if Checks(checks, key) && passed then [now] else []), limit,
             Length(windowSeconds), now)
  {
    OneRequest(store, checks, now, key, limit, windowSeconds);
    var (after, passed) := Pass(store, checks, now);
    var admitted := Checks(checks, key) && passed;
    if Find(after, key) == Find(store, key) && !admitted {
      assert times + [] == times;
    } else if key !in store || store[key].expiresAt <= now {
      WindowOpens(Find(store, key), times, limit, Length(windowSeconds), now, admitted);
    } else {
      WindowCounts(store[key], times, limit, Length(windowSeconds), now, admitted);
    }
  }

  lemma {:induction false} TraceKeepsInv(arrivals: seq<Arrival>, key: string, limit: nat, windowSeconds: nat)
    requires arrivals != [] && Trace(arrivals, key, limit, windowSeconds) && 0 < windowSeconds
    ensures KeyInv(Find(StoreAfter(arrivals), key), AdmittedTimes(arrivals, key), limit, Length(windowSeconds),
      arrivals[|arrivals| - 1].at)
  {
    var before, last := arrivals[..|arrivals| - 1], arrivals[|arrivals| - 1];
    var store, times := StoreAfter(before), AdmittedTimes(before, key);
    if before == [] {
      NothingAdmitted(limit, Length(windowSeconds));
    } else {
      TraceKeepsInv(before, key, limit, windowSeconds);
      TimePasses(Find(store, key), times, limit, Length(windowSeconds), before[|before| - 1].at, last.at);
    }
    RequestKeepsInv(store, last.checks, times, key, limit, windowSeconds, last.at);
  }

  lemma NothingAdmitted(limit: nat, length: nat)
    ensures IntervalsOk([], limit, length)
  {
  }

  // ----- main results -------------------------------------------------------

  /** For one key and any requests in time order, mixed with any requests for
      other keys, every half-open interval of one window length admits at most
      2 * limit - 1 (and none if the limit is zero). */
  lemma AtMostTwiceTheLimit(arrivals: seq<Arrival>, key: string, limit: nat, windowSeconds: nat, from: int)
    requires Trace(arrivals, key, limit, windowSeconds) && 0 < windowSeconds
    ensures CountIn(AdmittedTimes(arrivals, key), from, from + windowSeconds * 1000)
         <= (if limit == 0 then 0 else 2 * limit - 1)
  {
    if arrivals != [] {
      TraceKeepsInv(arrivals, key, limit, windowSeconds);
      assert IntervalOk(AdmittedTimes(arrivals, key), from, limit, Length(windowSeconds));
    }
  }

  /** Within one counter window at most the limit is admitted. */
  lemma AtMostTheLimitPerWindow(arrivals: seq<Arrival>, key: string, limit: nat, windowSeconds: nat)
    requires Trace(arrivals, key, limit, windowSeconds) && 0 < windowSeconds && key in StoreAfter(arrivals)
    ensures var expiresAt := StoreAfter(arrivals)[key].expiresAt;
      CountIn(AdmittedTimes(arrivals, key), expiresAt - windowSeconds * 1000, expiresAt) <= limit
  {
    var times, entry, now := AdmittedTimes(arrivals, key), StoreAfter(arrivals)[key], arrivals[|arrivals| - 1].at;
    TraceKeepsInv(arrivals, key, limit, windowSeconds);
    assert KeyInv(Some(entry), times, limit, Length(windowSeconds), now);
    WholeWindow(entry, times, limit, Length(windowSeconds), now);
  }

  lemma WholeWindow(entry: Entry, times: seq<int>, limit: nat, length: nat, now: int)
    requires EntryOk(entry, times, limit, length, now) && forall i :: 0 <= i < |times| ==> times[i] <= now
    ensures CountIn(times, entry.expiresAt - length, entry.expiresAt) <= limit
  {
    var start := entry.expiresAt - length;
    if now + 1 <= entry.expiresAt {
      CountInSplits(times, start, now + 1, entry.expiresAt);
      NoneAfter(times, now, now + 1, entry.expiresAt);
    } else {
      CountInGrows(times, start, entry.expiresAt, start, now + 1);
    }
  }

  // ----- what is admitted ---------------------------------------------------

  function Hit(key: string, limit: nat, windowSeconds: nat, at: int): Arrival {
    Arrival(at, [Check(key, limit, windowSeconds)])
  }

  function Repeat(base: seq<Arrival>, a: Arrival, n: nat): seq<Arrival> {
    if n == 0 then base else Repeat(base, a, n - 1) + [a]
  }

  lemma HitUses(key: string, limit: nat, windowSeconds: nat, at: int)
    ensures Uses(Hit(key, limit, windowSeconds, at).checks, key, limit, windowSeconds)
    ensures Checks(Hit(key, limit, windowSeconds, at).checks, key)
  {
    assert Hit(key, limit, windowSeconds, at).checks[0].key == key;
  }

  lemma StoreAfterOneMore(base: seq<Arrival>, a: Arrival)
    ensures StoreAfter(base + [a]) == Pass(StoreAfter(base), a.checks, a.at).0
  {
    assert (base + [a])[..|base|] == base;
  }

  lemma AdmittedAfterOneMore(base: seq<Arrival>, a: Arrival, key: string)
    ensures AdmittedTimes(base + [a], key)
         == AdmittedTimes(base, key) + if Checks(a.checks, key) && Pass(StoreAfter(base), a.checks, a.at).1
             then [a.at] else []
  {
    assert (base + [a])[..|base|] == base;
  }

  lemma PassHit(store: Store, key: string, limit: nat, windowSeconds: nat, at: int)
    ensures var (consumed, count) := Consume(store, key, windowSeconds, at);
      Pass(store, Hit(key, limit, windowSeconds, at).checks, at) == (consumed, count <= limit)
  {
    assert Hit(key, limit, windowSeconds, at).checks[1..] == [];
  }

  lemma CountOneMore(times: seq<int>, admitted: bool, at: int, from: int, upTo: int)
    ensures CountIn(times + (if admitted then [at] else []), from, upTo)
         == CountIn(times, from, upTo) + if admitted && from <= at < upTo then 1 else 0
  {
    CountInAppend(times, at, from, upTo);
    assert times + [] == times;
  }

  /** What matters of a trace for one key and one interval: the key's entry,
      and how many requests limited by it the interval admitted. */
  datatype Tally = Tally(entry: Option<Entry>, admitted: nat)

  function TallyOf(arrivals: seq<Arrival>, key: string, from: int, upTo: int): Tally {
    Tally(Find(StoreAfter(arrivals), key), CountIn(AdmittedTimes(arrivals, key), from, upTo))
  }

  predicate OpenAt(entry: Option<Entry>, at: int) { entry.Some? && at < entry.value.expiresAt }

  function AfterHit(t: Tally, limit: nat, windowSeconds: nat, at: int, from: int, upTo: int): Tally {
    var entry := if OpenAt(t.entry, at) then Entry(t.entry.value.count + 1, t.entry.value.expiresAt)
      else Entry(1, at + Length(windowSeconds));
    Tally(Some(entry), t.admitted + if entry.count <= limit && from <= at < upTo then 1 else 0)
  }

  function AfterHits(t: Tally, limit: nat, windowSeconds: nat, at: int, n: nat, from: int, upTo: int): Tally {
    if n == 0 then t else AfterHit(AfterHits(t, limit, windowSeconds, at, n - 1, from, upTo), limit, windowSeconds,
        at, from, upTo)
  }

  lemma HitMovesEntry(base: seq<Arrival>, key: string, limit: nat, windowSeconds: nat, at: int, from: int, upTo: int)
    ensures TallyOf(base + [Hit(key, limit, windowSeconds, at)], key, from, upTo).entry
         == AfterHit(TallyOf(base, key, from, upTo), limit, windowSeconds, at, from, upTo).entry
  {
    StoreAfterOneMore(base, Hit(key, limit, windowSeconds, at));
    PassHit(StoreAfter(base), key, limit, windowSeconds, at);
  }

  /** Whether one more request that checks only this key is admitted. */
  lemma HitIsAdmitted(base: seq<Arrival>, key: string, limit: nat, windowSeconds: nat, at: int)
    ensures var hit := Hit(key, limit, windowSeconds, at);
            var admitted := Consume(StoreAfter(base), key, windowSeconds, at).1 <= limit;
      AdmittedTimes(base + [hit], key) == AdmittedTimes(base, key) + if admitted then [at] else []
  {
    AdmittedAfterOneMore(base, Hit(key, limit, windowSeconds, at), key);
    PassHit(StoreAfter(base), key, limit, windowSeconds, at);
    HitUses(key, limit, windowSeconds, at);
  }

  lemma ConsumedCount(store: Store, key: string, windowSeconds: nat, at: int)
    ensures Consume(store, key, windowSeconds, at).1
         == if OpenAt(Find(store, key), at) then Find(store, key).value.count + 1 else 1
  {
  }

  lemma HitMovesCount(base: seq<Arrival>, key: string, limit: nat, windowSeconds: nat, at: int, from: int, upTo: int)
    ensures TallyOf(base + [Hit(key, limit, windowSeconds, at)], key, from, upTo).admitted
         == AfterHit(TallyOf(base, key, from, upTo), limit, windowSeconds, at, from, upTo).admitted
  {
    var times, store := AdmittedTimes(base, key), StoreAfter(base);
    var admitted := Consume(store, key, windowSeconds, at).1 <= limit;
    HitIsAdmitted(base, key, limit, windowSeconds, at);
    ConsumedCount(store, key, windowSeconds, at);
    CountOneMore(times, admitted, at, from, upTo);
  }

  lemma {:induction false} RepeatedHits(base: seq<Arrival>, key: string, limit: nat, windowSeconds: nat, at: int,
      n: nat, from: int, upTo: int)
    ensures TallyOf(Repeat(base, Hit(key, limit, windowSeconds, at), n), key, from, upTo)
         == AfterHits(TallyOf(base, key, from, upTo), limit, windowSeconds, at, n, from, upTo)
  {
    if n > 0 {
      var before := Repeat(base, Hit(key, limit, windowSeconds, at), n - 1);
      RepeatedHits(base, key, limit, windowSeconds, at, n - 1, from, upTo);
      HitMovesEntry(before, key, limit, windowSeconds, at, from, upTo);
      HitMovesCount(before, key, limit, windowSeconds, at, from, upTo);
    }
  }

  lemma {:induction false} HitsInOpenWindow(t: Tally, limit: nat, windowSeconds: nat, at: int, n: nat, from: int,
      upTo: int)
    requires OpenAt(t.entry, at) && t.entry.value.count <= limit && from <= at < upTo
    ensures AfterHits(t, limit, windowSeconds, at, n, from, upTo)
         == Tally(Some(Entry(t.entry.value.count + n, t.entry.value.expiresAt)),
                  t.admitted + Least(n, limit - t.entry.value.count))
  {
    if n > 0 { HitsInOpenWindow(t, limit, windowSeconds, at, n - 1, from, upTo); }
  }

  /** Of the requests that arrive while a counter window is open, exactly as
      many are admitted as the limit has left. */
  lemma AdmitsWhatIsLeft(base: seq<Arrival>, key: string, limit: nat, windowSeconds: nat, at: int, n: nat, from: int,
      upTo: int)
    requires OpenAt(TallyOf(base, key, from, upTo).entry, at) && from <= at < upTo
    requires TallyOf(base, key, from, upTo).entry.value.count <= limit
    ensures TallyOf(Repeat(base, Hit(key, limit, windowSeconds, at), n), key, from, upTo).admitted
         == TallyOf(base, key, from, upTo).admitted + Least(n, limit - TallyOf(base, key, from, upTo).entry.value.count)
  {
    RepeatedHits(base, key, limit, windowSeconds, at, n, from, upTo);
    HitsInOpenWindow(TallyOf(base, key, from, upTo), limit, windowSeconds, at, n, from, upTo);
  }

  // ----- the bound is tight -------------------------------------------------

  function FirstHit(key: string, limit: nat, windowSeconds: nat): seq<Arrival> {
    Repeat([], Hit(key, limit, windowSeconds, 0), 1)
  }

  function LateBurst(key: string, limit: nat, windowSeconds: nat): seq<Arrival>
    requires 1 <= limit
  {
    Repeat(FirstHit(key, limit, windowSeconds), Hit(key, limit, windowSeconds, Length(windowSeconds) - 1), limit - 1)
  }

  /** One request; the rest of the limit just before its window ends; the whole
      limit just after. */
  function Burst(key: string, limit: nat, windowSeconds: nat): seq<Arrival>
    requires 1 <= limit
  {
    Repeat(LateBurst(key, limit, windowSeconds), Hit(key, limit, windowSeconds, Length(windowSeconds)), limit)
  }

  lemma {:induction false} RepeatIsTrace(base: seq<Arrival>, key: string, limit: nat, windowSeconds: nat, at: int,
      n: nat)
    requires Trace(base, key, limit, windowSeconds) && (base != [] ==> base[|base| - 1].at <= at)
    ensures var arrivals := Repeat(base, Hit(key, limit, windowSeconds, at), n);
      Trace(arrivals, key, limit, windowSeconds) && (arrivals != [] ==> arrivals[|arrivals| - 1].at <= at)
  {
    if n > 0 {
      RepeatIsTrace(base, key, limit, windowSeconds, at, n - 1);
      HitUses(key, limit, windowSeconds, at);
    }
  }

  lemma BurstIsTrace(key: string, limit: nat, windowSeconds: nat)
    requires 1 <= limit && 1 <= windowSeconds
    ensures Trace(Burst(key, limit, windowSeconds), key, limit, windowSeconds)
  {
    RepeatIsTrace([], key, limit, windowSeconds, 0, 1);
    RepeatIsTrace(FirstHit(key, limit, windowSeconds), key, limit, windowSeconds, Length(windowSeconds) - 1, limit - 1);
    RepeatIsTrace(LateBurst(key, limit, windowSeconds), key, limit, windowSeconds, Length(windowSeconds), limit);
  }

  lemma {:induction false} HitsReopen(t: Tally, limit: nat, windowSeconds: nat, at: int, n: nat, from: int, upTo: int)
    requires !OpenAt(t.entry, at) && 1 <= n <= limit && from <= at < upTo && 1 <= windowSeconds
    ensures AfterHits(t, limit, windowSeconds, at, n, from, upTo)
      == Tally(Some(Entry(n, at + Length(windowSeconds))), t.admitted + n)
  {
    if n == 1 {
      assert AfterHits(t, limit, windowSeconds, at, 0, from, upTo) == t;
    } else {
      HitsReopen(t, limit, windowSeconds, at, n - 1, from, upTo);
    }
  }

  lemma FirstHitTally(key: string, limit: nat, windowSeconds: nat, from: int, upTo: int)
    requires 0 < from
    ensures TallyOf(FirstHit(key, limit, windowSeconds), key, from, upTo)
      == Tally(Some(Entry(1, Length(windowSeconds))), 0)
  {
    var none := Tally(None, 0);
    assert TallyOf([], key, from, upTo) == none;
    RepeatedHits([], key, limit, windowSeconds, 0, 1, from, upTo);
    assert AfterHits(none, limit, windowSeconds, 0, 0, from, upTo) == none;
  }

  lemma LateBurstTally(key: string, limit: nat, windowSeconds: nat, from: int, upTo: int)
    requires 1 <= limit && 1 <= windowSeconds && 0 < from <= Length(windowSeconds) - 1 < upTo
    ensures TallyOf(LateBurst(key, limit, windowSeconds), key, from, upTo)
         == Tally(Some(Entry(limit, Length(windowSeconds))), limit - 1)
  {
    var at, first := Length(windowSeconds) - 1, FirstHit(key, limit, windowSeconds);
    var t := Tally(Some(Entry(1, Length(windowSeconds))), 0);
    FirstHitTally(key, limit, windowSeconds, from, upTo);
    assert TallyOf(first, key, from, upTo) == t;
    RepeatedHits(first, key, limit, windowSeconds, at, limit - 1, from, upTo);
    HitsInOpenWindow(t, limit, windowSeconds, at, limit - 1, from, upTo);
  }

  lemma BurstTally(key: string, limit: nat, windowSeconds: nat, from: int, upTo: int)
    requires 1 <= limit && 1 <= windowSeconds && 0 < from <= Length(windowSeconds) - 1 && Length(windowSeconds) < upTo
    ensures TallyOf(Burst(key, limit, windowSeconds), key, from, upTo).admitted == 2 * limit - 1
  {
    var at := Length(windowSeconds);
    LateBurstTally(key, limit, windowSeconds, from, upTo);
    RepeatedHits(LateBurst(key, limit, windowSeconds), key, limit, windowSeconds, at, limit, from, upTo);
    HitsReopen(Tally(Some(Entry(limit, at)), limit - 1), limit, windowSeconds, at, limit, from, upTo);
  }

  /** The bound is reached, for every limit and every window. */
  lemma TheBoundIsReached(key: string, limit: nat, windowSeconds: nat)
    requires 1 <= limit && 1 <= windowSeconds
    ensures Trace(Burst(key, limit, windowSeconds), key, limit, windowSeconds)
    ensures var length := windowSeconds * 1000;
      CountIn(AdmittedTimes(Burst(key, limit, windowSeconds), key), length - 1, 2 * length - 1) == 2 * limit - 1
  {
    BurstIsTrace(key, limit, windowSeconds);
    BurstTally(key, limit, windowSeconds, Length(windowSeconds) - 1, 2 * Length(windowSeconds) - 1);
  }
}
