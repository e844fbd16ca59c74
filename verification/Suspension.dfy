/** Suspending a business while other requests keep writing its turns. */
module Suspension {
  import opened Options
  import opened Sorting
  import opened Turns

  datatype BusinessStatus = Pending | Approved | Rejected | Suspended

  datatype Session = Session(user: nat, revokedAt: Option<int>)

  datatype Employee = Employee(user: nat, active: bool)

  /** The turn table, indexed by id; a deleted row leaves `None` behind. */
  type Table = seq<Option<Turn>>

  const MAX_CANCEL_ATTEMPTS: nat := 3

  datatype CancelResult = DidCancel | NothingLeft | CancelThrew

  datatype Announcement = Announcement(queue: nat, turn: Turn)

  datatype Result =
    | Done(announced: seq<Announcement>)
    | NotApproved
    | RolledBack

  // ----- other writers ------------------------------------------------------

  /** Anything other requests may have done meanwhile: create and delete rows,
      take rows along their life, but not touch the rows this transaction has
      written and therefore locked. */
  predicate OthersRan(a: Table, b: Table, locked: set<nat>) {
    && |a| <= |b|
    && (forall i :: 0 <= i < |a| ==> RowMoved(a[i], b[i]))
    && (forall i :: 0 <= i < |a| && i in locked ==> b[i] == a[i])
    && (forall i :: |a| <= i < |b| && b[i].Some? ==> b[i].value.id == i)
  }

  predicate RowMoved(a: Option<Turn>, b: Option<Turn>) {
    b.None? || (a.Some? && Evolved(a.value, b.value))
  }

  lemma OthersRanAgain(a: Table, b: Table, c: Table, locked: set<nat>, more: set<nat>)
    requires OthersRan(a, b, locked) && OthersRan(b, c, more) && locked <= more
    ensures OthersRan(a, c, locked)
  {
    forall i | 0 <= i < |a| ensures RowMoved(a[i], c[i]) {
      if c[i].Some? { EvolvedIsTransitive(a[i].value, b[i].value, c[i].value); }
    }
  }

  ghost predicate Indexed(rows: Table) {
    forall i :: 0 <= i < |rows| && rows[i].Some? ==> rows[i].value.id == i
  }

  lemma OthersKeepIndexed(a: Table, b: Table, locked: set<nat>)
    requires OthersRan(a, b, locked) && Indexed(a)
    ensures Indexed(b)
  {
    forall i | 0 <= i < |b| && b[i].Some? ensures b[i].value.id == i {
      if i < |a| { assert RowMoved(a[i], b[i]); }
    }
  }

  /** `t` was read from the table at some earlier time. */
  ghost predicate WasRead(rows: Table, t: Turn) {
    t.id < |rows| && RowMoved(Some(t), rows[t.id])
  }

  predicate Over(rows: Table, id: nat) {
    id < |rows| && (rows[id].None? || Terminal(rows[id].value.status))
  }

  lemma OverStaysOver(a: Table, b: Table, locked: set<nat>, id: nat)
    requires OthersRan(a, b, locked) && Over(a, id)
    ensures Over(b, id)
  {
    assert RowMoved(a[id], b[id]);
  }

  lemma WasReadStays(a: Table, b: Table, locked: set<nat>, t: Turn)
    requires OthersRan(a, b, locked) && WasRead(a, t)
    ensures WasRead(b, t)
  {
    assert RowMoved(a[t.id], b[t.id]);
    if b[t.id].Some? { EvolvedIsTransitive(t, a[t.id].value, b[t.id].value); }
  }

  // ----- what the transaction writes ----------------------------------------

  function CancelledRow(stored: Turn, now: int): Turn {
    stored.(status := Cancelled, cancelledAt := Some(now), version := stored.version + 1)
  }

  /** Overlays the rows written by the transaction on the committed table. */
  function Overlay(rows: Table, writes: map<nat, Turn>): Table {
    seq(|rows|, i requires 0 <= i < |rows| => if i in writes then Some(writes[i]) else rows[i])
  }

  /** Every row the transaction wrote is the stored row, cancelled; nobody else
      can change it until the transaction commits. */
  ghost predicate WritesOk(rows: Table, writes: map<nat, Turn>, now: int) {
    forall id :: id in writes ==> id < |rows| && rows[id].Some? && writes[id] == CancelledRow(rows[id].value, now)
  }

  lemma WritesStayOk(a: Table, b: Table, writes: map<nat, Turn>, now: int)
    requires WritesOk(a, writes, now) && OthersRan(a, b, writes.Keys)
    ensures WritesOk(b, writes, now)
  {
  }

  /** The write of the first attempt is not preceded by a check: it is a legal
      step exactly if the row that was read is active. */
  lemma CancelIsLegalIffActive(t: Turn, now: int)
    ensures LegalEdge(t, CancelledRow(t, now)) <==> Active(t.status)
  {
  }

  /** A turn that is listed while attending and completed before it is read on
      its own is still cancelled: the compare-and-swap sees no change since
      that read, and leaves a row that is both attended and cancelled. */
  lemma CompletedTurnIsCancelled(listed: Turn, read: Turn, now: int)
    requires listed.status.Attending? && LegalEdge(listed, read)
    requires read == listed.(status := Completed, attendedAt := Some(now), version := read.version)
    ensures var after := CancelledRow(read, now);
      !LegalEdge(read, after) && after.status.Cancelled? && after.attendedAt.Some? && after.cancelledAt.Some?
  {
  }

  // ----- the snapshot -------------------------------------------------------

  function RowsOfQueue(rows: Table, queue: nat): seq<Turn> {
    if rows == [] then []
    else
      var (last, before) := (rows[|rows| - 1], RowsOfQueue(rows[..|rows| - 1], queue));
      if last.Some? && last.value.queue == queue && Active(last.value.status) then before + [last.value] else before
  }

  function FindActiveByQueue(rows: Table, queue: nat): seq<Turn> { Sort(RowsOfQueue(rows, queue), NotAfter) }

  lemma {:induction false} RowsOfQueueMembers(rows: Table, queue: nat)
    ensures forall t :: t in RowsOfQueue(rows, queue) <==> Some(t) in rows && t.queue == queue && Active(t.status)
  {
    if rows != [] {
      RowsOfQueueMembers(rows[..|rows| - 1], queue);
      assert rows == rows[..|rows| - 1] + [rows[|rows| - 1]];
    }
  }

  lemma {:induction false} RowsOfQueueDiffer(rows: Table, queue: nat)
    requires Indexed(rows)
    ensures multiset(RowsOfQueue(rows, queue)) <= multiset(set t | t in RowsOfQueue(rows, queue))
  {
    if rows != [] {
      var before := rows[..|rows| - 1];
      assert forall i :: 0 <= i < |before| ==> before[i] == rows[i];
      RowsOfQueueDiffer(before, queue);
      RowsOfQueueMembers(before, queue);
      var last := rows[|rows| - 1];
      if last.Some? && last.value.queue == queue && Active(last.value.status) {
        var rest := RowsOfQueue(before, queue);
        forall t | t in rest ensures t.id < |before| {
          assert Some(t) in before;
          var i :| 0 <= i < |before| && before[i] == Some(t);
        }
        assert last.value !in rest;
        assert (set t | t in rest + [last.value]) == (set t | t in rest) + {last.value};
      }
    }
  }

  ghost predicate NoRepeat(xs: seq<Turn>) {
    forall i, j :: 0 <= i < j < |xs| ==> xs[i] != xs[j]
  }

  lemma {:induction false} OnceEachMeansNoRepeat(xs: seq<Turn>)
    requires forall t :: t in xs ==> multiset(xs)[t] == 1
    ensures NoRepeat(xs)
  {
    forall i, j | 0 <= i < j < |xs| ensures xs[i] != xs[j] {
      assert xs == xs[..j] + [xs[j]] + xs[j + 1..];
      assert xs[..j][i] == xs[i];
      assert multiset(xs[..j])[xs[i]] >= 1;
      assert multiset(xs) == multiset(xs[..j]) + multiset{xs[j]} + multiset(xs[j + 1..]);
      assert multiset(xs)[xs[j]] == multiset(xs[..j])[xs[j]] + 1 + multiset(xs[j + 1..])[xs[j]];
    }
  }

  lemma ActiveListIsExact(rows: Table, queue: nat)
    requires Indexed(rows)
    ensures forall t :: t in FindActiveByQueue(rows, queue) <==>
      t.id < |rows| && rows[t.id] == Some(t) && t.queue == queue && Active(t.status)
    ensures NoRepeat(FindActiveByQueue(rows, queue))
  {
    var raw, list := RowsOfQueue(rows, queue), FindActiveByQueue(rows, queue);
    assert TotalPreorder(NotAfter);
    SortIsSortedPermutation(raw, NotAfter);
    RowsOfQueueMembers(rows, queue);
    forall t ensures t in list <==> t in raw {
      assert t in list <==> t in multiset(list);
      assert t in raw <==> t in multiset(raw);
    }
    forall t ensures Some(t) in rows <==> t.id < |rows| && rows[t.id] == Some(t) {
      if Some(t) in rows { var i :| 0 <= i < |rows| && rows[i] == Some(t); }
    }
    RowsOfQueueDiffer(rows, queue);
    forall t | t in list ensures multiset(list)[t] == 1 {
      assert t in multiset(list);
      assert multiset(raw)[t] <= multiset(set u | u in raw)[t] <= 1;
    }
    OnceEachMeansNoRepeat(list);
  }

  /** The announcement list names each turn at most once. */
  ghost predicate DistinctTurns(xs: seq<Announcement>) {
    forall i, j :: 0 <= i < j < |xs| ==> xs[i].turn.id != xs[j].turn.id
  }

  /** The snapshot holds every active turn of the queues, once. */
  ghost predicate IsSnapshot(xs: seq<Announcement>, rows: Table, queues: seq<nat>) {
    && DistinctTurns(xs)
    && (forall a :: a in xs ==>
          && a.turn.id < |rows| && rows[a.turn.id] == Some(a.turn) && Active(a.turn.status)
          && a.queue == a.turn.queue && a.queue in queues)
    && (forall i :: 0 <= i < |rows| && ActiveIn(rows, i, queues) ==>
          Announcement(rows[i].value.queue, rows[i].value) in xs)
  }

  predicate ActiveIn(rows: Table, i: nat, queues: seq<nat>)
    requires i < |rows|
  {
    rows[i].Some? && Active(rows[i].value.status) && rows[i].value.queue in queues
  }

  /** `t` is a state of its row between the two tables. */
  predicate Between(before: Table, after: Table, t: Turn) {
    && (t.id < |before| ==> RowMoved(before[t.id], Some(t)))
    && t.id < |after| && RowMoved(Some(t), after[t.id])
  }

  /** The turn had not ended when the reading began, or is newer. */
  predicate NotEndedAt(before: Table, id: nat) {
    id < |before| ==> before[id].Some? && Active(before[id].value.status)
  }

  /** What reading the queues while others run gives: each turn once, in a
      state it had meanwhile, every turn that was active at the start, unless
      it is over, and none that had ended by then. */
  ghost predicate WasListed(xs: seq<Announcement>, before: Table, after: Table, queues: seq<nat>) {
    && DistinctTurns(xs)
    && (forall a :: a in xs ==> Between(before, after, a.turn) && a.queue == a.turn.queue && a.queue in queues)
    && (forall a :: a in xs ==> NotEndedAt(before, a.turn.id))
    && (forall i :: 0 <= i < |before| && ActiveIn(before, i, queues) ==> Names(xs, i) || Over(after, i))
  }

  /** If nobody else runs, that is the snapshot. */
  lemma QuietListIsSnapshot(xs: seq<Announcement>, rows: Table, queues: seq<nat>)
    requires Indexed(rows) && WasListed(xs, rows, rows, queues)
    requires forall a :: a in xs ==> Active(a.turn.status)
    ensures IsSnapshot(xs, rows, queues)
  {
    forall a | a in xs ensures a.turn.id < |rows| && rows[a.turn.id] == Some(a.turn) {
      assert Between(rows, rows, a.turn);
    }
    forall i | 0 <= i < |rows| && ActiveIn(rows, i, queues)
      ensures Announcement(rows[i].value.queue, rows[i].value) in xs
    {
      assert !Over(rows, i);
      var j :| 0 <= j < |xs| && xs[j].turn.id == i;
      assert xs[j] in xs;
    }
  }

  ghost predicate Names(xs: seq<Announcement>, id: nat) {
    exists j :: 0 <= j < |xs| && xs[j].turn.id == id
  }

  /** `writes` are exactly the rows of the turns in `cancelled`. */
  ghost predicate WritesAreOf(writes: map<nat, Turn>, cancelled: seq<Announcement>) {
    forall id: nat :: id in writes <==> Names(cancelled, id)
  }

  lemma OneMoreCancelled(writes: map<nat, Turn>, writes': map<nat, Turn>, cancelled: seq<Announcement>,
      item: Announcement)
    requires WritesAreOf(writes, cancelled) && DistinctTurns(cancelled)
    requires item.turn.id !in writes && writes'.Keys == writes.Keys + {item.turn.id}
    ensures WritesAreOf(writes', cancelled + [item]) && DistinctTurns(cancelled + [item])
  {
    var more := cancelled + [item];
    assert more[|cancelled|] == item;
    forall id: nat ensures id in writes' <==> Names(more, id) {
      if id in writes {
        var j :| 0 <= j < |cancelled| && cancelled[j].turn.id == id;
        assert more[j].turn.id == id;
      }
      if Names(more, id) {
        var j :| 0 <= j < |more| && more[j].turn.id == id;
        if j < |cancelled| { assert Names(cancelled, id); }
      }
    }
    forall j | 0 <= j < |cancelled| ensures cancelled[j].turn.id != item.turn.id {
      assert Names(cancelled, cancelled[j].turn.id);
    }
  }

  /** What a committed suspension leaves behind: the rows of the announced
      turns are cancelled by it, every other row is as others left it. */
  ghost predicate Committed(others: Table, after: Table, announced: seq<Announcement>, now: int) {
    && |after| == |others|
    && forall i :: 0 <= i < |after| ==>
         if Names(announced, i) then
           && others[i].Some?
           && after[i] == Some(others[i].value.(status := Cancelled, cancelledAt := Some(now),
                                                version := others[i].value.version + 1))
         else after[i] == others[i]
  }

  lemma OverlayCommits(others: Table, writes: map<nat, Turn>, cancelled: seq<Announcement>, now: int)
    requires WritesOk(others, writes, now) && WritesAreOf(writes, cancelled)
    ensures Committed(others, Overlay(others, writes), cancelled, now)
    ensures forall id :: id in writes || Over(others, id) ==> Over(Overlay(others, writes), id)
  {
  }

  // ----- reading while others run --------------------------------------------

  lemma OthersRanNot(rows: Table)
    requires Indexed(rows)
    ensures OthersRan(rows, rows, {})
  {
  }

  ghost predicate Lists(turns: seq<Turn>, id: nat) { exists t :: t in turns && t.id == id }

  /** What reading the listed turns of one queue gives. */
  ghost predicate ReadOf(more: seq<Announcement>, before: Table, after: Table, activeTurns: seq<Turn>, queue: nat) {
    && DistinctTurns(more)
    && (forall a :: a in more ==> Between(before, after, a.turn) && a.queue == a.turn.queue == queue)
    && (forall a :: a in more ==> Lists(activeTurns, a.turn.id))
    && (forall t :: t in activeTurns ==> t.id < |after| && (Names(more, t.id) || after[t.id].None?))
  }

  lemma BetweenLater(before: Table, mid: Table, after: Table, t: Turn)
    requires Between(before, mid, t) && OthersRan(mid, after, {})
    ensures Between(before, after, t)
  {
    WasReadStays(mid, after, {}, t);
  }

  lemma BetweenEarlier(before: Table, mid: Table, after: Table, t: Turn)
    requires OthersRan(before, mid, {}) && Between(mid, after, t)
    ensures Between(before, after, t)
  {
    if t.id < |before| {
      assert RowMoved(before[t.id], mid[t.id]);
      EvolvedIsTransitive(before[t.id].value, mid[t.id].value, t);
    }
  }

  lemma NamesAppend(xs: seq<Announcement>, ys: seq<Announcement>, id: nat)
    ensures Names(xs + ys, id) <==> Names(xs, id) || Names(ys, id)
  {
    if Names(xs, id) {
      var j :| 0 <= j < |xs| && xs[j].turn.id == id;
      assert (xs + ys)[j].turn.id == id;
    }
    if Names(ys, id) {
      var j :| 0 <= j < |ys| && ys[j].turn.id == id;
      assert (xs + ys)[|xs| + j].turn.id == id;
    }
    if Names(xs + ys, id) {
      var j :| 0 <= j < |xs + ys| && (xs + ys)[j].turn.id == id;
      if j < |xs| { assert xs[j].turn.id == id; } else { assert ys[j - |xs|].turn.id == id; }
    }
  }

  lemma DistinctAppend(xs: seq<Announcement>, ys: seq<Announcement>)
    requires DistinctTurns(xs) && DistinctTurns(ys)
    requires forall x, y :: x in xs && y in ys ==> x.turn.id != y.turn.id
    ensures DistinctTurns(xs + ys)
  {
    var zs := xs + ys;
    forall i, j | 0 <= i < j < |zs| ensures zs[i].turn.id != zs[j].turn.id {
      if j >= |xs| && i < |xs| { assert xs[i] in xs && ys[j - |xs|] in ys; }
    }
  }

  lemma NotReadBefore(start: Table, before: seq<Announcement>, activeTurns: seq<Turn>, queue: nat, k: nat)
    requires Indexed(start) && activeTurns == FindActiveByQueue(start, queue) && k < |activeTurns|
    requires forall a :: a in before ==> Lists(activeTurns[..k], a.turn.id)
    ensures forall a :: a in before ==> a.turn.id != activeTurns[k].id
  {
    ActiveListIsExact(start, queue);
    forall a | a in before ensures a.turn.id != activeTurns[k].id {
      var u :| u in activeTurns[..k] && u.id == a.turn.id;
      var m :| 0 <= m < k && activeTurns[m] == u;
      assert activeTurns[m] in activeTurns && activeTurns[k] in activeTurns && activeTurns[m] != activeTurns[k];
    }
  }

  /** The turns read so far, and the row of the next one if it is there. */
  function WithRead(before: seq<Announcement>, row: Option<Turn>, queue: nat): seq<Announcement> {
    before + if row.Some? then [Announcement(queue, row.value)] else []
  }

  lemma EachReadOrGone(r0: Table, r1: Table, before: seq<Announcement>, done: seq<Turn>, t: Turn, queue: nat)
    requires Indexed(r1) && OthersRan(r0, r1, {}) && t.id < |r1|
    requires forall u :: u in done ==> u.id < |r0| && (Names(before, u.id) || r0[u.id].None?)
    ensures var more := WithRead(before, r1[t.id], queue);
      forall u :: u in done + [t] ==> u.id < |r1| && (Names(more, u.id) || r1[u.id].None?)
  {
    var added := if r1[t.id].Some? then [Announcement(queue, r1[t.id].value)] else [];
    forall u | u in done + [t] ensures u.id < |r1| && (Names(before + added, u.id) || r1[u.id].None?) {
      NamesAppend(before, added, u.id);
      if u in done {
        assert RowMoved(r0[u.id], r1[u.id]);
      } else if r1[t.id].Some? {
        assert added[0].turn.id == t.id;
      }
    }
  }

  lemma ReadBetween(start: Table, r0: Table, r1: Table, before: seq<Announcement>, t: Turn, queue: nat)
    requires Indexed(r1) && OthersRan(start, r1, {}) && OthersRan(r0, r1, {})
    requires t.id < |start| && start[t.id] == Some(t) && t.queue == queue
    requires forall a :: a in before ==> Between(start, r0, a.turn) && a.queue == a.turn.queue == queue
    ensures t.id < |r1|
    ensures forall a :: a in WithRead(before, r1[t.id], queue) ==>
      Between(start, r1, a.turn) && a.queue == a.turn.queue == queue
  {
    assert RowMoved(start[t.id], r1[t.id]);
    forall a | a in before ensures Between(start, r1, a.turn) { BetweenLater(start, r0, r1, a.turn); }
  }

  lemma ListsMore(before: seq<Announcement>, row: Option<Turn>, done: seq<Turn>, t: Turn, queue: nat)
    requires forall a :: a in before ==> Lists(done, a.turn.id)
    requires row.Some? ==> row.value.id == t.id
    ensures forall a :: a in WithRead(before, row, queue) ==> Lists(done + [t], a.turn.id)
  {
    forall a | a in WithRead(before, row, queue) ensures Lists(done + [t], a.turn.id) {
      if a in before {
        var u :| u in done && u.id == a.turn.id;
        assert u in done + [t];
      } else {
        assert t in done + [t];
      }
    }
  }

  lemma OneMoreRead(start: Table, r0: Table, r1: Table, before: seq<Announcement>, activeTurns: seq<Turn>,
      queue: nat, k: nat)
    requires Indexed(start) && activeTurns == FindActiveByQueue(start, queue) && k < |activeTurns|
    requires Indexed(r1) && OthersRan(start, r1, {}) && OthersRan(r0, r1, {})
    requires ReadOf(before, start, r0, activeTurns[..k], queue)
    ensures activeTurns[k].id < |r1|
    ensures ReadOf(WithRead(before, r1[activeTurns[k].id], queue), start, r1, activeTurns[..k + 1], queue)
  {
    var t, done := activeTurns[k], activeTurns[..k];
    assert start[t.id] == Some(t) && t.queue == queue by { ListedTurn(start, queue, k); }
    assert activeTurns[..k + 1] == done + [t];
    ReadBetween(start, r0, r1, before, t, queue);
    ListsMore(before, r1[t.id], done, t, queue);
    NotReadBefore(start, before, activeTurns, queue, k);
    DistinctAppend(before, if r1[t.id].Some? then [Announcement(queue, r1[t.id].value)] else []);
    EachReadOrGone(r0, r1, before, done, t, queue);
  }

  lemma ListedTurn(start: Table, queue: nat, k: nat)
    requires Indexed(start) && k < |FindActiveByQueue(start, queue)|
    ensures var t := FindActiveByQueue(start, queue)[k]; t.id < |start| && start[t.id] == Some(t) && t.queue == queue
  {
    ActiveListIsExact(start, queue);
    assert FindActiveByQueue(start, queue)[k] in FindActiveByQueue(start, queue);
  }

  lemma ListGrows(start: Table, r0: Table, r1: Table, r2: Table, before: seq<Announcement>, more: seq<Announcement>,
                  activeTurns: seq<Turn>, queues: seq<nat>, q: nat)
    requires q < |queues| && forall i, j :: 0 <= i < j < |queues| ==> queues[i] != queues[j]
    requires Indexed(start) && Indexed(r1) && OthersRan(start, r0, {}) && OthersRan(start, r1, {})
    requires OthersRan(r0, r1, {}) && OthersRan(r1, r2, {}) && activeTurns == FindActiveByQueue(r1, queues[q])
    requires WasListed(before, start, r0, queues[..q]) && ReadOf(more, r1, r2, activeTurns, queues[q])
    ensures WasListed(before + more, start, r2, queues[..q + 1])
  {
    assert queues[..q + 1] == queues[..q] + [queues[q]];
    OthersRanAgain(r0, r1, r2, {}, {});
    forall a | a in before ensures Between(start, r2, a.turn) { BetweenLater(start, r0, r2, a.turn); }
    forall a | a in more ensures Between(start, r2, a.turn) { BetweenEarlier(start, r1, r2, a.turn); }
    forall x, y | x in before && y in more ensures x.turn.id != y.turn.id { DifferentQueues(start, r0, r1, r2, x, y); }
    forall a | a in more ensures NotEndedAt(start, a.turn.id) {
      ListedHadNotEnded(start, r1, activeTurns, queues[q], a);
    }
    DistinctAppend(before, more);
    forall i | 0 <= i < |start| && ActiveIn(start, i, queues[..q + 1]) ensures Names(before + more, i) || Over(r2, i) {
      NamesAppend(before, more, i);
      if start[i].value.queue in queues[..q] {
        if Over(r0, i) { OverStaysOver(r0, r2, {}, i); }
      } else {
        StillListed(start, r1, r2, more, activeTurns, queues[q], i);
      }
    }
  }

  lemma ListedHadNotEnded(start: Table, r1: Table, activeTurns: seq<Turn>, queue: nat, a: Announcement)
    requires Indexed(r1) && OthersRan(start, r1, {}) && activeTurns == FindActiveByQueue(r1, queue)
    requires Lists(activeTurns, a.turn.id)
    ensures NotEndedAt(start, a.turn.id)
  {
    var t :| t in activeTurns && t.id == a.turn.id;
    ActiveListIsExact(r1, queue);
    if t.id < |start| { assert RowMoved(start[t.id], r1[t.id]); }
  }

  /** A turn never changes its queue. */
  lemma DifferentQueues(start: Table, r0: Table, r1: Table, r2: Table, x: Announcement, y: Announcement)
    requires Between(start, r0, x.turn) && OthersRan(r0, r1, {}) && Between(r1, r2, y.turn)
    requires x.turn.queue != y.turn.queue
    ensures x.turn.id != y.turn.id
  {
    assert RowMoved(r0[x.turn.id], r1[x.turn.id]);
  }

  lemma StillListed(start: Table, r1: Table, r2: Table, more: seq<Announcement>, activeTurns: seq<Turn>, queue: nat,
      i: nat)
    requires Indexed(start) && Indexed(r1) && OthersRan(start, r1, {}) && OthersRan(r1, r2, {})
    requires activeTurns == FindActiveByQueue(r1, queue) && ReadOf(more, r1, r2, activeTurns, queue)
    requires i < |start| && start[i].Some? && Active(start[i].value.status) && start[i].value.queue == queue
    ensures Names(more, i) || Over(r2, i)
  {
    assert RowMoved(start[i], r1[i]);
    if Over(r1, i) {
      OverStaysOver(r1, r2, {}, i);
    } else {
      ActiveListIsExact(r1, queue);
      assert r1[i].value in activeTurns;
    }
  }

  // ----- writing ------------------------------------------------------------

  /** The only reasons not to cancel a turn: the row is gone, or it is active
      and has been written three times since it was read. */
  predicate GaveUp(rows: Table, t: Turn) {
    t.id < |rows| &&
    (rows[t.id].None? || (Active(rows[t.id].value.status) && rows[t.id].value.version >= t.version + 3))
  }

  /** The stored row is active exactly if it was when it was read. */
  predicate StoredAsRead(rows: Table, t: Turn) {
    t.id < |rows| && rows[t.id].Some? && (Active(rows[t.id].value.status) <==> Active(t.status))
  }

  /** Rows that the transaction has written wait for it. */
  lemma WrittenStaysAsRead(a: Table, b: Table, writes: map<nat, Turn>, cancelled: seq<Announcement>)
    requires OthersRan(a, b, writes.Keys) && WritesAreOf(writes, cancelled)
    requires forall x :: x in cancelled ==> StoredAsRead(a, x.turn)
    ensures forall x :: x in cancelled ==> StoredAsRead(b, x.turn)
  {
    forall x | x in cancelled ensures StoredAsRead(b, x.turn) {
      var j :| 0 <= j < |cancelled| && cancelled[j] == x;
      assert Names(cancelled, x.turn.id);
      assert x.turn.id in writes.Keys;
    }
  }

  lemma WrittenOrOverStays(a: Table, b: Table, writes: map<nat, Turn>, done: seq<Announcement>)
    requires OthersRan(a, b, writes.Keys)
    requires forall x :: x in done ==> x.turn.id in writes || Over(a, x.turn.id)
    ensures forall x :: x in done ==> x.turn.id in writes || Over(b, x.turn.id)
  {
    forall x | x in done && x.turn.id !in writes ensures Over(b, x.turn.id) {
      OverStaysOver(a, b, writes.Keys, x.turn.id);
    }
  }

  /** Every turn that was active when the suspension began is over now. */
  lemma StartedOverNow(start: Table, r0: Table, others: Table, after: Table, listed: seq<Announcement>,
                       writes: map<nat, Turn>, queues: seq<nat>)
    requires WasListed(listed, start, r0, queues) && OthersRan(r0, others, {})
    requires forall a :: a in listed ==> a.turn.id in writes || Over(others, a.turn.id)
    requires forall id :: id in writes || Over(others, id) ==> Over(after, id)
    ensures forall i :: 0 <= i < |start| && ActiveIn(start, i, queues) ==> Over(after, i)
  {
    forall i | 0 <= i < |start| && ActiveIn(start, i, queues) ensures Over(after, i) {
      if Names(listed, i) {
        var j :| 0 <= j < |listed| && listed[j].turn.id == i;
        assert listed[j] in listed;
      } else {
        OverStaysOver(r0, others, {}, i);
      }
    }
  }

  /** The turn had ended when the suspension began, or is of another queue. */
  predicate LeftAlone(start: Table, i: nat, queues: seq<nat>)
    requires i < |start|
  {
    start[i].None? || Terminal(start[i].value.status) || start[i].value.queue !in queues
  }

  lemma OthersLeftAlone(start: Table, r0: Table, others: Table, after: Table, listed: seq<Announcement>,
                        announced: seq<Announcement>, queues: seq<nat>, now: int)
    requires WasListed(listed, start, r0, queues) && OthersRan(start, others, {})
    requires Committed(others, after, announced, now) && forall a :: a in announced ==> a in listed
    ensures forall i :: 0 <= i < |start| && LeftAlone(start, i, queues) ==> i < |after| && after[i] == others[i]
  {
    forall i | 0 <= i < |start| && Names(announced, i) ensures !LeftAlone(start, i, queues) {
      var j :| 0 <= j < |announced| && announced[j].turn.id == i;
      assert announced[j] in listed;
      assert Between(start, r0, announced[j].turn) && NotEndedAt(start, i);
    }
  }

  lemma AnnouncedAreLegalIffActive(others: Table, after: Table, announced: seq<Announcement>, now: int)
    requires Committed(others, after, announced, now)
    requires forall a :: a in announced ==> StoredAsRead(others, a.turn)
    ensures forall a :: a in announced ==>
      && a.turn.id < |after| && others[a.turn.id].Some? && after[a.turn.id].Some?
      && (LegalEdge(others[a.turn.id].value, after[a.turn.id].value) <==> Active(a.turn.status))
  {
    forall a | a in announced
      ensures a.turn.id < |after| && others[a.turn.id].Some? && after[a.turn.id].Some?
      ensures LegalEdge(others[a.turn.id].value, after[a.turn.id].value) <==> Active(a.turn.status)
    {
      var j :| 0 <= j < |announced| && announced[j] == a;
      assert Names(announced, a.turn.id);
      CancelIsLegalIffActive(others[a.turn.id].value, now);
    }
  }

  // ----- logging the staff out ----------------------------------------------

  predicate IsActiveStaff(owner: nat, employees: seq<Employee>, user: nat) {
    user == owner || exists e :: e in employees && e.active && e.user == user
  }

  /** The owner and every active employee: each session of theirs that was live
      is revoked now; every other session is as it was. */
  ghost predicate LoggedOut(
    before: map<nat, Session>, after: map<nat, Session>, owner: nat, employees: seq<Employee>, now: int)
  {
    && after.Keys == before.Keys
    && forall id :: id in before ==>
         after[id] == if IsActiveStaff(owner, employees, before[id].user) && before[id].revokedAt.None?
                      then Session(before[id].user, Some(now)) else before[id]
  }

  function ActiveUserIds(employees: seq<Employee>): seq<nat> {
    if employees == [] then []
    else (if employees[0].active then [employees[0].user] else []) + ActiveUserIds(employees[1..])
  }

  lemma {:induction false} ActiveUserIdsMembers(employees: seq<Employee>, user: nat)
    ensures user in ActiveUserIds(employees) <==> exists e :: e in employees && e.active && e.user == user
  {
    if employees != [] {
      ActiveUserIdsMembers(employees[1..], user);
      assert employees == [employees[0]] + employees[1..];
    }
  }

  lemma StaffAreListed(owner: nat, employees: seq<Employee>)
    ensures forall user :: user in [owner] + ActiveUserIds(employees) <==> IsActiveStaff(owner, employees, user)
  {
    forall user: nat
      ensures user in ActiveUserIds(employees) <==> exists e :: e in employees && e.active && e.user == user
    {
      ActiveUserIdsMembers(employees, user);
    }
  }

  function RevokeAllByUserId(sessions: map<nat, Session>, user: nat, now: int): map<nat, Session> {
    map id | id in sessions ::
      if sessions[id].user == user && sessions[id].revokedAt.None? then sessions[id].(revokedAt := Some(now))
      else sessions[id]
  }

  method RevokeEach(sessions: map<nat, Session>, users: seq<nat>, now: int) returns (after: map<nat, Session>)
    ensures after.Keys == sessions.Keys
    ensures forall id :: id in sessions ==>
      after[id] == if sessions[id].user in users && sessions[id].revokedAt.None?
                   then Session(sessions[id].user, Some(now)) else sessions[id]
  {
    after := sessions;
    for k := 0 to |users|
      invariant after.Keys == sessions.Keys
      invariant forall id :: id in sessions ==>
        after[id] == if sessions[id].user in users[..k] && sessions[id].revokedAt.None?
                     then Session(sessions[id].user, Some(now)) else sessions[id]
    {
      after := RevokeAllByUserId(after, users[k], now);
      assert users[..k + 1] == users[..k] + [users[k]];
    }
    assert users[..|users|] == users;
  }

  class Platform {
    var rows: Table
    var status: BusinessStatus
    var sessions: map<nat, Session>

    /** Other requests run for a while. */
    method Interfere(locked: set<nat>)
      requires Indexed(rows)
      modifies this`rows
      ensures OthersRan(old(rows), rows, locked) && Indexed(rows)
    {
      assert OthersRan(rows, rows, locked);
      var later: Table :| OthersRan(rows, later, locked);
      OthersKeepIndexed(rows, later, locked);
      rows := later;
    }

    /** Lists each queue, then reads each listed turn on its own; others run
        before every read. */
    method ReadActiveTurns(queues: seq<nat>) returns (turnsToCancel: seq<Announcement>)
      requires Indexed(rows)
      requires forall i, j :: 0 <= i < j < |queues| ==> queues[i] != queues[j]
      modifies this`rows
      ensures Indexed(rows) && OthersRan(old(rows), rows, {})
      ensures WasListed(turnsToCancel, old(rows), rows, queues)
    {
      turnsToCancel := [];
      OthersRanNot(rows);
      for q := 0 to |queues|
        invariant Indexed(rows) && OthersRan(old(rows), rows, {})
        invariant WasListed(turnsToCancel, old(rows), rows, queues[..q])
      {
        ghost var r0, before := rows, turnsToCancel;
        Interfere({});
        ghost var r1 := rows;
        OthersRanAgain(old(rows), r0, r1, {}, {});
        var activeTurns := FindActiveByQueue(rows, queues[q]);
        var more := ReadEach(activeTurns, queues[q]);
        turnsToCancel := turnsToCancel + more;
        ListGrows(old(rows), r0, r1, rows, before, more, activeTurns, queues, q);
        OthersRanAgain(old(rows), r1, rows, {}, {});
      }
      assert queues[..|queues|] == queues;
    }

    /** Reads the listed turns one by one; a turn that is gone is left out. */
    method ReadEach(activeTurns: seq<Turn>, queue: nat) returns (more: seq<Announcement>)
      requires Indexed(rows) && activeTurns == FindActiveByQueue(rows, queue)
      modifies this`rows
      ensures Indexed(rows) && OthersRan(old(rows), rows, {})
      ensures ReadOf(more, old(rows), rows, activeTurns, queue)
    {
      more := [];
      ActiveListIsExact(rows, queue);
      OthersRanNot(rows);
      for k := 0 to |activeTurns|
        invariant Indexed(rows) && OthersRan(old(rows), rows, {})
        invariant ReadOf(more, old(rows), rows, activeTurns[..k], queue)
      {
        ghost var r0, before := rows, more;
        var summary := activeTurns[k];
        assert summary in activeTurns;
        Interfere({});
        OthersRanAgain(old(rows), r0, rows, {}, {});
        var turn := rows[summary.id];
        if turn.Some? { more := more + [Announcement(queue, turn.value)]; }
        OneMoreRead(old(rows), r0, rows, before, activeTurns, queue, k);
        assert more == WithRead(before, turn, queue);
      }
      assert activeTurns[..|activeTurns|] == activeTurns;
    }

    /** One turn: try to cancel it, and on a conflict look again and retry
        while it is active. `writes` are the transaction's own rows. A turn
        that was over when it was read is cancelled all the same. */
    method CancelTurn(turn: Turn, now: int, writes: map<nat, Turn>)
      returns (result: CancelResult, writes': map<nat, Turn>, attempts: nat)
      requires Indexed(rows) && WritesOk(rows, writes, now)
      requires WasRead(rows, turn) && turn.id !in writes
      modifies this`rows
      ensures Indexed(rows) && OthersRan(old(rows), rows, writes.Keys)
      ensures attempts <= MAX_CANCEL_ATTEMPTS
      ensures WritesOk(rows, writes', now)
      ensures result.DidCancel? ==>
        && writes'.Keys == writes.Keys + {turn.id} && (forall id :: id in writes ==> writes'[id] == writes[id])
        && (Active(rows[turn.id].value.status) <==> Active(turn.status))
      ensures result.NothingLeft? ==> writes' == writes && Over(rows, turn.id)
      ensures result.CancelThrew? ==> writes' == writes && GaveUp(rows, turn)
    {
      writes' := writes;
      var current: Option<Turn> := Some(turn);
      attempts := 0;
      while attempts < MAX_CANCEL_ATTEMPTS && current.Some?
        invariant attempts <= MAX_CANCEL_ATTEMPTS && writes' == writes
        invariant Indexed(rows) && OthersRan(old(rows), rows, writes.Keys) && WritesOk(rows, writes, now)
        invariant current.Some? ==> current.value.id == turn.id && WasRead(rows, current.value)
        invariant current.Some? ==> (Active(current.value.status) <==> Active(turn.status))
        invariant current.Some? ==> current.value.version >= turn.version + attempts
        invariant attempts > 0 && current.Some? ==> rows[turn.id] == current && Active(current.value.status)
        invariant current.None? ==> Over(rows, turn.id)
      {
        attempts := attempts + 1;
        ghost var r0 := rows;
        Interfere(writes.Keys);
        WasReadStays(r0, rows, writes.Keys, current.value);
        WritesStayOk(r0, rows, writes, now);
        OthersRanAgain(old(rows), r0, rows, writes.Keys, writes.Keys);
        var stored := rows[turn.id];
        if stored.None? {
          return CancelThrew, writes, attempts;
        }
        if stored.value.version == current.value.version {
          writes' := writes[turn.id := CancelledRow(stored.value, now)];
          return DidCancel, writes', attempts;
        }
        ghost var r1 := rows;
        Interfere(writes.Keys);
        WritesStayOk(r1, rows, writes, now);
        OthersRanAgain(old(rows), r1, rows, writes.Keys, writes.Keys);
        var reread := rows[turn.id];
        current := if reread.Some? && !Terminal(reread.value.status) then reread else None;
      }
      if current.Some? { return CancelThrew, writes, attempts; }
      return NothingLeft, writes, attempts;
    }

    /** The cancellations of one suspension, inside its transaction. */
    method CancelAll(turnsToCancel: seq<Announcement>, now: int)
      returns (threw: bool, writes: map<nat, Turn>, cancelled: seq<Announcement>, ghost saves: nat)
      requires Indexed(rows) && DistinctTurns(turnsToCancel)
      requires forall a :: a in turnsToCancel ==> WasRead(rows, a.turn)
      modifies this`rows
      ensures Indexed(rows) && OthersRan(old(rows), rows, {}) && saves <= MAX_CANCEL_ATTEMPTS * |turnsToCancel|
      ensures !threw ==>
        && WritesOk(rows, writes, now) && WritesAreOf(writes, cancelled) && DistinctTurns(cancelled)
        && (forall a :: a in cancelled ==> a in turnsToCancel && StoredAsRead(rows, a.turn))
        && (forall a :: a in turnsToCancel ==> a.turn.id in writes || Over(rows, a.turn.id))
      ensures threw ==> exists a :: a in turnsToCancel && GaveUp(rows, a.turn)
    {
      writes, cancelled, saves := map[], [], 0;
      OthersRanNot(rows);
      for k := 0 to |turnsToCancel|
        invariant Indexed(rows) && OthersRan(old(rows), rows, {}) && WritesOk(rows, writes, now)
        invariant saves <= MAX_CANCEL_ATTEMPTS * k
        invariant WritesAreOf(writes, cancelled) && DistinctTurns(cancelled)
        invariant forall a :: a in cancelled ==> a in turnsToCancel[..k] && StoredAsRead(rows, a.turn)
        invariant forall a :: a in turnsToCancel[..k] ==> a.turn.id in writes || Over(rows, a.turn.id)
      {
        var item := turnsToCancel[k];
        ghost var r0, was := rows, writes;
        assert item in turnsToCancel;
        NotYetWritten(turnsToCancel, k, writes, cancelled);
        WasReadStays(old(rows), rows, {}, item.turn);
        var outcome, writes', attempts := CancelTurn(item.turn, now, writes);
        saves := saves + attempts;
        OthersRanAgain(old(rows), r0, rows, {}, was.Keys);
        WrittenStaysAsRead(r0, rows, was, cancelled);
        WrittenOrOverStays(r0, rows, was, turnsToCancel[..k]);
        assert turnsToCancel[..k + 1] == turnsToCancel[..k] + [item];
        if outcome.CancelThrew? { return true, writes, cancelled, saves; }
        if outcome.DidCancel? {
          OneMoreCancelled(was, writes', cancelled, item);
          cancelled := cancelled + [item];
        }
        writes := writes';
      }
      assert turnsToCancel[..|turnsToCancel|] == turnsToCancel;
      threw := false;
    }

    lemma NotYetWritten(turnsToCancel: seq<Announcement>, k: nat, writes: map<nat, Turn>, cancelled: seq<Announcement>)
      requires k < |turnsToCancel| && DistinctTurns(turnsToCancel) && WritesAreOf(writes, cancelled)
      requires forall a :: a in cancelled ==> a in turnsToCancel[..k]
      ensures turnsToCancel[k].turn.id !in writes
    {
      var id := turnsToCancel[k].turn.id;
      forall j | 0 <= j < |cancelled| ensures cancelled[j].turn.id != id {
        assert cancelled[j] in cancelled;
        var m :| 0 <= m < k && turnsToCancel[m] == cancelled[j];
      }
    }

    /** The whole suspension, whatever other requests do meanwhile, also between
        its two reads. `others` is the table as those requests alone have made
        it, `listed` what it read, `saves` counts the attempted turn writes. */
    method Suspend(queues: seq<nat>, owner: nat, employees: seq<Employee>, now: int)
      returns (result: Result, ghost listed: seq<Announcement>, ghost others: Table, ghost saves: nat)
      requires Indexed(rows)
      requires forall i, j :: 0 <= i < j < |queues| ==> queues[i] != queues[j]
      modifies this
      ensures OthersRan(old(rows), others, {}) && saves <= MAX_CANCEL_ATTEMPTS * |listed|
      ensures result.NotApproved? <==> old(status) != Approved
      ensures result.NotApproved? || result.RolledBack? ==>
        rows == others && status == old(status) && sessions == old(sessions)
      ensures result.NotApproved? ==> rows == old(rows)
      ensures result.RolledBack? ==> exists a :: a in listed && GaveUp(others, a.turn)
      ensures result.Done? ==>
        && status == Suspended && LoggedOut(old(sessions), sessions, owner, employees, now)
        && Committed(others, rows, result.announced, now)
        && DistinctTurns(result.announced) && (forall a :: a in result.announced ==> a in listed)
        && (forall a :: a in listed ==> Over(rows, a.turn.id))
        && (forall i :: 0 <= i < |old(rows)| && ActiveIn(old(rows), i, queues) ==> Over(rows, i))
      // Turns that had ended, and turns of other queues, are left to others.
      ensures result.Done? ==> forall i :: 0 <= i < |old(rows)| && LeftAlone(old(rows), i, queues) ==>
        i < |rows| && rows[i] == others[i]
      // The cancellation of an announced turn is a legal step exactly if the
      // turn was active when it was read on its own.
      ensures result.Done? ==> forall a :: a in result.announced ==>
        && a.turn.id < |rows| && others[a.turn.id].Some? && rows[a.turn.id].Some?
        && (LegalEdge(others[a.turn.id].value, rows[a.turn.id].value) <==> Active(a.turn.status))
    {
      listed, others, saves := [], rows, 0;
      OthersRanNot(rows);
      if status != Approved { return NotApproved, listed, others, saves; }
      var turnsToCancel := ReadActiveTurns(queues);
      listed := turnsToCancel;
      ghost var r0 := rows;
      forall a | a in listed ensures WasRead(rows, a.turn) { assert Between(old(rows), rows, a.turn); }
      // The transaction keeps its writes apart until it commits.
      var newStatus, activeUserIds := Suspended, [owner] + ActiveUserIds(employees);
      var newSessions := RevokeEach(sessions, activeUserIds, now);
      StaffAreListed(owner, employees);
      var threw, writes, cancelled;
      threw, writes, cancelled, saves := CancelAll(turnsToCancel, now);
      others := rows;
      OthersRanAgain(old(rows), r0, others, {}, {});
      if threw { return RolledBack, listed, others, saves; }
      OverlayCommits(others, writes, cancelled, now);
      rows, status, sessions := Overlay(rows, writes), newStatus, newSessions;
      StartedOverNow(old(rows), r0, others, rows, listed, writes, queues);
      OthersLeftAlone(old(rows), r0, others, rows, listed, cancelled, queues, now);
      AnnouncedAreLegalIffActive(others, rows, cancelled, now);
      return Done(cancelled), listed, others, saves;
    }
  }
}
