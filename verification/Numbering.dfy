/** Turn numbers and the tickets printed from them. */
module Numbering {
  import opened Options
  import opened Sorting
  import opened Turns
  import opened TurnProtocol
  import opened TurnSafety

  // ----- numbers of a day ---------------------------------------------------

  /** The numbers issued for a queue on a day, in order of issue. */
  function DayNumbers(rows: seq<Turn>, queue: nat, date: int): seq<nat> {
    if rows == [] then []
    else
      var (last, before) := (rows[|rows| - 1], DayNumbers(rows[..|rows| - 1], queue, date));
      if last.queue == queue && last.date == date then before + [last.number] else before
  }

  /** Exactly 1, 2, ..., n: no gap, no repetition. */
  lemma {:induction false} NumbersAreOneToN(rows: seq<Turn>, queue: nat, date: int)
    requires Numbered(rows)
    ensures DayNumbers(rows, queue, date) == seq(CountDay(rows, queue, date), i => i + 1)
  {
    if rows != [] {
      var before := rows[..|rows| - 1];
      forall i | 0 <= i < |before| ensures NumberOk(before, i) {
        assert NumberOk(rows, i) && before[..i] == rows[..i];
      }
      assert NumberOk(rows, |rows| - 1);
      NumbersAreOneToN(before, queue, date);
    }
  }

  lemma {:induction false} CountDayGrows(rows: seq<Turn>, i: nat, queue: nat, date: int)
    requires i <= |rows|
    ensures CountDay(rows[..i], queue, date) <= CountDay(rows, queue, date)
    ensures i < |rows| && rows[i].queue == queue && rows[i].date == date ==>
      CountDay(rows[..i], queue, date) < CountDay(rows, queue, date)
  {
    if i == |rows| {
      assert rows[..i] == rows;
    } else if i < |rows| - 1 {
      CountDayGrows(rows[..|rows| - 1], i, queue, date);
      assert rows[..|rows| - 1][..i] == rows[..i];
    }
  }

  lemma NumbersDiffer(rows: seq<Turn>, i: nat, j: nat)
    requires Numbered(rows) && i < j < |rows|
    requires rows[i].queue == rows[j].queue && rows[i].date == rows[j].date
    ensures rows[i].number < rows[j].number
  {
    assert NumberOk(rows, i) && NumberOk(rows, j);
    CountDayGrows(rows[..j], i, rows[i].queue, rows[i].date);
    assert rows[..j][..i] == rows[..i];
  }

  /** The turns of the queue and day that were issued before turn `i`. */
  function IssuedBefore(rows: seq<Turn>, i: nat): set<nat>
    requires i < |rows|
  {
    set j: nat | j < i && rows[j].queue == rows[i].queue && rows[j].date == rows[i].date
  }

  function IssuedOn(rows: seq<Turn>, queue: nat, date: int): set<nat> {
    set j: nat | j < |rows| && rows[j].queue == queue && rows[j].date == date
  }

  lemma {:induction false} CountDayIsSize(rows: seq<Turn>, queue: nat, date: int)
    ensures CountDay(rows, queue, date) == |IssuedOn(rows, queue, date)|
  {
    if rows != [] {
      var before, last := rows[..|rows| - 1], |rows| - 1;
      CountDayIsSize(before, queue, date);
      assert IssuedOn(rows, queue, date) == IssuedOn(before, queue, date)
        + (if rows[last].queue == queue && rows[last].date == date then {last} else {});
    }
  }

  /** In every reachable state a turn's number is one more than the number of
      turns issued before it for its queue and day. */
  lemma NumberCountsEarlierTurns(s: Sys, i: nat)
    requires SysInv(s) && i < |s.db.rows|
    ensures s.db.rows[i].number == |IssuedBefore(s.db.rows, i)| + 1
  {
    var rows := s.db.rows;
    assert NumberOk(rows, i);
    CountDayIsSize(rows[..i], rows[i].queue, rows[i].date);
    assert IssuedOn(rows[..i], rows[i].queue, rows[i].date) == IssuedBefore(rows, i);
  }

  // ----- the lock -----------------------------------------------------------

  /** One creation transaction: it locks the queue row, counts, inserts. */
  datatype Creation =
    | Wanting(draft: Draft)
    | Locked(draft: Draft)
    | Counted(draft: Draft, count: nat)
    | Finished(outcome: Outcome)

  /** `locks` maps a locked queue row to the transaction holding it. */
  datatype LockSys = LockSys(db: Db, locks: map<nat, nat>, creations: seq<Creation>)

  datatype LockEvent = Ask(draft: Draft) | Proceed(k: nat) | OtherSave(entity: Turn, claims: bool) | Clock(ms: nat)

  /** Insert with the number computed from an earlier count, then commit. */
  function InsertCounted(db: Db, d: Draft, count: nat): (Db, Outcome) {
    var row := Turn(|db.rows|, d.queue, d.business, d.customer, None, count + 1, Display(d.prefix, count + 1),
                    Waiting, d.priority, d.source, d.date, d.joinedAt, None, None, None, None, None, db.nextVersion);
    if db.indexed && Collides(db.rows, row) then (db, Failed(CustomerHasActiveTurn))
    else (db.(rows := db.rows + [row], nextVersion := db.nextVersion + 1), Saved(row))
  }

  function ProceedWith(s: LockSys, k: nat): LockSys
    requires k < |s.creations|
  {
    match s.creations[k]
    case Wanting(d) =>
      // Blocked while another transaction holds the row.
      if d.queue in s.locks then s
      else s.(locks := s.locks[d.queue := k], creations := s.creations[k := Locked(d)])
    case Locked(d) =>
      s.(creations := s.creations[k := Counted(d, CountDay(s.db.rows, d.queue, d.date))])
    case Counted(d, count) =>
      var (db, out) := InsertCounted(s.db, d, count);
      LockSys(db, s.locks - {d.queue}, s.creations[k := Finished(out)])
    case Finished(_) => s
  }

  function LockStep(s: LockSys, e: LockEvent): LockSys {
    match e
    case Ask(draft) => s.(creations := s.creations + [Wanting(draft)])
    case Proceed(k) => if k < |s.creations| then ProceedWith(s, k) else s
    case OtherSave(entity, claims) => s.(db := Save(s.db, entity, claims).0)
    case Clock(ms) => s.(db := s.db.(clock := s.db.clock + ms))
  }

  function LockRun(s: LockSys, events: seq<LockEvent>): LockSys {
    if events == [] then s else LockStep(LockRun(s, events[..|events| - 1]), events[|events| - 1])
  }

  predicate InTransaction(c: Creation) { c.Locked? || c.Counted? }

  ghost predicate LockInv(s: LockSys) {
    && Numbered(s.db.rows) && (forall i :: 0 <= i < |s.db.rows| ==> s.db.rows[i].id == i)
    && (forall k :: 0 <= k < |s.creations| && InTransaction(s.creations[k]) ==>
          s.creations[k].draft.queue in s.locks && s.locks[s.creations[k].draft.queue] == k)
    && (forall k :: 0 <= k < |s.creations| && s.creations[k].Counted? ==>
          s.creations[k].count == CountDay(s.db.rows, s.creations[k].draft.queue, s.creations[k].draft.date))
  }

  lemma OtherSaveIsInvisible(db: Db, entity: Turn, claims: bool, queue: nat, date: int)
    requires forall i :: 0 <= i < |db.rows| ==> db.rows[i].id == i
    ensures CountDay(Save(db, entity, claims).0.rows, queue, date) == CountDay(db.rows, queue, date)
    ensures Numbered(db.rows) ==> Numbered(Save(db, entity, claims).0.rows)
  {
    var (after, out) := Save(db, entity, claims);
    if out.Saved? {
      CountDayIgnoresUpdate(db.rows, entity.id, out.turn, queue, date);
      if Numbered(db.rows) { NumberedAfterUpdate(db.rows, entity.id, out.turn); }
    }
  }

  lemma InsertLeavesOtherQueues(db: Db, d: Draft, count: nat, queue: nat, date: int)
    requires queue != d.queue
    ensures CountDay(InsertCounted(db, d, count).0.rows, queue, date) == CountDay(db.rows, queue, date)
  {
    var (after, out) := InsertCounted(db, d, count);
    if out.Saved? { assert after.rows[..|db.rows|] == db.rows; }
  }

  lemma InsertKeepsInv(s: LockSys, k: nat)
    requires LockInv(s) && k < |s.creations| && s.creations[k].Counted?
    ensures LockInv(ProceedWith(s, k))
  {
    var c, t := s.creations[k], ProceedWith(s, k);
    var (db, out) := InsertCounted(s.db, c.draft, c.count);
    if out.Saved? { NumberedAfterAppend(s.db.rows, out.turn); }
    forall j | 0 <= j < |t.creations| && t.creations[j].Counted?
      ensures t.creations[j].count == CountDay(db.rows, t.creations[j].draft.queue, t.creations[j].draft.date)
    {
      InsertLeavesOtherQueues(s.db, c.draft, c.count, t.creations[j].draft.queue, t.creations[j].draft.date);
    }
  }

  lemma LockStepKeepsInv(s: LockSys, e: LockEvent)
    requires LockInv(s)
    ensures LockInv(LockStep(s, e))
  {
    match e
    case Ask(_) =>
    case Proceed(k) =>
      if k < |s.creations| && s.creations[k].Counted? { InsertKeepsInv(s, k); }
    case OtherSave(entity, claims) =>
      OtherSaveIsInvisible(s.db, entity, claims, 0, 0);
      forall k | 0 <= k < |s.creations| && s.creations[k].Counted?
        ensures s.creations[k].count ==
          CountDay(Save(s.db, entity, claims).0.rows, s.creations[k].draft.queue, s.creations[k].draft.date)
      {
        OtherSaveIsInvisible(s.db, entity, claims, s.creations[k].draft.queue, s.creations[k].draft.date);
      }
    case Clock(_) =>
  }

  /** Under the row lock, however many creations and other writes interleave,
      the numbers of every queue and day are exactly 1..n. */
  lemma {:induction false} LockedNumbersAreOneToN(s: LockSys, events: seq<LockEvent>, queue: nat, date: int)
    requires LockInv(s)
    ensures LockInv(LockRun(s, events))
    ensures var rows := LockRun(s, events).db.rows;
      DayNumbers(rows, queue, date) == seq(CountDay(rows, queue, date), i => i + 1)
  {
    if events != [] {
      LockedNumbersAreOneToN(s, events[..|events| - 1], queue, date);
      LockStepKeepsInv(LockRun(s, events[..|events| - 1]), events[|events| - 1]);
    }
    NumbersAreOneToN(LockRun(s, events).db.rows, queue, date);
  }

  /** The three-phase transaction does what the one-step creation of the turn
      protocol does: the count is still right when the row is inserted. */
  lemma LockMakesCreationAtomic(s: LockSys, k: nat)
    requires LockInv(s) && k < |s.creations| && s.creations[k].Counted?
    ensures ProceedWith(s, k).db == CreateWithNextNumber(s.db, s.creations[k].draft).0
    ensures ProceedWith(s, k).creations[k] == Finished(CreateWithNextNumber(s.db, s.creations[k].draft).1)
  {
  }

  // ----- tickets ------------------------------------------------------------

  function DigitValue(c: char): nat { if '0' <= c <= '9' then c as int - '0' as int else 0 }

  function ParseDecimal(s: string): nat {
    if s == [] then 0 else ParseDecimal(s[..|s| - 1]) * 10 + DigitValue(s[|s| - 1])
  }

  function UpToDash(s: string): string {
    if s == [] || s[0] == '-' then [] else [s[0]] + UpToDash(s[1..])
  }

  function TicketPrefix(ticket: string): string { UpToDash(ticket) }

  function TicketNumber(ticket: string): nat {
    var prefix := UpToDash(ticket);
    if |prefix| + 1 <= |ticket| then ParseDecimal(ticket[|prefix| + 1..]) else 0
  }

  lemma {:induction false} DecimalReadsBack(n: nat)
    ensures ParseDecimal(Decimal(n)) == n
  {
    if n < 10 {
      assert Decimal(n)[..0] == [];
      assert ParseDecimal([]) == 0;
    } else {
      DecimalReadsBack(n / 10);
      assert Decimal(n)[..|Decimal(n)| - 1] == Decimal(n / 10);
    }
  }

  lemma {:induction false} LeadingZeros(k: nat, s: string)
    ensures ParseDecimal(Zeros(k) + s) == ParseDecimal(s)
  {
    if s == [] {
      if k > 0 {
        assert (Zeros(k) + s)[..k - 1] == Zeros(k - 1) + [];
        LeadingZeros(k - 1, []);
      } else {
        assert Zeros(k) + s == [];
      }
    } else {
      assert (Zeros(k) + s)[..k + |s| - 1] == Zeros(k) + s[..|s| - 1];
      LeadingZeros(k, s[..|s| - 1]);
    }
  }

  lemma {:induction false} UpToDashOf(prefix: string, rest: string)
    requires '-' !in prefix
    ensures UpToDash(prefix + "-" + rest) == prefix
  {
    if prefix == [] {
      assert prefix + "-" + rest == "-" + rest;
    } else {
      var whole := prefix + "-" + rest;
      assert whole[0] == prefix[0];
      assert whole[1..] == prefix[1..] + "-" + rest;
      UpToDashOf(prefix[1..], rest);
    }
  }

  /** The printed ticket can be read back, padded or not. */
  lemma TicketReadsBack(prefix: string, number: nat)
    requires '-' !in prefix
    ensures TicketPrefix(Display(prefix, number)) == prefix && TicketNumber(Display(prefix, number)) == number
  {
    var digits := PadStart3(Decimal(number));
    UpToDashOf(prefix, digits);
    DecimalReadsBack(number);
    if |Decimal(number)| < 3 { LeadingZeros(3 - |Decimal(number)|, Decimal(number)); }
    assert Display(prefix, number)[|prefix| + 1..] == digits;
  }

  lemma DecimalDigits(n: nat)
    requires n < 10_000
    ensures n < 10 ==> Decimal(n) == [Digit(n)]
    ensures 10 <= n < 100 ==> Decimal(n) == [Digit(n / 10), Digit(n % 10)]
    ensures 100 <= n < 1000 ==> Decimal(n) == [Digit(n / 100), Digit(n / 10 % 10), Digit(n % 10)]
  {
  }

  /** What is printed: the prefix, a dash, and three digits or as many as it
      takes. */
  lemma TicketsLook(prefix: string)
    ensures Display(prefix, 7) == prefix + "-007" && Display(prefix, 42) == prefix + "-042"
    ensures Display(prefix, 305) == prefix + "-305" && Display(prefix, 1234) == prefix + "-1234"
  {
    DecimalDigits(7);
    DecimalDigits(42);
    DecimalDigits(305);
    assert Zeros(2) == "00" && Zeros(1) == "0";
    DecimalDigits(123);
    assert Decimal(1234) == Decimal(123) + [Digit(4)];
  }

  /** What queue creation maintains: letters-only prefixes, different within
      one business. */
  ghost predicate PrefixesDiffer(cfg: Config) {
    && (forall q :: q in cfg.queues ==> '-' !in cfg.queues[q].prefix)
    && (forall p, q ::
          p in cfg.queues && q in cfg.queues && p != q && cfg.queues[p].business == cfg.queues[q].business ==>
          cfg.queues[p].prefix != cfg.queues[q].prefix)
  }

  /** No two turns of one business on one day share a ticket. */
  lemma TicketsDiffer(s: Sys, i: nat, j: nat)
    requires SysInv(s) && PrefixesDiffer(s.db.cfg) && i < j < |s.db.rows|
    requires s.db.rows[i].business == s.db.rows[j].business && s.db.rows[i].date == s.db.rows[j].date
    ensures s.db.rows[i].display != s.db.rows[j].display
  {
    var a, b := s.db.rows[i], s.db.rows[j];
    assert TicketOk(s.db.cfg, a) && TicketOk(s.db.cfg, b);
    TicketReadsBack(s.db.cfg.queues[a.queue].prefix, a.number);
    TicketReadsBack(s.db.cfg.queues[b.queue].prefix, b.number);
    if a.queue == b.queue { NumbersDiffer(s.db.rows, i, j); }
  }
}
