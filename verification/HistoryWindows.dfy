/** The windowed history import and its checkpoint (windows_agent/worker/history_sync.py). */
module HistoryWindows {
  import opened Prelude

  const DAY := 86_400_000_000
  const EPOCH := 0

  datatype Kind = Orders | Deals

  /** A record of the terminal's history, at its time in microseconds. */
  datatype Entry = Entry(time: int, body: string)

  datatype Sunk = Sunk(kind: Kind, entry: Entry)

  datatype Mode = NewOnly | FromDate(from: Option<int>) | AllAvailable

  datatype Counts = Counts(orders: nat, deals: nat, accounting: nat)

  datatype Checkpoint = Checkpoint(through: int, counts: Counts)

  datatype Failure = TimezoneUnavailable | InvalidMode

  /** What the adapter returns for a window: exactly the records with start <= time < end. */
  function Within(entries: seq<Entry>, start: int, end: int): seq<Entry> {
    if entries == [] then []
    else
      Within(entries[..|entries| - 1], start, end)
      + if start <= entries[|entries| - 1].time < end then [entries[|entries| - 1]] else []
  }

  /** Each record counts in a window as often as the terminal has it if it is not before the start and before the
      end, and not at all otherwise. */
  lemma {:induction false} WithinCounts(entries: seq<Entry>, start: int, end: int, e: Entry)
    ensures multiset(Within(entries, start, end))[e] == if start <= e.time < end then multiset(entries)[e] else 0
  {
    if entries != [] {
      var earlier := entries[..|entries| - 1];
      WithinCounts(earlier, start, end, e);
      assert entries == earlier + [entries[|entries| - 1]];
    }
  }

  /** Two windows that meet hold together what the whole window holds, each record once. */
  lemma {:induction false} WindowsMeet(entries: seq<Entry>, a: int, b: int, c: int)
    requires a <= b <= c
    ensures multiset(Within(entries, a, b)) + multiset(Within(entries, b, c)) == multiset(Within(entries, a, c))
  {
    if entries != [] { WindowsMeet(entries[..|entries| - 1], a, b, c); }
  }

  lemma {:induction false} WithinNothing(start: int, end: int)
    ensures Within([], start, end) == []
  {
  }

  lemma {:induction false} EmptyWindow(entries: seq<Entry>, a: int, b: int)
    requires b <= a
    ensures Within(entries, a, b) == []
  {
    if entries != [] { EmptyWindow(entries[..|entries| - 1], a, b); }
  }

  function OfKind(sunk: seq<Sunk>, kind: Kind): seq<Entry> {
    if sunk == [] then []
    else OfKind(sunk[..|sunk| - 1], kind) + if sunk[|sunk| - 1].kind == kind then [sunk[|sunk| - 1].entry] else []
  }

  function Tagged(kind: Kind, entries: seq<Entry>): (sunk: seq<Sunk>)
    ensures |sunk| == |entries|
  {
    seq(|entries|, i requires 0 <= i < |entries| => Sunk(kind, entries[i]))
  }

  lemma {:induction false} OfKindConcat(a: seq<Sunk>, b: seq<Sunk>, kind: Kind)
    ensures OfKind(a + b, kind) == OfKind(a, kind) + OfKind(b, kind)
  {
    if b == [] {
      assert a + b == a;
    } else {
      assert (a + b)[..|a + b| - 1] == a + b[..|b| - 1];
      OfKindConcat(a, b[..|b| - 1], kind);
    }
  }

  lemma {:induction false} OfKindTagged(kind: Kind, other: Kind, entries: seq<Entry>)
    ensures OfKind(Tagged(kind, entries), other) == if kind == other then entries else []
  {
    if entries != [] {
      assert Tagged(kind, entries)[..|entries| - 1] == Tagged(kind, entries[..|entries| - 1]);
      OfKindTagged(kind, other, entries[..|entries| - 1]);
      assert entries == entries[..|entries| - 1] + [entries[|entries| - 1]];
    }
  }

  /** Where a run starts, if its mode is admissible. */
  function StartOf(through: Option<int>, mode: Mode, unresolvedTime: bool, now: int): Result<int, Failure> {
    match mode
    case NewOnly => Success(if through.Some? then through.value else now)
    case FromDate(from) =>
      if unresolvedTime then Failure(TimezoneUnavailable)
      else if from.None? then Failure(InvalidMode) else Success(from.value)
    case AllAvailable => Success(EPOCH)
  }

  function ThroughOf(checkpoint: Option<Checkpoint>): Option<int> {
    if checkpoint.Some? then Some(checkpoint.value.through) else None
  }

  function WindowEnd(cursor: int, now: int, atomic: bool, chunkDays: int): int {
    var days := if chunkDays < 1 then 1 else if chunkDays > 31 then 31 else chunkDays;
    if atomic || cursor + days * DAY > now then now else cursor + days * DAY
  }

  /** A window goes forward and not past the present; it covers 1 to 31 days as asked, a day having 86400 seconds,
      unless the present comes first or the adapter serves one immutable history, which is read in one window. */
  lemma {:induction false} WindowLength(cursor: int, now: int, atomic: bool, chunkDays: int)
    requires cursor < now
    ensures cursor < WindowEnd(cursor, now, atomic, chunkDays) <= now
    ensures atomic ==> WindowEnd(cursor, now, atomic, chunkDays) == now
    ensures !atomic && 1 <= chunkDays <= 31 && cursor + chunkDays * 86_400_000_000 <= now ==>
              WindowEnd(cursor, now, atomic, chunkDays) - cursor == chunkDays * 86_400_000_000
    ensures !atomic ==>
              (WindowEnd(cursor, now, atomic, chunkDays) == now
               || 86_400_000_000 <= WindowEnd(cursor, now, atomic, chunkDays) - cursor)
              && WindowEnd(cursor, now, atomic, chunkDays) - cursor <= 31 * 86_400_000_000
  {
  }

  /** The history the terminal can show, and how the adapter serves it. `accounting` is absent when the
      adapter or the importer has no ledger stream. */
  datatype Source = Source(
    orders: seq<Entry>, deals: seq<Entry>, accounting: Option<seq<Entry>>, atomic: bool, unresolvedTime: bool)

  lemma {:induction false} WindowSent(orders: seq<Entry>, deals: seq<Entry>)
    ensures OfKind(Tagged(Orders, orders) + Tagged(Deals, deals), Orders) == orders
    ensures OfKind(Tagged(Orders, orders) + Tagged(Deals, deals), Deals) == deals
  {
    OfKindConcat(Tagged(Orders, orders), Tagged(Deals, deals), Orders);
    OfKindConcat(Tagged(Orders, orders), Tagged(Deals, deals), Deals);
    OfKindTagged(Orders, Orders, orders);
    OfKindTagged(Orders, Deals, orders);
    OfKindTagged(Deals, Orders, deals);
    OfKindTagged(Deals, Deals, deals);
  }

  function LedgerOf(source: Source): seq<Entry> { if source.accounting.Some? then source.accounting.value else [] }

  /** What is handed to the two sinks, in order. */
  datatype Batch = Batch(sunk: seq<Sunk>, ledger: seq<Entry>)

  const NOTHING := Batch([], [])

  function Joined(a: Batch, b: Batch): Batch { Batch(a.sunk + b.sunk, a.ledger + b.ledger) }

  function CountsOf(batch: Batch): Counts {
    Counts(|OfKind(batch.sunk, Orders)|, |OfKind(batch.sunk, Deals)|, |batch.ledger|)
  }

  function Plus(a: Counts, b: Counts): Counts {
    Counts(a.orders + b.orders, a.deals + b.deals, a.accounting + b.accounting)
  }

  lemma {:induction false} JoinedThree(a: Batch, b: Batch, c: Batch)
    ensures Joined(Joined(a, b), c) == Joined(a, Joined(b, c))
  {
    assert (a.sunk + b.sunk) + c.sunk == a.sunk + (b.sunk + c.sunk);
    assert (a.ledger + b.ledger) + c.ledger == a.ledger + (b.ledger + c.ledger);
  }

  /** The batch holds exactly the records of the window, each as often as the terminal has it. */
  ghost predicate Covered(source: Source, start: int, end: int, batch: Batch) {
    && multiset(OfKind(batch.sunk, Orders)) == multiset(Within(source.orders, start, end))
    && multiset(OfKind(batch.sunk, Deals)) == multiset(Within(source.deals, start, end))
    && multiset(batch.ledger) == multiset(Within(LedgerOf(source), start, end))
  }

  lemma {:induction false} NothingCovered(source: Source, start: int, end: int)
    requires end <= start
    ensures Covered(source, start, end, NOTHING)
  {
    EmptyWindow(source.orders, start, end);
    EmptyWindow(source.deals, start, end);
    EmptyWindow(LedgerOf(source), start, end);
  }

  lemma {:induction false} Halves<T>(a: seq<T>, b: seq<T>, first: seq<T>, second: seq<T>, whole: seq<T>)
    requires multiset(a) == multiset(first) && multiset(b) == multiset(second)
    requires multiset(first) + multiset(second) == multiset(whole)
    ensures multiset(a + b) == multiset(whole)
  {
  }

  /** Two windows that meet, one after the other. */
  lemma {:induction false} CoverJoin(source: Source, a: int, b: int, c: int, sent: Batch, window: Batch)
    requires a <= b <= c && Covered(source, a, b, sent) && Covered(source, b, c, window)
    ensures Covered(source, a, c, Joined(sent, window))
  {
    var all := Joined(sent, window);
    assert multiset(OfKind(all.sunk, Orders)) == multiset(Within(source.orders, a, c)) by {
      OfKindConcat(sent.sunk, window.sunk, Orders);
      KindJoin(source.orders, a, b, c, OfKind(sent.sunk, Orders), OfKind(window.sunk, Orders));
    }
    assert multiset(OfKind(all.sunk, Deals)) == multiset(Within(source.deals, a, c)) by {
      OfKindConcat(sent.sunk, window.sunk, Deals);
      KindJoin(source.deals, a, b, c, OfKind(sent.sunk, Deals), OfKind(window.sunk, Deals));
    }
    KindJoin(LedgerOf(source), a, b, c, sent.ledger, window.ledger);
  }

  lemma {:induction false} KindJoin(entries: seq<Entry>, a: int, b: int, c: int, x: seq<Entry>, y: seq<Entry>)
    requires a <= b <= c && multiset(x) == multiset(Within(entries, a, b))
    requires multiset(y) == multiset(Within(entries, b, c))
    ensures multiset(x + y) == multiset(Within(entries, a, c))
  {
    WindowsMeet(entries, a, b, c);
    Halves(x, y, Within(entries, a, b), Within(entries, b, c), Within(entries, a, c));
  }

  lemma {:induction false} CountsJoin(sent: Batch, window: Batch)
    ensures CountsOf(Joined(sent, window)) == Plus(CountsOf(sent), CountsOf(window))
  {
    OfKindConcat(sent.sunk, window.sunk, Orders);
    OfKindConcat(sent.sunk, window.sunk, Deals);
  }

  lemma {:induction false} JoinedNothing(a: Batch)
    ensures Joined(a, NOTHING) == a && CountsOf(NOTHING) == Counts(0, 0, 0)
  {
  }

  /** One window: orders first, then deals, then the ledger. */
  function WindowBatch(source: Source, start: int, end: int): Batch {
    Batch(Tagged(Orders, Within(source.orders, start, end)) + Tagged(Deals, Within(source.deals, start, end)),
          Within(LedgerOf(source), start, end))
  }

  /** Everything a run from `cursor` hands over, in order: window after window until `now`. */
  function Swept(source: Source, cursor: int, now: int, chunkDays: int): Batch
    decreases if cursor < now then now - cursor else 0
  {
    if cursor >= now then NOTHING
    else
      var end := WindowEnd(cursor, now, source.atomic, chunkDays);
      Joined(WindowBatch(source, cursor, end), Swept(source, end, now, chunkDays))
  }

  lemma {:induction false} WindowCovers(source: Source, start: int, end: int)
    ensures Covered(source, start, end, WindowBatch(source, start, end))
  {
    WindowSent(Within(source.orders, start, end), Within(source.deals, start, end));
  }

  lemma {:induction false} WindowCounts(source: Source, start: int, end: int)
    ensures CountsOf(WindowBatch(source, start, end))
         == Counts(|Within(source.orders, start, end)|, |Within(source.deals, start, end)|,
                   |Within(LedgerOf(source), start, end)|)
  {
    WindowSent(Within(source.orders, start, end), Within(source.deals, start, end));
  }

  /** The windows tile the span: whatever the chunk size, every record of [start, now) is handed over
      exactly once, and nothing else. */
  lemma {:induction false} SweptCovers(source: Source, start: int, now: int, chunkDays: int)
    ensures Covered(source, start, now, Swept(source, start, now, chunkDays))
    decreases if start < now then now - start else 0
  {
    if start >= now {
      NothingCovered(source, start, now);
    } else {
      var end := WindowEnd(start, now, source.atomic, chunkDays);
      SweptCovers(source, end, now, chunkDays);
      WindowCovers(source, start, end);
      CoverJoin(source, start, end, now, WindowBatch(source, start, end), Swept(source, end, now, chunkDays));
    }
  }

  class HistorySync {
    var checkpoint: Option<Checkpoint>
    var handed: Batch

    constructor (checkpoint: Option<Checkpoint>)
      ensures this.checkpoint == checkpoint && handed == NOTHING
    {
      this.checkpoint, handed := checkpoint, NOTHING;
    }

    /** Reads one window, each record to its sink, and counts it. */
    method ReadWindow(source: Source, cursor: int, end: int) returns (found: Counts)
      modifies this`handed
      ensures handed == Joined(old(handed), WindowBatch(source, cursor, end))
      ensures found == CountsOf(WindowBatch(source, cursor, end))
    {
      var orders, deals := Within(source.orders, cursor, end), Within(source.deals, cursor, end);
      handed := handed.(sunk := handed.sunk + Tagged(Orders, orders));
      handed := handed.(sunk := handed.sunk + Tagged(Deals, deals));
      var ledger := if source.accounting.Some? then Within(source.accounting.value, cursor, end) else [];
      if source.accounting.None? { WithinNothing(cursor, end); }
      handed := handed.(ledger := handed.ledger + ledger);
      found := Counts(|orders|, |deals|, |ledger|);
      WindowCounts(source, cursor, end);
      JoinedThree(old(handed), Batch(Tagged(Orders, orders), []), Batch(Tagged(Deals, deals), ledger));
    }

    /** One turn of the loop: a window, then the checkpoint at its end. What is handed over and what is
        still to come stay the same together. */
    method Turn(source: Source, cursor: int, now: int, chunkDays: int, counts: Counts) returns (end: int, total: Counts)
      requires cursor < now
      modifies this
      ensures end == WindowEnd(cursor, now, source.atomic, chunkDays)
      ensures Joined(handed, Swept(source, end, now, chunkDays))
           == Joined(old(handed), Swept(source, cursor, now, chunkDays))
      ensures Plus(total, CountsOf(Swept(source, end, now, chunkDays)))
           == Plus(counts, CountsOf(Swept(source, cursor, now, chunkDays)))
      ensures checkpoint == Some(Checkpoint(end, total))
    {
      end := WindowEnd(cursor, now, source.atomic, chunkDays);
      JoinedThree(handed, WindowBatch(source, cursor, end), Swept(source, end, now, chunkDays));
      CountsJoin(WindowBatch(source, cursor, end), Swept(source, end, now, chunkDays));
      var found := ReadWindow(source, cursor, end);
      total := Plus(counts, found);
      checkpoint := Some(Checkpoint(end, total));
    }

    /** The loop: window after window until `now`, a checkpoint after each. */
    method Sweep(source: Source, start: int, now: int, chunkDays: int) returns (counts: Counts)
      requires start < now
      modifies this
      ensures handed == Joined(old(handed), Swept(source, start, now, chunkDays))
      ensures counts == CountsOf(Swept(source, start, now, chunkDays))
      ensures checkpoint == Some(Checkpoint(now, counts))
    {
      var cursor := start;
      counts := Counts(0, 0, 0);
      while cursor < now
        invariant start <= cursor <= now
        invariant Joined(handed, Swept(source, cursor, now, chunkDays))
               == Joined(old(handed), Swept(source, start, now, chunkDays))
        invariant Plus(counts, CountsOf(Swept(source, cursor, now, chunkDays)))
               == CountsOf(Swept(source, start, now, chunkDays))
        invariant start < cursor ==> checkpoint == Some(Checkpoint(cursor, counts))
        decreases now - cursor
      {
        cursor, counts := Turn(source, cursor, now, chunkDays, counts);
      }
      JoinedNothing(handed);
    }

    /** Hands over window after window from the start that the mode gives (the checkpoint or else the present, the
        given date, 1970), each record of the span once, counts what it handed over and
        leaves the checkpoint at `now`; with an inadmissible mode, or nothing to cover, it changes
        nothing. */
    method Run(source: Source, mode: Mode, now: int, chunkDays: int) returns (result: Result<Counts, Failure>)
      modifies this
      ensures match StartOf(ThroughOf(old(checkpoint)), mode, source.unresolvedTime, now)
              case Failure(error) =>
                result == Failure(error) && handed == old(handed) && checkpoint == old(checkpoint)
              case Success(start) =>
                var sent := Swept(source, start, now, chunkDays);
                && handed == Joined(old(handed), sent) && result == Success(CountsOf(sent))
                && checkpoint == (if start < now then Some(Checkpoint(now, CountsOf(sent))) else old(checkpoint))
                && ThroughOf(checkpoint) == ThroughAfterRun(ThroughOf(old(checkpoint)), start, now)
      ensures result.Success? <==> !(mode.FromDate? && (source.unresolvedTime || mode.from.None?))
      ensures result.Failure? ==>
                handed == old(handed) && checkpoint == old(checkpoint)
                && result.error == if source.unresolvedTime then TimezoneUnavailable else InvalidMode
      ensures result.Success? ==>
                var start := match mode
                             case NewOnly => if old(checkpoint).Some? then old(checkpoint).value.through else now
                             case FromDate(from) => from.value
                             case AllAvailable => 0;
                exists sent: Batch :: Covered(source, start, now, sent) && handed == Joined(old(handed), sent)
    {
      var startOrFailure := StartOf(ThroughOf(checkpoint), mode, source.unresolvedTime, now);
      if startOrFailure.Failure? { return Failure(startOrFailure.error); }
      var start, counts := startOrFailure.value, Counts(0, 0, 0);
      SweptCovers(source, start, now, chunkDays);
      if start < now { counts := Sweep(source, start, now, chunkDays); } else { JoinedNothing(handed); }
      result := Success(counts);
    }
  }

  // ---------------------------------------------------------------- consecutive runs

  /** Where the checkpoint stands after a run: at its present, unless there was nothing to cover. */
  function ThroughAfterRun(through: Option<int>, start: int, now: int): Option<int> {
    if start < now then Some(now) else through
  }

  /** Where the checkpoint stands after new-only runs at the given times. */
  function ThroughAfter(through: Option<int>, times: seq<int>): Option<int> {
    if times == [] then through
    else
      var earlier, now := ThroughAfter(through, times[..|times| - 1]), times[|times| - 1];
      ThroughAfterRun(earlier, StartOf(earlier, NewOnly, false, now).value, now)
  }

  /** Everything those runs hand over. */
  function HandedOver(entries: seq<Entry>, through: Option<int>, times: seq<int>): multiset<Entry> {
    if times == [] then multiset{}
    else
      var earlier, now := ThroughAfter(through, times[..|times| - 1]), times[|times| - 1];
      HandedOver(entries, through, times[..|times| - 1])
      + multiset(Within(entries, StartOf(earlier, NewOnly, false, now).value, now))
  }

  /** Consecutive new-only runs leave no gap and no overlap exactly when a checkpoint exists: together
      they hand over everything since it, once. Without one each run starts at its own present, covers
      nothing and writes no checkpoint, so nothing is ever handed over. */
  lemma {:induction false} NewOnlyRunsTile(entries: seq<Entry>, through: Option<int>, times: seq<int>)
    ensures ThroughAfter(through, times).Some? <==> through.Some?
    ensures through.Some? ==>
              && ThroughAfter(through, times).value >= through.value
              && HandedOver(entries, through, times)
                 == multiset(Within(entries, through.value, ThroughAfter(through, times).value))
    ensures through.None? ==> HandedOver(entries, through, times) == multiset{}
  {
    if times == [] {
      if through.Some? { EmptyWindow(entries, through.value, through.value); }
    } else {
      var now, earlier := times[|times| - 1], times[..|times| - 1];
      NewOnlyRunsTile(entries, through, earlier);
      if through.None? {
        EmptyWindow(entries, now, now);
      } else {
        var t := ThroughAfter(through, earlier).value;
        if t < now { WindowsMeet(entries, through.value, t, now); }
        else { EmptyWindow(entries, t, now); }
      }
    }
  }
}
