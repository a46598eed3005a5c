/** The two paths agree: the history importer and the live replay give every deal of a safe position
    the same event, and it does not matter where polls cut the stream. */
module Agreement {
  import opened Prelude
  import opened Events
  import opened Ledger
  import opened PositionMachine
  import opened Projection
  import opened SnapshotDiff
  import opened LiveStream

  /** The event that the history import sends for a projected row
      (windows_agent/real_handlers.py:1731-1816). */
  function HistoryEvent(row: Projected): Event {
    var d := row.deal;
    var kind := if row.eventType.Some? then row.eventType.value
                else if IsOpenEntry(d.entry) then TradeOpened
                else if IsExitEntry(d.entry) then TradeClosed
                else DealRecorded;
    var base := Bare(kind, d.positionId, NO_DETAILS).(
      nativeDeal := d.ticket,
      volume := if row.opening.Some? then Some(row.opening.value.volume) else d.volume,
      stopLoss := d.stopLoss, takeProfit := d.takeProfit);
    if kind == TradeOpened then base.(openPrice := d.price)
    else if kind == TradeVolumeChanged then
      base.(partialClose := Some(false),
            previousVolume := if row.opening.Some? then Some(row.opening.value.previousVolume) else None,
            openPrice := if row.opening.Some? then Some(row.opening.value.openPrice) else None)
    else base.(closePrice := d.price)
  }

  /** An event without the fields that each path copies from its own source: details and stops. */
  function Core(e: Event): Event { e.(details := NO_DETAILS, stopLoss := None, takeProfit := None) }

  // ---------------------------------------------------------------- same deals on both paths

  /** `r` is a live fill of position `p`. */
  predicate IsFillOf(r: Record, p: string) { r.kind == DealAdd && !r.archived && r.position == Some(p) }

  /** `r` reports the same deal as the ledger row `d`. */
  predicate IsRecordOf(d: Deal, r: Record) {
    r.entry == d.entry && r.volume == d.volume && r.price == d.price && NativeTicket(r) == d.ticket
  }

  predicate IsNamedEntry(e: EntryCode) { e in {TextIn, TextOut, TextOutBy} }

  /** How many of the first `n` rows are deals of `p`. */
  function DealsOf(rows: seq<Deal>, p: string, n: nat): nat
    requires n <= |rows|
  {
    if n == 0 then 0 else DealsOf(rows, p, n - 1) + if Belongs(rows[n - 1], p) then 1 else 0
  }

  /** How many of the first `m` records are fills of `p`. */
  function FillsOf(records: seq<Record>, p: string, m: nat): nat
    requires m <= |records|
  {
    if m == 0 then 0 else FillsOf(records, p, m - 1) + if IsFillOf(records[m - 1], p) then 1 else 0
  }

  /** Row `i` and record `k` are, in their own order, the same deal of `p`, when the stream begins at row
      `start`: after whatever the ledger held when live took over, or at its beginning. */
  ghost predicate Matched(rows: seq<Deal>, records: seq<Record>, p: string, start: nat, i: nat, k: nat) {
    && start <= i < |rows| && k < |records| && Belongs(rows[i], p) && IsFillOf(records[k], p)
    && DealsOf(rows, p, i) == DealsOf(rows, p, start) + FillsOf(records, p, k)
  }

  /** The fills of `p` in the stream are, in order, the deals of `p` in the ledger from row `start` on. What
      lies between them is arbitrary on both sides: other positions, order and position notes, archived
      deals. */
  ghost predicate Mirrors(rows: seq<Deal>, records: seq<Record>, p: string, start: nat) {
    && start <= |rows|
    && DealsOf(rows, p, |rows|) == DealsOf(rows, p, start) + FillsOf(records, p, |records|)
    && forall i: nat, k: nat | Matched(rows, records, p, start, i, k) :: IsRecordOf(rows[i], records[k])
  }

  /** Every deal of `p` from row `start` on says IN, OUT or OUT_BY. */
  ghost predicate NamedEntries(rows: seq<Deal>, p: string, start: nat) {
    forall i | start <= i < |rows| && Belongs(rows[i], p) :: IsNamedEntry(rows[i].entry)
  }

  ghost predicate AllPublishable(rows: seq<Deal>, p: string, start: nat) {
    forall i | start <= i < |rows| && Belongs(rows[i], p) :: Publishable(rows[i])
  }

  predicate Untracked(t: Tracked, p: string) { p !in t.volumes && p !in t.prices }

  lemma {:induction false} DealsGrow(rows: seq<Deal>, p: string, i: nat, n: nat)
    requires i < n <= |rows| && Belongs(rows[i], p)
    ensures DealsOf(rows, p, i) < DealsOf(rows, p, n)
  {
    if i + 1 < n { DealsGrow(rows, p, i, n - 1); }
  }

  lemma {:induction false} DealsNotFewer(rows: seq<Deal>, p: string, from: nat, to: nat)
    requires from <= to <= |rows|
    ensures DealsOf(rows, p, from) <= DealsOf(rows, p, to)
  {
    if from < to { DealsNotFewer(rows, p, from, to - 1); }
  }

  lemma {:induction false} FillsGrow(records: seq<Record>, p: string, k: nat, m: nat)
    requires k < m <= |records| && IsFillOf(records[k], p)
    ensures FillsOf(records, p, k) < FillsOf(records, p, m)
  {
    if k + 1 < m { FillsGrow(records, p, k, m - 1); }
  }

  lemma {:induction false} FillAtRank(records: seq<Record>, p: string, m: nat, rank: nat) returns (k: nat)
    requires m <= |records| && rank < FillsOf(records, p, m)
    ensures k < m && IsFillOf(records[k], p) && FillsOf(records, p, k) == rank
  {
    if rank < FillsOf(records, p, m - 1) { k := FillAtRank(records, p, m - 1, rank); } else { k := m - 1; }
  }

  lemma {:induction false} DealAtRank(rows: seq<Deal>, p: string, n: nat, rank: nat) returns (i: nat)
    requires n <= |rows| && rank < DealsOf(rows, p, n)
    ensures i < n && Belongs(rows[i], p) && DealsOf(rows, p, i) == rank
  {
    if rank < DealsOf(rows, p, n - 1) { i := DealAtRank(rows, p, n - 1, rank); } else { i := n - 1; }
  }

  /** Every deal has its fill, and every fill its deal. */
  lemma {:induction false} MatchOfRow(rows: seq<Deal>, records: seq<Record>, p: string, start: nat, i: nat)
    returns (k: nat)
    requires Mirrors(rows, records, p, start) && start <= i < |rows| && Belongs(rows[i], p)
    ensures Matched(rows, records, p, start, i, k)
  {
    DealsGrow(rows, p, i, |rows|);
    DealsNotFewer(rows, p, start, i);
    k := FillAtRank(records, p, |records|, DealsOf(rows, p, i) - DealsOf(rows, p, start));
  }

  lemma {:induction false} MatchOfFill(rows: seq<Deal>, records: seq<Record>, p: string, start: nat, k: nat)
    returns (i: nat)
    requires Mirrors(rows, records, p, start) && k < |records| && IsFillOf(records[k], p)
    ensures Matched(rows, records, p, start, i, k)
  {
    FillsGrow(records, p, k, |records|);
    i := DealAtRank(rows, p, |rows|, DealsOf(rows, p, start) + FillsOf(records, p, k));
    if i < start { DealsGrow(rows, p, i, start); }
  }

  // ---------------------------------------------------------------- same state on both paths

  /** The replay knows about `p` exactly what the history machine knows. */
  ghost predicate SameState(t: Tracked, m: Machine, p: string) {
    && m.Running? && m.volume >= 0.0
    && (if m.volume == 0.0 then Untracked(t, p)
        else p in t.volumes && t.volumes[p] == m.volume && p in t.prices && t.prices[p] == m.notional / m.volume)
    && (m.volume == 0.0 ==> m.notional == 0.0)
  }

  /** Live takes up a safe position at row `start`: the stream carries its deals from there on, and what is
      tracked about it, be it nothing, is what the history machine has reached. */
  ghost predicate TakesUp(rows: seq<Deal>, records: seq<Record>, t: Tracked, p: string, start: nat) {
    && Safe(rows, p) && Mirrors(rows, records, p, start) && NamedEntries(rows, p, start)
    && SameState(t, StateAt(rows, p, start), p)
  }

  predicate IsNamedFill(d: Deal, r: Record, p: string) {
    IsFillOf(r, p) && IsRecordOf(d, r) && IsNamedEntry(d.entry)
  }

  lemma {:induction false} SameOpening(t: Tracked, m: Machine, d: Deal, r: Record, p: string)
    requires SameState(t, m, p) && IsNamedFill(d, r, p) && Advance(m, d).Running?
    requires IsOpenEntry(d.entry) && OpeningComplete(d)
    ensures SameState(TrackedAfter(t, r), Advance(m, d), p) && Settles(t, r)
  {
    var volume, price := d.volume.value, d.price.value;
    if m.volume > 0.0 {
      assert m.volume * (m.notional / m.volume) == m.notional;
    } else {
      assert (volume * price) / volume == price;
    }
  }

  lemma {:induction false} SameExit(t: Tracked, m: Machine, d: Deal, r: Record, p: string)
    requires SameState(t, m, p) && IsNamedFill(d, r, p) && Advance(m, d).Running?
    requires !IsOpenEntry(d.entry) && PositiveVolume(d)
    ensures SameState(TrackedAfter(t, r), Advance(m, d), p) && Settles(t, r)
  {
    if !IsFinalExit(m.volume, d.volume.value) {
      var average, left := m.notional / m.volume, m.volume - d.volume.value;
      assert (average * left) / left == average;
    }
  }

  lemma {:induction false} SameStep(t: Tracked, m: Machine, d: Deal, r: Record, p: string)
    requires SameState(t, m, p) && IsNamedFill(d, r, p) && Advance(m, d).Running?
    requires if IsOpenEntry(d.entry) then OpeningComplete(d) else PositiveVolume(d)
    ensures SameState(TrackedAfter(t, r), Advance(m, d), p)
    ensures Settles(t, r)
  {
    if IsOpenEntry(d.entry) { SameOpening(t, m, d, r, p); } else { SameExit(t, m, d, r, p); }
  }

  /** A record that is no fill of `p` leaves what is tracked about `p` alone, even if it names `p`. */
  lemma {:induction false} OthersDoNotMatter(t: Tracked, m: Machine, r: Record, p: string)
    requires !r.archived && !IsFillOf(r, p) && SameState(t, m, p)
    ensures SameState(TrackedAfter(t, r), m, p)
  {
  }

  lemma {:induction false} SafeRowIsComplete(rows: seq<Deal>, p: string, i: nat)
    requires Safe(rows, p) && i < |rows| && Belongs(rows[i], p)
    ensures rows[i].ticket.Some? && rows[i].entry != TextInOut
    ensures IsOpenEntry(rows[i].entry) ==> OpeningComplete(rows[i])
    ensures IsExitEntry(rows[i].entry) ==> PositiveVolume(rows[i])
  {
  }

  /** At corresponding places of ledger and stream, the live replay tracks exactly the volume and average
      price of the history machine. */
  lemma {:induction false} ReplayFollowsMachine(
    rows: seq<Deal>, records: seq<Record>, p: string, start: nat, t: Tracked, n: nat, m: nat)
    requires TakesUp(rows, records, t, p, start)
    requires start <= n <= |rows| && m <= |records|
    requires DealsOf(rows, p, n) == DealsOf(rows, p, start) + FillsOf(records, p, m)
    ensures SameState(TrackedAt(t, records, m), StateAt(rows, p, n), p)
    decreases n + m
  {
    SafePrefix(rows, p, n);
    if n > start && !Belongs(rows[n - 1], p) {
      ReplayFollowsMachine(rows, records, p, start, t, n - 1, m);
    } else if m > 0 && !IsFillOf(records[m - 1], p) {
      ReplayFollowsMachine(rows, records, p, start, t, n, m - 1);
      if !records[m - 1].archived {
        OthersDoNotMatter(TrackedAt(t, records, m - 1), StateAt(rows, p, n), records[m - 1], p);
      }
    } else if n > start {
      DealsNotFewer(rows, p, start, n - 1);
      ReplayFollowsMachine(rows, records, p, start, t, n - 1, m - 1);
      assert Matched(rows, records, p, start, n - 1, m - 1);
      SafeRowIsComplete(rows, p, n - 1);
      SameStep(TrackedAt(t, records, m - 1), StateAt(rows, p, n - 1), rows[n - 1], records[m - 1], p);
    }
  }

  /** The first opening of a safe position is its first row that the machine sees. */
  lemma {:induction false} FlatUntilFirstOpening(rows: seq<Deal>, p: string, i: nat)
    requires Safe(rows, p) && i < |rows| && Belongs(rows[i], p) && IsOpenEntry(rows[i].entry)
    ensures IsFirstOpening(rows, p, i) <==> StateAt(rows, p, i).Running? && StateAt(rows, p, i).volume == 0.0
  {
    SafePrefix(rows, p, i + 1);
    SafePrefix(rows, p, i);
    OpenMeansOpened(rows, p, i);
  }

  lemma {:induction false} OpenMeansOpened(rows: seq<Deal>, p: string, n: nat)
    requires Safe(rows, p) && n <= |rows| && StateAt(rows, p, n).Running? && !StateAt(rows, p, n).closed
    ensures StateAt(rows, p, n).volume > 0.0 <==>
              exists j :: 0 <= j < n && Belongs(rows[j], p) && IsOpenEntry(rows[j].entry)
    ensures StateAt(rows, p, n).volume >= 0.0
  {
    if n > 0 {
      SafePrefix(rows, p, n - 1);
      OpenMeansOpened(rows, p, n - 1);
      if Belongs(rows[n - 1], p) { SafeRowIsComplete(rows, p, n - 1); }
    }
  }

  // ---------------------------------------------------------------- same events on both paths

  lemma {:induction false} SameId(account: string, live: Event, sent: Event)
    requires Core(live) == Core(sent) && live.nativeDeal.Some? && live.eventType in NATIVE_DEAL_EVENTS
    ensures BuildEventId(account, live) == BuildEventId(account, sent)
  {
  }

  lemma {:induction false} FillIsNative(t: Tracked, r: Record, was: Positions, now: Positions)
    requires r.kind == DealAdd && IsNamedEntry(r.entry)
    ensures var e := ReplayedEvent(t, r, was, now);
            e.nativeDeal == NativeTicket(r) && e.eventType in NATIVE_DEAL_EVENTS
  {
  }

  /** Whatever else ledger and stream contain, the live replay turns each deal of a safe position into
      exactly the event that the history import sends for it: same type, ticket, native deal, volumes,
      prices, and therefore the same event id. */
  lemma {:induction false} HistoryAndLiveAgree(
    rows: seq<Deal>, anchor: Option<Anchor>, records: seq<Record>, t: Tracked, was: Positions, now: Positions,
    p: string, start: nat, i: nat, k: nat, account: string)
    requires TakesUp(rows, records, t, p, start)
    requires Matched(rows, records, p, start, i, k) && Publishable(rows[i])
    ensures var live := ReplayedEvent(TrackedAt(t, records, k), records[k], was, now);
            var sent := HistoryEvent(ProjectRow(rows, anchor, i));
            Core(live) == Core(sent) && BuildEventId(account, live) == BuildEventId(account, sent)
  {
    ReplayFollowsMachine(rows, records, p, start, t, i, k);
    ReplayFollowsMachine(rows, records, p, start, t, i + 1, k + 1);
    SafeRowIsComplete(rows, p, i);
    var u, m := TrackedAt(t, records, k), StateAt(rows, p, i);
    SameStep(u, m, rows[i], records[k], p);
    if IsOpenEntry(rows[i].entry) {
      FlatUntilFirstOpening(rows, p, i);
      OpeningAgrees(rows, anchor, u, records[k], was, now, p, i);
    } else {
      ExitSent(rows, anchor, p, i);
      ExitSeen(u, records[k], was, now, p, rows[i], m);
    }
    FillIsNative(u, records[k], was, now);
    SameId(account, ReplayedEvent(u, records[k], was, now), HistoryEvent(ProjectRow(rows, anchor, i)));
  }

  /** The event of an opening that takes the position from `before` to `after`. */
  function OpeningEvent(first: bool, d: Deal, p: string, before: Machine, after: Machine): Event
    requires before.Running? && after.Running? && after.volume != 0.0
  {
    if first then Bare(TradeOpened, p, NO_DETAILS).(nativeDeal := d.ticket, volume := d.volume, openPrice := d.price)
    else
      Bare(TradeVolumeChanged, p, NO_DETAILS).(
        nativeDeal := d.ticket, volume := Some(after.volume), previousVolume := Some(before.volume),
        openPrice := Some(after.notional / after.volume), partialClose := Some(false))
  }

  /** The event of an exit. */
  function ExitEvent(final: bool, d: Deal, p: string): Event {
    Bare(if final then TradeClosed else TradePartialClosed, p, NO_DETAILS).(
      nativeDeal := d.ticket, volume := d.volume, closePrice := d.price)
  }

  lemma {:induction false} OpeningSent(rows: seq<Deal>, anchor: Option<Anchor>, p: string, i: nat)
    requires Safe(rows, p) && i < |rows| && Belongs(rows[i], p) && Publishable(rows[i])
    requires IsOpenEntry(rows[i].entry) && OpeningComplete(rows[i])
    requires StateAt(rows, p, i).Running? && StateAt(rows, p, i).volume >= 0.0 && StateAt(rows, p, i + 1).Running?
    requires IsFirstOpening(rows, p, i) <==> StateAt(rows, p, i).volume == 0.0
    requires StateAt(rows, p, i + 1) == Advance(StateAt(rows, p, i), rows[i])
    ensures Core(HistoryEvent(ProjectRow(rows, anchor, i)))
         == OpeningEvent(IsFirstOpening(rows, p, i), rows[i], p, StateAt(rows, p, i), StateAt(rows, p, i + 1))
  {
    var row := ProjectRow(rows, anchor, i);
    assert OpeningTracked(rows, p, i);
    assert row.opening == Some(OpeningStateOf(rows, p, i));
    assert row.eventType == Some(if IsFirstOpening(rows, p, i) then TradeOpened else TradeVolumeChanged);
  }

  lemma {:induction false} OpeningSeen(
    t: Tracked, r: Record, was: Positions, now: Positions, p: string, d: Deal, before: Machine, after: Machine)
    requires IsNamedFill(d, r, p) && IsOpenEntry(d.entry) && OpeningComplete(d) && Settles(t, r)
    requires SameState(t, before, p) && SameState(TrackedAfter(t, r), after, p) && after == Advance(before, d)
    ensures after.volume != 0.0
    ensures Core(ReplayedEvent(t, r, was, now)) == OpeningEvent(before.volume == 0.0, d, p, before, after)
  {
  }

  lemma {:induction false} OpeningAgrees(
    rows: seq<Deal>, anchor: Option<Anchor>, t: Tracked, r: Record, was: Positions, now: Positions, p: string, i: nat)
    requires Safe(rows, p) && i < |rows| && Belongs(rows[i], p) && Publishable(rows[i])
    requires IsNamedFill(rows[i], r, p) && IsOpenEntry(rows[i].entry) && OpeningComplete(rows[i])
    requires SameState(t, StateAt(rows, p, i), p) && SameState(TrackedAfter(t, r), StateAt(rows, p, i + 1), p)
    requires IsFirstOpening(rows, p, i) <==> StateAt(rows, p, i).volume == 0.0
    requires StateAt(rows, p, i + 1) == Advance(StateAt(rows, p, i), rows[i]) && Settles(t, r)
    ensures Core(ReplayedEvent(t, r, was, now)) == Core(HistoryEvent(ProjectRow(rows, anchor, i)))
  {
    OpeningSent(rows, anchor, p, i);
    OpeningSeen(t, r, was, now, p, rows[i], StateAt(rows, p, i), StateAt(rows, p, i + 1));
  }

  lemma {:induction false} ExitSent(rows: seq<Deal>, anchor: Option<Anchor>, p: string, i: nat)
    requires Safe(rows, p) && i < |rows| && Belongs(rows[i], p) && Publishable(rows[i])
    requires IsExitEntry(rows[i].entry) && rows[i].entry != TextInOut && StateAt(rows, p, i + 1).Running?
    ensures Core(HistoryEvent(ProjectRow(rows, anchor, i))) == ExitEvent(StateAt(rows, p, i + 1).closed, rows[i], p)
  {
    var row := ProjectRow(rows, anchor, i);
    assert row.opening.None?;
    assert row.eventType == Some(if StateAt(rows, p, i + 1).closed then TradeClosed else TradePartialClosed);
  }

  lemma {:induction false} ExitSeen(
    t: Tracked, r: Record, was: Positions, now: Positions, p: string, d: Deal, before: Machine)
    requires IsNamedFill(d, r, p) && IsExitEntry(d.entry) && PositiveVolume(d) && Settles(t, r)
    requires SameState(t, before, p) && Advance(before, d).Running?
    ensures Core(ReplayedEvent(t, r, was, now)) == ExitEvent(Advance(before, d).closed, d, p)
  {
  }

  lemma {:induction false} OpenVolumeIsLeft(rows: seq<Deal>, p: string, i: nat)
    requires Safe(rows, p) && i < |rows| && Belongs(rows[i], p) && IsOpenEntry(rows[i].entry)
    ensures var m, n := StateAt(rows, p, i), StateAt(rows, p, i + 1);
            && m.Running? && m.volume == Opened(rows, p, i) - Exited(rows, p, i)
            && n.Running? && n.volume == Opened(rows, p, i + 1) - Exited(rows, p, i + 1)
  {
    SafePrefix(rows, p, i);
    SafePrefix(rows, p, i + 1);
    VolumeConserved(rows, p, i);
    VolumeConserved(rows, p, i + 1);
  }

  /** What the import says of each deal of a safe position, from the rows and the two sums alone: the first opening
      opens it, a later one tells the volumes left before and after it, and an exit tells its own volume and
      closes the position exactly when the openings and exits up to it cancel, within 1e-8. */
  lemma {:induction false} ImportedFromSums(rows: seq<Deal>, anchor: Option<Anchor>, i: nat)
    requires i < |rows| && Publishable(rows[i]) && Safe(rows, rows[i].positionId)
    ensures var d, p, e := rows[i], rows[i].positionId, HistoryEvent(ProjectRow(rows, anchor, i));
            && e.ticket == p && e.nativeDeal == d.ticket && e.nativeDeal.Some?
            && e.stopLoss == d.stopLoss && e.takeProfit == d.takeProfit
            && if d.entry in {Code0, TextIn} then
                 if forall j | 0 <= j < i && Belongs(rows[j], p) :: rows[j].entry !in {Code0, TextIn} then
                   e.eventType == TradeOpened && e.volume == d.volume && e.openPrice == d.price
                 else
                   && e.eventType == TradeVolumeChanged && e.partialClose == Some(false)
                   && e.previousVolume == Some(Opened(rows, p, i) - Exited(rows, p, i))
                   && e.volume == Some(Opened(rows, p, i + 1) - Exited(rows, p, i + 1))
               else
                 && e.volume == d.volume && e.closePrice == d.price
                 && e.eventType == if -0.00000001 <= Opened(rows, p, i + 1) - Exited(rows, p, i + 1) <= 0.00000001
                                   then TradeClosed else TradePartialClosed
  {
    var p := rows[i].positionId;
    SentIsNative(rows, anchor, p, i);
    SafeRowIsComplete(rows, p, i);
    SafePrefix(rows, p, i);
    SafePrefix(rows, p, i + 1);
    if IsOpenEntry(rows[i].entry) {
      OpenVolumeIsLeft(rows, p, i);
      VolumeNotNegative(rows, p, i);
      FlatUntilFirstOpening(rows, p, i);
      OpeningSent(rows, anchor, p, i);
    } else {
      ExitSent(rows, anchor, p, i);
      ClosesIffNothingLeft(rows, p, i);
    }
  }

  // ---------------------------------------------------------------- where the paths part

  /** An entry given by its numeric code: history takes codes 0 to 3 for openings and exits, live only
      knows the names, so the same deal gets two ids. */
  lemma {:induction false} NumericEntriesDisagree(
    rows: seq<Deal>, anchor: Option<Anchor>, t: Tracked, r: Record, was: Positions, now: Positions, i: nat,
    account: string)
    requires i < |rows| && Publishable(rows[i]) && r.kind == DealAdd && r.entry == rows[i].entry
    requires r.entry in {Code0, Code1, Code2, Code3}
    ensures BuildEventId(account, ReplayedEvent(t, r, was, now))
         != BuildEventId(account, HistoryEvent(ProjectRow(rows, anchor, i)))
  {
    assert ReplayedEvent(t, r, was, now).eventType == DealRecorded;
    assert HistoryEvent(ProjectRow(rows, anchor, i)).eventType == TypeOf(rows, i).value;
  }

  /** Row `i` and record `k` get one id. */
  ghost predicate SameIdAt(
    rows: seq<Deal>, anchor: Option<Anchor>, records: seq<Record>, t: Tracked, was: Positions, now: Positions,
    account: string, i: nat, k: nat)
    requires i < |rows| && k < |records| && Publishable(rows[i])
  {
    BuildEventId(account, ReplayedEvent(TrackedAt(t, records, k), records[k], was, now))
    == BuildEventId(account, HistoryEvent(ProjectRow(rows, anchor, i)))
  }

  /** Exactly when the paths agree on a safe position: every deal gets one id if and only if every entry
      is given by its name. */
  lemma {:induction false} IdsAgreeIffEntriesAreNames(
    rows: seq<Deal>, anchor: Option<Anchor>, records: seq<Record>, t: Tracked, was: Positions, now: Positions,
    p: string, start: nat, account: string)
    requires Safe(rows, p) && Mirrors(rows, records, p, start) && AllPublishable(rows, p, start)
    requires SameState(t, StateAt(rows, p, start), p)
    ensures NamedEntries(rows, p, start) <==>
              forall i: nat, k: nat | Matched(rows, records, p, start, i, k) ::
                SameIdAt(rows, anchor, records, t, was, now, account, i, k)
  {
    if NamedEntries(rows, p, start) {
      forall i: nat, k: nat | Matched(rows, records, p, start, i, k)
        ensures SameIdAt(rows, anchor, records, t, was, now, account, i, k)
      {
        HistoryAndLiveAgree(rows, anchor, records, t, was, now, p, start, i, k, account);
      }
    } else {
      var i: nat :| start <= i < |rows| && Belongs(rows[i], p) && !IsNamedEntry(rows[i].entry);
      var k := MatchOfRow(rows, records, p, start, i);
      SafeRowIsComplete(rows, p, i);
      NumericEntriesDisagree(rows, anchor, TrackedAt(t, records, k), records[k], was, now, i, account);
      assert !SameIdAt(rows, anchor, records, t, was, now, account, i, k);
    }
  }

  // ---------------------------------------------------------------- the merged batch and the import

  /** No fill of another position falls back to a ticket that reads `p`. Order and position notes may. */
  ghost predicate OnlyItsFillsReadAs(records: seq<Record>, p: string) {
    forall r | r in records && r.kind == DealAdd && !r.archived && EventTicket(r) == p :: r.position == Some(p)
  }

  lemma {:induction false} TicketOfEvent(t: Tracked, r: Record, was: Positions, now: Positions)
    ensures ReplayedEvent(t, r, was, now).ticket == EventTicket(r)
  {
  }

  lemma {:induction false} LiveIdIsSent(
    rows: seq<Deal>, anchor: Option<Anchor>, records: seq<Record>, was: Snapshot, now: Snapshot, order: seq<string>,
    p: string, start: nat, account: string, e: Event) returns (i: nat)
    requires TakesUp(rows, records, Load(was.positions), p, start) && AllPublishable(rows, p, start)
    requires OnlyItsFillsReadAs(records, p)
    requires e in Merge(records, was, now, order) && e.nativeDeal.Some? && e.ticket == p
    ensures start <= i < |rows| && Belongs(rows[i], p)
    ensures BuildEventId(account, e) == BuildEventId(account, HistoryEvent(ProjectRow(rows, anchor, i)))
  {
    NativeMeansStream(records, was, now, order, e);
    var k := StreamMember(records, was, now, e);
    TicketOfEvent(TrackedAt(Load(was.positions), records, k), records[k], was.positions, now.positions);
    ReplayedNative(TrackedAt(Load(was.positions), records, k), records[k], was.positions, now.positions);
    assert records[k] in records;
    i := MatchOfFill(rows, records, p, start, k);
    HistoryAndLiveAgree(
      rows, anchor, records, Load(was.positions), was.positions, now.positions, p, start, i, k, account);
  }

  lemma {:induction false} SentIdIsLive(
    rows: seq<Deal>, anchor: Option<Anchor>, records: seq<Record>, was: Snapshot, now: Snapshot, order: seq<string>,
    p: string, start: nat, account: string, i: nat) returns (e: Event)
    requires TakesUp(rows, records, Load(was.positions), p, start)
    requires start <= i < |rows| && Belongs(rows[i], p) && Publishable(rows[i])
    ensures e in Merge(records, was, now, order) && e.nativeDeal.Some? && e.ticket == p
    ensures BuildEventId(account, e) == BuildEventId(account, HistoryEvent(ProjectRow(rows, anchor, i)))
  {
    var k := MatchOfRow(rows, records, p, start, i);
    HistoryAndLiveAgree(
      rows, anchor, records, Load(was.positions), was.positions, now.positions, p, start, i, k, account);
    SafeRowIsComplete(rows, p, i);
    e := DealSurvivesMerge(records, was, now, order, k);
  }

  /** As sets: the ids that the merged live batch carries for the deals of `p` are the ids that a history
      import sends for the rows of `p` from `start` on, so the server sees each deal under one id only. */
  lemma {:induction false} SameIdsOnBothPaths(
    rows: seq<Deal>, anchor: Option<Anchor>, records: seq<Record>, was: Snapshot, now: Snapshot, order: seq<string>,
    p: string, start: nat, account: string, id: EventId)
    requires TakesUp(rows, records, Load(was.positions), p, start) && AllPublishable(rows, p, start)
    requires OnlyItsFillsReadAs(records, p)
    ensures (exists e :: e in Merge(records, was, now, order) && e.nativeDeal.Some? && e.ticket == p
                         && BuildEventId(account, e) == id)
       <==> (exists i :: start <= i < |rows| && Belongs(rows[i], p)
                         && BuildEventId(account, HistoryEvent(ProjectRow(rows, anchor, i))) == id)
  {
    if e :| e in Merge(records, was, now, order) && e.nativeDeal.Some? && e.ticket == p
            && BuildEventId(account, e) == id
    {
      var i := LiveIdIsSent(rows, anchor, records, was, now, order, p, start, account, e);
    }
    if i :| start <= i < |rows| && Belongs(rows[i], p)
            && BuildEventId(account, HistoryEvent(ProjectRow(rows, anchor, i))) == id {
      var e := SentIdIsLive(rows, anchor, records, was, now, order, p, start, account, i);
    }
  }

  // ---------------------------------------------------------------- poll cuts

  /** The events that carry a native deal ticket. */
  function DealsOnly(events: seq<Event>): seq<Event> {
    if events == [] then []
    else
      var last := events[|events| - 1];
      DealsOnly(events[..|events| - 1]) + if last.nativeDeal.Some? then [last] else []
  }

  lemma {:induction false} DealsOnlyConcat(a: seq<Event>, b: seq<Event>)
    ensures DealsOnly(a + b) == DealsOnly(a) + DealsOnly(b)
  {
    if b == [] {
      assert a + b == a;
    } else {
      assert (a + b)[..|a + b| - 1] == a + b[..|b| - 1];
      DealsOnlyConcat(a, b[..|b| - 1]);
    }
  }

  /** The event of a deal record does not depend on the snapshots: it moves a tracked position, or it is
      no entry and no exit. */
  predicate SelfContained(t: Tracked, r: Record) {
    r.archived || r.kind != DealAdd || Settles(t, r) || r.entry !in {TextIn, TextOut, TextOutBy}
  }

  ghost predicate AllSelfContained(t: Tracked, records: seq<Record>) {
    forall n | 0 <= n < |records| :: SelfContained(TrackedAt(t, records, n), records[n])
  }

  /** Reading without any snapshot. */
  function Blind(): Reader { Reading(map[], map[]) }

  /** The event, if whoever keeps only deal events keeps it. */
  function DealOf(e: Event): seq<Event> { if e.nativeDeal.Some? then [e] else [] }

  /** The concatenation of f(0), …, f(n - 1). */
  function Gather(f: nat -> seq<Event>, n: nat): seq<Event> {
    if n == 0 then [] else Gather(f, n - 1) + f(n - 1)
  }

  lemma {:induction false} GatherSame(f: nat -> seq<Event>, g: nat -> seq<Event>, n: nat)
    requires forall k: nat | k < n :: f(k) == g(k)
    ensures Gather(f, n) == Gather(g, n)
  {
    if n > 0 { GatherSame(f, g, n - 1); }
  }

  lemma {:induction false} GatherConcat(
    f: nat -> seq<Event>, g: nat -> seq<Event>, h: nat -> seq<Event>, m: nat, n: nat)
    requires forall k: nat | k < m :: h(k) == f(k)
    requires forall k: nat | k < n :: h(m + k) == g(k)
    ensures Gather(h, m + n) == Gather(f, m) + Gather(g, n)
  {
    if n == 0 { GatherSame(f, h, m); } else { GatherConcat(f, g, h, m, n - 1); }
  }

  /** The deal event of record `k`, if it has one. */
  function DealAt(read: Reader, t: Tracked, records: seq<Record>, k: nat): seq<Event> {
    if k >= |records| || records[k].archived then [] else DealOf(read(TrackedAt(t, records, k), records[k]))
  }

  function DealsBy(read: Reader, t: Tracked, records: seq<Record>): nat -> seq<Event> {
    (k: nat) => DealAt(read, t, records, k)
  }

  /** The deal events of a replay, record by record. */
  function DealReplay(read: Reader, t: Tracked, records: seq<Record>): seq<Event> {
    Gather(DealsBy(read, t, records), |records|)
  }

  lemma {:induction false} OneRecord(read: Reader, t: Tracked, records: seq<Record>, k: nat)
    requires k < |records|
    ensures DealsOnly(EventsAt(read, t, records, k)) == DealsBy(read, t, records)(k)
  {
  }

  lemma {:induction false} ReplayIsGather(
    read: Reader, t: Tracked, records: seq<Record>, events: nat -> seq<Event>, n: nat)
    requires n <= |records| && forall k: nat | k < |records| :: events(k) == EventsAt(read, t, records, k)
    ensures Replay(read, t, records, n) == Gather(events, n)
  {
    if n > 0 { ReplayIsGather(read, t, records, events, n - 1); }
  }

  lemma {:induction false} GatherDeals(events: nat -> seq<Event>, deals: nat -> seq<Event>, n: nat)
    requires forall k: nat | k < n :: deals(k) == DealsOnly(events(k))
    ensures DealsOnly(Gather(events, n)) == Gather(deals, n)
  {
    if n > 0 {
      GatherDeals(events, deals, n - 1);
      DealsOnlyConcat(Gather(events, n - 1), events(n - 1));
    }
  }

  lemma {:induction false} DealsOfReplay(read: Reader, t: Tracked, records: seq<Record>)
    ensures DealsOnly(Replay(read, t, records, |records|)) == DealReplay(read, t, records)
  {
    var events := (k: nat) => if k < |records| then EventsAt(read, t, records, k) else [];
    var deals := DealsBy(read, t, records);
    forall k: nat | k < |records| ensures deals(k) == DealsOnly(events(k)) { OneRecord(read, t, records, k); }
    ReplayIsGather(read, t, records, events, |records|);
    GatherDeals(events, deals, |records|);
  }

  lemma {:induction false} SnapshotsDoNotMatter(t: Tracked, records: seq<Record>, was: Positions, now: Positions)
    requires AllSelfContained(t, records)
    ensures DealReplay(Reading(was, now), t, records) == DealReplay(Blind(), t, records)
  {
    forall k: nat | k < |records| ensures DealAt(Reading(was, now), t, records, k) == DealAt(Blind(), t, records, k) {
      if !records[k].archived { SameWithoutSnapshots(TrackedAt(t, records, k), records[k], was, now); }
    }
    GatherSame(DealsBy(Reading(was, now), t, records), DealsBy(Blind(), t, records), |records|);
  }

  lemma {:induction false} OneDeal(events: seq<Event>, e: Event)
    ensures DealsOnly(events + [e]) == DealsOnly(events) + if e.nativeDeal.Some? then [e] else []
  {
    assert (events + [e])[..|events|] == events;
  }

  lemma {:induction false} SameWithoutSnapshots(t: Tracked, r: Record, was: Positions, now: Positions)
    requires SelfContained(t, r) && !r.archived
    ensures DealOf(Reading(was, now)(t, r)) == DealOf(Blind()(t, r))
  {
    if r.kind != DealAdd {
      ReplayedNative(t, r, was, now);
      ReplayedNative(t, r, map[], map[]);
    }
  }

  lemma {:induction false} TrackedConcat(t: Tracked, a: seq<Record>, b: seq<Record>, n: nat)
    requires n <= |b|
    ensures TrackedAt(t, a + b, |a| + n) == TrackedAt(TrackedAt(t, a, |a|), b, n)
  {
    if n > 0 {
      TrackedConcat(t, a, b, n - 1);
    } else {
      TrackedPrefix(t, a, b, |a|);
    }
  }

  lemma {:induction false} TrackedPrefix(t: Tracked, a: seq<Record>, b: seq<Record>, n: nat)
    requires n <= |a|
    ensures TrackedAt(t, a + b, n) == TrackedAt(t, a, n)
  {
    if n > 0 { TrackedPrefix(t, a, b, n - 1); }
  }

  lemma {:induction false} DealAtStays(read: Reader, t: Tracked, a: seq<Record>, b: seq<Record>, k: nat)
    requires k < |a|
    ensures DealAt(read, t, a + b, k) == DealAt(read, t, a, k)
  {
    TrackedPrefix(t, a, b, k);
  }

  lemma {:induction false} DealAtShifts(read: Reader, t: Tracked, a: seq<Record>, b: seq<Record>, k: nat)
    requires k < |b|
    ensures DealAt(read, t, a + b, |a| + k) == DealAt(read, TrackedAt(t, a, |a|), b, k)
  {
    TrackedConcat(t, a, b, k);
    assert (a + b)[|a| + k] == b[k];
  }

  lemma {:induction false} DealsLineUp(read: Reader, t: Tracked, a: seq<Record>, b: seq<Record>)
    ensures forall k: nat | k < |a| :: DealsBy(read, t, a + b)(k) == DealsBy(read, t, a)(k)
    ensures forall k: nat | k < |b| ::
              DealsBy(read, t, a + b)(|a| + k) == DealsBy(read, TrackedAt(t, a, |a|), b)(k)
  {
    forall k: nat | k < |a| ensures DealsBy(read, t, a + b)(k) == DealsBy(read, t, a)(k) {
      DealAtStays(read, t, a, b, k);
    }
    forall k: nat | k < |b|
      ensures DealsBy(read, t, a + b)(|a| + k) == DealsBy(read, TrackedAt(t, a, |a|), b)(k)
    {
      DealAtShifts(read, t, a, b, k);
    }
  }

  /** Replaying on from where another replay stopped. */
  lemma {:induction false} ReplayOfTwo(read: Reader, t: Tracked, a: seq<Record>, b: seq<Record>)
    ensures DealReplay(read, t, a + b) == DealReplay(read, t, a) + DealReplay(read, TrackedAt(t, a, |a|), b)
  {
    DealsLineUp(read, t, a, b);
    GatherConcat(DealsBy(read, t, a), DealsBy(read, TrackedAt(t, a, |a|), b), DealsBy(read, t, a + b), |a|, |b|);
    assert |a + b| == |a| + |b|;
  }

  /** One poll: the records it read and the snapshot it took. */
  datatype Poll = Poll(records: seq<Record>, now: Snapshot, order: seq<string>)

  function AllRecords(polls: seq<Poll>): seq<Record> {
    if polls == [] then [] else polls[0].records + AllRecords(polls[1..])
  }

  /** The deal events of successive polls, each comparing with the snapshot of the one before. */
  function PolledDeals(was: Snapshot, polls: seq<Poll>): seq<Event>
    decreases |polls|
  {
    if polls == [] then []
    else DealsOnly(Merge(polls[0].records, was, polls[0].now, polls[0].order)) + PolledDeals(polls[0].now, polls[1..])
  }

  /** Every snapshot but the last shows the volumes and average prices that the replay has reached. */
  ghost predicate SnapshotsCaughtUp(was: Snapshot, polls: seq<Poll>)
    decreases |polls|
  {
    |polls| > 1 ==>
      && Load(polls[0].now.positions) == TrackedAt(Load(was.positions), polls[0].records, |polls[0].records|)
      && SnapshotsCaughtUp(polls[0].now, polls[1..])
  }

  lemma {:induction false} StreamDealsAreNoEchoes(records: seq<Record>, was: Snapshot, now: Snapshot)
    ensures forall e | e in Stream(records, was, now) && e.nativeDeal.Some? :: e.partialClose != Some(true)
  {
    forall e | e in Stream(records, was, now) && e.nativeDeal.Some? ensures e.partialClose != Some(true) {
      var k := StreamMember(records, was, now, e);
      ReplayedNative(TrackedAt(Load(was.positions), records, k), records[k], was.positions, now.positions);
    }
  }

  lemma {:induction false} AddedIsNotDeals(records: seq<Record>, was: Snapshot, now: Snapshot, order: seq<string>)
    ensures DealsOnly(Added(records, was, now, order)) == []
  {
    forall e | e in Added(records, was, now, order) ensures e.nativeDeal.None? {
      MergeMembers(records, was, now, order, e);
      DiffTypes(was, now, order, e);
    }
    NoDeals(Added(records, was, now, order));
  }

  /** The merge keeps the deal events of the stream and adds none. */
  lemma {:induction false} MergedDeals(records: seq<Record>, was: Snapshot, now: Snapshot, order: seq<string>)
    ensures DealsOnly(Merge(records, was, now, order)) == DealsOnly(Stream(records, was, now))
  {
    var stream := Stream(records, was, now);
    DealsOnlyConcat(Kept(records, was, now), Added(records, was, now, order));
    AddedIsNotDeals(records, was, now, order);
    StreamDealsAreNoEchoes(records, was, now);
    EchoesAreNotDeals(stream, CloseTickets(stream), |stream|);
    assert stream[..|stream|] == stream;
  }

  lemma {:induction false} EchoesAreNotDeals(stream: seq<Event>, closes: set<string>, n: nat)
    requires n <= |stream| && forall e | e in stream && e.nativeDeal.Some? :: e.partialClose != Some(true)
    ensures DealsOnly(WithoutEchoes(stream, closes, n)) == DealsOnly(stream[..n])
  {
    if n > 0 {
      EchoesAreNotDeals(stream, closes, n - 1);
      var e := stream[n - 1];
      assert e in stream;
      assert stream[..n] == stream[..n - 1] + [e];
      OneDeal(stream[..n - 1], e);
      if IsEcho(e, closes) {
        assert WithoutEchoes(stream, closes, n) == WithoutEchoes(stream, closes, n - 1);
      } else {
        OneDeal(WithoutEchoes(stream, closes, n - 1), e);
      }
    }
  }

  lemma {:induction false} NoDeals(events: seq<Event>)
    requires forall e | e in events :: e.nativeDeal.None?
    ensures DealsOnly(events) == []
  {
    if events != [] { NoDeals(events[..|events| - 1]); }
  }

  lemma {:induction false} SelfContainedParts(t: Tracked, a: seq<Record>, b: seq<Record>)
    requires AllSelfContained(t, a + b)
    ensures AllSelfContained(t, a) && AllSelfContained(TrackedAt(t, a, |a|), b)
  {
    forall n | 0 <= n < |a| ensures SelfContained(TrackedAt(t, a, n), a[n]) {
      TrackedPrefix(t, a, b, n);
      assert (a + b)[n] == a[n];
    }
    forall n | 0 <= n < |b| ensures SelfContained(TrackedAt(TrackedAt(t, a, |a|), b, n), b[n]) {
      TrackedConcat(t, a, b, n);
      assert (a + b)[|a| + n] == b[n];
    }
  }

  /** One poll's deal events are its blind replay. */
  lemma {:induction false} PollIsBlindReplay(records: seq<Record>, was: Snapshot, now: Snapshot, order: seq<string>)
    requires AllSelfContained(Load(was.positions), records)
    ensures DealsOnly(Merge(records, was, now, order))
         == DealReplay(Blind(), Load(was.positions), records)
  {
    MergedDeals(records, was, now, order);
    DealsOfReplay(Reading(was.positions, now.positions), Load(was.positions), records);
    SnapshotsDoNotMatter(Load(was.positions), records, was.positions, now.positions);
  }

  lemma {:induction false} FirstPoll(was: Snapshot, polls: seq<Poll>)
    requires polls != [] && AllSelfContained(Load(was.positions), polls[0].records)
    ensures PolledDeals(was, polls)
         == DealReplay(Blind(), Load(was.positions), polls[0].records)
            + PolledDeals(polls[0].now, polls[1..])
  {
    PollIsBlindReplay(polls[0].records, was, polls[0].now, polls[0].order);
  }

  lemma {:induction false} PollsAreBlindReplay(was: Snapshot, polls: seq<Poll>, t: Tracked)
    requires t == Load(was.positions) && AllSelfContained(t, AllRecords(polls)) && SnapshotsCaughtUp(was, polls)
    ensures PolledDeals(was, polls) == DealReplay(Blind(), t, AllRecords(polls))
    decreases |polls|
  {
    if polls != [] {
      var a, b := polls[0].records, AllRecords(polls[1..]);
      SelfContainedParts(t, a, b);
      FirstPoll(was, polls);
      assert PolledDeals(polls[0].now, polls[1..]) == DealReplay(Blind(), TrackedAt(t, a, |a|), b) by {
        if |polls| > 1 { PollsAreBlindReplay(polls[0].now, polls[1..], TrackedAt(t, a, |a|)); }
      }
      ReplayOfTwo(Blind(), t, a, b);
    }
  }

  // ---------------------------------------------------------------- polls and the import

  /** What a list of deal events says about one ticket. */
  function OfTicket(events: seq<Event>, p: string): seq<Event> {
    if events == [] then []
    else
      var last := events[|events| - 1];
      OfTicket(events[..|events| - 1], p) + if last.ticket == p then [Core(last)] else []
  }

  /** What the import says about row `i`, if it publishes it. */
  ghost function Told(rows: seq<Deal>, anchor: Option<Anchor>, i: nat): Event {
    if i < |rows| && Publishable(rows[i]) then Core(HistoryEvent(ProjectRow(rows, anchor, i)))
    else Bare(DealRecorded, "", NO_DETAILS)
  }

  ghost function Teller(rows: seq<Deal>, anchor: Option<Anchor>): nat -> Event { (i: nat) => Told(rows, anchor, i) }

  /** `told` for the rows of `p` from `start` up to `n`, in ledger order. */
  ghost function Chronicle(rows: seq<Deal>, p: string, told: nat -> Event, start: nat, n: nat): seq<Event>
    requires start <= n <= |rows|
    decreases n
  {
    if n == start then []
    else Chronicle(rows, p, told, start, n - 1) + if Belongs(rows[n - 1], p) then [told(n - 1)] else []
  }

  /** What the history import sends for the rows of `p` from `start` up to `n`, in ledger order. */
  ghost function HistoryOf(rows: seq<Deal>, anchor: Option<Anchor>, p: string, start: nat, n: nat): seq<Event>
    requires start <= n <= |rows|
  {
    Chronicle(rows, p, Teller(rows, anchor), start, n)
  }

  lemma {:induction false} OfTicketConcat(a: seq<Event>, b: seq<Event>, p: string)
    ensures OfTicket(a + b, p) == OfTicket(a, p) + OfTicket(b, p)
  {
    if b == [] {
      assert a + b == a;
    } else {
      assert (a + b)[..|a + b| - 1] == a + b[..|b| - 1];
      OfTicketConcat(a, b[..|b| - 1], p);
    }
  }

  lemma {:induction false} OfTicketOne(e: Event, p: string)
    ensures OfTicket([e], p) == if e.ticket == p then [Core(e)] else []
  {
    assert [e][..0] == [];
  }

  lemma {:induction false} OtherDealAt(t: Tracked, records: seq<Record>, p: string, k: nat)
    requires k < |records| && !IsFillOf(records[k], p) && OnlyItsFillsReadAs(records, p)
    ensures OfTicket(DealAt(Blind(), t, records, k), p) == []
  {
    if !records[k].archived {
      var e := ReplayedEvent(TrackedAt(t, records, k), records[k], map[], map[]);
      ReplayedNative(TrackedAt(t, records, k), records[k], map[], map[]);
      TicketOfEvent(TrackedAt(t, records, k), records[k], map[], map[]);
      assert records[k] in records;
      OfTicketOne(e, p);
    }
  }

  lemma {:induction false} FillDealAt(
    rows: seq<Deal>, anchor: Option<Anchor>, t: Tracked, records: seq<Record>, p: string, start: nat, i: nat, k: nat)
    requires TakesUp(rows, records, t, p, start) && AllPublishable(rows, p, start)
    requires Matched(rows, records, p, start, i, k)
    ensures OfTicket(DealAt(Blind(), t, records, k), p) == [Told(rows, anchor, i)]
  {
    HistoryAndLiveAgree(rows, anchor, records, t, map[], map[], p, start, i, k, "");
    SafeRowIsComplete(rows, p, i);
    var e := ReplayedEvent(TrackedAt(t, records, k), records[k], map[], map[]);
    FillIsNative(TrackedAt(t, records, k), records[k], map[], map[]);
    TicketOfEvent(TrackedAt(t, records, k), records[k], map[], map[]);
    OfTicketOne(e, p);
  }

  lemma {:induction false} GatherAdds(deals: nat -> seq<Event>, m: nat, p: string, added: seq<Event>)
    requires m > 0 && OfTicket(deals(m - 1), p) == added
    ensures OfTicket(Gather(deals, m), p) == OfTicket(Gather(deals, m - 1), p) + added
  {
    OfTicketConcat(Gather(deals, m - 1), deals(m - 1), p);
  }

  /** `deals` says about `p`, record by record, what `told` says about its rows. */
  ghost predicate TellsHistory(
    rows: seq<Deal>, told: nat -> Event, records: seq<Record>, p: string, start: nat, deals: nat -> seq<Event>)
  {
    && (forall k: nat | k < |records| && !IsFillOf(records[k], p) :: OfTicket(deals(k), p) == [])
    && (forall i: nat, k: nat | Matched(rows, records, p, start, i, k) :: OfTicket(deals(k), p) == [told(i)])
  }

  lemma {:induction false} GatherIsHistory(
    rows: seq<Deal>, told: nat -> Event, records: seq<Record>, p: string, start: nat,
    deals: nat -> seq<Event>, n: nat, m: nat)
    requires TellsHistory(rows, told, records, p, start, deals)
    requires start <= n <= |rows| && m <= |records|
    requires DealsOf(rows, p, n) == DealsOf(rows, p, start) + FillsOf(records, p, m)
    ensures OfTicket(Gather(deals, m), p) == Chronicle(rows, p, told, start, n)
    decreases n + m
  {
    if n > start && !Belongs(rows[n - 1], p) {
      GatherIsHistory(rows, told, records, p, start, deals, n - 1, m);
    } else if m > 0 && !IsFillOf(records[m - 1], p) {
      GatherIsHistory(rows, told, records, p, start, deals, n, m - 1);
      GatherAdds(deals, m, p, []);
    } else if n > start {
      DealsNotFewer(rows, p, start, n - 1);
      GatherIsHistory(rows, told, records, p, start, deals, n - 1, m - 1);
      assert Matched(rows, records, p, start, n - 1, m - 1);
      GatherAdds(deals, m, p, [told(n - 1)]);
    }
  }

  lemma {:induction false} ReplayTellsHistory(
    rows: seq<Deal>, anchor: Option<Anchor>, t: Tracked, records: seq<Record>, p: string, start: nat)
    requires TakesUp(rows, records, t, p, start) && AllPublishable(rows, p, start)
    requires OnlyItsFillsReadAs(records, p)
    ensures TellsHistory(rows, Teller(rows, anchor), records, p, start, DealsBy(Blind(), t, records))
  {
    forall k: nat | k < |records| && !IsFillOf(records[k], p)
      ensures OfTicket(DealsBy(Blind(), t, records)(k), p) == []
    {
      OtherDealAt(t, records, p, k);
    }
    forall i: nat, k: nat | Matched(rows, records, p, start, i, k)
      ensures OfTicket(DealsBy(Blind(), t, records)(k), p) == [Told(rows, anchor, i)]
    {
      FillDealAt(rows, anchor, t, records, p, start, i, k);
    }
  }

  /** The polls read a stream that takes up the position, and their snapshots have caught up. */
  ghost predicate PollsTakeUp(rows: seq<Deal>, was: Snapshot, polls: seq<Poll>, p: string, start: nat) {
    && TakesUp(rows, AllRecords(polls), Load(was.positions), p, start) && AllPublishable(rows, p, start)
    && OnlyItsFillsReadAs(AllRecords(polls), p)
    && AllSelfContained(Load(was.positions), AllRecords(polls)) && SnapshotsCaughtUp(was, polls)
  }

  /** Over any polls whose snapshots have caught up, what live says about the deals of a safe position, one that
      was open when live took over included, is event by event and in order what the history import of the
      whole ledger sends for them. */
  lemma {:induction false} PollsSendTheHistory(
    rows: seq<Deal>, anchor: Option<Anchor>, was: Snapshot, polls: seq<Poll>, p: string, start: nat)
    requires PollsTakeUp(rows, was, polls, p, start)
    ensures OfTicket(PolledDeals(was, polls), p) == HistoryOf(rows, anchor, p, start, |rows|)
  {
    var t, records := Load(was.positions), AllRecords(polls);
    PollsAreBlindReplay(was, polls, t);
    ReplayTellsHistory(rows, anchor, t, records, p, start);
    GatherIsHistory(
      rows, Teller(rows, anchor), records, p, start, DealsBy(Blind(), t, records), |rows|, |records|);
  }

  lemma {:induction false} InChronicle(
    rows: seq<Deal>, p: string, told: nat -> Event, start: nat, i: nat, n: nat)
    requires start <= i < n <= |rows| && Belongs(rows[i], p)
    ensures told(i) in Chronicle(rows, p, told, start, n)
  {
    if i + 1 < n { InChronicle(rows, p, told, start, i, n - 1); }
  }

  lemma {:induction false} InTicket(events: seq<Event>, p: string, c: Event) returns (e: Event)
    requires c in OfTicket(events, p)
    ensures e in events && e.ticket == p && Core(e) == c
  {
    var last := events[|events| - 1];
    if c in OfTicket(events[..|events| - 1], p) { e := InTicket(events[..|events| - 1], p, c); } else { e := last; }
  }

  /** An import that comes after live has delivered repeats ids and adds none: every deal of a safe position that
      live has delivered and the import sends again carries an id that the polls have already sent. */
  lemma {:induction false} LateImportRepeatsIds(
    rows: seq<Deal>, anchor: Option<Anchor>, was: Snapshot, polls: seq<Poll>, p: string, start: nat, i: nat,
    account: string)
    returns (e: Event)
    requires PollsTakeUp(rows, was, polls, p, start)
    requires start <= i < |rows| && Belongs(rows[i], p)
    ensures e in PolledDeals(was, polls)
    ensures BuildEventId(account, e) == BuildEventId(account, HistoryEvent(ProjectRow(rows, anchor, i)))
  {
    var sent := HistoryEvent(ProjectRow(rows, anchor, i));
    PollsSendTheHistory(rows, anchor, was, polls, p, start);
    InChronicle(rows, p, Teller(rows, anchor), start, i, |rows|);
    e := InTicket(PolledDeals(was, polls), p, Core(sent));
    SentIsNative(rows, anchor, p, i);
    SameId(account, e, sent);
  }

  lemma {:induction false} SentIsNative(rows: seq<Deal>, anchor: Option<Anchor>, p: string, i: nat)
    requires Safe(rows, p) && i < |rows| && Belongs(rows[i], p) && Publishable(rows[i])
    ensures var sent := HistoryEvent(ProjectRow(rows, anchor, i));
            sent.nativeDeal == rows[i].ticket && sent.nativeDeal.Some? && sent.eventType in NATIVE_DEAL_EVENTS
  {
    SafeRowIsComplete(rows, p, i);
    assert TypeOf(rows, i).Some?;
  }

  // ---------------------------------------------------------------- a longer ledger

  /** The machine does not look ahead. */
  lemma {:induction false} StateOfPrefix(rows: seq<Deal>, p: string, cut: nat, n: nat)
    requires n <= cut <= |rows|
    ensures StateAt(rows[..cut], p, n) == StateAt(rows, p, n)
  {
    if n > 0 { StateOfPrefix(rows, p, cut, n - 1); }
  }

  lemma {:induction false} ObjectionOfPrefix(rows: seq<Deal>, p: string, cut: nat)
    requires cut <= |rows| && Objection(rows, p).None? && HasOpening(rows[..cut], p)
    ensures Objection(rows[..cut], p).None?
  {
    assert forall i | 0 <= i < cut :: rows[..cut][i] == rows[i];
  }

  /** As soon as a safe position has an opening in a shorter ledger, it is safe there too. */
  lemma {:induction false} PrefixIsSafe(rows: seq<Deal>, p: string, cut: nat)
    requires cut <= |rows| && Safe(rows, p) && HasOpening(rows[..cut], p)
    ensures Safe(rows[..cut], p)
  {
    ObjectionOfPrefix(rows, p, cut);
    StateOfPrefix(rows, p, cut, cut);
    SafePrefix(rows, p, cut);
  }

  lemma {:induction false} FirstOpeningOfPrefix(rows: seq<Deal>, p: string, cut: nat, i: nat)
    requires i < cut <= |rows| && Safe(rows, p) && Safe(rows[..cut], p)
    ensures IsFirstOpening(rows[..cut], p, i) <==> IsFirstOpening(rows, p, i)
  {
    assert forall j | 0 <= j < cut :: rows[..cut][j] == rows[j];
  }

  lemma {:induction false} TypeOfPrefix(rows: seq<Deal>, p: string, cut: nat, i: nat)
    requires i < cut <= |rows| && Safe(rows, p) && Safe(rows[..cut], p) && Belongs(rows[i], p)
    ensures TypeOf(rows[..cut], i) == TypeOf(rows, i)
  {
    FirstOpeningOfPrefix(rows, p, cut, i);
    StateOfPrefix(rows, p, cut, i + 1);
  }

  lemma {:induction false} OpeningOfPrefix(rows: seq<Deal>, p: string, cut: nat, i: nat)
    requires i < cut <= |rows| && Safe(rows, p) && Safe(rows[..cut], p) && Belongs(rows[i], p)
    ensures OpeningTracked(rows[..cut], p, i) <==> OpeningTracked(rows, p, i)
    ensures OpeningTracked(rows, p, i) ==> OpeningStateOf(rows[..cut], p, i) == OpeningStateOf(rows, p, i)
  {
    StateOfPrefix(rows, p, cut, i);
    StateOfPrefix(rows, p, cut, i + 1);
  }

  /** A row's event does not change when the ledger grows, whatever the anchors: a later import sends every row
      that it shares with an earlier one of a safe position under the same id. */
  lemma {:induction false} LongerLedgerSameEvent(
    rows: seq<Deal>, anchor: Option<Anchor>, earlier: Option<Anchor>, p: string, cut: nat, i: nat)
    requires i < cut <= |rows| && Safe(rows, p) && Safe(rows[..cut], p) && Belongs(rows[i], p) && Publishable(rows[i])
    ensures Core(HistoryEvent(ProjectRow(rows[..cut], earlier, i))) == Core(HistoryEvent(ProjectRow(rows, anchor, i)))
  {
    TypeOfPrefix(rows, p, cut, i);
    OpeningOfPrefix(rows, p, cut, i);
    assert ProjectRow(rows[..cut], earlier, i).opening == ProjectRow(rows, anchor, i).opening;
    assert ProjectRow(rows[..cut], earlier, i).eventType == ProjectRow(rows, anchor, i).eventType;
  }

  lemma {:induction false} SameChronicle(
    rows: seq<Deal>, p: string, cut: nat, told: nat -> Event, earlier: nat -> Event, n: nat)
    requires n <= cut <= |rows|
    requires forall i: nat | i < cut && Belongs(rows[i], p) :: earlier(i) == told(i)
    ensures Chronicle(rows[..cut], p, earlier, 0, n) == Chronicle(rows, p, told, 0, n)
  {
    if n > 0 { SameChronicle(rows, p, cut, told, earlier, n - 1); }
  }

  lemma {:induction false} LongerLedgerSameHistory(
    rows: seq<Deal>, anchor: Option<Anchor>, earlier: Option<Anchor>, p: string, cut: nat)
    requires cut <= |rows| && Safe(rows, p) && Safe(rows[..cut], p) && AllPublishable(rows, p, 0)
    ensures HistoryOf(rows[..cut], earlier, p, 0, cut) == HistoryOf(rows, anchor, p, 0, cut)
  {
    forall i: nat | i < cut && Belongs(rows[i], p) ensures Told(rows[..cut], earlier, i) == Told(rows, anchor, i) {
      LongerLedgerSameEvent(rows, anchor, earlier, p, cut, i);
    }
    SameChronicle(rows, p, cut, Teller(rows, anchor), Teller(rows[..cut], earlier), cut);
  }

  lemma {:induction false} ChronicleJoins(rows: seq<Deal>, p: string, told: nat -> Event, cut: nat, n: nat)
    requires cut <= n <= |rows|
    ensures Chronicle(rows, p, told, 0, cut) + Chronicle(rows, p, told, cut, n) == Chronicle(rows, p, told, 0, n)
  {
    if n > cut { ChronicleJoins(rows, p, told, cut, n - 1); }
  }

  /** Cutting the stream into polls anywhere gives the same deal events, in the same order, as reading
      it in one poll, whatever snapshot that poll takes. */
  lemma {:induction false} PollCutsDoNotMatter(was: Snapshot, polls: seq<Poll>, now: Snapshot, order: seq<string>)
    requires AllSelfContained(Load(was.positions), AllRecords(polls)) && SnapshotsCaughtUp(was, polls)
    ensures PolledDeals(was, polls) == DealsOnly(Merge(AllRecords(polls), was, now, order))
  {
    PollsAreBlindReplay(was, polls, Load(was.positions));
    PollIsBlindReplay(AllRecords(polls), was, now, order);
  }

  // ---------------------------------------------------------------- one deal

  /** The ledger row of a position's only deal, and its event file. */
  function OnlyDeal(entry: EntryCode): Deal {
    Deal(Some("1"), Some(0), entry, "1", "1", Some("EURUSD"), "buy", Some(1.0), Some(1.0), Some(0.0), Some(0.0),
         Some(0.0), Some(0.0), None, None)
  }

  function ItsFile(entry: EntryCode, sequence: nat): Record {
    Record(sequence, DealAdd, Some("1"), Some("1"), Some("1"), Some("1"), entry, Some(1.0), Some(1.0), None, None,
           false, NO_DETAILS)
  }

  lemma {:induction false} OneOpeningIsSafe(entry: EntryCode)
    requires entry in {Code0, TextIn}
    ensures Safe([OnlyDeal(entry)], "1") && Belongs(OnlyDeal(entry), "1") && Publishable(OnlyDeal(entry))
  {
    var rows := [OnlyDeal(entry)];
    assert Belongs(rows[0], "1");
    assert HasOpening(rows, "1") && AllIdentified(rows, "1") && !HasReversal(rows, "1");
    assert OpeningsComplete(rows, "1") && ExitsComplete(rows, "1");
    assert StateAt(rows, "1", 0) == FLAT;
    assert StateAt(rows, "1", 1) == Advance(FLAT, rows[0]);
  }

  /** One input for it: a single opening given by code 0 in ledger and stream. */
  lemma {:induction false} NumericOpeningHasTwoIds(sequence: nat, was: Positions, now: Positions, account: string)
    ensures var rows, records, t := [OnlyDeal(Code0)], [ItsFile(Code0, sequence)], Load(map[]);
            && Safe(rows, "1") && Mirrors(rows, records, "1", 0) && SameState(t, StateAt(rows, "1", 0), "1")
            && Matched(rows, records, "1", 0, 0, 0) && Publishable(rows[0])
            && !SameIdAt(rows, None, records, t, was, now, account, 0, 0)
  {
    var rows, records := [OnlyDeal(Code0)], [ItsFile(Code0, sequence)];
    OneOpeningIsSafe(Code0);
    assert DealsOf(rows, "1", 0) == 0 && DealsOf(rows, "1", 1) == 1;
    assert FillsOf(records, "1", 0) == 0 && FillsOf(records, "1", 1) == 1;
    NumericEntriesDisagree(rows, None, TrackedAt(Load(map[]), records, 0), records[0], was, now, 0, account);
  }
}
