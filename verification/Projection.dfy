/** The rows published by the history importer, and the loops that compute them
    (windows_agent/worker/history_balance.py:82-337). */
module Projection {
  import opened Prelude
  import opened Events
  import opened Ledger
  import opened PositionMachine

  datatype OpeningState = OpeningState(previousVolume: real, volume: real, openPrice: real)

  datatype BalanceNotice =
    | NotAnOpening
    | Published(balance: real)
    | WithheldUnsafe(unsafe: UnsafeReason)
    | WithheldLedger(ledger: BalanceReason)
    | NonPositive

  datatype Projected = Projected(
    deal: Deal,
    projectAsTrade: bool,
    eventType: Option<EventType>,
    opening: Option<OpeningState>,
    balance: BalanceNotice,
    commission: Option<real>,
    commissionComplete: Option<bool>,
    totalCommission: Option<real>)

  // ---------------------------------------------------------------- specification of one row

  predicate Publishable(d: Deal) {
    Belongs(d, d.positionId) && d.symbol.Some? && IsValidEntry(d.entry)
  }

  ghost predicate IsFirstOpening(rows: seq<Deal>, p: string, i: nat) {
    && i < |rows| && Belongs(rows[i], p) && IsOpenEntry(rows[i].entry)
    && (forall j | 0 <= j < i && Belongs(rows[j], p) :: !IsOpenEntry(rows[j].entry))
    && AllIdentified(rows, p)
  }

  /** Row `i` is an opening that the machine accepted. */
  ghost predicate OpeningTracked(rows: seq<Deal>, p: string, i: nat) {
    && i < |rows| && Belongs(rows[i], p) && IsOpenEntry(rows[i].entry)
    && VolumesKnown(rows, p) && StateAt(rows, p, i + 1).Running?
  }

  ghost function OpeningStateOf(rows: seq<Deal>, p: string, i: nat): OpeningState
    requires OpeningTracked(rows, p, i)
  {
    VolumeNotNegative(rows, p, i);
    var before, after := StateAt(rows, p, i), StateAt(rows, p, i + 1);
    OpeningState(before.volume, after.volume, after.notional / after.volume)
  }

  /** The type of exit row `i`: final exactly when the machine of a safe position closes on it. */
  ghost function ExitType(rows: seq<Deal>, p: string, i: nat): EventType
    requires i < |rows|
  {
    if Safe(rows, p) && (SafePrefix(rows, p, i + 1); StateAt(rows, p, i + 1).closed) then TradeClosed
    else TradePartialClosed
  }

  ghost function TypeOf(rows: seq<Deal>, i: nat): Option<EventType>
    requires i < |rows|
  {
    var p := rows[i].positionId;
    if IsOpenEntry(rows[i].entry) then
      if IsFirstOpening(rows, p, i) then Some(TradeOpened) else Some(TradeVolumeChanged)
    else if rows[i].entry == TextInOut then None
    else Some(ExitType(rows, p, i))
  }

  ghost function BalanceOf(rows: seq<Deal>, anchor: Option<Anchor>, i: nat): BalanceNotice
    requires i < |rows|
  {
    var p := rows[i].positionId;
    if !IsFirstOpening(rows, p, i) then NotAnOpening
    else if Verdict(rows, p).Some? then WithheldUnsafe(Verdict(rows, p).value)
    else
      var before := BalanceBeforeRow(rows, anchor, i);
      if before.value.None? then WithheldLedger(before.reason)
      else if before.value.value > 0.0 then Published(before.value.value)
      else NonPositive
  }

  ghost function ProjectRow(rows: seq<Deal>, anchor: Option<Anchor>, i: nat): Projected
    requires i < |rows| && Publishable(rows[i])
  {
    var row, p := rows[i], rows[i].positionId;
    var closes := TypeOf(rows, i) == Some(TradeClosed);
    Projected(
      row,
      Safe(rows, p) && row.entry != TextInOut,
      TypeOf(rows, i),
      if Objection(rows, p).None? && OpeningTracked(rows, p, i) then Some(OpeningStateOf(rows, p, i)) else None,
      BalanceOf(rows, anchor, i),
      if FeesComplete(row) then Some(row.commission.value + row.fee.value) else row.commission,
      if closes then Some(CostsComplete(rows, p)) else None,
      if closes && CostsComplete(rows, p) then Some(CostOf(rows, p)) else None)
  }

  /** What the first `n` rows publish, in ledger order. */
  ghost function ProjectionOf(rows: seq<Deal>, anchor: Option<Anchor>, n: nat): seq<Projected>
    requires n <= |rows|
  {
    if n == 0 then []
    else ProjectionOf(rows, anchor, n - 1)
         + if Publishable(rows[n - 1]) then [ProjectRow(rows, anchor, n - 1)] else []
  }

  // ---------------------------------------------------------------- the loops

  /** `list` holds, in order, the rows of `p` among the first `n`. */
  ghost predicate IndexList(rows: seq<Deal>, p: string, n: nat, list: seq<nat>)
    requires n <= |rows|
  {
    && Ascending(list)
    && (forall i: nat :: i in list <==> i < n && Belongs(rows[i], p))
  }

  ghost predicate Ascending(list: seq<nat>) {
    forall a, b | 0 <= a < b < |list| :: list[a] < list[b]
  }

  lemma {:induction false} AscendingAppend(list: seq<nat>, n: nat)
    requires Ascending(list) && forall i | i in list :: i < n
    ensures Ascending(list + [n])
  {
    forall a | 0 <= a < |list| ensures list[a] < n { assert list[a] in list; }
  }

  lemma {:induction false} AscendingSplit(list: seq<nat>, k: nat)
    requires Ascending(list) && k < |list|
    ensures forall i | i in list[..k] :: i < list[k]
  {
  }

  method IndexPositions(rows: seq<Deal>) returns (order: seq<string>, indices: map<string, seq<nat>>)
    ensures forall p :: p in indices <==> IsPosition(rows, p)
    ensures forall p | p in indices :: IndexList(rows, p, |rows|, indices[p])
    ensures forall p :: p in order <==> p in indices
    ensures Distinct(order)
  {
    order, indices := [], map[];
    for n := 0 to |rows|
      invariant forall p :: p in indices <==> exists i :: 0 <= i < n && Belongs(rows[i], p)
      invariant forall p | p in indices :: IndexList(rows, p, n, indices[p])
      invariant forall p :: p in order <==> p in indices
      invariant Distinct(order)
    {
      var p := rows[n].positionId;
      if Belongs(rows[n], p) {
        if p !in indices {
          order, indices := order + [p], indices[p := []];
        }
        AscendingAppend(indices[p], n);
        indices := indices[p := indices[p] + [n]];
      }
    }
  }

  lemma {:induction false} StateSkips(rows: seq<Deal>, p: string, from: nat, to: nat)
    requires from <= to <= |rows|
    requires forall j | from <= j < to :: !Belongs(rows[j], p)
    ensures StateAt(rows, p, to) == StateAt(rows, p, from)
  {
    if from < to { StateSkips(rows, p, from, to - 1); }
  }

  lemma {:induction false} StoppedStays(rows: seq<Deal>, p: string, from: nat, to: nat)
    requires from <= to <= |rows| && StateAt(rows, p, from).Stopped?
    ensures StateAt(rows, p, to) == StateAt(rows, p, from)
  {
    if from < to { StoppedStays(rows, p, from, to - 1); }
  }

  method ListOpenings(rows: seq<Deal>, p: string, indices: seq<nat>) returns (openings: seq<nat>)
    requires IndexList(rows, p, |rows|, indices)
    ensures Ascending(openings)
    ensures forall i: nat :: i in openings <==> i < |rows| && Belongs(rows[i], p) && IsOpenEntry(rows[i].entry)
  {
    openings := [];
    for k := 0 to |indices|
      invariant forall i: nat :: i in openings <==> i in indices[..k] && i in indices && IsOpenEntry(rows[i].entry)
      invariant Ascending(openings)
    {
      assert indices[k] in indices;
      assert indices[..k + 1] == indices[..k] + [indices[k]];
      AscendingSplit(indices, k);
      if IsOpenEntry(rows[indices[k]].entry) {
        AscendingAppend(openings, indices[k]);
        openings := openings + [indices[k]];
      }
    }
    assert indices[..|indices|] == indices;
  }

  /** The checks made before the machine runs, in the source's order. */
  method Precheck(rows: seq<Deal>, p: string, indices: seq<nat>)
    returns (objection: Option<UnsafeReason>, firstOpen: Option<nat>)
    requires IndexList(rows, p, |rows|, indices)
    ensures objection == Objection(rows, p)
    ensures forall i: nat :: firstOpen == Some(i) <==> IsFirstOpening(rows, p, i)
  {
    var openings := ListOpenings(rows, p, indices);
    if openings == [] { return Some(OpeningUnavailable), None; }
    assert openings[0] in openings;
    if exists i | i in indices :: rows[i].ticket.None? { return Some(IdentityUnavailable), None; }
    firstOpen := Some(openings[0]);
    if exists i | i in indices :: rows[i].entry == TextInOut { return Some(InOutReversal), firstOpen; }
    if (exists i | i in openings :: rows[i].direction != rows[openings[0]].direction)
       || (exists i | i in openings :: !OpeningComplete(rows[i])) {
      return Some(OpeningIncomplete), firstOpen;
    }
    if exists i | i in indices :: IsExitEntry(rows[i].entry) && !PositiveVolume(rows[i]) {
      return Some(ExitVolumeIncomplete), firstOpen;
    }
    objection := None;
  }

  /** What one position's run leaves behind for the rows it publishes. */
  datatype Run = Run(
    verdict: Option<UnsafeReason>,
    firstOpen: Option<nat>,
    openings: map<nat, OpeningState>,
    exits: map<nat, EventType>)

  ghost predicate OpeningsRecorded(rows: seq<Deal>, p: string, n: nat, openings: map<nat, OpeningState>) {
    && (forall i: nat :: i in openings <==> i < n && OpeningTracked(rows, p, i))
    && (forall i | i in openings :: openings[i] == OpeningStateOf(rows, p, i))
  }

  ghost predicate ExitsRecorded(rows: seq<Deal>, p: string, n: nat, exits: map<nat, EventType>)
    requires n <= |rows|
  {
    && (forall i: nat :: i in exits <==> i < n && Belongs(rows[i], p) && IsExitEntry(rows[i].entry))
    && (forall i | i in exits :: StateAt(rows, p, i + 1).Running? &&
          exits[i] == if StateAt(rows, p, i + 1).closed then TradeClosed else TradePartialClosed)
  }

  lemma {:induction false} OpeningsExtend(
    rows: seq<Deal>, p: string, at: nat, index: nat, openings: map<nat, OpeningState>)
    requires at <= index < |rows| && OpeningsRecorded(rows, p, at, openings)
    requires forall j | at <= j < index :: !Belongs(rows[j], p)
    ensures OpeningsRecorded(rows, p, index + 1,
              if OpeningTracked(rows, p, index) then openings[index := OpeningStateOf(rows, p, index)] else openings)
  {
  }

  lemma {:induction false} ExitsExtend(rows: seq<Deal>, p: string, at: nat, index: nat, exits: map<nat, EventType>)
    requires at <= index < |rows| && ExitsRecorded(rows, p, at, exits)
    requires forall j | at <= j < index :: !Belongs(rows[j], p)
    requires Belongs(rows[index], p) && StateAt(rows, p, index + 1).Running?
    ensures ExitsRecorded(rows, p, index + 1,
              if !IsExitEntry(rows[index].entry) then exits
              else exits[index := if StateAt(rows, p, index + 1).closed then TradeClosed else TradePartialClosed])
  {
  }

  /** The branches for one deal, on the loop's own variables. */
  method Step(volume: real, notional: real, closed: bool, row: Deal)
    returns (next: Machine, opening: Option<OpeningState>, exitType: Option<EventType>)
    requires volume >= 0.0
    requires IsOpenEntry(row.entry) ==> OpeningComplete(row)
    requires IsExitEntry(row.entry) ==> PositiveVolume(row)
    ensures next == Advance(Running(volume, notional, closed), row)
    ensures opening == if next.Running? && IsOpenEntry(row.entry)
                       then Some(OpeningState(volume, next.volume, next.notional / next.volume)) else None
    ensures exitType == if next.Running? && IsExitEntry(row.entry)
                        then Some(if next.closed then TradeClosed else TradePartialClosed) else None
  {
    if IsOpenEntry(row.entry) {
      if closed { return Stopped(Reopened), None, None; }
      var total := volume + row.volume.value;
      var paid := notional + row.volume.value * row.price.value;
      return Running(total, paid, false), Some(OpeningState(volume, total, paid / total)), None;
    }
    if !IsExitEntry(row.entry) { return Running(volume, notional, closed), None, None; }
    var exit := row.volume.value;
    if closed || volume <= VOLUME_TOLERANCE || exit > volume + VOLUME_TOLERANCE {
      return Stopped(ExitIncoherent), None, None;
    }
    if -VOLUME_TOLERANCE <= exit - volume <= VOLUME_TOLERANCE {
      return Running(0.0, 0.0, true), None, Some(TradeClosed);
    }
    var average := notional / volume;
    return Running(volume - exit, average * (volume - exit), false), None, Some(TradePartialClosed);
  }

  /** The loop over one position's deals; it stops at the first incoherent one. */
  method RunMachine(rows: seq<Deal>, p: string, indices: seq<nat>)
    returns (stopped: Option<UnsafeReason>, openings: map<nat, OpeningState>, exits: map<nat, EventType>)
    requires IndexList(rows, p, |rows|, indices) && VolumesKnown(rows, p)
    ensures stopped == var m := StateAt(rows, p, |rows|); if m.Stopped? then Some(m.reason) else None
    ensures OpeningsRecorded(rows, p, |rows|, openings)
    ensures if stopped.Some? then exits == map[] else ExitsRecorded(rows, p, |rows|, exits)
  {
    stopped, openings, exits := None, map[], map[];
    var volume, notional, closed := 0.0, 0.0, false;
    ghost var at := 0;
    for k := 0 to |indices|
      invariant at <= |rows|
      invariant forall i | i in indices :: i < at <==> i in indices[..k]
      invariant StateAt(rows, p, at) == Running(volume, notional, closed)
      invariant OpeningsRecorded(rows, p, at, openings)
      invariant ExitsRecorded(rows, p, at, exits)
    {
      NextIndex(rows, p, indices, k, at);
      var index := indices[k];
      StateSkips(rows, p, at, index);
      VolumeNotNegative(rows, p, index);
      OpeningsExtend(rows, p, at, index, openings);
      var next, opening, exitType := Step(volume, notional, closed, rows[index]);
      assert StateAt(rows, p, index + 1) == next;
      if next.Stopped? {
        StoppedStays(rows, p, index + 1, |rows|);
        NoTrackedAfterStop(rows, p, at, index);
        return Some(next.reason), openings, map[];
      }
      ExitsExtend(rows, p, at, index, exits);
      if opening.Some? {
        assert OpeningTracked(rows, p, index) && OpeningStateOf(rows, p, index) == opening.value;
        openings := openings[index := opening.value];
      }
      if exitType.Some? { exits := exits[index := exitType.value]; }
      volume, notional, closed := next.volume, next.notional, next.closed;
      at := index + 1;
    }
    assert indices[..|indices|] == indices;
    StateSkips(rows, p, at, |rows|);
  }

  ghost predicate IsRunOf(rows: seq<Deal>, p: string, run: Run) {
    && run.verdict == Verdict(rows, p)
    && (forall i: nat :: run.firstOpen == Some(i) <==> IsFirstOpening(rows, p, i))
    && (if Objection(rows, p).None? then OpeningsRecorded(rows, p, |rows|, run.openings) else run.openings == map[])
    && (if run.verdict.None? then ExitsRecorded(rows, p, |rows|, run.exits) else run.exits == map[])
  }

  method RunPosition(rows: seq<Deal>, p: string, indices: seq<nat>) returns (run: Run)
    requires IndexList(rows, p, |rows|, indices)
    ensures IsRunOf(rows, p, run)
  {
    var objection, firstOpen := Precheck(rows, p, indices);
    if objection.Some? { return Run(objection, firstOpen, map[], map[]); }
    var stopped, openings, exits := RunMachine(rows, p, indices);
    run := Run(stopped, firstOpen, openings, exits);
  }

  /** Between two listed indices no row belongs to the position. */
  lemma {:induction false} NextIndex(rows: seq<Deal>, p: string, indices: seq<nat>, k: nat, at: nat)
    requires IndexList(rows, p, |rows|, indices) && k < |indices|
    requires forall i | i in indices :: i < at <==> i in indices[..k]
    ensures at <= indices[k] < |rows| && Belongs(rows[indices[k]], p)
    ensures forall j | at <= j < indices[k] :: !Belongs(rows[j], p)
    ensures forall i | i in indices :: i < indices[k] + 1 <==> i in indices[..k + 1]
  {
    assert indices[k] in indices;
    assert indices[k] !in indices[..k];
    forall i | i in indices
      ensures i < indices[k] + 1 <==> i in indices[..k + 1]
    {
      var b :| 0 <= b < |indices| && indices[b] == i;
      if b <= k { assert indices[..k + 1][b] == i; }
    }
  }

  lemma {:induction false} NoTrackedAfterStop(rows: seq<Deal>, p: string, at: nat, index: nat)
    requires at <= index < |rows| && StateAt(rows, p, index + 1).Stopped?
    requires forall j | at <= j < index :: !Belongs(rows[j], p)
    ensures forall i | at <= i < |rows| :: !OpeningTracked(rows, p, i)
  {
    forall i | index <= i < |rows|
      ensures !OpeningTracked(rows, p, i)
    {
      StoppedStays(rows, p, index + 1, i + 1);
    }
  }

  /** One machine per position, in the order the positions first appear. */
  method RunPositions(rows: seq<Deal>) returns (runs: map<string, Run>)
    ensures forall p :: p in runs <==> IsPosition(rows, p)
    ensures forall p | p in runs :: IsRunOf(rows, p, runs[p])
  {
    var order, indices := IndexPositions(rows);
    runs := map[];
    for k := 0 to |order|
      invariant forall p :: p in runs <==> p in order[..k]
      invariant forall p | p in runs :: IsRunOf(rows, p, runs[p])
    {
      var p := order[k];
      assert p in order;
      assert order[..k + 1] == order[..k] + [p];
      var run := RunPosition(rows, p, indices[p]);
      runs := runs[p := run];
    }
    assert order[..|order|] == order;
  }

  function TypeFrom(run: Run, row: Deal, i: nat): Option<EventType> {
    if IsOpenEntry(row.entry) then Some(if run.firstOpen == Some(i) then TradeOpened else TradeVolumeChanged)
    else if row.entry == TextInOut then None
    else Some(if i in run.exits then run.exits[i] else TradePartialClosed)
  }

  function BalanceFrom(run: Run, before: BalanceBefore, i: nat): BalanceNotice {
    if run.firstOpen != Some(i) then NotAnOpening
    else if run.verdict.Some? then WithheldUnsafe(run.verdict.value)
    else if before.value.None? then WithheldLedger(before.reason)
    else if before.value.value > 0.0 then Published(before.value.value)
    else NonPositive
  }

  /** A published row, from its position's run, its balance and the position's accumulated cost. */
  function Assemble(run: Run, before: BalanceBefore, paid: bool, cost: real, row: Deal, i: nat): Projected {
    var eventType := TypeFrom(run, row, i);
    var closes := eventType == Some(TradeClosed);
    Projected(
      row,
      run.verdict.None? && row.entry != TextInOut,
      eventType,
      if i in run.openings then Some(run.openings[i]) else None,
      BalanceFrom(run, before, i),
      if FeesComplete(row) then Some(row.commission.value + row.fee.value) else row.commission,
      if closes then Some(paid) else None,
      if closes && paid then Some(cost) else None)
  }

  /** What a row publishes can be read off its position's run and cost. */
  lemma {:induction false} PublishedFromRun(rows: seq<Deal>, anchor: Option<Anchor>, run: Run, i: nat)
    requires i < |rows| && Publishable(rows[i]) && IsRunOf(rows, rows[i].positionId, run)
    ensures ProjectRow(rows, anchor, i) ==
              Assemble(run, BalanceBeforeRow(rows, anchor, i), CostsComplete(rows, rows[i].positionId),
                       CostOf(rows, rows[i].positionId), rows[i], i)
  {
    assert run.firstOpen == Some(i) <==> IsFirstOpening(rows, rows[i].positionId, i);
  }

  /** The whole importer: backward walk, costs, one machine per position, then one pass that publishes. */
  method ReconstructTradeDeals(rows: seq<Deal>, anchor: Option<Anchor>) returns (projected: seq<Projected>)
    ensures projected == ProjectionOf(rows, anchor, |rows|)
  {
    var before := WalkBackwards(rows, anchor);
    var costs, complete := AccumulateCosts(rows);
    var runs := RunPositions(rows);
    projected := [];
    for n := 0 to |rows|
      invariant projected == ProjectionOf(rows, anchor, n)
    {
      var row := rows[n];
      if Publishable(row) {
        var p := row.positionId;
        assert IsPosition(rows, p);
        PublishedFromRun(rows, anchor, runs[p], n);
        var paid := p in complete && complete[p];
        assert paid == Lookup(complete, p, true);
        projected := projected + [Assemble(runs[p], before[n], paid, CostAt(costs, p), row, n)];
      }
    }
  }
}
