/** What the published rows of one position look like as a whole. */
module Lifecycle {
  import opened Prelude
  import opened Events
  import opened Ledger
  import opened PositionMachine
  import opened Projection

  /** Every row of the position carries a symbol, so only unrecognised entries go unpublished. */
  ghost predicate AllNamed(rows: seq<Deal>, p: string) {
    forall i | 0 <= i < |rows| && Belongs(rows[i], p) :: rows[i].symbol.Some?
  }

  /** The event types published for `p` by the first `n` rows, in order. */
  ghost function TypesOf(rows: seq<Deal>, p: string, n: nat): seq<EventType>
    requires n <= |rows|
  {
    if n == 0 then []
    else TypesOf(rows, p, n - 1)
         + if Belongs(rows[n - 1], p) && Publishable(rows[n - 1]) && TypeOf(rows, n - 1).Some?
           then [TypeOf(rows, n - 1).value] else []
  }

  /** One opening, then any mix of scale-ins and partial exits, then at most one close and nothing after. */
  ghost predicate IsLifecycle(types: seq<EventType>) {
    && types != [] && types[0] == TradeOpened
    && (forall i | 0 < i < |types| :: types[i] in {TradeVolumeChanged, TradePartialClosed, TradeClosed})
    && (forall i | 0 <= i < |types| - 1 :: types[i] != TradeClosed)
  }

  ghost predicate LifecyclePrefix(types: seq<EventType>, m: Machine) {
    && m.Running?
    && (types == [] ==> m == FLAT)
    && (types != [] ==> IsLifecycle(types) && (m.closed <==> types[|types| - 1] == TradeClosed))
  }

  /** One more published row keeps the grammar, whatever it is, as long as it fits the machine. */
  lemma {:induction false} LifecycleExtends(types: seq<EventType>, m: Machine, row: Deal, added: EventType)
    requires LifecyclePrefix(types, m) && Advance(m, row).Running?
    requires IsOpenEntry(row.entry) || IsExitEntry(row.entry)
    requires added == if IsOpenEntry(row.entry) then if types == [] then TradeOpened else TradeVolumeChanged
                      else if Advance(m, row).closed then TradeClosed else TradePartialClosed
    ensures LifecyclePrefix(types + [added], Advance(m, row))
    ensures types == [] ==> IsOpenEntry(row.entry)
  {
  }

  ghost predicate NoOpeningBefore(rows: seq<Deal>, p: string, n: nat)
    requires n <= |rows|
  {
    forall i | 0 <= i < n && Belongs(rows[i], p) :: !IsOpenEntry(rows[i].entry)
  }

  lemma {:induction false} NoOpeningStep(rows: seq<Deal>, p: string, n: nat)
    requires n < |rows|
    ensures NoOpeningBefore(rows, p, n + 1) <==>
              NoOpeningBefore(rows, p, n) && !(Belongs(rows[n], p) && IsOpenEntry(rows[n].entry))
  {
  }

  lemma {:induction false} TypesStep(rows: seq<Deal>, p: string, n: nat)
    requires n < |rows| && (Belongs(rows[n], p) ==> rows[n].symbol.Some? && rows[n].entry != TextInOut)
    ensures TypesOf(rows, p, n + 1) == TypesOf(rows, p, n)
            + if Belongs(rows[n], p) && (IsOpenEntry(rows[n].entry) || IsExitEntry(rows[n].entry))
              then [TypeOf(rows, n).value] else []
  {
  }

  /** What the first `n` rows publish is the beginning of a lifecycle, and empty only before the first opening. */
  ghost predicate Begins(rows: seq<Deal>, p: string, n: nat)
    requires n <= |rows|
  {
    && LifecyclePrefix(TypesOf(rows, p, n), StateAt(rows, p, n))
    && (TypesOf(rows, p, n) == [] <==> NoOpeningBefore(rows, p, n))
  }

  lemma {:induction false} LifecycleSoFar(rows: seq<Deal>, p: string, n: nat)
    requires Safe(rows, p) && AllNamed(rows, p) && n <= |rows|
    ensures Begins(rows, p, n)
  {
    if n == 0 {
      assert TypesOf(rows, p, 0) == [] && StateAt(rows, p, 0) == FLAT;
    } else {
      LifecycleSoFar(rows, p, n - 1);
      LifecycleNext(rows, p, n - 1);
    }
  }

  lemma {:induction false} LifecycleNext(rows: seq<Deal>, p: string, i: nat)
    requires Safe(rows, p) && AllNamed(rows, p) && i < |rows| && Begins(rows, p, i)
    ensures Begins(rows, p, i + 1)
  {
    var row, types, m := rows[i], TypesOf(rows, p, i), StateAt(rows, p, i);
    SafePrefix(rows, p, i + 1);
    TypesStep(rows, p, i);
    NoOpeningStep(rows, p, i);
    if Belongs(row, p) && (IsOpenEntry(row.entry) || IsExitEntry(row.entry)) {
      PublishedType(rows, p, i, types);
      LifecycleExtends(types, m, row, TypeOf(rows, i).value);
    }
  }

  lemma {:induction false} PublishedType(rows: seq<Deal>, p: string, i: nat, types: seq<EventType>)
    requires Safe(rows, p) && i < |rows| && Belongs(rows[i], p)
    requires types == [] <==> NoOpeningBefore(rows, p, i)
    requires StateAt(rows, p, i + 1).Running?
    requires IsOpenEntry(rows[i].entry) || IsExitEntry(rows[i].entry)
    ensures TypeOf(rows, i) == Some(
              if IsOpenEntry(rows[i].entry) then if types == [] then TradeOpened else TradeVolumeChanged
              else if StateAt(rows, p, i + 1).closed then TradeClosed else TradePartialClosed)
  {
    assert rows[i].entry != TextInOut;
    assert IsOpenEntry(rows[i].entry) ==> (IsFirstOpening(rows, p, i) <==> NoOpeningBefore(rows, p, i));
  }

  /** As soon as one row of a fully named position is projected as a trade, the position's published
      events form one complete lifecycle; a sequence that does not is never projected. */
  lemma {:induction false} ProjectedPositionsFollowLifecycle(rows: seq<Deal>, anchor: Option<Anchor>, i: nat)
    requires i < |rows| && Publishable(rows[i]) && AllNamed(rows, rows[i].positionId)
    requires ProjectRow(rows, anchor, i).projectAsTrade
    ensures IsLifecycle(TypesOf(rows, rows[i].positionId, |rows|))
  {
    LifecycleSoFar(rows, rows[i].positionId, |rows|);
    assert HasOpening(rows, rows[i].positionId);
  }

  /** An exit of a safe position is published as the close exactly when the openings and exits up to it cancel,
      within 1e-8; any other exit is a partial close. */
  lemma {:induction false} CloseIffNothingLeft(rows: seq<Deal>, i: nat)
    requires i < |rows| && Publishable(rows[i]) && Safe(rows, rows[i].positionId) && IsExitEntry(rows[i].entry)
    ensures var p := rows[i].positionId;
            TypeOf(rows, i) == Some(
              if -0.00000001 <= Opened(rows, p, i + 1) - Exited(rows, p, i + 1) <= 0.00000001 then TradeClosed
              else TradePartialClosed)
  {
    ClosesIffNothingLeft(rows, rows[i].positionId, i);
    SafeIff(rows, rows[i].positionId);
  }

  lemma {:induction false} ClosedIsFinal(rows: seq<Deal>, p: string, i: nat, n: nat)
    requires Safe(rows, p) && i < n <= |rows|
    requires StateAt(rows, p, i + 1) == Running(0.0, 0.0, true)
    ensures StateAt(rows, p, n) == Running(0.0, 0.0, true)
    ensures forall j | i < j < n && Belongs(rows[j], p) :: !IsOpenEntry(rows[j].entry) && !IsExitEntry(rows[j].entry)
  {
    SafePrefix(rows, p, n);
    if i + 1 < n { ClosedIsFinal(rows, p, i, n - 1); }
  }

  lemma {:induction false} ClosedMeansFlat(rows: seq<Deal>, p: string, n: nat)
    requires n <= |rows| && StateAt(rows, p, n).Running? && StateAt(rows, p, n).closed
    ensures StateAt(rows, p, n) == Running(0.0, 0.0, true)
  {
    if n > 0 && StateAt(rows, p, n - 1).Running? && StateAt(rows, p, n - 1).closed { ClosedMeansFlat(rows, p, n - 1); }
  }

  /** A position's total cost appears on at most one row, it is exactly the accumulated cost, and one
      commission row that cannot be attributed suppresses every total. */
  lemma {:induction false} TotalsPublishedOnce(rows: seq<Deal>, anchor: Option<Anchor>, i: nat, j: nat)
    requires i < |rows| && Publishable(rows[i]) && ProjectRow(rows, anchor, i).totalCommission.Some?
    ensures !SomethingUnresolved(rows)
    ensures ProjectRow(rows, anchor, i).totalCommission.value == CostOf(rows, rows[i].positionId)
    ensures (j < |rows| && Publishable(rows[j]) && rows[j].positionId == rows[i].positionId
             && ProjectRow(rows, anchor, j).totalCommission.Some?) ==> i == j
  {
    var p := rows[i].positionId;
    if j < |rows| && Publishable(rows[j]) && rows[j].positionId == p
       && ProjectRow(rows, anchor, j).totalCommission.Some? && i != j
    {
      var first, second := if i < j then i else j, if i < j then j else i;
      SafePrefix(rows, p, first + 1);
      ClosedMeansFlat(rows, p, first + 1);
      ClosedIsFinal(rows, p, first, second + 1);
    }
  }

  /** A published opening balance is positive, belongs to a safe position's first opening, and is what
      the anchor leaves after taking back every effect from that row on. */
  lemma {:induction false} PublishedBalanceIsExact(rows: seq<Deal>, anchor: Option<Anchor>, i: nat, balance: real)
    requires i < |rows| && Publishable(rows[i])
    ensures ProjectRow(rows, anchor, i).balance == Published(balance) <==>
              && AnchorValid(anchor) && KnownFrom(rows, i) && balance > 0.0
              && balance + EffectsFrom(rows, i) == anchor.value.balance.value
              && ProjectRow(rows, anchor, i).projectAsTrade
              && ProjectRow(rows, anchor, i).eventType == Some(TradeOpened)
  {
  }
}
