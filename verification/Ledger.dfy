/** The account ledger: the effect of one row, the backward balance walk, and the attribution of
    costs to positions (windows_agent/worker/history_balance.py). */
module Ledger {
  import opened Prelude

  /** The normalised text of the `entry` field. Numeric codes and names are different values here
      because the source treats numeric 2 and the text INOUT differently. */
  datatype EntryCode = Code0 | Code1 | Code2 | Code3 | TextIn | TextOut | TextInOut | TextOutBy | Unrecognised

  predicate IsOpenEntry(e: EntryCode) { e in {Code0, TextIn} }

  predicate IsExitEntry(e: EntryCode) { e in {Code1, Code2, Code3, TextOut, TextInOut, TextOutBy} }

  predicate IsValidEntry(e: EntryCode) { e != Unrecognised }

  const TRADE_DEAL_TYPES: set<int> := {0, 1}
  const CREDIT_DEAL_TYPE := 3
  const KNOWN_BALANCE_DEAL_TYPES: set<int> := {0, 1, 2, 4, 5, 6, 7, 8, 9, 10, 11, 12, 15, 16, 17}
  const SEPARATE_COMMISSION_DEAL_TYPES: set<int> := {7, 8, 9, 10, 11}

  /** One exported row. `None` is a field that is missing, not numeric or not finite; the ticket is
      `None` when it is not a positive integer, and texts are already stripped. */
  datatype Deal = Deal(
    ticket: Option<string>,
    dealType: Option<int>,
    entry: EntryCode,
    positionId: string,
    orderId: string,
    symbol: Option<string>,
    direction: string,
    volume: Option<real>,
    price: Option<real>,
    profit: Option<real>,
    commission: Option<real>,
    swap: Option<real>,
    fee: Option<real>,
    stopLoss: Option<real>,
    takeProfit: Option<real>)

  datatype Anchor = Anchor(balance: Option<real>, credit: Option<real>, coherent: bool)

  predicate IsTradeType(d: Deal) { d.dealType.Some? && d.dealType.value in TRADE_DEAL_TYPES }

  predicate IsSeparateCommission(d: Deal) {
    d.dealType.Some? && d.dealType.value in SEPARATE_COMMISSION_DEAL_TYPES
  }

  predicate NamesSomething(id: string) { id != "" && id != "0" }

  /** A trade row that belongs to position `p`. */
  predicate Belongs(d: Deal, p: string) {
    IsTradeType(d) && d.positionId == p && NamesSomething(p)
  }

  /** The sum of the four economic fields, when all four are present. */
  function Economics(d: Deal): Option<real> {
    if d.profit.Some? && d.commission.Some? && d.swap.Some? && d.fee.Some?
    then Some(d.profit.value + d.commission.value + d.swap.value + d.fee.value)
    else None
  }

  datatype Effect = UnknownEffect | KnownEffect(balance: real, credit: real)

  function EffectOf(d: Deal): Effect {
    if d.dealType.None? || Economics(d).None? then UnknownEffect
    else if d.dealType.value == CREDIT_DEAL_TYPE then KnownEffect(0.0, Economics(d).value)
    else if d.dealType.value in KNOWN_BALANCE_DEAL_TYPES then KnownEffect(Economics(d).value, 0.0)
    else UnknownEffect
  }

  // ---------------------------------------------------------------- backward walk

  predicate AnchorValid(anchor: Option<Anchor>) {
    anchor.Some? && anchor.value.balance.Some? && anchor.value.credit.Some? && anchor.value.coherent
  }

  /** Every row from `i` on has a known effect. */
  ghost predicate KnownFrom(rows: seq<Deal>, i: nat) {
    forall j | i <= j < |rows| :: EffectOf(rows[j]).KnownEffect?
  }

  /** The balance effects of the rows from `i` on. */
  ghost function EffectsFrom(rows: seq<Deal>, i: nat): real
    requires i <= |rows| && KnownFrom(rows, i)
    decreases |rows| - i
  {
    if i == |rows| then 0.0 else EffectOf(rows[i]).balance + EffectsFrom(rows, i + 1)
  }

  datatype BalanceReason = AnchorUnavailable | EconomicsIncomplete | LaterRowIncomplete | LedgerExact

  datatype BalanceBefore = BalanceBefore(value: Option<real>, reason: BalanceReason)

  /** What may be known about the balance just before row `i`: exactly the anchor minus every later
      effect, when the anchor is usable and all those effects are known. */
  ghost function BalanceBeforeRow(rows: seq<Deal>, anchor: Option<Anchor>, i: nat): BalanceBefore
    requires i < |rows|
  {
    if !AnchorValid(anchor) then BalanceBefore(None, AnchorUnavailable)
    else if EffectOf(rows[i]).UnknownEffect? then BalanceBefore(None, EconomicsIncomplete)
    else if !KnownFrom(rows, i) then BalanceBefore(None, LaterRowIncomplete)
    else BalanceBefore(Some(anchor.value.balance.value - EffectsFrom(rows, i)), LedgerExact)
  }

  /** One pass from the last row to the first, carrying the running balance and whether the ledger
      is still known. A row has a value if and only if it and all later rows are known, and the value
      plus everything from that row on is the anchor. */
  method WalkBackwards(rows: seq<Deal>, anchor: Option<Anchor>) returns (before: seq<BalanceBefore>)
    ensures |before| == |rows|
    ensures forall i | 0 <= i < |rows| :: before[i] == BalanceBeforeRow(rows, anchor, i)
    ensures forall i | 0 <= i < |rows| :: before[i].value.Some? <==> AnchorValid(anchor) && KnownFrom(rows, i)
    ensures AnchorValid(anchor) ==> forall i | 0 <= i < |rows| && before[i].value.Some? ::
              before[i].value.value + EffectsFrom(rows, i) == anchor.value.balance.value
  {
    if !AnchorValid(anchor) {
      return seq(|rows|, _ => BalanceBefore(None, AnchorUnavailable));
    }
    var runningBalance, ledgerKnown := anchor.value.balance.value, true;
    before := [];
    for i := |rows| downto 0
      invariant |before| == |rows| - i
      invariant ledgerKnown <==> KnownFrom(rows, i)
      invariant ledgerKnown ==> runningBalance + EffectsFrom(rows, i) == anchor.value.balance.value
      invariant forall j | i <= j < |rows| :: before[j - i] == BalanceBeforeRow(rows, anchor, j)
    {
      var effect := EffectOf(rows[i]);
      assert KnownFrom(rows, i) <==> effect.KnownEffect? && KnownFrom(rows, i + 1);
      if effect.UnknownEffect? {
        before := [BalanceBefore(None, EconomicsIncomplete)] + before;
        ledgerKnown := false;
      } else if !ledgerKnown {
        before := [BalanceBefore(None, LaterRowIncomplete)] + before;
      } else {
        runningBalance := runningBalance - effect.balance;
        before := [BalanceBefore(Some(runningBalance), LedgerExact)] + before;
      }
    }
  }

  /** The balance before a row is known exactly when the anchor is usable and every row from there on is of a
      type with a known effect and has all four amounts. */
  lemma {:induction false} BalanceKnownIff(rows: seq<Deal>, anchor: Option<Anchor>, i: nat)
    requires i < |rows|
    ensures BalanceBeforeRow(rows, anchor, i).value.Some? <==>
              && anchor.Some? && anchor.value.balance.Some? && anchor.value.credit.Some? && anchor.value.coherent
              && forall j | i <= j < |rows| ::
                   var d := rows[j];
                   && d.dealType.Some? && (0 <= d.dealType.value <= 12 || 15 <= d.dealType.value <= 17)
                   && d.profit.Some? && d.commission.Some? && d.swap.Some? && d.fee.Some?
  {
    forall j | i <= j < |rows|
      ensures EffectOf(rows[j]).KnownEffect? <==>
                var d := rows[j];
                && d.dealType.Some? && (0 <= d.dealType.value <= 12 || 15 <= d.dealType.value <= 17)
                && d.profit.Some? && d.commission.Some? && d.swap.Some? && d.fee.Some?
    {
    }
  }

  /** Read forwards, a known prefix replays the account: each known balance plus its row's profit, commission,
      swap and fee is the next known balance, and a credit row leaves it alone; so deposits and overlapping
      positions are accounted exactly once. */
  lemma {:induction false} BalancesChainForward(rows: seq<Deal>, anchor: Option<Anchor>, i: nat)
    requires i + 1 < |rows| && BalanceBeforeRow(rows, anchor, i).value.Some?
    ensures BalanceBeforeRow(rows, anchor, i + 1).value.Some?
    ensures var d := rows[i];
            && d.profit.Some? && d.commission.Some? && d.swap.Some? && d.fee.Some?
            && BalanceBeforeRow(rows, anchor, i + 1).value.value
               == BalanceBeforeRow(rows, anchor, i).value.value
                  + if d.dealType == Some(3) then 0.0
                    else d.profit.value + d.commission.value + d.swap.value + d.fee.value
  {
    assert KnownFrom(rows, i + 1);
    assert EffectsFrom(rows, i) == EffectOf(rows[i]).balance + EffectsFrom(rows, i + 1);
  }

  // ---------------------------------------------------------------- costs

  predicate FeesComplete(d: Deal) { d.commission.Some? && d.fee.Some? }

  /** Commission and fee booked on a trade row itself; nothing when either is missing. */
  function OwnCost(d: Deal): real {
    if IsTradeType(d) && NamesSomething(d.positionId) && FeesComplete(d)
    then d.commission.value + d.fee.value else 0.0
  }

  predicate IsPosition(rows: seq<Deal>, p: string) {
    exists i :: 0 <= i < |rows| && Belongs(rows[i], p)
  }

  /** The positions that trade under order `o`. */
  function OrderPositions(rows: seq<Deal>, o: string): (ps: set<string>) {
    if !NamesSomething(o) then {}
    else set i | 0 <= i < |rows| && Belongs(rows[i], rows[i].positionId) && rows[i].orderId == o :: rows[i].positionId
  }

  datatype Attribution = NotSeparate | Nothing | Unresolved | Charged(position: string, amount: real)

  /** Where a separately booked commission row goes: to the position it names, else to the only
      position that trades under its order, else nowhere. */
  ghost function Attribute(rows: seq<Deal>, d: Deal): Attribution {
    if !IsSeparateCommission(d) then NotSeparate
    else if Economics(d).None? then Unresolved
    else if Economics(d).value == 0.0 then Nothing
    else if IsPosition(rows, d.positionId) then Charged(d.positionId, Economics(d).value)
    else
      var candidates := OrderPositions(rows, d.orderId);
      if |candidates| == 1 then
        var target :| target in candidates;
        Charged(target, Economics(d).value)
      else Unresolved
  }

  /** A trade row of position `p`. */
  predicate Trades(d: Deal, p: string) { d.dealType in {Some(0), Some(1)} && d.positionId == p && p !in {"", "0"} }

  lemma {:induction false} TradingIsPosition(rows: seq<Deal>, p: string)
    ensures IsPosition(rows, p) <==> exists i :: 0 <= i < |rows| && Trades(rows[i], p)
  {
    if i :| 0 <= i < |rows| && Belongs(rows[i], p) { assert Trades(rows[i], p); }
    if i :| 0 <= i < |rows| && Trades(rows[i], p) { assert Belongs(rows[i], p); }
  }

  lemma {:induction false} OrderPositionsIff(rows: seq<Deal>, o: string, p: string)
    ensures p in OrderPositions(rows, o) <==>
              o !in {"", "0"} && exists i :: 0 <= i < |rows| && Trades(rows[i], p) && rows[i].orderId == o
    ensures p in OrderPositions(rows, o) ==>
              ((forall q | q in OrderPositions(rows, o) :: q == p) <==>
               forall i | 0 <= i < |rows| && Trades(rows[i], rows[i].positionId) && rows[i].orderId == o ::
                 rows[i].positionId == p)
  {
    forall i, q | 0 <= i < |rows| ensures Trades(rows[i], q) <==> Belongs(rows[i], q) {}
    forall i | 0 <= i < |rows| && Trades(rows[i], rows[i].positionId) && rows[i].orderId == o && NamesSomething(o)
      ensures rows[i].positionId in OrderPositions(rows, o)
    {
    }
  }

  /** Which position pays a separate commission row, and how much: the row's four amounts are known and do not
      cancel, and the position is the one it names, if that one trades, or else the only one that trades under
      its order. */
  lemma {:induction false} ChargedIff(rows: seq<Deal>, d: Deal, p: string, amount: real)
    ensures Attribute(rows, d) == Charged(p, amount) <==>
              && d.dealType in {Some(7), Some(8), Some(9), Some(10), Some(11)}
              && d.profit.Some? && d.commission.Some? && d.swap.Some? && d.fee.Some?
              && amount == d.profit.value + d.commission.value + d.swap.value + d.fee.value && amount != 0.0
              && if exists i :: 0 <= i < |rows| && Trades(rows[i], d.positionId) then p == d.positionId
                 else
                   && d.orderId !in {"", "0"}
                   && (exists i :: 0 <= i < |rows| && Trades(rows[i], p) && rows[i].orderId == d.orderId)
                   && (forall i | 0 <= i < |rows| && Trades(rows[i], rows[i].positionId)
                                  && rows[i].orderId == d.orderId :: rows[i].positionId == p)
  {
    var candidates := OrderPositions(rows, d.orderId);
    TradingIsPosition(rows, d.positionId);
    OrderPositionsIff(rows, d.orderId, p);
    if p in candidates { OnlyMemberIff(candidates, p); }
    if |candidates| == 1 { OnlyOneMember(candidates); }
  }

  lemma {:induction false} OnlyMemberIff(s: set<string>, x: string)
    requires x in s
    ensures |s| == 1 <==> forall y | y in s :: y == x
  {
    assert s == {x} + (s - {x});
    assert s - {x} == {} <==> forall y | y in s :: y == x;
  }

  /** Own costs booked to `p` by the first `n` rows. */
  ghost function OwnCosts(rows: seq<Deal>, p: string, n: nat): real
    requires n <= |rows|
  {
    if n == 0 then 0.0
    else OwnCosts(rows, p, n - 1) + if Belongs(rows[n - 1], p) then OwnCost(rows[n - 1]) else 0.0
  }

  /** Separate commissions charged to `p` by the first `n` rows. */
  ghost function SeparateCosts(rows: seq<Deal>, p: string, n: nat): real
    requires n <= |rows|
  {
    if n == 0 then 0.0
    else SeparateCosts(rows, p, n - 1) + ChargeTo(rows, rows[n - 1], p)
  }

  ghost function ChargeTo(rows: seq<Deal>, d: Deal, p: string): real {
    var a := Attribute(rows, d);
    if a.Charged? && a.position == p then a.amount else 0.0
  }

  ghost function CostOf(rows: seq<Deal>, p: string): real {
    OwnCosts(rows, p, |rows|) + SeparateCosts(rows, p, |rows|)
  }

  /** Some separate commission row could not be attributed. */
  ghost predicate SomethingUnresolved(rows: seq<Deal>) {
    exists i :: 0 <= i < |rows| && Attribute(rows, rows[i]).Unresolved?
  }

  /** The total of `p` may be published. */
  ghost predicate CostsComplete(rows: seq<Deal>, p: string) {
    && IsPosition(rows, p)
    && (forall i | 0 <= i < |rows| && Belongs(rows[i], p) :: FeesComplete(rows[i]))
    && !SomethingUnresolved(rows)
  }

  predicate Lookup<V(==)>(m: map<string, V>, k: string, v: V) { k in m && m[k] == v }

  function CostAt(m: map<string, real>, p: string): real { if p in m then m[p] else 0.0 }

  /** The trade rows' own costs, in one pass. */
  method AccumulateOwnCosts(rows: seq<Deal>) returns (costs: map<string, real>, complete: map<string, bool>)
    ensures forall p :: CostAt(costs, p) == OwnCosts(rows, p, |rows|)
    ensures forall p :: p in complete <==> IsPosition(rows, p)
    ensures forall p :: Lookup(complete, p, true) <==>
              IsPosition(rows, p) && forall i | 0 <= i < |rows| && Belongs(rows[i], p) :: FeesComplete(rows[i])
  {
    costs, complete := map[], map[];
    for n := 0 to |rows|
      invariant forall p :: CostAt(costs, p) == OwnCosts(rows, p, n)
      invariant forall p :: p in complete <==> exists i :: 0 <= i < n && Belongs(rows[i], p)
      invariant forall p | p in complete ::
                  complete[p] <==> forall i | 0 <= i < n && Belongs(rows[i], p) :: FeesComplete(rows[i])
    {
      var row := rows[n];
      var p := row.positionId;
      if IsTradeType(row) && NamesSomething(p) {
        assert Belongs(row, p);
        complete := complete[p := (if p in complete then complete[p] else true) && FeesComplete(row)];
        if FeesComplete(row) {
          costs := costs[p := CostAt(costs, p) + row.commission.value + row.fee.value];
        }
      }
    }
  }

  /** The position a separate commission row is charged to, if there is exactly one choice. */
  method FindTarget(rows: seq<Deal>, row: Deal) returns (target: Option<string>)
    requires IsSeparateCommission(row) && Economics(row).Some? && Economics(row).value != 0.0
    ensures Attribute(rows, row) ==
              if target.Some? then Charged(target.value, Economics(row).value) else Unresolved
  {
    if IsPosition(rows, row.positionId) { return Some(row.positionId); }
    var candidates := OrderPositions(rows, row.orderId);
    if |candidates| == 1 {
      OnlyOneMember(candidates);
      var only :| only in candidates;
      return Some(only);
    }
    return None;
  }

  /** The separate commission rows, in a second pass over the same maps. */
  method AccumulateCosts(rows: seq<Deal>) returns (costs: map<string, real>, complete: map<string, bool>)
    ensures forall p :: CostAt(costs, p) == CostOf(rows, p)
    ensures forall p :: Lookup(complete, p, true) <==> CostsComplete(rows, p)
  {
    costs, complete := AccumulateOwnCosts(rows);
    var unresolved := false;
    for n := 0 to |rows|
      invariant forall p :: CostAt(costs, p) == OwnCosts(rows, p, |rows|) + SeparateCosts(rows, p, n)
      invariant unresolved <==> exists i :: 0 <= i < n && Attribute(rows, rows[i]).Unresolved?
    {
      var row := rows[n];
      if IsSeparateCommission(row) {
        var amount := Economics(row);
        if amount.None? {
          unresolved := true;
        } else if amount.value != 0.0 {
          var target := FindTarget(rows, row);
          if target.None? {
            unresolved := true;
          } else {
            costs := costs[target.value := CostAt(costs, target.value) + amount.value];
          }
        }
      }
    }
    if unresolved {
      complete := map p | p in complete :: false;
    }
  }

  lemma {:induction false} OnlyOneMember<T>(s: set<T>)
    requires |s| == 1
    ensures forall a, b | a in s && b in s :: a == b
  {
    forall a, b | a in s && b in s
      ensures a == b
    {
      if a != b {
        assert {a, b} <= s;
        CardinalityOfSubset({a, b}, s);
      }
    }
  }

  lemma {:induction false} CardinalityOfSubset<T>(a: set<T>, b: set<T>)
    requires a <= b
    ensures |a| <= |b|
  {
    assert b == a + (b - a);
  }

  /** What the first `n` rows put on some position. */
  ghost function AttributedAmount(rows: seq<Deal>, n: nat): real
    requires n <= |rows|
  {
    if n == 0 then 0.0
    else
      var a := Attribute(rows, rows[n - 1]);
      AttributedAmount(rows, n - 1) + OwnCost(rows[n - 1]) + if a.Charged? then a.amount else 0.0
  }

  lemma {:induction false} ChargedIsPosition(rows: seq<Deal>, d: Deal)
    requires Attribute(rows, d).Charged?
    ensures IsPosition(rows, Attribute(rows, d).position)
  {
    if !IsPosition(rows, d.positionId) {
      var target := Attribute(rows, d).position;
      var i :| 0 <= i < |rows| && Belongs(rows[i], rows[i].positionId) && rows[i].positionId == target;
    }
  }

  /** No commission is lost or counted twice: over all positions, the accumulated costs add up to the
      own costs of the complete trade rows plus every attributed separate commission. */
  lemma {:induction false} CostsConserved(rows: seq<Deal>, positions: seq<string>, n: nat)
    requires n <= |rows|
    requires Distinct(positions) && forall p | IsPosition(rows, p) :: p in positions
    ensures Total(positions, p => OwnCosts(rows, p, n) + SeparateCosts(rows, p, n)) == AttributedAmount(rows, n)
  {
    var sums := p => OwnCosts(rows, p, n) + SeparateCosts(rows, p, n);
    if n == 0 {
      TotalOfOne(positions, sums, "");
    } else {
      CostsConserved(rows, positions, n - 1);
      var row := rows[n - 1];
      var earlier := p => OwnCosts(rows, p, n - 1) + SeparateCosts(rows, p, n - 1);
      var own := p => if Belongs(row, p) then OwnCost(row) else 0.0;
      var charged := p => ChargeTo(rows, row, p);
      var added := p => own(p) + charged(p);
      TotalOfSum(positions, earlier, added, sums);
      TotalOfSum(positions, own, charged, added);
      TotalOfOne(positions, own, row.positionId);
      var a := Attribute(rows, row);
      if a.Charged? { ChargedIsPosition(rows, row); }
      TotalOfOne(positions, charged, if a.Charged? then a.position else "");
    }
  }
}
