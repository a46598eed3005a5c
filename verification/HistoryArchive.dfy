/** Grouping of history events into the uploaded document (windows_agent/worker/history_archive.py:29-55)
    and the event count its acknowledgement must equal (windows_agent/real_handlers.py:2098-2149). */
module HistoryArchive {
  import opened Prelude

  const MAX_EVENTS := 50_000
  const MAX_EVENTS_PER_GROUP := 4

  /** A normalized event; only the trade it belongs to matters here. */
  datatype TradeEvent = TradeEvent(trade: string, body: string)

  datatype Group = Group(trade: string, events: seq<TradeEvent>)

  datatype Refusal = TradeMissing | LimitExceeded

  /** The events of one trade among the first `n`, in order. */
  function OfTrade(events: seq<TradeEvent>, trade: string, n: nat): seq<TradeEvent>
    requires n <= |events|
  {
    if n == 0 then []
    else OfTrade(events, trade, n - 1) + if events[n - 1].trade == trade then [events[n - 1]] else []
  }

  /** What the groups of one trade hold, concatenated. */
  function Ungroup(groups: seq<Group>, trade: string): seq<TradeEvent> {
    if groups == [] then []
    else
      var last := groups[|groups| - 1];
      Ungroup(groups[..|groups| - 1], trade) + if last.trade == trade then last.events else []
  }

  /** The number of events in a document. */
  function EventCount(groups: seq<Group>): nat {
    if groups == [] then 0 else EventCount(groups[..|groups| - 1]) + |groups[|groups| - 1].events|
  }

  predicate GroupFits(g: Group) {
    1 <= |g.events| <= 4 && forall e | e in g.events :: e.trade == g.trade
  }

  lemma {:induction false} UngroupConcat(a: seq<Group>, b: seq<Group>, trade: string)
    ensures Ungroup(a + b, trade) == Ungroup(a, trade) + Ungroup(b, trade)
    ensures EventCount(a + b) == EventCount(a) + EventCount(b)
  {
    if b == [] {
      assert a + b == a;
    } else {
      assert (a + b)[..|a + b| - 1] == a + b[..|b| - 1];
      UngroupConcat(a, b[..|b| - 1], trade);
    }
  }

  lemma {:induction false} OneGroup(g: Group, trade: string)
    ensures Ungroup([g], trade) == if g.trade == trade then g.events else []
    ensures EventCount([g]) == |g.events|
  {
    assert [g][..0] == [];
  }

  lemma {:induction false} OfTradeOnly(events: seq<TradeEvent>, trade: string, n: nat)
    requires n <= |events|
    ensures forall e | e in OfTrade(events, trade, n) :: e.trade == trade
    ensures OfTrade(events, trade, n) != [] <==> exists i :: 0 <= i < n && events[i].trade == trade
  {
    if n > 0 { OfTradeOnly(events, trade, n - 1); }
  }

  /** They are just those events, in the order in which they were given: `at` lists their places. */
  lemma {:induction false} OfTradeInOrder(events: seq<TradeEvent>, trade: string, n: nat) returns (at: seq<nat>)
    requires n <= |events|
    ensures |at| == |OfTrade(events, trade, n)|
    ensures forall i, j | 0 <= i < j < |at| :: at[i] < at[j]
    ensures forall k | 0 <= k < |at| :: at[k] < n && events[at[k]] == OfTrade(events, trade, n)[k]
    ensures forall i: nat | i < n :: i in at <==> events[i].trade == trade
  {
    at := [];
    if n > 0 {
      at := OfTradeInOrder(events, trade, n - 1);
      if events[n - 1].trade == trade { at := at + [n - 1]; }
    }
  }

  /** The number of the first `n` events whose trade is listed. */
  function CountListed(events: seq<TradeEvent>, trades: seq<string>, n: nat): nat
    requires n <= |events|
  {
    if n == 0 then 0 else CountListed(events, trades, n - 1) + if events[n - 1].trade in trades then 1 else 0
  }

  lemma {:induction false} CountListedGrows(events: seq<TradeEvent>, trades: seq<string>, trade: string, n: nat)
    requires n <= |events| && trade !in trades
    ensures CountListed(events, trades + [trade], n) == CountListed(events, trades, n) + |OfTrade(events, trade, n)|
  {
    if n > 0 { CountListedGrows(events, trades, trade, n - 1); }
  }

  lemma {:induction false} CountListedAll(events: seq<TradeEvent>, trades: seq<string>, n: nat)
    requires n <= |events| && forall i | 0 <= i < n :: events[i].trade in trades
    ensures CountListed(events, trades, n) == n
  {
    if n > 0 { CountListedAll(events, trades, n - 1); }
  }

  lemma {:induction false} CountListedNone(events: seq<TradeEvent>, n: nat)
    requires n <= |events|
    ensures CountListed(events, [], n) == 0
  {
    if n > 0 { CountListedNone(events, n - 1); }
  }

  /** Collects the events per trade, remembering the order in which trades first appear. */
  method Collect(events: seq<TradeEvent>)
    returns (result: Result<seq<string>, Refusal>, grouped: map<string, seq<TradeEvent>>)
    ensures result.Success? <==> |events| <= 50_000 && forall e | e in events :: e.trade != ""
    ensures result.Success? ==>
              && Distinct(result.value)
              && (forall t :: t in result.value <==> t in grouped)
              && (forall t :: t in grouped <==> exists i :: 0 <= i < |events| && events[i].trade == t)
              && (forall t | t in grouped :: grouped[t] == OfTrade(events, t, |events|))
  {
    var order: seq<string> := [];
    grouped := map[];
    for n := 0 to |events|
      invariant n <= MAX_EVENTS && forall i | 0 <= i < n :: events[i].trade != ""
      invariant Distinct(order)
      invariant forall t :: t in order <==> t in grouped
      invariant forall t :: t in grouped <==> exists i :: 0 <= i < n && events[i].trade == t
      invariant forall t | t in grouped :: grouped[t] == OfTrade(events, t, n)
    {
      var e := events[n];
      assert e in events;
      if e.trade == "" { return Failure(TradeMissing), grouped; }
      OfTradeOnly(events, e.trade, n);
      if e.trade !in grouped {
        grouped, order := grouped[e.trade := []], order + [e.trade];
      }
      grouped := grouped[e.trade := grouped[e.trade] + [e]];
      if n + 1 > MAX_EVENTS { return Failure(LimitExceeded), grouped; }
    }
    result := Success(order);
  }

  lemma {:induction false} GroupAdded(groups: seq<Group>, g: Group, values: seq<TradeEvent>, offset: nat, end: nat)
    requires offset <= end <= |values| && g.events == values[offset..end]
    requires Ungroup(groups, g.trade) == values[..offset] && EventCount(groups) == offset
    ensures Ungroup(groups + [g], g.trade) == values[..end] && EventCount(groups + [g]) == end
  {
    UngroupConcat(groups, [g], g.trade);
    OneGroup(g, g.trade);
    assert values[..offset] + values[offset..end] == values[..end];
  }

  /** Cuts one trade's events into groups of at most four. */
  method Cut(trade: string, values: seq<TradeEvent>) returns (groups: seq<Group>)
    requires forall e | e in values :: e.trade == trade
    ensures forall g | g in groups :: GroupFits(g) && g.trade == trade
    ensures Ungroup(groups, trade) == values && EventCount(groups) == |values|
    ensures forall i | 0 <= i < |groups| - 1 :: |groups[i].events| == 4
  {
    groups := [];
    var offset := 0;
    while offset < |values|
      invariant 0 <= offset <= |values|
      invariant forall g | g in groups :: GroupFits(g) && g.trade == trade
      invariant Ungroup(groups, trade) == values[..offset] && EventCount(groups) == offset
      invariant forall i | 0 <= i < |groups| ::
                  |groups[i].events| == MAX_EVENTS_PER_GROUP || (i == |groups| - 1 && offset == |values|)
    {
      var end := if offset + MAX_EVENTS_PER_GROUP <= |values| then offset + MAX_EVENTS_PER_GROUP else |values|;
      var g := Group(trade, values[offset..end]);
      GroupAdded(groups, g, values, offset, end);
      groups := groups + [g];
      offset := end;
    }
    assert values[..offset] == values;
  }

  lemma {:induction false} OtherTradesEmpty(groups: seq<Group>, trade: string, other: string)
    requires trade != other && forall g | g in groups :: g.trade == trade
    ensures Ungroup(groups, other) == []
  {
    if groups != [] {
      assert groups[|groups| - 1] in groups;
      OtherTradesEmpty(groups[..|groups| - 1], trade, other);
    }
  }

  /** Concatenated, the groups give back the listed trades' events and nothing else. */
  ghost predicate Holds(events: seq<TradeEvent>, listed: seq<string>, groups: seq<Group>) {
    forall t :: Ungroup(groups, t) == if t in listed then OfTrade(events, t, |events|) else []
  }

  /** The groups hold exactly the events of the first `k` listed trades. */
  ghost predicate Grouped(events: seq<TradeEvent>, order: seq<string>, k: nat, groups: seq<Group>)
    requires k <= |order|
  {
    && (forall g | g in groups :: GroupFits(g))
    && Holds(events, order[..k], groups)
    && EventCount(groups) == CountListed(events, order[..k], |events|)
  }

  lemma {:induction false} UngroupNext(
    events: seq<TradeEvent>, listed: seq<string>, t: string, groups: seq<Group>, cut: seq<Group>, u: string)
    requires t !in listed && Ungroup(groups, u) == if u in listed then OfTrade(events, u, |events|) else []
    requires Ungroup(cut, t) == OfTrade(events, t, |events|) && forall g | g in cut :: g.trade == t
    ensures Ungroup(groups + cut, u) == if u in listed + [t] then OfTrade(events, u, |events|) else []
  {
    UngroupConcat(groups, cut, u);
    if u != t { OtherTradesEmpty(cut, t, u); }
  }

  lemma {:induction false} HoldsNext(
    events: seq<TradeEvent>, listed: seq<string>, t: string, groups: seq<Group>, cut: seq<Group>)
    requires t !in listed && Holds(events, listed, groups)
    requires Ungroup(cut, t) == OfTrade(events, t, |events|) && forall g | g in cut :: g.trade == t
    ensures Holds(events, listed + [t], groups + cut)
  {
    forall u ensures Ungroup(groups + cut, u) == if u in listed + [t] then OfTrade(events, u, |events|) else [] {
      UngroupNext(events, listed, t, groups, cut, u);
    }
  }

  lemma {:induction false} CountNext(
    events: seq<TradeEvent>, listed: seq<string>, t: string, groups: seq<Group>, cut: seq<Group>)
    requires t !in listed && EventCount(groups) == CountListed(events, listed, |events|)
    requires EventCount(cut) == |OfTrade(events, t, |events|)|
    ensures EventCount(groups + cut) == CountListed(events, listed + [t], |events|)
  {
    UngroupConcat(groups, cut, t);
    CountListedGrows(events, listed, t, |events|);
  }

  lemma {:induction false} GroupedNext(
    events: seq<TradeEvent>, order: seq<string>, k: nat, groups: seq<Group>, cut: seq<Group>)
    requires k < |order| && Distinct(order) && Grouped(events, order, k, groups)
    requires forall g | g in cut :: GroupFits(g) && g.trade == order[k]
    requires Ungroup(cut, order[k]) == OfTrade(events, order[k], |events|)
    requires EventCount(cut) == |OfTrade(events, order[k], |events|)|
    ensures Grouped(events, order, k + 1, groups + cut)
  {
    assert order[..k + 1] == order[..k] + [order[k]];
    HoldsNext(events, order[..k], order[k], groups, cut);
    CountNext(events, order[..k], order[k], groups, cut);
  }

  lemma {:induction false} GroupedAll(events: seq<TradeEvent>, order: seq<string>, groups: seq<Group>)
    requires Grouped(events, order, |order|, groups)
    requires forall i | 0 <= i < |events| :: events[i].trade in order
    ensures forall t :: Ungroup(groups, t) == OfTrade(events, t, |events|)
    ensures EventCount(groups) == |events|
  {
    assert order[..|order|] == order;
    CountListedAll(events, order, |events|);
    forall t ensures Ungroup(groups, t) == OfTrade(events, t, |events|) { OfTradeOnly(events, t, |events|); }
  }

  /** Grouping loses nothing: every group has one to four events of one trade, concatenating a trade's
      groups gives back exactly its events in their order, and the document's event count is the number
      of events that went in. It is refused exactly when an event names no trade or there are too many. */
  method Groups(events: seq<TradeEvent>) returns (result: Result<seq<Group>, Refusal>)
    ensures result.Success? <==> |events| <= 50_000 && forall e | e in events :: e.trade != ""
    ensures result.Success? ==> forall g | g in result.value :: GroupFits(g)
    ensures result.Success? ==> forall t :: Ungroup(result.value, t) == OfTrade(events, t, |events|)
    ensures result.Success? ==> EventCount(result.value) == |events|
  {
    var collected, grouped := Collect(events);
    if collected.Failure? { return Failure(collected.error); }
    var order, groups := collected.value, [];
    CountListedNone(events, |events|);
    for k := 0 to |order|
      invariant Grouped(events, order, k, groups)
    {
      assert order[k] in order;
      OfTradeOnly(events, order[k], |events|);
      var cut := Cut(order[k], grouped[order[k]]);
      GroupedNext(events, order, k, groups, cut);
      groups := groups + cut;
    }
    GroupedAll(events, order, groups);
    result := Success(groups);
  }
}
