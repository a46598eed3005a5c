/** Events detected by comparing two snapshots of the account
    (worker/event_detector.py, and detect_windows_events in windows_agent/worker/live_sync.py). */
module SnapshotDiff {
  import opened Prelude
  import opened Events

  datatype Position = Position(
    volume: Option<real>,
    openPrice: Option<real>,
    stopLoss: Option<real>,
    takeProfit: Option<real>,
    details: Details)

  datatype Order = Order(
    volume: Option<real>,
    price: Option<real>,
    stopLoss: Option<real>,
    takeProfit: Option<real>,
    details: Details)

  datatype DealRow = DealRow(
    positionTicket: Option<string>,
    volume: Option<real>,
    closePrice: Option<real>,
    details: Details)

  datatype Snapshot = Snapshot(
    positions: map<string, Position>,
    orders: map<string, Order>,
    deals: map<string, DealRow>)

  function OpenedEvent(t: string, p: Position): Event {
    Bare(TradeOpened, t, p.details).(
      volume := p.volume, openPrice := p.openPrice, stopLoss := p.stopLoss, takeProfit := p.takeProfit)
  }

  function ModifiedEvent(t: string, was: Position, now: Position): Event {
    Bare(TradeModified, t, now.details).(
      volume := now.volume, stopLoss := now.stopLoss, takeProfit := now.takeProfit,
      previousStopLoss := was.stopLoss, previousTakeProfit := was.takeProfit)
  }

  function VolumeEvent(t: string, was: Position, now: Position): Event {
    Bare(TradeVolumeChanged, t, now.details).(
      volume := now.volume, previousVolume := was.volume,
      partialClose := Some(OrZero(now.volume) < OrZero(was.volume)))
  }

  /** The first deal, in enumeration order, booked on the closed position. */
  function ClosingDeal(deals: map<string, DealRow>, ticket: string, order: seq<string>): Option<DealRow> {
    if order == [] then None
    else if order[0] in deals && StrOf(deals[order[0]].positionTicket) == ticket then Some(deals[order[0]])
    else ClosingDeal(deals, ticket, order[1..])
  }

  function ClosedEvent(t: string, was: Position, deal: Option<DealRow>): Event {
    var details := if deal.Some? then deal.value.details else NO_DETAILS;
    Bare(TradeClosed, t, details.(symbol := was.details.symbol, direction := was.details.direction)).(
      volume := was.volume, openPrice := was.openPrice,
      closePrice := if deal.Some? then deal.value.closePrice else None)
  }

  function OrderEvent(kind: EventType, t: string, o: Order): Event {
    Bare(kind, t, o.details).(volume := o.volume, price := o.price, stopLoss := o.stopLoss, takeProfit := o.takeProfit)
  }

  function DealEventOf(t: string, d: DealRow): Event {
    Bare(DealRecorded, t, d.details).(
      volume := d.volume, closePrice := d.closePrice, positionTicket := d.positionTicket)
  }

  // Each scan of the detector, for one ticket.

  function OpeningEvents(was: Snapshot, now: Snapshot, t: string): seq<Event> {
    if t !in now.positions then []
    else if t !in was.positions then [OpenedEvent(t, now.positions[t])]
    else
      var p, q := was.positions[t], now.positions[t];
      (if p.stopLoss != q.stopLoss then [ModifiedEvent(t, p, q)] else []) +
      (if p.takeProfit != q.takeProfit then [ModifiedEvent(t, p, q)] else [])
  }

  function ClosingEvents(was: Snapshot, now: Snapshot, order: seq<string>, t: string): seq<Event> {
    if t in was.positions && t !in now.positions
    then [ClosedEvent(t, was.positions[t], ClosingDeal(now.deals, t, order))] else []
  }

  function OrderEvents(was: Snapshot, now: Snapshot, t: string): seq<Event> {
    if t !in now.orders then []
    else if t !in was.orders then [OrderEvent(PendingOrderCreated, t, now.orders[t])]
    else
      var o, q := was.orders[t], now.orders[t];
      if o.price != q.price || o.stopLoss != q.stopLoss || o.takeProfit != q.takeProfit
      then [OrderEvent(PendingOrderModified, t, q).(previousStopLoss := o.stopLoss, previousTakeProfit := o.takeProfit)]
      else []
  }

  function CancelEvents(was: Snapshot, now: Snapshot, t: string): seq<Event> {
    if t in was.orders && t !in now.orders && t !in now.positions
    then [OrderEvent(PendingOrderCancelled, t, was.orders[t])] else []
  }

  function VolumeEvents(was: Snapshot, now: Snapshot, t: string): seq<Event> {
    if t in was.positions && t in now.positions && was.positions[t].volume != now.positions[t].volume
    then [VolumeEvent(t, was.positions[t], now.positions[t])] else []
  }

  function DealEvents(was: Snapshot, now: Snapshot, t: string): seq<Event> {
    if t in now.deals && t !in was.deals
    then [DealEventOf(t, now.deals[t])] else []
  }

  /** The events of `scan` for the first `n` tickets. */
  function Collect(scan: string -> seq<Event>, order: seq<string>, n: nat): seq<Event>
    requires n <= |order|
  {
    if n == 0 then [] else Collect(scan, order, n - 1) + scan(order[n - 1])
  }

  /** The six scans in the order the detector runs them. */
  function Scans(was: Snapshot, now: Snapshot, order: seq<string>): (scans: seq<string -> seq<Event>>)
    ensures |scans| == 6
  {
    [t => OpeningEvents(was, now, t), t => ClosingEvents(was, now, order, t), t => OrderEvents(was, now, t),
     t => CancelEvents(was, now, t), t => VolumeEvents(was, now, t), t => DealEvents(was, now, t)]
  }

  function RunScans(scans: seq<string -> seq<Event>>, order: seq<string>, k: nat): seq<Event>
    requires k <= |scans|
  {
    if k == 0 then [] else RunScans(scans, order, k - 1) + Collect(scans[k - 1], order, |order|)
  }

  /** `order` lists every ticket once; the source sorts them, and any order will do. */
  ghost predicate Enumerates(order: seq<string>, was: Snapshot, now: Snapshot) {
    && Distinct(order)
    && (forall t | t in was.positions || t in now.positions || t in was.orders || t in now.orders
                   || t in was.deals || t in now.deals :: t in order)
  }

  function Detect(was: Snapshot, now: Snapshot, order: seq<string>): seq<Event> {
    RunScans(Scans(was, now, order), order, 6)
  }

  /** The loops over the tickets, one per scan. */
  method DetectWindowsEvents(was: Snapshot, now: Snapshot, order: seq<string>) returns (events: seq<Event>)
    ensures events == Detect(was, now, order)
  {
    var scans := Scans(was, now, order);
    events := [];
    for k := 0 to |scans|
      invariant events == RunScans(scans, order, k)
    {
      ghost var before := events;
      for n := 0 to |order|
        invariant events == before + Collect(scans[k], order, n)
      {
        events := events + scans[k](order[n]);
      }
    }
  }

  // ---------------------------------------------------------------- membership

  lemma {:induction false} Collected(scan: string -> seq<Event>, order: seq<string>, n: nat, e: Event)
    requires n <= |order|
    ensures e in Collect(scan, order, n) <==> exists t :: t in order[..n] && e in scan(t)
  {
    if n > 0 {
      Collected(scan, order, n - 1, e);
      assert order[..n] == order[..n - 1] + [order[n - 1]];
    }
  }

  lemma {:induction false} RunMembers(scans: seq<string -> seq<Event>>, order: seq<string>, k: nat, e: Event)
    requires k <= |scans|
    ensures e in RunScans(scans, order, k) <==> exists i, t :: 0 <= i < k && t in order && e in scans[i](t)
  {
    if k > 0 {
      RunMembers(scans, order, k - 1, e);
      Collected(scans[k - 1], order, |order|, e);
      assert order[..|order|] == order;
    }
  }

  ghost predicate OwnTicketOnly(scan: string -> seq<Event>) {
    forall t, e | e in scan(t) :: e.ticket == t
  }

  lemma {:induction false} ScansAreOwn(was: Snapshot, now: Snapshot, order: seq<string>)
    ensures forall i | 0 <= i < 6 :: OwnTicketOnly(Scans(was, now, order)[i])
  {
  }

  /** Some scan reports `e` for the ticket it carries. */
  ghost predicate Reported(was: Snapshot, now: Snapshot, order: seq<string>, e: Event) {
    exists i :: 0 <= i < 6 && e in Scans(was, now, order)[i](e.ticket)
  }

  /** An event is detected exactly when some scan reports it for the ticket it carries. */
  lemma {:induction false} DetectedMember(was: Snapshot, now: Snapshot, order: seq<string>, e: Event)
    ensures e in Detect(was, now, order) <==> e.ticket in order && Reported(was, now, order, e)
  {
    var scans := Scans(was, now, order);
    ScansAreOwn(was, now, order);
    RunMembers(scans, order, 6, e);
    if e in Detect(was, now, order) {
      var i, t :| 0 <= i < 6 && t in order && e in scans[i](t);
      assert OwnTicketOnly(scans[i]);
    }
  }

  // ---------------------------------------------------------------- the events, field by field

  /** The `n`th listed ticket is the first deal booked on the position. */
  ghost predicate ClosesAt(deals: map<string, DealRow>, t: string, order: seq<string>, n: nat) {
    && n < |order| && order[n] in deals && StrOf(deals[order[n]].positionTicket) == t
    && forall m | 0 <= m < n && order[m] in deals :: StrOf(deals[order[m]].positionTicket) != t
  }

  lemma {:induction false} ClosingDealIsFirst(deals: map<string, DealRow>, t: string, order: seq<string>)
    ensures match ClosingDeal(deals, t, order)
            case Some(d) => exists n: nat :: ClosesAt(deals, t, order, n) && d == deals[order[n]]
            case None => forall n | 0 <= n < |order| && order[n] in deals :: StrOf(deals[order[n]].positionTicket) != t
  {
    if order != [] {
      ClosingDealIsFirst(deals, t, order[1..]);
      if order[0] in deals && StrOf(deals[order[0]].positionTicket) == t {
        assert ClosesAt(deals, t, order, 0);
      } else {
        if n: nat :| ClosesAt(deals, t, order[1..], n) { assert ClosesAt(deals, t, order, n + 1); }
      }
    }
  }

  /** What a detected event says of a position that is there now. */
  ghost predicate SaysOfOpen(was: Snapshot, now: Snapshot, e: Event) {
    var t := e.ticket;
    t in now.positions &&
    var q := now.positions[t];
    match e.eventType
    case TradeOpened =>
      t !in was.positions
      && e == Event(TradeOpened, t, None, q.volume, None, None, q.openPrice, None, None, q.stopLoss, q.takeProfit,
                    None, None, None, q.details)
    case TradeModified =>
      t in was.positions &&
      var p := was.positions[t];
      (p.stopLoss != q.stopLoss || p.takeProfit != q.takeProfit)
      && e == Event(TradeModified, t, None, q.volume, None, None, None, None, None, q.stopLoss, q.takeProfit,
                    p.stopLoss, p.takeProfit, None, q.details)
    case TradeVolumeChanged =>
      t in was.positions &&
      var p := was.positions[t];
      p.volume != q.volume
      && e == Event(TradeVolumeChanged, t, None, q.volume, p.volume, Some(OrZero(q.volume) < OrZero(p.volume)),
                    None, None, None, None, None, None, None, None, q.details)
    case _ => false
  }

  /** What one says of a position that is gone: it closes at the price, costs and time of the first listed deal
      that is booked on it, if there is one. */
  ghost predicate SaysOfClosed(was: Snapshot, now: Snapshot, order: seq<string>, e: Event) {
    var t := e.ticket;
    e.eventType == TradeClosed && t in was.positions && t !in now.positions &&
    var p := was.positions[t];
    e == Event(TradeClosed, t, None, p.volume, None, None, p.openPrice, e.closePrice, None, None, None, None, None,
               None, e.details)
    && if exists n: nat :: ClosesAt(now.deals, t, order, n)
       then exists n: nat :: ClosesAt(now.deals, t, order, n)
              && var d := now.deals[order[n]];
                 e.closePrice == d.closePrice
                 && e.details == d.details.(symbol := p.details.symbol, direction := p.details.direction)
       else e.closePrice.None? && e.details == NO_DETAILS.(symbol := p.details.symbol, direction := p.details.direction)
  }

  /** What one says of an order: it is new, its price or a stop has changed, or it is gone and no position has its
      ticket. */
  ghost predicate SaysOfOrder(was: Snapshot, now: Snapshot, e: Event) {
    var t := e.ticket;
    match e.eventType
    case PendingOrderCreated =>
      t in now.orders && t !in was.orders &&
      var q := now.orders[t];
      e == Event(PendingOrderCreated, t, None, q.volume, None, None, None, None, q.price, q.stopLoss, q.takeProfit,
                 None, None, None, q.details)
    case PendingOrderModified =>
      t in now.orders && t in was.orders &&
      var o, q := was.orders[t], now.orders[t];
      (o.price != q.price || o.stopLoss != q.stopLoss || o.takeProfit != q.takeProfit)
      && e == Event(PendingOrderModified, t, None, q.volume, None, None, None, None, q.price, q.stopLoss,
                    q.takeProfit, o.stopLoss, o.takeProfit, None, q.details)
    case PendingOrderCancelled =>
      t in was.orders && t !in now.orders && t !in now.positions &&
      var o := was.orders[t];
      e == Event(PendingOrderCancelled, t, None, o.volume, None, None, None, None, o.price, o.stopLoss, o.takeProfit,
                 None, None, None, o.details)
    case _ => false
  }

  /** And of a deal: it is new. */
  ghost predicate SaysOfDeal(was: Snapshot, now: Snapshot, e: Event) {
    var t := e.ticket;
    e.eventType == DealRecorded && t in now.deals && t !in was.deals &&
    var d := now.deals[t];
    e == Event(DealRecorded, t, None, d.volume, None, None, None, d.closePrice, None, None, None, None, None,
               d.positionTicket, d.details)
  }

  lemma {:induction false} OpenScans(was: Snapshot, now: Snapshot, e: Event)
    ensures e in OpeningEvents(was, now, e.ticket) || e in VolumeEvents(was, now, e.ticket) <==> SaysOfOpen(was, now, e)
  {
  }

  lemma {:induction false} ClosedScan(was: Snapshot, now: Snapshot, order: seq<string>, e: Event)
    ensures e in ClosingEvents(was, now, order, e.ticket) <==> SaysOfClosed(was, now, order, e)
  {
    ClosingDealIsFirst(now.deals, e.ticket, order);
    OneClosingDeal(now.deals, e.ticket, order);
  }

  lemma {:induction false} OneClosingDeal(deals: map<string, DealRow>, t: string, order: seq<string>)
    ensures forall n: nat, m: nat | ClosesAt(deals, t, order, n) && ClosesAt(deals, t, order, m) :: n == m
  {
  }

  lemma {:induction false} OrderScans(was: Snapshot, now: Snapshot, e: Event)
    ensures e in OrderEvents(was, now, e.ticket) || e in CancelEvents(was, now, e.ticket) <==> SaysOfOrder(was, now, e)
  {
  }

  lemma {:induction false} DealScan(was: Snapshot, now: Snapshot, e: Event)
    ensures e in DealEvents(was, now, e.ticket) <==> SaysOfDeal(was, now, e)
  {
  }

  /** Exactly which events are detected, with all their fields. */
  lemma {:induction false} DetectedIff(was: Snapshot, now: Snapshot, order: seq<string>, e: Event)
    ensures e in Detect(was, now, order) <==>
              && e.ticket in order
              && (SaysOfOpen(was, now, e) || SaysOfClosed(was, now, order, e)
                  || SaysOfOrder(was, now, e) || SaysOfDeal(was, now, e))
  {
    DetectedMember(was, now, order, e);
    OpenScans(was, now, e);
    ClosedScan(was, now, order, e);
    OrderScans(was, now, e);
    DealScan(was, now, e);
    SixScans(was, now, order, e);
  }

  lemma {:induction false} SixScans(was: Snapshot, now: Snapshot, order: seq<string>, e: Event)
    ensures Reported(was, now, order, e) <==>
              var t := e.ticket;
              || e in OpeningEvents(was, now, t) || e in ClosingEvents(was, now, order, t)
              || e in OrderEvents(was, now, t) || e in CancelEvents(was, now, t)
              || e in VolumeEvents(was, now, t) || e in DealEvents(was, now, t)
  {
    var scans, t := Scans(was, now, order), e.ticket;
    assert scans[0](t) == OpeningEvents(was, now, t) && scans[1](t) == ClosingEvents(was, now, order, t);
    assert scans[2](t) == OrderEvents(was, now, t) && scans[3](t) == CancelEvents(was, now, t);
    assert scans[4](t) == VolumeEvents(was, now, t) && scans[5](t) == DealEvents(was, now, t);
  }

  // ---------------------------------------------------------------- applying the events

  datatype PositionView = PositionView(volume: Option<real>, stopLoss: Option<real>, takeProfit: Option<real>)
  datatype OrderView = OrderView(price: Option<real>, stopLoss: Option<real>, takeProfit: Option<real>)

  /** What a consumer of the events knows about the account. */
  datatype View = View(positions: map<string, PositionView>, orders: map<string, OrderView>)

  /** What it knows about one ticket. */
  datatype TicketView = TicketView(position: Option<PositionView>, order: Option<OrderView>)

  function ViewPosition(p: Position): PositionView { PositionView(p.volume, p.stopLoss, p.takeProfit) }

  function ViewOrder(o: Order): OrderView { OrderView(o.price, o.stopLoss, o.takeProfit) }

  function ViewOf(s: Snapshot): View {
    View(map t | t in s.positions :: ViewPosition(s.positions[t]), map t | t in s.orders :: ViewOrder(s.orders[t]))
  }

  function At(v: View, t: string): TicketView {
    TicketView(
      if t in v.positions then Some(v.positions[t]) else None,
      if t in v.orders then Some(v.orders[t]) else None)
  }

  function Apply(v: View, e: Event): View {
    match e.eventType
    case TradeOpened => v.(positions := v.positions[e.ticket := PositionView(e.volume, e.stopLoss, e.takeProfit)])
    case TradeModified =>
      if e.ticket !in v.positions then v
      else
        var p := v.positions[e.ticket];
        v.(positions := v.positions[e.ticket := p.(stopLoss := e.stopLoss, takeProfit := e.takeProfit)])
    case TradeVolumeChanged =>
      if e.ticket !in v.positions then v
      else v.(positions := v.positions[e.ticket := v.positions[e.ticket].(volume := e.volume)])
    case TradeClosed => v.(positions := v.positions - {e.ticket})
    case PendingOrderCreated => v.(orders := v.orders[e.ticket := OrderView(e.price, e.stopLoss, e.takeProfit)])
    case PendingOrderModified => v.(orders := v.orders[e.ticket := OrderView(e.price, e.stopLoss, e.takeProfit)])
    case PendingOrderCancelled => v.(orders := v.orders - {e.ticket})
    case TradePartialClosed => v
    case DealRecorded => v
  }

  /** A consumer that applies the events in order. */
  function ApplyAll(v: View, events: seq<Event>): View {
    if events == [] then v else Apply(ApplyAll(v, events[..|events| - 1]), events[|events| - 1])
  }

  /** The same consumer, watching one ticket. */
  function ApplyAt(u: TicketView, t: string, e: Event): TicketView {
    if e.ticket != t then u
    else match e.eventType
      case TradeOpened => u.(position := Some(PositionView(e.volume, e.stopLoss, e.takeProfit)))
      case TradeModified =>
        if u.position.None? then u
        else u.(position := Some(u.position.value.(stopLoss := e.stopLoss, takeProfit := e.takeProfit)))
      case TradeVolumeChanged =>
        if u.position.None? then u else u.(position := Some(u.position.value.(volume := e.volume)))
      case TradeClosed => u.(position := None)
      case PendingOrderCreated => u.(order := Some(OrderView(e.price, e.stopLoss, e.takeProfit)))
      case PendingOrderModified => u.(order := Some(OrderView(e.price, e.stopLoss, e.takeProfit)))
      case PendingOrderCancelled => u.(order := None)
      case TradePartialClosed => u
      case DealRecorded => u
  }

  function Watch(u: TicketView, t: string, events: seq<Event>): TicketView {
    if events == [] then u else ApplyAt(Watch(u, t, events[..|events| - 1]), t, events[|events| - 1])
  }

  lemma {:induction false} WatchIsApply(v: View, t: string, events: seq<Event>)
    ensures At(ApplyAll(v, events), t) == Watch(At(v, t), t, events)
  {
    if events != [] { WatchIsApply(v, t, events[..|events| - 1]); }
  }

  lemma {:induction false} WatchConcat(u: TicketView, t: string, a: seq<Event>, b: seq<Event>)
    ensures Watch(u, t, a + b) == Watch(Watch(u, t, a), t, b)
  {
    if b == [] {
      assert a + b == a;
    } else {
      assert (a + b)[..|a + b| - 1] == a + b[..|b| - 1];
      WatchConcat(u, t, a, b[..|b| - 1]);
    }
  }

  lemma {:induction false} WatchOthers(u: TicketView, t: string, events: seq<Event>)
    requires forall e | e in events :: e.ticket != t
    ensures Watch(u, t, events) == u
  {
    if events != [] { WatchOthers(u, t, events[..|events| - 1]); }
  }

  /** One ticket sees, of a whole scan, just its own events, once. */
  lemma {:induction false} WatchScan(u: TicketView, t: string, scan: string -> seq<Event>, order: seq<string>, n: nat)
    requires n <= |order| && Distinct(order) && OwnTicketOnly(scan)
    ensures Watch(u, t, Collect(scan, order, n)) == if t in order[..n] then Watch(u, t, scan(t)) else u
  {
    if n > 0 {
      WatchScan(u, t, scan, order, n - 1);
      WatchConcat(u, t, Collect(scan, order, n - 1), scan(order[n - 1]));
      assert order[..n] == order[..n - 1] + [order[n - 1]];
      if order[n - 1] != t { WatchOthers(Watch(u, t, Collect(scan, order, n - 1)), t, scan(order[n - 1])); }
    }
  }

  function WatchScans(u: TicketView, t: string, scans: seq<string -> seq<Event>>, k: nat): TicketView
    requires k <= |scans|
  {
    if k == 0 then u else Watch(WatchScans(u, t, scans, k - 1), t, scans[k - 1](t))
  }

  lemma {:induction false} WatchSixScans(u: TicketView, t: string, scans: seq<string -> seq<Event>>)
    requires |scans| == 6
    ensures WatchScans(u, t, scans, 6) ==
            Watch(Watch(Watch(Watch(Watch(Watch(u, t, scans[0](t)), t, scans[1](t)), t, scans[2](t)), t, scans[3](t)),
                  t, scans[4](t)), t, scans[5](t))
  {
    assert WatchScans(u, t, scans, 1) == Watch(u, t, scans[0](t));
    assert WatchScans(u, t, scans, 3) == Watch(WatchScans(u, t, scans, 2), t, scans[2](t));
    assert WatchScans(u, t, scans, 5) == Watch(WatchScans(u, t, scans, 4), t, scans[4](t));
  }

  lemma {:induction false} WatchAllScans(
    u: TicketView, t: string, scans: seq<string -> seq<Event>>, order: seq<string>, k: nat)
    requires k <= |scans| && Distinct(order) && forall i | 0 <= i < k :: OwnTicketOnly(scans[i])
    ensures Watch(u, t, RunScans(scans, order, k)) == if t in order then WatchScans(u, t, scans, k) else u
  {
    if k > 0 {
      WatchAllScans(u, t, scans, order, k - 1);
      var before := Watch(u, t, RunScans(scans, order, k - 1));
      WatchConcat(u, t, RunScans(scans, order, k - 1), Collect(scans[k - 1], order, |order|));
      WatchScan(before, t, scans[k - 1], order, |order|);
      assert order[..|order|] == order;
    }
  }

  /** What a ticket should look like in the end: as in the current snapshot, except that an order
      that left the book because it became a position gives no event and stays. */
  ghost function Expected(was: Snapshot, now: Snapshot, t: string): TicketView {
    TicketView(
      if t in now.positions then Some(ViewPosition(now.positions[t])) else None,
      if t in now.orders then Some(ViewOrder(now.orders[t]))
      else if t in was.orders && t in now.positions then Some(ViewOrder(was.orders[t]))
      else None)
  }

  lemma {:induction false} WatchOne(u: TicketView, t: string, e: Event)
    ensures Watch(u, t, [e]) == ApplyAt(u, t, e)
  {
    assert [e][..0] == [];
  }

  lemma {:induction false} WatchPositionScans(
    was: Snapshot, now: Snapshot, order: seq<string>, t: string, u: TicketView)
    requires u.position == At(ViewOf(was), t).position
    ensures var a := Watch(u, t, OpeningEvents(was, now, t));
            var b := Watch(a, t, ClosingEvents(was, now, order, t));
            b == u.(position := if t !in now.positions then None
                                else if t !in was.positions then Some(ViewPosition(now.positions[t]))
                                else Some(ViewPosition(now.positions[t]).(volume := was.positions[t].volume)))
  {
    if t in now.positions {
      if t !in was.positions {
        WatchOne(u, t, OpenedEvent(t, now.positions[t]));
      } else {
        var p, q := was.positions[t], now.positions[t];
        var e := ModifiedEvent(t, p, q);
        WatchOne(u, t, e);
        WatchOne(ApplyAt(u, t, e), t, e);
        WatchConcat(u, t, if p.stopLoss != q.stopLoss then [e] else [],
                    if p.takeProfit != q.takeProfit then [e] else []);
      }
    } else if t in was.positions {
      WatchOne(u, t, ClosedEvent(t, was.positions[t], ClosingDeal(now.deals, t, order)));
    }
  }

  lemma {:induction false} WatchOrderScans(was: Snapshot, now: Snapshot, t: string, u: TicketView)
    requires u.order == At(ViewOf(was), t).order
    ensures var a := Watch(u, t, OrderEvents(was, now, t));
            Watch(a, t, CancelEvents(was, now, t)) == u.(order := Expected(was, now, t).order)
  {
    if |OrderEvents(was, now, t)| == 1 { WatchOne(u, t, OrderEvents(was, now, t)[0]); }
    if |CancelEvents(was, now, t)| == 1 { WatchOne(u, t, CancelEvents(was, now, t)[0]); }
  }

  lemma {:induction false} WatchLastScans(was: Snapshot, now: Snapshot, t: string, u: TicketView)
    requires t in now.positions && t in was.positions ==>
               u.position == Some(ViewPosition(now.positions[t]).(volume := was.positions[t].volume))
    ensures var a := Watch(u, t, VolumeEvents(was, now, t));
            Watch(a, t, DealEvents(was, now, t)) ==
              if t in now.positions && t in was.positions then u.(position := Some(ViewPosition(now.positions[t])))
              else u
  {
    if |VolumeEvents(was, now, t)| == 1 { WatchOne(u, t, VolumeEvents(was, now, t)[0]); }
    var a := Watch(u, t, VolumeEvents(was, now, t));
    if |DealEvents(was, now, t)| == 1 { WatchOne(a, t, DealEvents(was, now, t)[0]); }
  }

  lemma {:induction false} WatchForTicket(
    was: Snapshot, now: Snapshot, order: seq<string>, t: string, u: TicketView, scans: seq<string -> seq<Event>>)
    requires u == At(ViewOf(was), t) && scans == Scans(was, now, order)
    ensures WatchScans(u, t, scans, 6) == Expected(was, now, t)
  {
    WatchSixScans(u, t, scans);
    WatchPositionScans(was, now, order, t, u);
    var b := Watch(Watch(u, t, OpeningEvents(was, now, t)), t, ClosingEvents(was, now, order, t));
    assert b == Watch(Watch(u, t, scans[0](t)), t, scans[1](t));
    WatchOrderScans(was, now, t, b);
    var d := Watch(Watch(b, t, OrderEvents(was, now, t)), t, CancelEvents(was, now, t));
    assert d == Watch(Watch(b, t, scans[2](t)), t, scans[3](t));
    WatchLastScans(was, now, t, d);
  }

  /** Applying the detected events to the previous view of any ticket gives the current one, up to an
      order that became a position. */
  lemma {:induction false} DiffThenPatch(was: Snapshot, now: Snapshot, order: seq<string>, t: string)
    requires Enumerates(order, was, now)
    ensures At(ApplyAll(ViewOf(was), Detect(was, now, order)), t) == Expected(was, now, t)
  {
    var scans, u := Scans(was, now, order), At(ViewOf(was), t);
    WatchIsApply(ViewOf(was), t, Detect(was, now, order));
    ScansAreOwn(was, now, order);
    WatchAllScans(u, t, scans, order, 6);
    WatchForTicket(was, now, order, t, u, scans);
  }

  /** No event is detected exactly when nothing a consumer can see has changed and no deal is new. */
  lemma {:induction false} QuietIffUnchanged(was: Snapshot, now: Snapshot, order: seq<string>)
    requires Enumerates(order, was, now)
    ensures Detect(was, now, order) == [] <==>
              (forall t :: At(ViewOf(was), t) == Expected(was, now, t)) && now.deals.Keys <= was.deals.Keys
  {
    var events := Detect(was, now, order);
    if events == [] {
      forall t ensures At(ViewOf(was), t) == Expected(was, now, t) { DiffThenPatch(was, now, order, t); }
      forall t | t in now.deals ensures t in was.deals {
        DetectedMember(was, now, order, DealEventOf(t, now.deals[t]));
      }
    } else {
      DetectedMember(was, now, order, events[0]);
      var t := events[0].ticket;
      assert At(ViewOf(was), t) != Expected(was, now, t) || !(now.deals.Keys <= was.deals.Keys);
    }
  }
}
