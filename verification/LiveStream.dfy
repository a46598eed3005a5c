/** The live stream: one raw event per bridge record, the replay of a batch against tracked volumes,
    and the merge with the snapshot diff (windows_agent/worker/live_sync.py:140-445). */
module LiveStream {
  import opened Prelude
  import opened Events
  import opened SnapshotDiff
  import Ledger
  import PositionMachine

  datatype SourceKind = DealAdd | PositionNote | OrderAdd | OrderUpdate | OrderDelete | HistoryAdd | OtherKind

  /** One event file. `position`, `orderId`, `ticket` and `dealId` are `None` when absent or empty;
      `archived` is set by the adapter for deals the history archive already holds. */
  datatype Record = Record(
    sequence: nat,
    kind: SourceKind,
    position: Option<string>,
    orderId: Option<string>,
    ticket: Option<string>,
    dealId: Option<string>,
    entry: Ledger.EntryCode,
    volume: Option<real>,
    price: Option<real>,
    stopLoss: Option<real>,
    takeProfit: Option<real>,
    archived: bool,
    details: Details)

  type Positions = map<string, Position>

  function Or<T>(a: Option<T>, b: Option<T>): Option<T> { if a.Some? then a else b }

  function NativeTicket(r: Record): Option<string> { Or(r.dealId, r.ticket) }

  function EventTicket(r: Record): string { StrOf(Or(Or(r.position, r.orderId), r.ticket)) }

  function DealEvent(kind: EventType, r: Record): Event {
    Bare(kind, EventTicket(r), r.details).(nativeDeal := NativeTicket(r), volume := r.volume)
  }

  /** The raw event of one record, seen between two position tables. */
  function FileEvent(r: Record, was: Positions, now: Positions): Event {
    var t := EventTicket(r);
    match r.kind
    case DealAdd =>
      if r.entry == Ledger.TextIn then
        if t in was && t in now then
          DealEvent(TradeVolumeChanged, r).(
            volume := now[t].volume, previousVolume := was[t].volume,
            openPrice := now[t].openPrice, partialClose := Some(false))
        else
          DealEvent(TradeOpened, r).(openPrice := r.price)
      else if r.entry in {Ledger.TextOut, Ledger.TextOutBy} then
        DealEvent(if t in now then TradePartialClosed else TradeClosed, r).(closePrice := r.price)
      else
        DealEvent(DealRecorded, r).(closePrice := r.price)
    case PositionNote =>
      if t !in now then Bare(DealRecorded, t, r.details).(volume := r.volume, closePrice := r.price)
      else if t in was && was[t].volume != now[t].volume then
        Bare(TradeVolumeChanged, t, r.details).(
          volume := now[t].volume, previousVolume := was[t].volume,
          partialClose := Some(OrZero(now[t].volume) < OrZero(was[t].volume)))
      else
        Bare(TradeModified, t, r.details).(
          volume := now[t].volume, stopLoss := now[t].stopLoss, takeProfit := now[t].takeProfit,
          previousStopLoss := if t in was then was[t].stopLoss else None,
          previousTakeProfit := if t in was then was[t].takeProfit else None)
    case OrderAdd =>
      Bare(PendingOrderCreated, t, r.details).(
        volume := r.volume, price := r.price, stopLoss := r.stopLoss, takeProfit := r.takeProfit)
    case OrderUpdate =>
      Bare(PendingOrderModified, t, r.details).(
        volume := r.volume, price := r.price, stopLoss := r.stopLoss, takeProfit := r.takeProfit)
    case OrderDelete => Bare(PendingOrderCancelled, t, r.details).(volume := r.volume, price := r.price)
    case HistoryAdd => Bare(PendingOrderCancelled, t, r.details).(volume := r.volume, price := r.price)
    case OtherKind => Bare(DealRecorded, t, r.details).(volume := r.volume, closePrice := r.price)
  }

  // ---------------------------------------------------------------- tracked positions

  /** Open volume and average open price per position, as the replay believes them to be. */
  datatype Tracked = Tracked(volumes: map<string, real>, prices: map<string, real>)

  function Load(ps: Positions): Tracked {
    Tracked(map t | t in ps && ps[t].volume.Some? :: ps[t].volume.value,
            map t | t in ps && ps[t].volume.Some? && ps[t].openPrice.Some? :: ps[t].openPrice.value)
  }

  function Find(m: map<string, real>, k: string): Option<real> { if k in m then Some(m[k]) else None }

  /** A deal that adds to a position the record names. */
  predicate IsEntryFill(r: Record) {
    r.kind == DealAdd && r.position.Some? && OrZero(r.volume) > 0.0 && r.entry == Ledger.TextIn
  }

  /** A deal that takes from a position the record names. */
  predicate IsExitFill(r: Record) {
    r.kind == DealAdd && r.position.Some? && OrZero(r.volume) > 0.0 && r.entry in {Ledger.TextOut, Ledger.TextOutBy}
  }

  /** The average price after an entry fill. */
  function AveragePrice(t: Tracked, r: Record): Option<real>
    requires IsEntryFill(r)
  {
    var k := r.position.value;
    var volume, price := Find(t.volumes, k), Find(t.prices, k);
    if volume.Some? && volume.value > 0.0 && price.Some? && r.price.Some? then
      Some((volume.value * price.value + r.volume.value * r.price.value) / (volume.value + r.volume.value))
    else r.price
  }

  function TrackedAfter(t: Tracked, r: Record): Tracked {
    if IsEntryFill(r) then
      var k := r.position.value;
      var average := AveragePrice(t, r);
      Tracked(t.volumes[k := OrZero(Find(t.volumes, k)) + r.volume.value],
              if average.Some? then t.prices[k := average.value] else t.prices)
    else if IsExitFill(r) && r.position.value in t.volumes then
      var k := r.position.value;
      var remaining := t.volumes[k] - r.volume.value;
      if remaining > PositionMachine.VOLUME_TOLERANCE then t.(volumes := t.volumes[k := remaining])
      else Tracked(t.volumes - {k}, t.prices - {k})
    else t
  }

  function Shown(volume: Option<real>, price: Option<real>): Position {
    Position(volume, price, None, None, NO_DETAILS)
  }

  /** The record moves a position that the replay follows itself, so the snapshots are not consulted. */
  predicate Settles(t: Tracked, r: Record) {
    IsEntryFill(r) || (IsExitFill(r) && r.position.value in t.volumes)
  }

  /** The position table just before the record, as the replay sees it. */
  function TableBefore(t: Tracked, r: Record, was: Positions): Positions {
    if !Settles(t, r) then was
    else
      var k := r.position.value;
      if k in t.volumes then map[k := Shown(Some(t.volumes[k]), Find(t.prices, k))] else map[]
  }

  /** And just after it. */
  function TableAfter(t: Tracked, r: Record, now: Positions): Positions {
    if !Settles(t, r) then now
    else
      var k, after := r.position.value, TrackedAfter(t, r);
      if IsEntryFill(r) then map[k := Shown(Some(after.volumes[k]), AveragePrice(t, r))]
      else if k in after.volumes then map[k := Shown(Some(after.volumes[k]), Find(t.prices, k))]
      else map[]
  }

  function ReplayedEvent(t: Tracked, r: Record, was: Positions, now: Positions): Event {
    FileEvent(r, TableBefore(t, r, was), TableAfter(t, r, now))
  }

  function TrackedAt(t: Tracked, records: seq<Record>, n: nat): Tracked
    requires n <= |records|
  {
    if n == 0 then t
    else
      var before := TrackedAt(t, records, n - 1);
      if records[n - 1].archived then before else TrackedAfter(before, records[n - 1])
  }

  /** How one record reads, given what the replay tracks. */
  type Reader = (Tracked, Record) -> Event

  function Reading(was: Positions, now: Positions): Reader {
    (t, r) => ReplayedEvent(t, r, was, now)
  }

  /** What record `k` gives: one event, or none for an archived deal. */
  function EventsAt(read: Reader, t: Tracked, records: seq<Record>, k: nat): seq<Event>
    requires k < |records|
  {
    if records[k].archived then [] else [read(TrackedAt(t, records, k), records[k])]
  }

  /** The events that `read` gives for the first `n` records. */
  function Replay(read: Reader, t: Tracked, records: seq<Record>, n: nat): seq<Event>
    requires n <= |records|
  {
    if n == 0 then [] else Replay(read, t, records, n - 1) + EventsAt(read, t, records, n - 1)
  }

  function Stream(records: seq<Record>, was: Snapshot, now: Snapshot): seq<Event> {
    Replay(Reading(was.positions, now.positions), Load(was.positions), records, |records|)
  }

  // ---------------------------------------------------------------- merge

  predicate IsClose(e: Event) { e.eventType in {TradePartialClosed, TradeClosed} }

  function CloseTickets(events: seq<Event>): set<string> { set e | e in events && IsClose(e) :: e.ticket }

  /** A volume reduction that some deal of the batch already accounts for. */
  predicate IsEcho(e: Event, closes: set<string>) {
    e.eventType == TradeVolumeChanged && e.partialClose == Some(true) && e.ticket in closes
  }

  function WithoutEchoes(events: seq<Event>, closes: set<string>, n: nat): seq<Event>
    requires n <= |events|
  {
    if n == 0 then []
    else WithoutEchoes(events, closes, n - 1) + if IsEcho(events[n - 1], closes) then [] else [events[n - 1]]
  }

  function Key(e: Event): (EventType, string) { (e.eventType, e.ticket) }

  function Covered(events: seq<Event>): set<(EventType, string)> { set e | e in events :: Key(e) }

  function StreamDeals(records: seq<Record>): set<string> {
    set r | r in records && r.kind == DealAdd :: StrOf(NativeTicket(r))
  }

  /** The reconciliation drops `e`. */
  predicate Drops(e: Event, covered: set<(EventType, string)>, closes: set<string>, deals: set<string>) {
    Key(e) in covered || IsEcho(e, closes) || (e.eventType == DealRecorded && e.ticket in deals)
  }

  function Reconciled(
    diff: seq<Event>, covered: set<(EventType, string)>, closes: set<string>, deals: set<string>, n: nat): seq<Event>
    requires n <= |diff|
  {
    if n == 0 then []
    else Reconciled(diff, covered, closes, deals, n - 1)
         + if Drops(diff[n - 1], covered, closes, deals) then [] else [diff[n - 1]]
  }

  function Kept(records: seq<Record>, was: Snapshot, now: Snapshot): seq<Event> {
    var stream := Stream(records, was, now);
    WithoutEchoes(stream, CloseTickets(stream), |stream|)
  }

  function Added(records: seq<Record>, was: Snapshot, now: Snapshot, order: seq<string>): seq<Event> {
    var diff := Detect(was, now, order);
    Reconciled(diff, Covered(Kept(records, was, now)), CloseTickets(Stream(records, was, now)), StreamDeals(records),
               |diff|)
  }

  function Merge(records: seq<Record>, was: Snapshot, now: Snapshot, order: seq<string>): seq<Event> {
    Kept(records, was, now) + Added(records, was, now, order)
  }

  /** The bookkeeping for one record, on the loop's own maps. */
  method Follow(volumes: map<string, real>, prices: map<string, real>, r: Record, was: Positions, now: Positions)
    returns (newVolumes: map<string, real>, newPrices: map<string, real>, before: Positions, after: Positions)
    ensures Tracked(newVolumes, newPrices) == TrackedAfter(Tracked(volumes, prices), r)
    ensures before == TableBefore(Tracked(volumes, prices), r, was)
    ensures after == TableAfter(Tracked(volumes, prices), r, now)
  {
    newVolumes, newPrices, before, after := volumes, prices, was, now;
    if IsEntryFill(r) {
      var k := r.position.value;
      var prior, priorPrice := Find(volumes, k), Find(prices, k);
      var remaining := OrZero(prior) + r.volume.value;
      var average := AveragePrice(Tracked(volumes, prices), r);
      before := if prior.Some? then map[k := Shown(prior, priorPrice)] else map[];
      after := map[k := Shown(Some(remaining), average)];
      newVolumes := volumes[k := remaining];
      if average.Some? { newPrices := prices[k := average.value]; }
    } else if IsExitFill(r) && r.position.value in volumes {
      var k := r.position.value;
      var prior, priorPrice := volumes[k], Find(prices, k);
      var remaining := prior - r.volume.value;
      before := map[k := Shown(Some(prior), priorPrice)];
      if remaining > PositionMachine.VOLUME_TOLERANCE {
        after := map[k := Shown(Some(remaining), priorPrice)];
        newVolumes := volumes[k := remaining];
      } else {
        after := map[];
        newVolumes, newPrices := volumes - {k}, prices - {k};
      }
    }
  }

  /** The replay loop. */
  method ReplayBatch(records: seq<Record>, was: Snapshot, now: Snapshot) returns (stream: seq<Event>)
    ensures stream == Stream(records, was, now)
  {
    var volumes, prices := Load(was.positions).volumes, Load(was.positions).prices;
    stream := [];
    ghost var read := Reading(was.positions, now.positions);
    for n := 0 to |records|
      invariant Tracked(volumes, prices) == TrackedAt(Load(was.positions), records, n)
      invariant stream == Replay(read, Load(was.positions), records, n)
    {
      if !records[n].archived {
        var before, after;
        volumes, prices, before, after := Follow(volumes, prices, records[n], was.positions, now.positions);
        stream := stream + [FileEvent(records[n], before, after)];
      }
    }
  }

  /** Replay, drop the echoes, then add what the snapshot diff saw and the stream did not. */
  method MergeEventStream(
    records: seq<Record>, was: Snapshot, now: Snapshot, order: seq<string>) returns (events: seq<Event>)
    ensures events == Merge(records, was, now, order)
  {
    var stream := ReplayBatch(records, was, now);
    var closes := CloseTickets(stream);
    var kept := [];
    for n := 0 to |stream|
      invariant kept == WithoutEchoes(stream, closes, n)
    {
      if !IsEcho(stream[n], closes) { kept := kept + [stream[n]]; }
    }
    var diff := DetectWindowsEvents(was, now, order);
    var covered, deals := Covered(kept), StreamDeals(records);
    events := kept;
    for n := 0 to |diff|
      invariant events == kept + Reconciled(diff, covered, closes, deals, n)
    {
      if !Drops(diff[n], covered, closes, deals) { events := events + [diff[n]]; }
    }
  }

  // ---------------------------------------------------------------- what one record says

  /** An exit deal is a close exactly when it leaves at most 1e-8 of a position that the replay tracks, or else
      when the current snapshot does not have the position; otherwise it is a partial close. The replay goes on
      with what it leaves. */
  lemma {:induction false} ExitIsCloseIff(t: Tracked, r: Record, was: Positions, now: Positions)
    requires r.kind == DealAdd && r.entry in {Ledger.TextOut, Ledger.TextOutBy}
    ensures var e, k := ReplayedEvent(t, r, was, now), EventTicket(r);
            && e.eventType in {TradePartialClosed, TradeClosed}
            && e.ticket == k && e.nativeDeal == NativeTicket(r) && e.details == r.details
            && e.volume == r.volume && e.closePrice == r.price
            && if r.position.Some? && OrZero(r.volume) > 0.0 && k in t.volumes then
                 && (e.eventType == TradeClosed <==> t.volumes[k] - r.volume.value <= 0.00000001)
                 && Find(TrackedAfter(t, r).volumes, k)
                    == if t.volumes[k] - r.volume.value <= 0.00000001 then None
                       else Some(t.volumes[k] - r.volume.value)
               else
                 TrackedAfter(t, r) == t && (e.eventType == TradeClosed <==> k !in now)
  {
  }

  /** An entry deal with a position and a volume adds to what the replay tracks of the position, and tells the
      volumes before and after it, or opens the position if it is not tracked. Any other entry deal changes nothing
      tracked and is an opening exactly when the position is missing from one of the two snapshots. */
  lemma {:induction false} EntryIsOpeningIff(t: Tracked, r: Record, was: Positions, now: Positions)
    requires r.kind == DealAdd && r.entry == Ledger.TextIn
    ensures var e, k := ReplayedEvent(t, r, was, now), EventTicket(r);
            && e.ticket == k && e.nativeDeal == NativeTicket(r) && e.details == r.details
            && e.eventType in {TradeOpened, TradeVolumeChanged}
            && (e.eventType == TradeOpened ==> e.volume == r.volume && e.openPrice == r.price)
            && if r.position.Some? && OrZero(r.volume) > 0.0 then
                 && (e.eventType == TradeOpened <==> k !in t.volumes)
                 && Find(TrackedAfter(t, r).volumes, k) == Some(OrZero(Find(t.volumes, k)) + r.volume.value)
                 && (k in t.volumes ==>
                       e.previousVolume == Some(t.volumes[k]) && e.volume == Some(t.volumes[k] + r.volume.value))
               else
                 && TrackedAfter(t, r) == t && (e.eventType == TradeOpened <==> k !in was || k !in now)
                 && (k in was && k in now ==> e.previousVolume == was[k].volume && e.volume == now[k].volume)
  {
  }

  /** What is neither a named deal, a note of an open position nor an order note is told as an accounting note. */
  lemma {:induction false} RecordedIff(t: Tracked, r: Record, was: Positions, now: Positions)
    ensures var e := ReplayedEvent(t, r, was, now);
            && (e.eventType == DealRecorded <==>
                  || r.kind == OtherKind
                  || (r.kind == DealAdd && r.entry !in {Ledger.TextIn, Ledger.TextOut, Ledger.TextOutBy})
                  || (r.kind == PositionNote && EventTicket(r) !in now))
            && (e.eventType == DealRecorded ==>
                  e.ticket == EventTicket(r) && e.volume == r.volume && e.closePrice == r.price
                  && e.details == r.details)
  {
  }

  /** A position note tells what the diff of the two snapshots tells of the position, under the same id: a change
      of volume if there is one, else a modification, which the diff has if a stop has changed. */
  lemma {:induction false} NoteTellsTheDiff(account: string, t: Tracked, r: Record, was: Snapshot, now: Snapshot)
    requires r.kind == PositionNote && EventTicket(r) in was.positions && EventTicket(r) in now.positions
    ensures var e := ReplayedEvent(t, r, was.positions, now.positions);
            var p, q := was.positions[EventTicket(r)], now.positions[EventTicket(r)];
            var told := e.(details := q.details);
            && BuildEventId(account, told) == BuildEventId(account, e)
            && e.eventType == (if p.volume != q.volume then TradeVolumeChanged else TradeModified)
            && (SaysOfOpen(was, now, told) <==>
                  p.volume != q.volume || p.stopLoss != q.stopLoss || p.takeProfit != q.takeProfit)
  {
  }

  /** The record shows the order as the snapshot does. */
  predicate ShowsOrder(r: Record, o: Order) {
    r.volume == o.volume && r.price == o.price && r.stopLoss == o.stopLoss && r.takeProfit == o.takeProfit
    && r.details == o.details
  }

  /** A note of a pending order tells what the diff tells of it; of the values before a change it says nothing,
      and of a cancelled order it leaves out the stops. So new and cancelled orders have the same id in both. */
  lemma {:induction false} OrderNoteTellsTheDiff(
    account: string, t: Tracked, r: Record, was: Snapshot, now: Snapshot, o: Order, told: Event)
    requires r.kind in {OrderAdd, OrderUpdate, OrderDelete, HistoryAdd} && ShowsOrder(r, o)
    requires SaysOfOrder(was, now, told) && told.ticket == EventTicket(r)
    requires told.eventType == (match r.kind
                                case OrderAdd => PendingOrderCreated
                                case OrderUpdate => PendingOrderModified
                                case _ => PendingOrderCancelled)
    requires if told.ticket in now.orders then o == now.orders[told.ticket] else o == was.orders[told.ticket]
    ensures var e := ReplayedEvent(t, r, was.positions, now.positions);
            && Key(e) == Key(told)
            && (match r.kind
                case OrderAdd => e == told
                case OrderUpdate => e == told.(previousStopLoss := None, previousTakeProfit := None)
                case _ => e == told.(stopLoss := None, takeProfit := None))
            && (r.kind != OrderUpdate ==> BuildEventId(account, e) == BuildEventId(account, told))
  {
  }

  // ---------------------------------------------------------------- what the merge guarantees

  lemma {:induction false} KeptMembers(events: seq<Event>, closes: set<string>, n: nat, e: Event)
    requires n <= |events|
    ensures e in WithoutEchoes(events, closes, n) <==> e in events[..n] && !IsEcho(e, closes)
  {
    if n > 0 {
      KeptMembers(events, closes, n - 1, e);
      assert events[..n] == events[..n - 1] + [events[n - 1]];
    }
  }

  lemma {:induction false} ReconciledMembers(
    diff: seq<Event>, covered: set<(EventType, string)>, closes: set<string>, deals: set<string>, n: nat, e: Event)
    requires n <= |diff|
    ensures e in Reconciled(diff, covered, closes, deals, n) <==> e in diff[..n] && !Drops(e, covered, closes, deals)
  {
    if n > 0 {
      ReconciledMembers(diff, covered, closes, deals, n - 1, e);
      assert diff[..n] == diff[..n - 1] + [diff[n - 1]];
    }
  }

  lemma {:induction false} ReplayMember(
    read: Reader, t: Tracked, records: seq<Record>, n: nat, e: Event) returns (k: nat)
    requires n <= |records| && e in Replay(read, t, records, n)
    ensures k < n && !records[k].archived && e == read(TrackedAt(t, records, k), records[k])
  {
    if e in Replay(read, t, records, n - 1) { k := ReplayMember(read, t, records, n - 1, e); }
    else { k := n - 1; }
  }

  lemma {:induction false} ReplayContains(read: Reader, t: Tracked, records: seq<Record>, n: nat, k: nat)
    requires k < n <= |records| && !records[k].archived
    ensures read(TrackedAt(t, records, k), records[k]) in Replay(read, t, records, n)
  {
    if k < n - 1 { ReplayContains(read, t, records, n - 1, k); }
  }

  /** The event that the stream carries for record `k`. */
  function EventFor(records: seq<Record>, was: Snapshot, now: Snapshot, k: nat): Event
    requires k < |records|
  {
    ReplayedEvent(TrackedAt(Load(was.positions), records, k), records[k], was.positions, now.positions)
  }

  lemma {:induction false} StreamMember(records: seq<Record>, was: Snapshot, now: Snapshot, e: Event) returns (k: nat)
    requires e in Stream(records, was, now)
    ensures k < |records| && !records[k].archived && e == EventFor(records, was, now, k)
  {
    k := ReplayMember(Reading(was.positions, now.positions), Load(was.positions), records, |records|, e);
  }

  lemma {:induction false} StreamContains(records: seq<Record>, was: Snapshot, now: Snapshot, k: nat)
    requires k < |records| && !records[k].archived
    ensures EventFor(records, was, now, k) in Stream(records, was, now)
  {
    ReplayContains(Reading(was.positions, now.positions), Load(was.positions), records, |records|, k);
  }

  /** The merged batch, member by member: a stream event survives unless it echoes a close, and a diff
      event survives unless the stream covers it. */
  lemma {:induction false} MergeMembers(
    records: seq<Record>, was: Snapshot, now: Snapshot, order: seq<string>, e: Event)
    ensures e in Kept(records, was, now) <==>
              e in Stream(records, was, now) && !IsEcho(e, CloseTickets(Stream(records, was, now)))
    ensures e in Added(records, was, now, order) <==>
              && e in Detect(was, now, order)
              && Key(e) !in Covered(Kept(records, was, now))
              && !IsEcho(e, CloseTickets(Stream(records, was, now)))
              && !(e.eventType == DealRecorded && e.ticket in StreamDeals(records))
    ensures e in Merge(records, was, now, order) <==>
              e in Kept(records, was, now) || e in Added(records, was, now, order)
  {
    var stream, diff := Stream(records, was, now), Detect(was, now, order);
    KeptMembers(stream, CloseTickets(stream), |stream|, e);
    assert stream[..|stream|] == stream;
    ReconciledMembers(diff, Covered(Kept(records, was, now)), CloseTickets(stream), StreamDeals(records), |diff|, e);
    assert diff[..|diff|] == diff;
  }

  /** The event says that a volume went down. */
  predicate IsReduction(e: Event) {
    e.eventType == TradeVolumeChanged && OrZero(e.volume) < OrZero(e.previousVolume)
  }

  /** An entry deal without a position or without a volume of its own, which the replay cannot follow. */
  predicate IsUnsizedEntry(r: Record) {
    r.kind == DealAdd && r.entry == Ledger.TextIn && (r.position.None? || OrZero(r.volume) <= 0.0)
  }

  /** A volume change in the stream is a note of a position that is still there, flagged as a partial close
      exactly when the volume went down, or an entry deal, never flagged; and an entry deal that the replay can
      follow reports no reduction. */
  lemma {:induction false} StreamVolumeChange(t: Tracked, r: Record, was: Positions, now: Positions)
    requires ReplayedEvent(t, r, was, now).eventType == TradeVolumeChanged
    ensures var e := ReplayedEvent(t, r, was, now);
            if r.kind == PositionNote then
              EventTicket(r) in now && e.partialClose == Some(OrZero(e.volume) < OrZero(e.previousVolume))
            else
              && r.kind == DealAdd && r.entry == Ledger.TextIn && e.partialClose == Some(false)
              && (IsReduction(e) ==> IsUnsizedEntry(r))
  {
  }

  lemma {:induction false} DiffTypes(was: Snapshot, now: Snapshot, order: seq<string>, e: Event)
    requires e in Detect(was, now, order)
    ensures e.nativeDeal.None?
    ensures IsClose(e) ==> e.ticket !in now.positions
    ensures e.eventType == TradeVolumeChanged ==>
              e.ticket in now.positions && e.partialClose == Some(OrZero(e.volume) < OrZero(e.previousVolume))
  {
    DetectedIff(was, now, order, e);
  }

  /** The event is that of an entry deal of the batch that the replay cannot follow. */
  ghost predicate IsUnsized(records: seq<Record>, was: Snapshot, now: Snapshot, e: Event) {
    exists k: nat :: k < |records| && !records[k].archived && IsUnsizedEntry(records[k])
                     && e == EventFor(records, was, now, k)
  }

  lemma {:induction false} ReductionIsOfOpenPosition(
    records: seq<Record>, was: Snapshot, now: Snapshot, order: seq<string>, f: Event)
    requires f in Merge(records, was, now, order) && IsReduction(f) && !IsUnsized(records, was, now, f)
    ensures f.ticket in now.positions && f.ticket !in CloseTickets(Stream(records, was, now))
  {
    MergeMembers(records, was, now, order, f);
    if f in Stream(records, was, now) {
      var k := StreamMember(records, was, now, f);
      StreamVolumeChange(TrackedAt(Load(was.positions), records, k), records[k], was.positions, now.positions);
    } else {
      DiffTypes(was, now, order, f);
    }
  }

  /** Each reduction is counted once: no ticket has both a close and a volume change that goes down, other than
      one told by an entry deal that the replay cannot follow; and reconciliation never repeats a (type, ticket)
      pair of the stream. */
  lemma {:induction false} ReductionsCountedOnce(
    records: seq<Record>, was: Snapshot, now: Snapshot, order: seq<string>, e: Event, f: Event)
    requires e in Merge(records, was, now, order) && f in Merge(records, was, now, order)
    ensures e.eventType in {TradePartialClosed, TradeClosed} && e.ticket == f.ticket
            && f.eventType == TradeVolumeChanged && OrZero(f.volume) < OrZero(f.previousVolume) ==>
              IsUnsized(records, was, now, f)
    ensures e in Kept(records, was, now) && f in Added(records, was, now, order) ==> Key(e) != Key(f)
  {
    MergeMembers(records, was, now, order, e);
    MergeMembers(records, was, now, order, f);
    if IsClose(e) && IsReduction(f) && !IsUnsized(records, was, now, f) {
      ReductionIsOfOpenPosition(records, was, now, order, f);
      if e !in Stream(records, was, now) { DiffTypes(was, now, order, e); }
    }
  }

  function Two(volume: real): Snapshot {
    Snapshot(map["1" := Position(Some(volume), Some(1.0), None, None, NO_DETAILS)], map[], map[])
  }

  function DealOn(entry: Ledger.EntryCode, sequence: nat, volume: Option<real>): Record {
    Record(sequence, DealAdd, Some("1"), None, Some("1"), None, entry, volume, Some(1.0), None, None, false, NO_DETAILS)
  }

  /** There is such an input: an entry deal without volume and an exit of one half, while the snapshots go from 2
      to 1. The exit is a partial close, and the entry tells the same reduction as a volume change. */
  lemma {:induction false} UnsizedEntryRepeatsReduction(order: seq<string>) returns (e: Event, f: Event)
    ensures var records := [DealOn(Ledger.TextIn, 1, None), DealOn(Ledger.TextOut, 2, Some(1.0))];
            e in Merge(records, Two(2.0), Two(1.0), order) && f in Merge(records, Two(2.0), Two(1.0), order)
    ensures e.eventType == TradePartialClosed && e.ticket == "1" && e.volume == Some(1.0)
    ensures f.eventType == TradeVolumeChanged && f.ticket == "1"
            && f.previousVolume == Some(2.0) && f.volume == Some(1.0)
  {
    var records := [DealOn(Ledger.TextIn, 1, None), DealOn(Ledger.TextOut, 2, Some(1.0))];
    f := DealSurvivesMerge(records, Two(2.0), Two(1.0), order, 0);
    e := DealSurvivesMerge(records, Two(2.0), Two(1.0), order, 1);
    assert TrackedAt(Load(Two(2.0).positions), records, 1) == Load(Two(2.0).positions);
  }

  /** Nothing that the stream or the diff sees is dropped without a reason that the batch carries: the diff's
      events because the stream has one of the same type and ticket or the same deal, and of both only volume
      changes that go down, because a deal of the ticket closes it, wholly or in part. */
  lemma {:induction false} DroppedOnlyWhenCovered(
    records: seq<Record>, was: Snapshot, now: Snapshot, order: seq<string>, e: Event)
    requires e in Stream(records, was, now) || e in Detect(was, now, order)
    requires e !in Merge(records, was, now, order)
    ensures || (e in Detect(was, now, order)
                && exists f :: f in Merge(records, was, now, order) && f in Stream(records, was, now)
                               && f.eventType == e.eventType && f.ticket == e.ticket)
            || (e.eventType == TradeVolumeChanged && OrZero(e.volume) < OrZero(e.previousVolume)
                && exists f :: f in Merge(records, was, now, order) && f in Stream(records, was, now)
                               && f.eventType in {TradePartialClosed, TradeClosed} && f.ticket == e.ticket)
            || (e.eventType == DealRecorded
                && exists r :: r in records && r.kind == DealAdd && StrOf(NativeTicket(r)) == e.ticket)
  {
    var stream := Stream(records, was, now);
    MergeMembers(records, was, now, order, e);
    if IsEcho(e, CloseTickets(stream)) {
      var f :| f in stream && IsClose(f) && f.ticket == e.ticket;
      MergeMembers(records, was, now, order, f);
      FlaggedIsReduction(records, was, now, order, e);
    } else if Key(e) in Covered(Kept(records, was, now)) {
      var f :| f in Kept(records, was, now) && Key(f) == Key(e);
      MergeMembers(records, was, now, order, f);
    }
  }

  lemma {:induction false} FlaggedIsReduction(
    records: seq<Record>, was: Snapshot, now: Snapshot, order: seq<string>, e: Event)
    requires e in Stream(records, was, now) || e in Detect(was, now, order)
    requires e.eventType == TradeVolumeChanged && e.partialClose == Some(true)
    ensures IsReduction(e)
  {
    if e in Detect(was, now, order) {
      DiffTypes(was, now, order, e);
    } else {
      var k := StreamMember(records, was, now, e);
      StreamVolumeChange(TrackedAt(Load(was.positions), records, k), records[k], was.positions, now.positions);
    }
  }

  /** No deal is lost in the merge: every record of a deal that the history does not hold yields an
      event carrying its native ticket, and its archived twin never does. */
  lemma {:induction false} DealSurvivesMerge(
    records: seq<Record>, was: Snapshot, now: Snapshot, order: seq<string>, k: nat)
    returns (e: Event)
    requires k < |records| && records[k].kind == DealAdd && !records[k].archived
    ensures e in Merge(records, was, now, order)
    ensures e == EventFor(records, was, now, k)
    ensures e.nativeDeal == NativeTicket(records[k]) && e.ticket == EventTicket(records[k])
    ensures var r := records[k];
            && e.nativeDeal == (if r.dealId.Some? then r.dealId else r.ticket)
            && (r.position.Some? ==> e.ticket == r.position.value)
            && (r.position.None? && r.orderId.Some? ==> e.ticket == r.orderId.value)
    ensures records[k].entry in {Ledger.TextIn, Ledger.TextOut, Ledger.TextOutBy} ==> e.eventType in NATIVE_DEAL_EVENTS
  {
    e := EventFor(records, was, now, k);
    StreamContains(records, was, now, k);
    MergeMembers(records, was, now, order, e);
  }

  lemma {:induction false} ReplayedNative(t: Tracked, r: Record, was: Positions, now: Positions)
    ensures var e := ReplayedEvent(t, r, was, now);
            e.nativeDeal.Some? ==> r.kind == DealAdd && e.nativeDeal == NativeTicket(r)
  {
  }

  lemma {:induction false} NativeMeansStream(
    records: seq<Record>, was: Snapshot, now: Snapshot, order: seq<string>, e: Event)
    requires e in Merge(records, was, now, order) && e.nativeDeal.Some?
    ensures e in Stream(records, was, now)
  {
    MergeMembers(records, was, now, order, e);
    if e in Detect(was, now, order) { DiffTypes(was, now, order, e); }
  }

  /** Every native ticket in the merged batch comes from a live, unarchived deal record. */
  lemma {:induction false} NativeEventsComeFromLiveDeals(
    records: seq<Record>, was: Snapshot, now: Snapshot, order: seq<string>, e: Event)
    returns (k: nat)
    requires e in Merge(records, was, now, order) && e.nativeDeal.Some?
    ensures k < |records| && records[k].kind == DealAdd && !records[k].archived
    ensures e.nativeDeal == NativeTicket(records[k])
  {
    NativeMeansStream(records, was, now, order, e);
    k := StreamMember(records, was, now, e);
    ReplayedNative(TrackedAt(Load(was.positions), records, k), records[k], was.positions, now.positions);
  }
}
