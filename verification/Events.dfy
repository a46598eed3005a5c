/** Raw events and their identity (worker/event_normalizer.py). */
module Events {
  import opened Prelude

  datatype EventType =
    | TradeOpened
    | TradeModified
    | TradeVolumeChanged
    | TradePartialClosed
    | TradeClosed
    | PendingOrderCreated
    | PendingOrderModified
    | PendingOrderCancelled
    | DealRecorded

  const NATIVE_DEAL_EVENTS: set<EventType> := {TradeOpened, TradeVolumeChanged, TradePartialClosed, TradeClosed}

  /** Fields that the modelled code copies from its source without looking at them. */
  datatype Details = Details(
    symbol: Option<string>,
    direction: Option<string>,
    profit: Option<real>,
    commission: Option<real>,
    swap: Option<real>,
    openTime: Option<string>,
    closeTime: Option<string>)

  const NO_DETAILS := Details(None, None, None, None, None, None, None)

  datatype Event = Event(
    eventType: EventType,
    ticket: string,
    nativeDeal: Option<string>,
    volume: Option<real>,
    previousVolume: Option<real>,
    partialClose: Option<bool>,
    openPrice: Option<real>,
    closePrice: Option<real>,
    price: Option<real>,
    stopLoss: Option<real>,
    takeProfit: Option<real>,
    previousStopLoss: Option<real>,
    previousTakeProfit: Option<real>,
    positionTicket: Option<string>,
    details: Details)

  /** An event of the given kind with every optional field absent. */
  function Bare(eventType: EventType, ticket: string, details: Details): Event {
    Event(eventType, ticket, None, None, None, None, None, None, None, None, None, None, None, None, details)
  }

  datatype Field = Number(n: Option<real>) | Text(t: Option<string>) | Flag(b: Option<bool>)

  /** The digest of the identity fields, taken to be injective: it is the fields themselves. */
  datatype Fingerprint = NativeDeal(ticket: string) | State(fields: seq<Field>)

  datatype EventId = EventId(account: string, eventType: EventType, ticket: string, digest: Fingerprint)

  function StateFields(e: Event): seq<Field> {
    var d := e.details;
    match e.eventType
    case TradeOpened =>
      [Text(d.symbol), Text(d.direction), Number(e.volume), Number(e.openPrice), Number(e.stopLoss),
       Number(e.takeProfit), Text(d.openTime)]
    case TradeModified =>
      [Number(e.stopLoss), Number(e.takeProfit), Number(e.previousStopLoss), Number(e.previousTakeProfit)]
    case TradeClosed =>
      [Text(e.nativeDeal), Number(e.volume), Number(e.closePrice), Number(d.profit), Number(d.commission),
       Number(d.swap), Text(d.closeTime)]
    case TradePartialClosed =>
      [Text(e.nativeDeal), Number(e.volume), Number(e.closePrice), Number(d.profit), Number(d.commission),
       Number(d.swap), Text(d.closeTime)]
    case PendingOrderCreated =>
      [Text(d.symbol), Text(d.direction), Number(e.volume), Number(e.price), Number(e.stopLoss), Number(e.takeProfit)]
    case PendingOrderModified =>
      [Number(e.price), Number(e.stopLoss), Number(e.takeProfit), Number(e.previousStopLoss),
       Number(e.previousTakeProfit)]
    case PendingOrderCancelled =>
      [Text(d.symbol), Text(d.direction), Number(e.volume), Number(e.price)]
    case TradeVolumeChanged =>
      [Number(e.volume), Number(e.previousVolume), Flag(e.partialClose)]
    case DealRecorded =>
      [Text(e.positionTicket), Number(e.closePrice), Number(d.profit), Number(d.commission), Number(d.swap),
       Text(d.closeTime)]
  }

  /** An immutable deal ticket, when a lifecycle event has one, is the whole fingerprint. */
  function BuildEventId(account: string, e: Event): EventId {
    EventId(account, e.eventType, e.ticket,
            if e.eventType in NATIVE_DEAL_EVENTS && e.nativeDeal.Some?
            then NativeDeal(e.nativeDeal.value)
            else State(StateFields(e)))
  }

  // ---------------------------------------------------------------- which events share an id

  /** The event is told by its deal ticket alone. */
  predicate IsNative(e: Event) {
    e.eventType in {TradeOpened, TradeVolumeChanged, TradePartialClosed, TradeClosed} && e.nativeDeal.Some?
  }

  /** Two events of one type agree on everything that tells events of that type apart when they have no deal
      ticket. */
  predicate Alike(e: Event, f: Event)
    requires e.eventType == f.eventType
  {
    var c, d := e.details, f.details;
    match e.eventType
    case TradeOpened =>
      && c.symbol == d.symbol && c.direction == d.direction && c.openTime == d.openTime && e.volume == f.volume
      && e.openPrice == f.openPrice && e.stopLoss == f.stopLoss && e.takeProfit == f.takeProfit
    case TradeModified =>
      && e.stopLoss == f.stopLoss && e.takeProfit == f.takeProfit
      && e.previousStopLoss == f.previousStopLoss && e.previousTakeProfit == f.previousTakeProfit
    case TradeVolumeChanged =>
      e.volume == f.volume && e.previousVolume == f.previousVolume && e.partialClose == f.partialClose
    case TradePartialClosed =>
      && e.nativeDeal == f.nativeDeal && e.volume == f.volume && e.closePrice == f.closePrice
      && c.profit == d.profit && c.commission == d.commission && c.swap == d.swap && c.closeTime == d.closeTime
    case TradeClosed =>
      && e.nativeDeal == f.nativeDeal && e.volume == f.volume && e.closePrice == f.closePrice
      && c.profit == d.profit && c.commission == d.commission && c.swap == d.swap && c.closeTime == d.closeTime
    case PendingOrderCreated =>
      && c.symbol == d.symbol && c.direction == d.direction && e.volume == f.volume && e.price == f.price
      && e.stopLoss == f.stopLoss && e.takeProfit == f.takeProfit
    case PendingOrderModified =>
      && e.price == f.price && e.stopLoss == f.stopLoss && e.takeProfit == f.takeProfit
      && e.previousStopLoss == f.previousStopLoss && e.previousTakeProfit == f.previousTakeProfit
    case PendingOrderCancelled =>
      c.symbol == d.symbol && c.direction == d.direction && e.volume == f.volume && e.price == f.price
    case DealRecorded =>
      && e.positionTicket == f.positionTicket && e.closePrice == f.closePrice
      && c.profit == d.profit && c.commission == d.commission && c.swap == d.swap && c.closeTime == d.closeTime
  }

  lemma {:induction false} SameFields(e: Event, f: Event)
    requires e.eventType == f.eventType
    ensures StateFields(e) == StateFields(f) <==> Alike(e, f)
  {
    var a, b := StateFields(e), StateFields(f);
    if a == b {
      assert a[0] == b[0] && a[1] == b[1] && a[2] == b[2];
      assert |a| > 3 ==> a[3] == b[3];
      assert |a| > 4 ==> a[4] == b[4];
      assert |a| > 5 ==> a[5] == b[5];
      assert |a| > 6 ==> a[6] == b[6];
    }
  }

  /** The events are of one type and ticket, and either both carry the same deal ticket, whatever else they say,
      or neither is told by a deal ticket and they agree on every field that tells events of their type apart. */
  predicate Repeats(e: Event, f: Event) {
    && e.eventType == f.eventType && e.ticket == f.ticket
    && if IsNative(e) || IsNative(f) then e.nativeDeal == f.nativeDeal else Alike(e, f)
  }

  /** Two events have one id exactly when they belong to one account and one repeats the other. */
  lemma {:induction false} SameIdIff(account: string, e: Event, other: string, f: Event)
    ensures BuildEventId(account, e) == BuildEventId(other, f) <==>
              account == other && Repeats(e, f)
  {
    if e.eventType == f.eventType { SameFields(e, f); }
  }
}
