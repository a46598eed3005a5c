/** What a consumer of the deliveries knows after a poll without event files, and what the dedup table keeps
    from it. */
module Delivery {
  import opened Prelude
  import opened Events
  import opened SnapshotDiff
  import opened Outbox
  import L = LiveStream
  import P = LivePoll
  import W = LiveWorker

  // ---------------------------------------------------------------- which events are queued

  lemma {:induction false} NewPayloadsAreNew(account: string, events: seq<Event>, dedup: set<EventId>)
    ensures Ids(P.NewPayloads(account, events, dedup)) == P.IdsOf(account, events) - dedup
  {
    if events != [] {
      var e, earlier := events[|events| - 1], events[..|events| - 1];
      NewPayloadsAreNew(account, earlier, dedup);
      var p := Payload(BuildEventId(account, e), e);
      var rest := P.NewPayloads(account, earlier, dedup);
      assert Ids(rest + [p]) == Ids(rest) + {p.id};
      assert events == earlier + [e];
      assert P.IdsOf(account, events) == P.IdsOf(account, earlier) + {p.id};
    }
  }

  /** Exactly which ids of a batch a poll queues: those that were never recorded as delivered. */
  lemma {:induction false} QueuedIffNotRecorded(account: string, s: P.Store, now: Snapshot, order: seq<string>)
    ensures Ids(W.PayloadsOf(account, s, now, order)) == P.IdsOf(account, W.BatchOf(s, now, order)) - s.dedup
  {
    NewPayloadsAreNew(account, W.BatchOf(s, now, order), s.dedup);
  }

  lemma {:induction false} ToldIff(account: string, told: seq<Event>, e: Event)
    ensures BuildEventId(account, e) in P.IdsOf(account, told) <==> exists f :: f in told && Repeats(e, f)
  {
    if BuildEventId(account, e) in P.IdsOf(account, told) {
      var f :| f in told && BuildEventId(account, f) == BuildEventId(account, e);
      SameIdIff(account, e, account, f);
    }
    if f :| f in told && Repeats(e, f) {
      SameIdIff(account, e, account, f);
      assert BuildEventId(account, f) in P.IdsOf(account, told);
    }
  }

  /** So an event of a batch is queued exactly when no event that was recorded before said the same. */
  lemma {:induction false} QueuedIffUntold(
    account: string, s: P.Store, now: Snapshot, order: seq<string>, told: seq<Event>, e: Event)
    requires s.dedup == P.IdsOf(account, told) && e in W.BatchOf(s, now, order)
    ensures BuildEventId(account, e) in Ids(W.PayloadsOf(account, s, now, order)) <==>
              forall f | f in told :: !Repeats(e, f)
  {
    QueuedIffNotRecorded(account, s, now, order);
    ToldIff(account, told, e);
  }

  lemma {:induction false} PayloadsAreNamed(account: string, events: seq<Event>, dedup: set<EventId>)
    ensures forall p | p in P.NewPayloads(account, events, dedup) :: p.id == BuildEventId(account, p.event)
  {
    if events != [] { PayloadsAreNamed(account, events[..|events| - 1], dedup); }
  }

  /** A stop that moves is reported, with the values before and after, unless just this move was reported before:
      what was said of other moves, or of other positions, does not keep it back. */
  lemma {:induction false} NewMoveIsQueued(
    account: string, s: P.Store, now: Snapshot, order: seq<string>, told: seq<Event>, t: string)
    returns (payload: Payload)
    requires P.Unread(s.log, s.checkpoint, s.archived) == [] && s.dedup == P.IdsOf(account, told)
    requires t in order && t in s.snapshot.positions && t in now.positions
    requires var p, q := s.snapshot.positions[t], now.positions[t];
             && (p.stopLoss != q.stopLoss || p.takeProfit != q.takeProfit)
             && forall f | f in told && f.eventType == TradeModified && f.ticket == t ::
                  f.previousStopLoss != p.stopLoss || f.previousTakeProfit != p.takeProfit
                  || f.stopLoss != q.stopLoss || f.takeProfit != q.takeProfit
    ensures payload in W.PayloadsOf(account, s, now, order)
    ensures var e, p, q := payload.event, s.snapshot.positions[t], now.positions[t];
            && e.eventType == TradeModified && e.ticket == t
            && e.previousStopLoss == p.stopLoss && e.previousTakeProfit == p.takeProfit
            && e.stopLoss == q.stopLoss && e.takeProfit == q.takeProfit
  {
    var p, q := s.snapshot.positions[t], now.positions[t];
    var e := Event(TradeModified, t, None, q.volume, None, None, None, None, None, q.stopLoss, q.takeProfit,
                   p.stopLoss, p.takeProfit, None, q.details);
    DetectedIff(s.snapshot, now, order, e);
    QueuedIffUntold(account, s, now, order, told, e);
    payload :| payload in W.PayloadsOf(account, s, now, order) && payload.id == BuildEventId(account, e);
    PayloadsAreNamed(account, W.BatchOf(s, now, order), s.dedup);
    SameIdIff(account, payload.event, account, e);
  }

  lemma {:induction false} NoIdsNoPayloads(ps: seq<Payload>)
    ensures Ids(ps) == {} <==> ps == []
  {
    if ps != [] { assert ps[0].id in Ids(ps); }
  }

  /** So a transition that repeats is not reported the second time: an id carries no occurrence. The polls go
      from one snapshot to another, back, and there again; the last one queues nothing. */
  lemma {:induction false} RepeatedTransitionIsSilent(
    account: string, first: P.Store, back: P.Store, again: P.Store, there: Snapshot, order: seq<string>,
    next: seq<string>)
    requires P.Unread(first.log, first.checkpoint, first.archived) == []
    requires W.Polled(account, first, back, there, order) && W.Polled(account, back, again, first.snapshot, next)
    requires P.Unread(again.log, again.checkpoint, again.archived) == []
    ensures again.snapshot == first.snapshot && W.PayloadsOf(account, again, there, order) == []
  {
    QueuedIffNotRecorded(account, again, there, order);
    var payloads := W.PayloadsOf(account, again, there, order);
    assert W.BatchOf(again, there, order) == W.BatchOf(first, there, order);
    NoIdsNoPayloads(payloads);
  }

  /** A position whose stop loss is at the given price. */
  function StoppedAt(price: real): Snapshot {
    Snapshot(map["1" := Position(Some(1.0), Some(1.0), Some(price), None, NO_DETAILS)], map[], map[])
  }

  /** One input for it: a stop loss moved from 1 to 2 is an event, and the one moved there again is not. */
  lemma {:induction false} StopLossMovedAgainIsSilent(
    account: string, first: P.Store, back: P.Store, again: P.Store)
    requires P.Unread(first.log, first.checkpoint, first.archived) == [] && first.snapshot == StoppedAt(1.0)
    requires W.Polled(account, first, back, StoppedAt(2.0), ["1"])
    requires W.Polled(account, back, again, StoppedAt(1.0), ["1"])
    requires P.Unread(again.log, again.checkpoint, again.archived) == []
    ensures W.BatchOf(again, StoppedAt(2.0), ["1"]) != [] && W.PayloadsOf(account, again, StoppedAt(2.0), ["1"]) == []
  {
    RepeatedTransitionIsSilent(account, first, back, again, StoppedAt(2.0), ["1"], ["1"]);
    var was, now := StoppedAt(1.0), StoppedAt(2.0);
    var e := ModifiedEvent("1", was.positions["1"], now.positions["1"]);
    assert e in Scans(was, now, ["1"])[0]("1");
    DetectedMember(was, now, ["1"], e);
  }

  /** One input: a stop loss moved from 1 to 2 and then to 3 is reported the second time too. */
  lemma {:induction false} StopLossMovedOnIsQueued(account: string, first: P.Store, second: P.Store)
    returns (payload: Payload)
    requires P.Unread(first.log, first.checkpoint, first.archived) == [] && first.snapshot == StoppedAt(1.0)
    requires first.dedup == {} && W.Polled(account, first, second, StoppedAt(2.0), ["1"])
    requires P.Unread(second.log, second.checkpoint, second.archived) == []
    ensures payload in W.PayloadsOf(account, second, StoppedAt(3.0), ["1"])
    ensures payload.event.ticket == "1"
            && payload.event.previousStopLoss == Some(2.0) && payload.event.stopLoss == Some(3.0)
  {
    var told := W.BatchOf(first, StoppedAt(2.0), ["1"]);
    QueuedIffNotRecorded(account, first, StoppedAt(2.0), ["1"]);
    forall f | f in told && f.eventType == TradeModified && f.ticket == "1" ensures f.stopLoss == Some(2.0) {
      DetectedIff(first.snapshot, StoppedAt(2.0), ["1"], f);
    }
    payload := NewMoveIsQueued(account, second, StoppedAt(3.0), ["1"], told, "1");
  }

  // ---------------------------------------------------------------- repeated ids inside one batch

  /** An id occurs once, or twice in a row for one and the same modification. */
  ghost predicate Tidy(account: string, events: seq<Event>) {
    forall i, j | 0 <= i < j < |events| && BuildEventId(account, events[i]) == BuildEventId(account, events[j]) ::
      j == i + 1 && events[i] == events[j] && events[i].eventType == TradeModified
  }

  ghost predicate Apart(a: seq<Event>, b: seq<Event>) {
    forall e, f | e in a && f in b :: L.Key(e) != L.Key(f)
  }

  lemma {:induction false} TidyJoins(account: string, a: seq<Event>, b: seq<Event>)
    requires Tidy(account, a) && Tidy(account, b) && Apart(a, b)
    ensures Tidy(account, a + b)
  {
    var all := a + b;
    assert forall i, j | 0 <= i < |a| && 0 <= j < |b| :: L.Key(a[i]) != L.Key(b[j]);
    forall i, j | 0 <= i < j < |all| && BuildEventId(account, all[i]) == BuildEventId(account, all[j])
      ensures j == i + 1 && all[i] == all[j] && all[i].eventType == TradeModified
    {
      assert L.Key(all[i]) == L.Key(all[j]);
    }
  }

  lemma {:induction false} CollectTickets(scan: string -> seq<Event>, order: seq<string>, n: nat)
    requires n <= |order| && OwnTicketOnly(scan)
    ensures forall e | e in Collect(scan, order, n) :: e.ticket in order[..n] && e in scan(e.ticket)
  {
    if n > 0 {
      CollectTickets(scan, order, n - 1);
      assert order[..n] == order[..n - 1] + [order[n - 1]];
    }
  }

  lemma {:induction false} TidyCollect(account: string, scan: string -> seq<Event>, order: seq<string>, n: nat)
    requires n <= |order| && Distinct(order) && OwnTicketOnly(scan) && forall t :: Tidy(account, scan(t))
    ensures Tidy(account, Collect(scan, order, n))
  {
    if n > 0 {
      TidyCollect(account, scan, order, n - 1);
      CollectTickets(scan, order, n - 1);
      assert order[n - 1] !in order[..n - 1];
      assert Apart(Collect(scan, order, n - 1), scan(order[n - 1]));
      TidyJoins(account, Collect(scan, order, n - 1), scan(order[n - 1]));
    }
  }

  /** The scan that reports events of the type; no two scans share one. */
  function ScanOf(eventType: EventType): nat {
    match eventType
    case TradeOpened => 0
    case TradeModified => 0
    case TradeClosed => 1
    case PendingOrderCreated => 2
    case PendingOrderModified => 2
    case PendingOrderCancelled => 3
    case TradeVolumeChanged => 4
    case DealRecorded => 5
    case TradePartialClosed => 6
  }

  lemma {:induction false} ScanIsTidy(
    account: string, was: Snapshot, now: Snapshot, order: seq<string>, k: nat, t: string)
    requires k < 6
    ensures Tidy(account, Scans(was, now, order)[k](t))
    ensures forall e | e in Scans(was, now, order)[k](t) :: ScanOf(e.eventType) == k
  {
    ShortIsTidy(account, Scans(was, now, order)[k](t));
  }

  lemma {:induction false} ShortIsTidy(account: string, events: seq<Event>)
    ensures |events| <= 1 || (|events| == 2 && events[0] == events[1] && events[0].eventType == TradeModified) ==>
              Tidy(account, events)
  {
  }

  lemma {:induction false} OneScanIsTidy(account: string, was: Snapshot, now: Snapshot, order: seq<string>, k: nat)
    requires k < 6 && Distinct(order)
    ensures var events := Collect(Scans(was, now, order)[k], order, |order|);
            Tidy(account, events) && forall e | e in events :: ScanOf(e.eventType) == k
  {
    var scan := Scans(was, now, order)[k];
    forall t ensures Tidy(account, scan(t)) { ScanIsTidy(account, was, now, order, k, t); }
    ScansAreOwn(was, now, order);
    TidyCollect(account, scan, order, |order|);
    CollectTickets(scan, order, |order|);
    forall e | e in Collect(scan, order, |order|) ensures ScanOf(e.eventType) == k {
      ScanIsTidy(account, was, now, order, k, e.ticket);
    }
  }

  lemma {:induction false} TypesApart(a: seq<Event>, b: seq<Event>, k: nat)
    requires forall e | e in a :: ScanOf(e.eventType) < k
    requires forall e | e in b :: ScanOf(e.eventType) == k
    ensures Apart(a, b)
  {
  }

  /** Scans that report different types, each tidy, are tidy together. */
  lemma {:induction false} TidyRuns(account: string, scans: seq<string -> seq<Event>>, order: seq<string>, k: nat)
    requires k <= |scans|
    requires forall i | 0 <= i < k :: Tidy(account, Collect(scans[i], order, |order|))
    requires forall i, e | 0 <= i < k && e in Collect(scans[i], order, |order|) :: ScanOf(e.eventType) == i
    ensures Tidy(account, RunScans(scans, order, k))
    ensures forall e | e in RunScans(scans, order, k) :: ScanOf(e.eventType) < k
  {
    if k > 0 {
      TidyRuns(account, scans, order, k - 1);
      var last := Collect(scans[k - 1], order, |order|);
      TypesApart(RunScans(scans, order, k - 1), last, k - 1);
      TidyJoins(account, RunScans(scans, order, k - 1), last);
    }
  }

  lemma {:induction false} DetectIsTidy(account: string, was: Snapshot, now: Snapshot, order: seq<string>)
    requires Distinct(order)
    ensures Tidy(account, Detect(was, now, order))
  {
    var scans := Scans(was, now, order);
    forall i | 0 <= i < 6
      ensures Tidy(account, Collect(scans[i], order, |order|))
      ensures forall e | e in Collect(scans[i], order, |order|) :: ScanOf(e.eventType) == i
    {
      OneScanIsTidy(account, was, now, order, i);
    }
    TidyRuns(account, scans, order, 6);
  }

  // ---------------------------------------------------------------- what the consumer learns

  function EventsOf(ps: seq<Payload>): (events: seq<Event>)
    ensures |events| == |ps|
  {
    seq(|ps|, i requires 0 <= i < |ps| => ps[i].event)
  }

  ghost predicate Named(account: string, ps: seq<Payload>) {
    forall p | p in ps :: p.id == BuildEventId(account, p.event)
  }

  lemma {:induction false} WatchFirst(u: TicketView, t: string, e: Event, rest: seq<Event>)
    ensures Watch(u, t, [e] + rest) == Watch(ApplyAt(u, t, e), t, rest)
  {
    WatchConcat(u, t, [e], rest);
    WatchOne(u, t, e);
  }

  lemma {:induction false} TidyTail(account: string, ps: seq<Payload>)
    requires ps != [] && Tidy(account, EventsOf(ps)) && Named(account, ps)
    ensures Tidy(account, EventsOf(ps[1..])) && Named(account, ps[1..])
    ensures forall i | 2 <= i < |ps| :: ps[i].id != ps[0].id
    ensures |ps| > 1 && ps[1].id == ps[0].id ==> ps[1].event == ps[0].event && ps[0].event.eventType == TradeModified
  {
    var events, rest := EventsOf(ps), EventsOf(ps[1..]);
    forall i | 0 <= i < |rest| ensures rest[i] == events[i + 1] {}
    forall i | 0 <= i < |ps| ensures ps[i].id == BuildEventId(account, events[i]) { assert ps[i] in ps; }
  }

  /** What one event does to what is known of a ticket. */
  type Step = (TicketView, Event) -> TicketView

  function StepOf(t: string): Step { (u: TicketView, e: Event) => ApplyAt(u, t, e) }

  function Learn(step: Step, u: TicketView, ps: seq<Payload>): TicketView
    decreases ps
  {
    if ps == [] then u else Learn(step, step(u, ps[0].event), ps[1..])
  }

  lemma {:induction false} LearnIsWatch(u: TicketView, t: string, ps: seq<Payload>)
    ensures Learn(StepOf(t), u, ps) == Watch(u, t, EventsOf(ps))
    decreases ps
  {
    if ps != [] {
      assert EventsOf(ps) == [ps[0].event] + EventsOf(ps[1..]);
      WatchFirst(u, t, ps[0].event, EventsOf(ps[1..]));
      LearnIsWatch(ApplyAt(u, t, ps[0].event), t, ps[1..]);
    }
  }

  /** A modification taken twice in a row is taken once. */
  ghost predicate Idempotent(step: Step) {
    forall u: TicketView, e: Event | e.eventType == TradeModified :: step(step(u, e), e) == step(u, e)
  }

  lemma {:induction false} StepIsIdempotent(t: string)
    ensures Idempotent(StepOf(t))
  {
  }

  /** Leaving out ids that were just seen changes nothing for a consumer. */
  lemma {:induction false} DuplicatesDoNotMatter(
    account: string, known: set<EventId>, ps: seq<Payload>, step: Step, u: TicketView)
    requires Idempotent(step) && Tidy(account, EventsOf(ps)) && Named(account, ps)
    requires forall i | 1 <= i < |ps| :: ps[i].id !in known
    requires ps != [] && ps[0].id in known ==> step(u, ps[0].event) == u
    ensures Learn(step, u, NewIn(known, ps)) == Learn(step, u, ps)
    decreases ps
  {
    if ps != [] {
      TidyTail(account, ps);
      if ps[0].id in known {
        DuplicatesDoNotMatter(account, known, ps[1..], step, u);
      } else {
        var after := known + {ps[0].id};
        DuplicatesDoNotMatter(account, after, ps[1..], step, step(u, ps[0].event));
        assert NewIn(known, ps)[1..] == NewIn(after, ps[1..]);
      }
    }
  }

  lemma {:induction false} NothingRecorded(account: string, events: seq<Event>, dedup: set<EventId>)
    requires P.IdsOf(account, events) !! dedup
    ensures EventsOf(P.NewPayloads(account, events, dedup)) == events
    ensures Named(account, P.NewPayloads(account, events, dedup))
  {
    if events != [] {
      var e, earlier := events[|events| - 1], events[..|events| - 1];
      assert events == earlier + [e];
      assert BuildEventId(account, e) in P.IdsOf(account, events);
      forall f | f in earlier ensures BuildEventId(account, f) in P.IdsOf(account, events) { assert f in events; }
      NothingRecorded(account, earlier, dedup);
    }
  }

  /** A consumer of the payloads that are queued learns what one of all of them would. */
  lemma {:induction false} QueuedTellsAll(account: string, ps: seq<Payload>, v: View, t: string)
    requires Tidy(account, EventsOf(ps)) && Named(account, ps)
    ensures At(ApplyAll(v, EventsOf(NewIn({}, ps))), t) == At(ApplyAll(v, EventsOf(ps)), t)
  {
    StepIsIdempotent(t);
    DuplicatesDoNotMatter(account, {}, ps, StepOf(t), At(v, t));
    LearnIsWatch(At(v, t), t, ps);
    LearnIsWatch(At(v, t), t, NewIn({}, ps));
    WatchIsApply(v, t, EventsOf(NewIn({}, ps)));
    WatchIsApply(v, t, EventsOf(ps));
  }

  lemma {:induction false} NothingRepeated(account: string, events: seq<Event>, told: seq<Event>)
    requires forall e, f | e in events && f in told :: !Repeats(e, f)
    ensures P.IdsOf(account, events) !! P.IdsOf(account, told)
  {
    forall e | e in events ensures BuildEventId(account, e) !in P.IdsOf(account, told) { ToldIff(account, told, e); }
  }

  /** A poll without event files, of whose events none was said before, queues all that a consumer needs:
      applying the queued events to what it knew of a ticket gives what the current snapshot shows, up to an
      order that became a position. With a server that accepts everything the queued events are delivered. */
  lemma {:induction false} FreshPollReachesView(
    account: string, s: P.Store, now: Snapshot, order: seq<string>, told: seq<Event>, t: string)
    requires P.Unread(s.log, s.checkpoint, s.archived) == [] && Enumerates(order, s.snapshot, now)
    requires s.dedup == P.IdsOf(account, told)
    requires forall e, f | e in W.BatchOf(s, now, order) && f in told :: !Repeats(e, f)
    ensures var queued := EventsOf(Enqueued(EMPTY, W.PayloadsOf(account, s, now, order)).pending);
            At(ApplyAll(ViewOf(s.snapshot), queued), t) == Expected(s.snapshot, now, t)
  {
    var events, payloads := Detect(s.snapshot, now, order), W.PayloadsOf(account, s, now, order);
    NothingRepeated(account, events, told);
    NothingRecorded(account, events, s.dedup);
    DetectIsTidy(account, s.snapshot, now, order);
    assert KnownIds(EMPTY) == {} && Enqueued(EMPTY, payloads).pending == NewIn({}, payloads);
    QueuedTellsAll(account, payloads, ViewOf(s.snapshot), t);
    DiffThenPatch(s.snapshot, now, order, t);
  }
}
