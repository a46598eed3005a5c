/** poll_once itself, as a path through the steps of LivePoll, and what a retried poll regenerates. */
module LiveWorker {
  import opened Prelude
  import opened Events
  import opened SnapshotDiff
  import opened LiveStream
  import opened Outbox
  import opened LivePoll
  import opened Agreement

  /** One run after another. */
  lemma {:induction false} RunJoins(w: World, first: seq<Action>, second: seq<Action>)
    requires IsRun(w, first) && IsRun(After(w, first), second)
    ensures IsRun(w, first + second) && After(w, first + second) == After(After(w, first), second)
    decreases |first|
  {
    if first == [] {
      assert first + second == second;
    } else {
      assert (first + second)[1..] == first[1..] + second;
      RunJoins(Do(w, first[0]), first[1..], second);
    }
  }

  lemma {:induction false} OneStep(w: World, a: Action)
    requires Enabled(w, a)
    ensures IsRun(w, [a]) && After(w, [a]) == Do(w, a)
  {
    assert [a][1..] == [];
  }

  /** The events a poll of these files computes, the payloads it queues, and where it moves the checkpoint. */
  function BatchOf(s: Store, now: Snapshot, order: seq<string>): seq<Event> {
    Batch(Unread(s.log, s.checkpoint, s.archived), s.snapshot, now, order)
  }

  function PayloadsOf(account: string, s: Store, now: Snapshot, order: seq<string>): seq<Payload> {
    NewPayloads(account, BatchOf(s, now, order), s.dedup)
  }

  function Reached(s: Store): nat {
    var records := Unread(s.log, s.checkpoint, s.archived);
    if records == [] then s.checkpoint else Highest(records)
  }

  lemma {:induction false} OutboxDoesNotMatter(account: string, s: Store, t: Store, now: Snapshot, order: seq<string>)
    requires s == t.(outbox := s.outbox)
    ensures BatchOf(s, now, order) == BatchOf(t, now, order) && Reached(s) == Reached(t)
    ensures PayloadsOf(account, s, now, order) == PayloadsOf(account, t, now, order)
  {
  }

  /** What a completed poll leaves behind. */
  predicate Polled(account: string, before: Store, after: Store, now: Snapshot, order: seq<string>) {
    && after == before.(outbox := EMPTY, snapshot := now, checkpoint := Reached(before),
                        dedup := before.dedup + Ids(PayloadsOf(account, before, now, order)))
    && IdsOf(account, BatchOf(before, now, order)) <= after.dedup
  }

  /** The server accepts everything, for at least `n` sends. */
  predicate Accepting(outcomes: seq<Outcome>, n: nat) {
    |outcomes| >= n && forall o | o in outcomes :: o == Sent
  }

  /** One connection's live worker. `start` and `history` record the run it has made so far. */
  class LiveSync {
    var world: World
    ghost var start: World
    ghost var history: seq<Action>

    ghost predicate Valid() reads this {
      IsRun(start, history) && After(start, history) == world
    }

    constructor (w: World)
      ensures Valid() && world == w && start == w && history == []
    {
      world, start, history := w, w, [];
    }

    /** One durable step. */
    method Take(a: Action)
      requires Valid() && Enabled(world, a)
      modifies this
      ensures Valid() && start == old(start) && history == old(history) + [a]
      ensures world == Do(old(world), a)
    {
      OneStep(world, a);
      RunJoins(start, history, [a]);
      world, history := Do(world, a), history + [a];
    }

    /** Sends until the outbox is empty; anything but a delivery, or running out of outcomes, ends it. */
    method DrainOutbox(outcomes: seq<Outcome>) returns (empty: bool, rest: seq<Outcome>)
      requires Valid() && (world.phase.Idle? || world.phase.Saved?) && world.store.outbox.dead == []
      modifies this
      ensures Valid() && start == old(start) && old(history) <= history
      ensures world.store.(outbox := old(world.store.outbox)) == old(world.store) && world.account == old(world.account)
      ensures if empty then world.store.outbox == EMPTY && world.phase == old(world.phase) else world.phase.Idle?
      ensures Accepting(outcomes, |old(world.store.outbox.pending)|) ==>
                empty && rest == outcomes[|old(world.store.outbox.pending)|..]
    {
      rest := outcomes;
      while world.store.outbox.pending != []
        invariant Valid() && start == old(start) && old(history) <= history
        invariant world.phase == old(world.phase) && world.store.outbox.dead == []
        invariant world.store.(outbox := old(world.store.outbox)) == old(world.store)
        invariant world.account == old(world.account)
        invariant |world.store.outbox.pending| + |outcomes| == |old(world.store.outbox.pending)| + |rest|
        invariant |rest| <= |outcomes| && rest == outcomes[|outcomes| - |rest|..]
        decreases |world.store.outbox.pending|
      {
        if rest == [] {
          Take(Fail);
          return false, rest;
        }
        var outcome := rest[0];
        assert outcome in outcomes;
        rest := rest[1..];
        Take(Send(outcome));
        if outcome != Sent { return false, rest; }
      }
      empty := true;
    }

    /** The dedup insertions, one by one. */
    method RecordDeliveries()
      requires Valid() && world.phase.Recording?
      modifies this
      ensures Valid() && start == old(start) && old(history) <= history && world.phase.Idle?
      ensures world.store == old(world.store).(dedup := old(world.store.dedup) + Ids(old(world.phase.todo)))
      ensures world.account == old(world.account)
    {
      var todo := world.phase.todo;
      for n := 0 to |todo|
        invariant Valid() && start == old(start) && old(history) <= history
        invariant world.phase == Recording(todo[n..]) && world.account == old(world.account)
        invariant world.store == old(world.store).(dedup := old(world.store.dedup) + Ids(todo[..n]))
      {
        assert todo[n..][1..] == todo[n + 1..] && todo[..n + 1] == todo[..n] + [todo[n]];
        assert Ids(todo[..n + 1]) == Ids(todo[..n]) + {todo[n].id};
        Take(RecordDelivery);
      }
      assert todo[..|todo|] == todo;
      Take(Finish);
    }

    /** Reads the new records, queues the batch, acknowledges it and saves the snapshot. */
    method QueueBatch(now: Snapshot, order: seq<string>)
      requires Valid() && world.phase.Idle? && world.store.outbox == EMPTY
      modifies this
      ensures Valid() && start == old(start) && old(history) <= history && world.account == old(world.account)
      ensures var payloads := PayloadsOf(world.account, old(world.store), now, order);
              && world.phase == Saved(payloads)
              && world.store == old(world.store).(outbox := Enqueued(EMPTY, payloads), snapshot := now,
                                                  checkpoint := Reached(old(world.store)))
    {
      Take(FirstDrainDone);
      Take(Compute(now, order));
      Take(EnqueueBatch);
      Take(Acknowledge);
      Take(SaveSnapshot);
    }

    /** Delivers what was queued and records it. */
    method Deliver(outcomes: seq<Outcome>) returns (ok: bool)
      requires Valid() && world.phase.Saved? && world.store.outbox.dead == []
      modifies this
      ensures Valid() && start == old(start) && old(history) <= history && world.phase.Idle?
      ensures world.account == old(world.account)
      ensures ok ==> world.store == old(world.store).(
                       outbox := EMPTY, dedup := old(world.store.dedup) + Ids(old(world.phase.payloads)))
      ensures Accepting(outcomes, |old(world.store.outbox.pending)|) ==> ok
    {
      var rest;
      ok, rest := DrainOutbox(outcomes);
      if ok {
        Take(SecondDrainDone);
        RecordDeliveries();
      }
    }

    /** The part of a poll after the outbox has been emptied. */
    method PollDrained(now: Snapshot, order: seq<string>, outcomes: seq<Outcome>) returns (ok: bool)
      requires Valid() && world.phase.Idle? && world.store.outbox == EMPTY
      modifies this
      ensures Valid() && start == old(start) && old(history) <= history && world.phase.Idle?
      ensures world.account == old(world.account)
      ensures ok ==> Polled(world.account, old(world.store), world.store, now, order)
      ensures var added := Enqueued(EMPTY, PayloadsOf(world.account, old(world.store), now, order)).pending;
              Accepting(outcomes, |added|) ==> ok
    {
      QueueBatch(now, order);
      EnqueueKnows(EMPTY, world.phase.payloads);
      ok := Deliver(outcomes);
    }

    /** One poll. It is a run of the steps, and with a server that accepts everything it returns normally;
        when it returns normally, either a dead letter stopped it before it read anything, or the whole
        batch is delivered and recorded, the checkpoint is at the highest record read and the snapshot is
        the current one. */
    method PollOnce(now: Snapshot, order: seq<string>, outcomes: seq<Outcome>) returns (ok: bool)
      requires Valid() && world.phase.Idle?
      modifies this
      ensures Valid() && start == old(start) && old(history) <= history && world.phase.Idle?
      ensures world.account == old(world.account)
      ensures old(world.store.outbox.dead) != [] ==> ok && world == old(world)
      ensures ok && old(world.store.outbox.dead) == [] ==>
                Polled(world.account, old(world.store), world.store, now, order)
      ensures var waiting := old(world.store.outbox.pending);
              var added := Enqueued(EMPTY, PayloadsOf(world.account, old(world.store), now, order)).pending;
              Accepting(outcomes, |waiting| + |added|) ==> ok
    {
      if world.store.outbox.dead != [] { return true; }
      var empty, rest := DrainOutbox(outcomes);
      if !empty { return false; }
      assert Accepting(outcomes, |old(world.store.outbox.pending)|) ==> forall o | o in rest :: o in outcomes;
      OutboxDoesNotMatter(world.account, world.store, old(world.store), now, order);
      ok := PollDrained(now, order, rest);
    }
  }

  lemma {:induction false} ReplayGrows(read: Reader, t: Tracked, a: seq<Record>, b: seq<Record>)
    ensures DealReplay(read, t, a) <= DealReplay(read, t, a + b)
  {
    ReplayOfTwo(read, t, a, b);
  }

  /** A poll that is repeated before it acknowledged anything regenerates the same deal events, in the
      same order, whatever the snapshot has become, and goes on with the records that arrived since. */
  lemma {:induction false} RetryRegeneratesDeals(
    records: seq<Record>, all: seq<Record>, was: Snapshot, now: Snapshot, order: seq<string>, retake: Snapshot,
    next: seq<string>)
    requires records <= all && AllSelfContained(Load(was.positions), all)
    ensures DealsOnly(Merge(records, was, now, order)) <= DealsOnly(Merge(all, was, retake, next))
  {
    var later := all[|records|..];
    assert all == records + later;
    assert AllSelfContained(Load(was.positions), records) by {
      SelfContainedParts(Load(was.positions), records, later);
    }
    PollIsBlindReplay(records, was, now, order);
    PollIsBlindReplay(all, was, retake, next);
    ReplayGrows(Blind(), Load(was.positions), records, later);
  }

  /** The terminal gives every deal its own ticket. */
  ghost predicate TicketsUnique(log: seq<Record>) {
    forall p, q | p in log && q in log && p.kind == DealAdd && q.kind == DealAdd && NativeTicket(p).Some?
                  && NativeTicket(p) == NativeTicket(q) :: p == q
  }

  lemma {:induction false} NamedMeansUnread(
    account: string, s: Store, now: Snapshot, order: seq<string>, q: Record, id: EventId)
    requires q in s.log && q.kind == DealAdd && TicketsUnique(s.log) && Names(id, q)
    requires id in IdsOf(account, BatchOf(s, now, order))
    ensures q.sequence > s.checkpoint
  {
    var records := Unread(s.log, s.checkpoint, s.archived);
    var e :| e in Batch(records, s.snapshot, now, order) && BuildEventId(account, e) == id;
    if records == [] {
      DiffTypes(s.snapshot, now, order, e);
    } else {
      var k := NativeEventsComeFromLiveDeals(records, s.snapshot, now, order, e);
      var origin :| origin in s.log && records[k] == Mark(origin, s.archived);
      assert origin == q;
    }
  }

  /** When is a fill's own id regenerated after a crash? Exactly when the checkpoint has not passed it.
      Between acknowledging and saving the snapshot the fill is already passed, and the next poll sees
      only the snapshot diff, whose ids carry no deal ticket. */
  lemma {:induction false} RetryNamesFillIffUnread(
    account: string, s: Store, now: Snapshot, order: seq<string>, q: Record)
    requires q in s.log && IsLiveFill(Mark(q, s.archived)) && TicketsUnique(s.log)
    ensures Accounted(q, IdsOf(account, BatchOf(s, now, order)))
       <==> q.sequence > s.checkpoint
  {
    var records := Unread(s.log, s.checkpoint, s.archived);
    var ids := IdsOf(account, Batch(records, s.snapshot, now, order));
    if q.sequence > s.checkpoint {
      BatchAccountsForFills(account, records, s.snapshot, now, order);
      var m := Mark(q, s.archived);
      assert m in records && Accounted(m, ids);
      var id :| id in ids && Names(id, m);
      assert Names(id, q);
    }
    forall id | id in ids && Names(id, q) ensures q.sequence > s.checkpoint {
      NamedMeansUnread(account, s, now, order, q, id);
    }
  }

  /** Two names of one opening: the deal ticket while its file is there, and the state of the position once
      only the snapshots tell. */
  lemma {:induction false} OpeningHasTwoNames(
    account: string, was: Snapshot, now: Snapshot, order: seq<string>, r: Record, p: string)
    returns (before: EventId, after: EventId)
    requires IsEntryFill(r) && r.position == Some(p) && !r.archived && NativeTicket(r).Some?
    requires p !in was.positions && p in now.positions && Enumerates(order, was, now)
    ensures before in IdsOf(account, Batch([r], was, now, order)) && Names(before, r)
    ensures after in IdsOf(account, Batch([], was, now, order))
    ensures before.eventType == after.eventType == TradeOpened && before.ticket == after.ticket == p
    ensures before != after
  {
    var e := DealSurvivesMerge([r], was, now, order, 0);
    assert TrackedAt(Load(was.positions), [r], 0) == Load(was.positions);
    before := BuildEventId(account, e);
    var f := OpenedEvent(p, now.positions[p]);
    assert f in Scans(was, now, order)[0](p);
    DetectedMember(was, now, order, f);
    after := BuildEventId(account, f);
  }

  lemma {:induction false} SendAll(w: World) returns (sends: seq<Action>)
    requires w.phase.Idle? && w.store.outbox.dead == []
    ensures IsRun(w, sends)
    ensures After(w, sends)
         == w.(store := w.store.(outbox := EMPTY), delivered := w.delivered + Ids(w.store.outbox.pending))
    decreases |w.store.outbox.pending|
  {
    var pending := w.store.outbox.pending;
    if pending == [] {
      sends := [];
      assert w.store.outbox == EMPTY;
    } else {
      var rest := SendAll(Do(w, Send(Sent)));
      sends := [Send(Sent)] + rest;
      assert sends[1..] == rest;
      assert pending == [pending[0]] + pending[1..];
      assert Ids(pending) == {pending[0].id} + Ids(pending[1..]);
    }
  }

  lemma {:induction false} NothingUnread(log: seq<Record>, n: nat, archived: set<string>)
    requires forall q | q in log :: q.sequence <= n
    ensures Unread(log, n, archived) == []
  {
    if log != [] { NothingUnread(log[..|log| - 1], n, archived); }
  }

  lemma {:induction false} HighestOfOne(r: Record)
    ensures Highest([r]) == r.sequence
  {
    assert [r][..0] == [];
  }

  lemma {:induction false} NothingBeyond(s: Store, r: Record)
    requires Unread(s.log, s.checkpoint, s.archived) == [r]
    ensures Highest([r]) == r.sequence && Unread(s.log, r.sequence, s.archived) == []
  {
    HighestOfOne(r);
    forall q | q in s.log ensures q.sequence <= r.sequence {
      if q.sequence > s.checkpoint { assert Mark(q, s.archived) in [r]; }
    }
    NothingUnread(s.log, r.sequence, s.archived);
  }

  /** A poll up to its queued batch. */
  lemma {:induction false} PollQueues(w: World, now: Snapshot, order: seq<string>) returns (run: seq<Action>)
    requires w.phase.Idle? && w.store.outbox == EMPTY
    ensures IsRun(w, run)
    ensures var records := Unread(w.store.log, w.store.checkpoint, w.store.archived);
            var payloads := PayloadsOf(w.account, w.store, now, order);
            After(w, run) == w.(store := w.store.(outbox := Enqueued(EMPTY, payloads)),
                                phase := Queued(records, now, payloads, IdsOf(w.account, BatchOf(w.store, now, order))))
  {
    var a := Do(w, FirstDrainDone);
    var b := Do(a, Compute(now, order));
    OneStep(w, FirstDrainDone);
    OneStep(a, Compute(now, order));
    OneStep(b, EnqueueBatch);
    RunJoins(w, [FirstDrainDone], [Compute(now, order)]);
    run := [FirstDrainDone] + [Compute(now, order)];
    RunJoins(w, run, [EnqueueBatch]);
    run := run + [EnqueueBatch];
  }

  /** The batch is acknowledged, and the process dies before the snapshot is saved. */
  lemma {:induction false} AcknowledgeAndCrash(w: World) returns (run: seq<Action>)
    requires w.phase.Queued? && w.phase.records != []
    ensures IsRun(w, run)
    ensures After(w, run) == w.(store := w.store.(checkpoint := Highest(w.phase.records)),
                                covered := w.covered + w.phase.ids, phase := Idle)
  {
    OneStep(w, Acknowledge);
    OneStep(Do(w, Acknowledge), Fail);
    RunJoins(w, [Acknowledge], [Fail]);
    run := [Acknowledge] + [Fail];
  }

  /** A poll that reads `r`, acknowledges it and crashes, the delivery of what it had queued, and the next
      poll up to its queued batch. */
  lemma {:induction false} CrashRun(w: World, now: Snapshot, order: seq<string>, r: Record) returns (run: seq<Action>)
    requires Initial(w) && w.store.outbox == EMPTY && Unread(w.store.log, w.store.checkpoint, w.store.archived) == [r]
    ensures IsRun(w, run) && After(w, run).phase.Queued?
    ensures IdsOf(w.account, Batch([r], w.store.snapshot, now, order)) <= After(w, run).covered
    ensures After(w, run).phase.ids == IdsOf(w.account, Batch([], w.store.snapshot, now, order))
  {
    NothingBeyond(w.store, r);
    run := PollQueues(w, now, order);
    var queued := After(w, run);
    var crash := AcknowledgeAndCrash(queued);
    RunJoins(w, run, crash);
    run := run + crash;
    var crashed := After(w, run);
    EnqueueKnows(EMPTY, queued.phase.payloads);
    var sends := SendAll(crashed);
    RunJoins(w, run, sends);
    run := run + sends;
    var drained := After(w, run);
    var next := PollQueues(drained, now, order);
    RunJoins(w, run, next);
    run := run + next;
  }

  lemma {:induction false} QueuedIsKept(w: World)
    requires Inv(w) && w.phase.Queued?
    ensures w.covered <= LivePoll.Kept(w) && w.phase.ids <= LivePoll.Kept(w)
  {
  }

  /** So a crash in that window repeats an opening under a second identity. The run: a poll reads the file
      of an opening, queues its event, acknowledges, and crashes before it saves the snapshot; the next poll
      delivers what was queued, finds no file and the old snapshot, and queues the same opening again. */
  lemma {:induction false} CrashAfterAcknowledgeRepeatsOpening(
    w: World, now: Snapshot, order: seq<string>, r: Record, p: string)
    returns (run: seq<Action>, before: EventId, after: EventId)
    requires Initial(w) && w.store.outbox == EMPTY && Unread(w.store.log, w.store.checkpoint, w.store.archived) == [r]
    requires IsEntryFill(r) && r.position == Some(p) && !r.archived && NativeTicket(r).Some?
    requires p !in w.store.snapshot.positions && p in now.positions && Enumerates(order, w.store.snapshot, now)
    ensures IsRun(w, run)
    ensures before in LivePoll.Kept(After(w, run)) && after in LivePoll.Kept(After(w, run))
    ensures before != after && Names(before, r)
    ensures before.eventType == after.eventType == TradeOpened && before.ticket == after.ticket == p
  {
    before, after := OpeningHasTwoNames(w.account, w.store.snapshot, now, order, r, p);
    run := CrashRun(w, now, order, r);
    RunKeepsInv(w, run);
    QueuedIsKept(After(w, run));
  }
}
