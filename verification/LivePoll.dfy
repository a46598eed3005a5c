/** One live poll as steps over durable state, with a crash possible between any two of them
    (windows_agent/worker/live_sync.py:498-570, windows_agent/worker/mql5_file_adapter.py:430-525). */
module LivePoll {
  import opened Prelude
  import opened Events
  import opened SnapshotDiff
  import opened LiveStream
  import opened Outbox
  import Ledger

  /** The files that survive a crash. `log` is every event file the terminal has published, in sequence
      order; those up to the checkpoint may have been deleted and are never read again. `archived` is
      the deal membership of the active history handoff. */
  datatype Store = Store(
    log: seq<Record>,
    checkpoint: nat,
    archived: set<string>,
    snapshot: Snapshot,
    outbox: Queue,
    dedup: set<EventId>)

  /** The event files a poll reads: beyond the checkpoint, with archived deals marked. */
  function Mark(r: Record, archived: set<string>): Record {
    if r.kind == DealAdd && NativeTicket(r).Some? && NativeTicket(r).value in archived then r.(archived := true) else r
  }

  function Unread(log: seq<Record>, checkpoint: nat, archived: set<string>): (records: seq<Record>)
    ensures forall r | r in records :: r.sequence > checkpoint && exists q :: q in log && r == Mark(q, archived)
    ensures forall q | q in log && q.sequence > checkpoint :: Mark(q, archived) in records
  {
    if log == [] then []
    else
      Unread(log[..|log| - 1], checkpoint, archived)
      + if log[|log| - 1].sequence > checkpoint then [Mark(log[|log| - 1], archived)] else []
  }

  function Highest(records: seq<Record>): (n: nat)
    ensures forall r | r in records :: r.sequence <= n
    ensures records != [] ==> exists r :: r in records && r.sequence == n
  {
    if records == [] then 0
    else
      var rest, last := Highest(records[..|records| - 1]), records[|records| - 1].sequence;
      if |records| == 1 || last > rest then last else rest
  }

  /** The raw events of a poll: the merge when there are records, the bare diff otherwise. */
  function Batch(records: seq<Record>, was: Snapshot, now: Snapshot, order: seq<string>): seq<Event> {
    if records == [] then Detect(was, now, order) else Merge(records, was, now, order)
  }

  function IdsOf(account: string, events: seq<Event>): set<EventId> {
    set e | e in events :: BuildEventId(account, e)
  }

  /** The payloads of the events that the dedup table does not hold. */
  function NewPayloads(account: string, events: seq<Event>, dedup: set<EventId>): (ps: seq<Payload>)
    ensures forall e | e in events :: BuildEventId(account, e) in dedup || BuildEventId(account, e) in Ids(ps)
    ensures Ids(ps) <= IdsOf(account, events)
  {
    if events == [] then []
    else
      var rest, e := NewPayloads(account, events[..|events| - 1], dedup), events[|events| - 1];
      assert events == events[..|events| - 1] + [e];
      var p := Payload(BuildEventId(account, e), e);
      assert Ids(rest + [p]) == Ids(rest) + {p.id};
      if p.id in dedup then rest else rest + [p]
  }

  /** Where a poll stands. Everything here is lost in a crash. `ids` are the ids of all events of the
      batch, whether or not the dedup table filtered them out. */
  datatype Phase =
    | Idle
    | Ready
    | Computed(records: seq<Record>, now: Snapshot, payloads: seq<Payload>, ids: set<EventId>)
    | Queued(records: seq<Record>, now: Snapshot, payloads: seq<Payload>, ids: set<EventId>)
    | Passed(now: Snapshot, payloads: seq<Payload>, ids: set<EventId>)
    | Saved(payloads: seq<Payload>)
    | Recording(todo: seq<Payload>)

  /** `delivered` is what the sender has confirmed, `covered` every id computed for a batch that the
      checkpoint or the saved snapshot has moved past. Both are history, kept by nobody. */
  datatype World = World(
    account: string,
    base: nat,
    store: Store,
    phase: Phase,
    delivered: set<EventId>,
    covered: set<EventId>)

  datatype Action =
    | Publish(r: Record)
    | Send(outcome: Outcome)
    | FirstDrainDone
    | Compute(now: Snapshot, order: seq<string>)
    | EnqueueBatch
    | Acknowledge
    | SaveSnapshot
    | SecondDrainDone
    | RecordDelivery
    | Finish
    | Fail

  predicate Enabled(w: World, a: Action) {
    match a
    case Publish(r) => !r.archived && forall q | q in w.store.log :: q.sequence < r.sequence
    case Send(_) => (w.phase.Idle? || w.phase.Saved?) && w.store.outbox.dead == [] && w.store.outbox.pending != []
    case FirstDrainDone => w.phase.Idle? && w.store.outbox == EMPTY
    case Compute(_, _) => w.phase.Ready?
    case EnqueueBatch => w.phase.Computed?
    case Acknowledge => w.phase.Queued?
    case SaveSnapshot => w.phase.Passed?
    case SecondDrainDone => w.phase.Saved? && w.store.outbox == EMPTY
    case RecordDelivery => w.phase.Recording? && w.phase.todo != []
    case Finish => w.phase.Recording? && w.phase.todo == []
    case Fail => true
  }

  /** One step. `Fail` is a crash or an exception, from anywhere: the next poll starts over from the
      files. A send that is not a delivery ends the poll too. */
  function Do(w: World, a: Action): World
    requires Enabled(w, a)
  {
    var s := w.store;
    match a
    case Publish(r) => w.(store := s.(log := s.log + [r]))
    case Send(outcome) =>
      w.(store := s.(outbox := AfterSend(s.outbox, outcome)),
         delivered := if outcome == Sent then w.delivered + {s.outbox.pending[0].id} else w.delivered,
         phase := if outcome == Sent then w.phase else Idle)
    case FirstDrainDone => w.(phase := Ready)
    case Compute(now, order) =>
      var records := Unread(s.log, s.checkpoint, s.archived);
      var events := Batch(records, s.snapshot, now, order);
      w.(phase := Computed(records, now, NewPayloads(w.account, events, s.dedup), IdsOf(w.account, events)))
    case EnqueueBatch =>
      var p := w.phase;
      w.(store := s.(outbox := Enqueued(s.outbox, p.payloads)), phase := Queued(p.records, p.now, p.payloads, p.ids))
    case Acknowledge =>
      var p := w.phase;
      if p.records == [] then w.(phase := Passed(p.now, p.payloads, p.ids))
      else
        w.(store := s.(checkpoint := Highest(p.records)), covered := w.covered + p.ids,
           phase := Passed(p.now, p.payloads, p.ids))
    case SaveSnapshot =>
      w.(store := s.(snapshot := w.phase.now), covered := w.covered + w.phase.ids, phase := Saved(w.phase.payloads))
    case SecondDrainDone => w.(phase := Recording(w.phase.payloads))
    case RecordDelivery =>
      w.(store := s.(dedup := s.dedup + {w.phase.todo[0].id}), phase := Recording(w.phase.todo[1..]))
    case Finish => w.(phase := Idle)
    case Fail => w.(phase := Idle)
  }

  /** The world after a sequence of steps, each enabled where it is taken. */
  ghost predicate IsRun(w: World, actions: seq<Action>)
    decreases |actions|
  {
    actions != [] ==> Enabled(w, actions[0]) && IsRun(Do(w, actions[0]), actions[1..])
  }

  ghost function After(w: World, actions: seq<Action>): World
    requires IsRun(w, actions)
    decreases |actions|
  {
    if actions == [] then w else After(Do(w, actions[0]), actions[1..])
  }

  /** A connection whose event files up to `base` were dealt with before. Nothing is in memory; the
      outbox may hold anything, and the dedup table only what was delivered. */
  ghost predicate Initial(w: World) {
    && LogInv(w) && w.store.checkpoint == w.base && w.store.dedup <= w.delivered && w.phase.Idle? && w.covered == {}
  }

  // ---------------------------------------------------------------- what every step keeps

  /** Delivered, or still in the outbox, or dead-lettered there. */
  function Kept(w: World): set<EventId> { w.delivered + KnownIds(w.store.outbox) }

  /** A fill that live must deliver: no archive holds it. */
  predicate IsLiveFill(r: Record) {
    && r.kind == DealAdd && !r.archived && NativeTicket(r).Some?
    && r.entry in {Ledger.TextIn, Ledger.TextOut, Ledger.TextOutBy}
  }

  /** The id is the fill's own: its position and its immutable deal ticket. */
  predicate Names(id: EventId, r: Record) {
    id.ticket == EventTicket(r) && NativeTicket(r).Some? && id.digest == NativeDeal(NativeTicket(r).value)
  }

  ghost predicate Accounted(r: Record, ids: set<EventId>) { exists id :: id in ids && Names(id, r) }

  ghost predicate AllAccounted(records: seq<Record>, ids: set<EventId>) {
    forall r | r in records && IsLiveFill(r) :: Accounted(r, ids)
  }

  /** The batch holds every file between the checkpoint and its own highest sequence. */
  ghost predicate NoGap(s: Store, records: seq<Record>) {
    forall q | q in s.log && s.checkpoint < q.sequence <= Highest(records) :: Mark(q, s.archived) in records
  }

  ghost predicate FromLog(s: Store, records: seq<Record>) {
    forall r | r in records :: r.sequence > s.checkpoint && exists q :: q in s.log && r == Mark(q, s.archived)
  }

  ghost predicate PhaseInv(w: World) {
    var s := w.store;
    match w.phase
    case Idle => true
    case Ready => s.outbox == EMPTY
    case Computed(records, now, payloads, ids) =>
      s.outbox == EMPTY && ids <= s.dedup + Ids(payloads) && AllAccounted(records, ids) && NoGap(s, records)
      && FromLog(s, records)
    case Queued(records, now, payloads, ids) =>
      s.outbox.dead == [] && ids <= Kept(w) && Ids(payloads) <= Kept(w) && AllAccounted(records, ids)
      && NoGap(s, records)
      && FromLog(s, records)
    case Passed(now, payloads, ids) => s.outbox.dead == [] && ids <= Kept(w) && Ids(payloads) <= Kept(w)
    case Saved(payloads) => s.outbox.dead == [] && Ids(payloads) <= Kept(w)
    case Recording(todo) => Ids(todo) <= w.delivered
  }

  ghost predicate DealsInv(w: World) {
    forall q | q in w.store.log && w.base < q.sequence <= w.store.checkpoint && IsLiveFill(Mark(q, w.store.archived)) ::
      Accounted(q, w.covered)
  }

  /** No id names a deal that the archive holds. */
  ghost predicate NoneArchived(ids: set<EventId>, archived: set<string>) {
    forall id | id in ids && id.digest.NativeDeal? :: id.digest.ticket !in archived
  }

  /** The ids that are in memory only. */
  function InFlight(p: Phase): set<EventId> {
    match p
    case Computed(_, _, payloads, ids) => Ids(payloads) + ids
    case Queued(_, _, payloads, ids) => Ids(payloads) + ids
    case Passed(_, payloads, ids) => Ids(payloads) + ids
    case _ => {}
  }

  /** Of the ids delivered or queued since `before`, and of those in memory, none names an archived deal. */
  ghost predicate ArchiveInv(w: World, before: set<EventId>) {
    NoneArchived(Kept(w) - before, w.store.archived) && NoneArchived(InFlight(w.phase), w.store.archived)
  }

  ghost predicate LogInv(w: World) {
    forall i, j | 0 <= i < j < |w.store.log| :: w.store.log[i].sequence < w.store.log[j].sequence
  }

  ghost predicate Inv(w: World) {
    && w.store.dedup <= w.delivered
    && w.covered <= Kept(w)
    && w.base <= w.store.checkpoint
    && PhaseInv(w) && DealsInv(w) && LogInv(w)
    && (w.store.checkpoint == w.base || exists q :: q in w.store.log && q.sequence == w.store.checkpoint)
  }

  lemma {:induction false} EnqueueKnows(q: Queue, batch: seq<Payload>)
    ensures KnownIds(Enqueued(q, batch)) == KnownIds(q) + Ids(batch)
    ensures Enqueued(q, batch).dead == q.dead
  {
    var added := NewIn(KnownIds(q), batch);
    forall id ensures id in KnownIds(Enqueued(q, batch)) <==> id in KnownIds(q) + Ids(batch) {
      if id in Ids(added) {
        var p :| p in added && p.id == id;
        assert p in batch;
      }
      if p :| p in q.pending && p.id == id { assert p in Enqueued(q, batch).pending; }
      if p :| p in added && p.id == id { assert p in Enqueued(q, batch).pending; }
    }
  }

  lemma {:induction false} SendForgetsNothing(q: Queue, outcome: Outcome)
    requires q.pending != []
    ensures KnownIds(q) <= KnownIds(AfterSend(q, outcome)) + if outcome == Sent then {q.pending[0].id} else {}
    ensures outcome == Sent ==> AfterSend(q, outcome).dead == q.dead
  {
    assert q.pending == [q.pending[0]] + q.pending[1..];
    if outcome == Permanent { assert q.pending[0] in AfterSend(q, outcome).dead; }
  }

  /** Every live fill that a poll reads is named, by its native ticket, by an id of the batch. */
  lemma {:induction false} BatchAccountsForFills(
    account: string, records: seq<Record>, was: Snapshot, now: Snapshot, order: seq<string>)
    ensures AllAccounted(records, IdsOf(account, Batch(records, was, now, order)))
  {
    forall r | r in records && IsLiveFill(r)
      ensures Accounted(r, IdsOf(account, Batch(records, was, now, order)))
    {
      var k :| 0 <= k < |records| && records[k] == r;
      var e := DealSurvivesMerge(records, was, now, order, k);
      assert BuildEventId(account, e) in IdsOf(account, Batch(records, was, now, order));
    }
  }

  lemma {:induction false} AccountedGrows(r: Record, a: set<EventId>, b: set<EventId>)
    requires Accounted(r, a) && a <= b
    ensures Accounted(r, b)
  {
    var id :| id in a && Names(id, r);
    assert id in b;
  }

  lemma {:induction false} HighestIsRead(s: Store, records: seq<Record>)
    requires records != [] && FromLog(s, records)
    ensures Highest(records) > s.checkpoint && exists q :: q in s.log && q.sequence == Highest(records)
  {
    var n := Highest(records);
    var top :| top in records && top.sequence == n;
    var q :| q in s.log && top == Mark(q, s.archived);
    assert q.sequence == n;
  }

  lemma {:induction false} LaterFileKeepsOrigins(s: Store, records: seq<Record>, r: Record)
    requires FromLog(s, records)
    ensures FromLog(s.(log := s.log + [r]), records)
  {
    forall p | p in records ensures exists q :: q in s.log + [r] && p == Mark(q, s.archived) {
      var q :| q in s.log && p == Mark(q, s.archived);
      assert q in s.log + [r];
    }
  }

  lemma {:induction false} LaterFileIsBeyond(s: Store, records: seq<Record>, r: Record)
    requires FromLog(s, records) && forall q | q in s.log :: q.sequence < r.sequence
    ensures r.sequence > Highest(records) || Highest(records) == 0
  {
    if records != [] { HighestIsRead(s, records); }
  }

  /** A file published after a poll read the directory does not disturb that poll. */
  lemma {:induction false} LaterFileIsNoGap(s: Store, records: seq<Record>, r: Record)
    requires FromLog(s, records) && NoGap(s, records) && forall q | q in s.log :: q.sequence < r.sequence
    ensures NoGap(s.(log := s.log + [r]), records)
  {
    LaterFileIsBeyond(s, records, r);
    forall q | q in s.log + [r] && s.checkpoint < q.sequence <= Highest(records)
      ensures Mark(q, s.archived) in records
    {
      assert q in s.log;
    }
  }

  lemma {:induction false} PublishIsNotPassed(w: World, r: Record)
    requires Inv(w) && Enabled(w, Publish(r))
    ensures w.base < r.sequence ==> r.sequence > w.store.checkpoint
    ensures DealsInv(Do(w, Publish(r))) && LogInv(Do(w, Publish(r)))
  {
  }

  lemma {:induction false} PublishKeepsInv(w: World, r: Record)
    requires Inv(w) && Enabled(w, Publish(r))
    ensures Inv(Do(w, Publish(r)))
  {
    PublishIsNotPassed(w, r);
    var v := Do(w, Publish(r));
    assert PhaseInv(v) by {
      if w.phase.Computed? || w.phase.Queued? {
        LaterFileKeepsOrigins(w.store, w.phase.records, r);
        LaterFileIsNoGap(w.store, w.phase.records, r);
      }
    }
    if w.store.checkpoint != w.base {
      var q :| q in w.store.log && q.sequence == w.store.checkpoint;
      assert q in v.store.log;
    }
  }

  lemma {:induction false} SendKeepsInv(w: World, outcome: Outcome)
    requires Inv(w) && Enabled(w, Send(outcome))
    ensures Inv(Do(w, Send(outcome)))
  {
    SendForgetsNothing(w.store.outbox, outcome);
  }

  lemma {:induction false} ComputeKeepsInv(w: World, now: Snapshot, order: seq<string>)
    requires Inv(w) && Enabled(w, Compute(now, order))
    ensures Inv(Do(w, Compute(now, order)))
  {
    var s := w.store;
    var records := Unread(s.log, s.checkpoint, s.archived);
    var events := Batch(records, s.snapshot, now, order);
    BatchAccountsForFills(w.account, records, s.snapshot, now, order);
    assert IdsOf(w.account, events) <= s.dedup + Ids(NewPayloads(w.account, events, s.dedup));
    assert FromLog(s, records) && NoGap(s, records);
    assert PhaseInv(Do(w, Compute(now, order)));
  }

  lemma {:induction false} EnqueueKeepsInv(w: World)
    requires Inv(w) && Enabled(w, EnqueueBatch)
    ensures Inv(Do(w, EnqueueBatch))
  {
    EnqueueKnows(w.store.outbox, w.phase.payloads);
  }

  lemma {:induction false} AcknowledgeCoversDeals(w: World)
    requires Inv(w) && w.phase.Queued? && w.phase.records != []
    ensures DealsInv(Do(w, Acknowledge))
  {
    var s, records, ids, v := w.store, w.phase.records, w.phase.ids, Do(w, Acknowledge);
    forall q | q in s.log && w.base < q.sequence <= v.store.checkpoint && IsLiveFill(Mark(q, s.archived))
      ensures Accounted(q, v.covered)
    {
      if q.sequence <= s.checkpoint {
        AccountedGrows(q, w.covered, v.covered);
      } else {
        assert Accounted(Mark(q, s.archived), ids);
        var id :| id in ids && Names(id, Mark(q, s.archived));
        assert Names(id, q) && id in v.covered;
      }
    }
  }

  lemma {:induction false} AcknowledgeKeepsInv(w: World)
    requires Inv(w) && Enabled(w, Acknowledge)
    ensures Inv(Do(w, Acknowledge)) && Do(w, Acknowledge).store.checkpoint >= w.store.checkpoint
  {
    if w.phase.records != [] {
      HighestIsRead(w.store, w.phase.records);
      AcknowledgeCoversDeals(w);
    }
  }

  lemma {:induction false} SaveKeepsInv(w: World)
    requires Inv(w) && Enabled(w, SaveSnapshot)
    ensures Inv(Do(w, SaveSnapshot))
  {
    var v := Do(w, SaveSnapshot);
    forall q | q in w.store.log && Accounted(q, w.covered) ensures Accounted(q, v.covered) {
      AccountedGrows(q, w.covered, v.covered);
    }
  }

  lemma {:induction false} RecordKeepsInv(w: World)
    requires Inv(w) && Enabled(w, RecordDelivery)
    ensures Inv(Do(w, RecordDelivery))
  {
    var todo := w.phase.todo;
    assert todo[0] in todo && forall p | p in todo[1..] :: p in todo;
  }

  /** Every step, a crash included, keeps the invariant and never moves the checkpoint back. */
  lemma {:induction false} StepKeepsInv(w: World, a: Action)
    requires Inv(w) && Enabled(w, a)
    ensures Inv(Do(w, a)) && Do(w, a).store.checkpoint >= w.store.checkpoint
  {
    match a
    case Publish(r) => PublishKeepsInv(w, r);
    case Send(outcome) => SendKeepsInv(w, outcome);
    case FirstDrainDone =>
    case Compute(now, order) => ComputeKeepsInv(w, now, order);
    case EnqueueBatch => EnqueueKeepsInv(w);
    case Acknowledge => AcknowledgeKeepsInv(w);
    case SaveSnapshot => SaveKeepsInv(w);
    case SecondDrainDone =>
    case RecordDelivery => RecordKeepsInv(w);
    case Finish =>
    case Fail =>
  }

  lemma {:induction false} RunKeepsInv(w: World, actions: seq<Action>)
    requires Inv(w) && IsRun(w, actions)
    ensures Inv(After(w, actions)) && After(w, actions).store.checkpoint >= w.store.checkpoint
    decreases |actions|
  {
    if actions != [] {
      StepKeepsInv(w, actions[0]);
      RunKeepsInv(Do(w, actions[0]), actions[1..]);
    }
  }

  /** A batch never carries the ticket of an archived deal. */
  lemma {:induction false} BatchAvoidsArchive(account: string, s: Store, now: Snapshot, order: seq<string>)
    ensures var events := Batch(Unread(s.log, s.checkpoint, s.archived), s.snapshot, now, order);
            NoneArchived(IdsOf(account, events), s.archived)
  {
    var records := Unread(s.log, s.checkpoint, s.archived);
    var events := Batch(records, s.snapshot, now, order);
    forall id | id in IdsOf(account, events) && id.digest.NativeDeal?
      ensures id.digest.ticket !in s.archived
    {
      var e :| e in events && BuildEventId(account, e) == id;
      if records == [] {
        DiffTypes(s.snapshot, now, order, e);
      } else {
        var k := NativeEventsComeFromLiveDeals(records, s.snapshot, now, order, e);
        var origin :| origin in s.log && records[k] == Mark(origin, s.archived);
      }
    }
  }

  lemma {:induction false} SendAvoidsArchive(w: World, outcome: Outcome, before: set<EventId>)
    requires ArchiveInv(w, before) && Enabled(w, Send(outcome))
    ensures ArchiveInv(Do(w, Send(outcome)), before)
  {
    var q, v := w.store.outbox, Do(w, Send(outcome));
    assert q.pending == [q.pending[0]] + q.pending[1..];
    assert KnownIds(AfterSend(q, outcome)) <= KnownIds(q);
    assert Kept(v) <= Kept(w);
  }

  lemma {:induction false} ComputeAvoidsArchive(w: World, now: Snapshot, order: seq<string>, before: set<EventId>)
    requires ArchiveInv(w, before) && Enabled(w, Compute(now, order))
    ensures ArchiveInv(Do(w, Compute(now, order)), before)
  {
    var s := w.store;
    var events := Batch(Unread(s.log, s.checkpoint, s.archived), s.snapshot, now, order);
    BatchAvoidsArchive(w.account, s, now, order);
    assert InFlight(Do(w, Compute(now, order)).phase) <= IdsOf(w.account, events);
  }

  lemma {:induction false} EnqueueAvoidsArchive(w: World, before: set<EventId>)
    requires ArchiveInv(w, before) && Enabled(w, EnqueueBatch)
    ensures ArchiveInv(Do(w, EnqueueBatch), before)
  {
    EnqueueKnows(w.store.outbox, w.phase.payloads);
  }

  lemma {:induction false} StepAvoidsArchive(w: World, a: Action, before: set<EventId>)
    requires ArchiveInv(w, before) && Enabled(w, a)
    ensures ArchiveInv(Do(w, a), before) && Do(w, a).store.archived == w.store.archived
  {
    match a
    case Compute(now, order) => ComputeAvoidsArchive(w, now, order, before);
    case EnqueueBatch => EnqueueAvoidsArchive(w, before);
    case Send(outcome) => SendAvoidsArchive(w, outcome, before);
    case Publish(_) | FirstDrainDone | Acknowledge | SaveSnapshot | SecondDrainDone | RecordDelivery | Finish | Fail =>
      assert Kept(Do(w, a)) == Kept(w) && InFlight(Do(w, a).phase) <= InFlight(w.phase);
  }

  // ---------------------------------------------------------------- over every run

  /** No crash loses an event. In every run, every id computed for a batch that the checkpoint or the
      saved snapshot has moved past is delivered, pending or dead-lettered; the dedup table holds only
      delivered ids; and the checkpoint never moves back. */
  lemma {:induction false} NoCrashLosesAnEvent(w: World, actions: seq<Action>)
    requires Initial(w) && IsRun(w, actions)
    ensures After(w, actions).covered <= Kept(After(w, actions))
    ensures After(w, actions).store.dedup <= After(w, actions).delivered
    ensures After(w, actions).store.checkpoint >= w.store.checkpoint
  {
    RunKeepsInv(w, actions);
  }

  /** And no deal is lost: in every run, every fill that the checkpoint has passed and no archive holds
      is delivered, pending or dead-lettered under an id that is its own immutable deal ticket. */
  lemma {:induction false} NoCrashLosesADeal(w: World, actions: seq<Action>, q: Record)
    requires Initial(w) && IsRun(w, actions)
    requires q in After(w, actions).store.log
    requires w.base < q.sequence <= After(w, actions).store.checkpoint
    requires IsLiveFill(Mark(q, After(w, actions).store.archived))
    ensures Accounted(q, Kept(After(w, actions)))
  {
    RunKeepsInv(w, actions);
    var v := After(w, actions);
    BaseIsFixed(w, actions);
    AccountedGrows(q, v.covered, Kept(v));
  }

  /** Over any run, no deal that the archive holds enters the outbox or is delivered under its ticket, beyond
      what had been delivered or queued before. */
  lemma {:induction false} ArchivedDealsStayOut(w: World, actions: seq<Action>, before: set<EventId>)
    requires ArchiveInv(w, before) && IsRun(w, actions)
    ensures ArchiveInv(After(w, actions), before) && After(w, actions).store.archived == w.store.archived
    decreases |actions|
  {
    if actions != [] {
      StepAvoidsArchive(w, actions[0], before);
      ArchivedDealsStayOut(Do(w, actions[0]), actions[1..], before);
    }
  }

  lemma {:induction false} BaseIsFixed(w: World, actions: seq<Action>)
    requires IsRun(w, actions)
    ensures After(w, actions).base == w.base && After(w, actions).account == w.account
    decreases |actions|
  {
    if actions != [] { BaseIsFixed(Do(w, actions[0]), actions[1..]); }
  }
}
