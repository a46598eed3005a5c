/** The persistent FIFO outbox and its causal order (worker/event_outbox.py). */
module Outbox {
  import opened Prelude
  import opened Events

  datatype Payload = Payload(id: EventId, event: Event)

  /** What the outbox file holds. Dead letters are kept in the order they were rejected. */
  datatype Queue = Queue(pending: seq<Payload>, dead: seq<Payload>)

  const EMPTY := Queue([], [])

  function Ids(ps: seq<Payload>): set<EventId> { set p | p in ps :: p.id }

  /** What loading the file insists on: no id twice, and none both queued and dead-lettered. */
  predicate Loadable(s: Queue) {
    && Ids(s.pending) !! Ids(s.dead)
    && (forall i, j | 0 <= i < j < |s.pending| :: s.pending[i].id != s.pending[j].id)
  }

  function KnownIds(s: Queue): set<EventId> { Ids(s.pending) + Ids(s.dead) }

  /** The payloads of a batch whose id is neither queued, dead-lettered, nor earlier in the batch. */
  function NewIn(known: set<EventId>, batch: seq<Payload>): (added: seq<Payload>)
    ensures forall p | p in added :: p in batch && p.id !in known
    ensures forall p | p in batch :: p.id in known || p.id in Ids(added)
    ensures forall i, j | 0 <= i < j < |added| :: added[i].id != added[j].id
    decreases batch
  {
    if batch == [] then []
    else if batch[0].id in known then NewIn(known, batch[1..])
    else [batch[0]] + NewIn(known + {batch[0].id}, batch[1..])
  }

  /** One turn of the loop over a batch. */
  lemma {:induction false} NewInStep(known: set<EventId>, batch: seq<Payload>, n: nat, before: seq<Payload>)
    requires n < |batch|
    ensures before + NewIn(known, batch[n..]) ==
              if batch[n].id in known then before + NewIn(known, batch[n + 1..])
              else (before + [batch[n]]) + NewIn(known + {batch[n].id}, batch[n + 1..])
  {
    assert batch[n..][0] == batch[n] && batch[n..][1..] == batch[n + 1..];
    if batch[n].id !in known {
      var rest := NewIn(known + {batch[n].id}, batch[n + 1..]);
      assert before + ([batch[n]] + rest) == (before + [batch[n]]) + rest;
    }
  }

  function Enqueued(s: Queue, batch: seq<Payload>): Queue {
    s.(pending := s.pending + NewIn(KnownIds(s), batch))
  }

  /** What the sender reports for one payload; `Crash` is the process dying after the request went out
      and before the new state was stored. */
  datatype Outcome = Sent | DryRun | Permanent | Transient | Crash

  /** One turn of the drain loop: the new file contents. Only a delivery or a rejection is stored. */
  function AfterSend(s: Queue, outcome: Outcome): Queue
    requires s.pending != []
  {
    match outcome
    case Sent => s.(pending := s.pending[1..])
    case Permanent => Queue(s.pending[1..], s.dead + [s.pending[0]])
    case DryRun => s
    case Transient => s
    case Crash => s
  }

  /** A whole drain: the state it leaves and the payloads it handed to the sender, in order. The list of
      outcomes may run out, which is a crash before the next send. */
  function Drained(s: Queue, outcomes: seq<Outcome>): (Queue, seq<Payload>)
    decreases outcomes
  {
    if s.dead != [] || s.pending == [] || outcomes == [] then (s, [])
    else
      var next := AfterSend(s, outcomes[0]);
      if outcomes[0] != Sent then (next, [s.pending[0]])
      else
        var (end, log) := Drained(next, outcomes[1..]);
        (end, [s.pending[0]] + log)
  }

  /** The outcomes before place `n` are all deliveries. */
  predicate AllSent(outcomes: seq<Outcome>, n: nat)
    requires n <= |outcomes|
  {
    forall i | 0 <= i < n :: outcomes[i] == Sent
  }

  /** What a drain does, without its steps: `n` payloads are delivered and leave the queue, all of them if every
      outcome is a delivery; if the next outcome is another one, its payload is handed over too, and it is the
      dead letter if it was rejected for good and stays first in the queue otherwise. */
  lemma {:induction false} DrainStopsAtFirstFailure(s: Queue, outcomes: seq<Outcome>) returns (n: nat)
    requires s.dead == []
    ensures n <= |s.pending| && n <= |outcomes| && AllSent(outcomes, n)
    ensures if n < |s.pending| && n < |outcomes| then
              && outcomes[n] != Sent
              && Drained(s, outcomes).1 == s.pending[..n + 1]
              && Drained(s, outcomes).0 == if outcomes[n] == Permanent then Queue(s.pending[n + 1..], [s.pending[n]])
                                           else Queue(s.pending[n..], [])
            else
              Drained(s, outcomes) == (Queue(s.pending[n..], []), s.pending[..n])
    decreases |outcomes|
  {
    n := 0;
    if s.pending != [] && outcomes != [] && outcomes[0] == Sent {
      var rest := Queue(s.pending[1..], []);
      var m := DrainStopsAtFirstFailure(rest, outcomes[1..]);
      n := m + 1;
      assert s.pending == [s.pending[0]] + s.pending[1..];
      assert [s.pending[0]] + rest.pending[..m] == s.pending[..n];
      if m < |rest.pending| && m < |outcomes[1..]| {
        assert [s.pending[0]] + rest.pending[..m + 1] == s.pending[..n + 1];
      }
    }
  }

  class EventOutbox {
    var state: Queue

    constructor ()
      ensures state == EMPTY
    {
      state := EMPTY;
    }

    /** Appends the unknown payloads of a batch, in order, in one replacement of the file. */
    method EnqueueMany(batch: seq<Payload>) returns (added: nat)
      modifies this
      ensures state == Enqueued(old(state), batch)
      ensures added == |NewIn(KnownIds(old(state)), batch)|
    {
      var appended, known := [], KnownIds(state);
      assert batch[0..] == batch && [] + NewIn(known, batch) == NewIn(known, batch);
      for n := 0 to |batch|
        invariant state == old(state)
        invariant appended + NewIn(known, batch[n..]) == NewIn(KnownIds(state), batch)
      {
        NewInStep(known, batch, n, appended);
        if batch[n].id !in known {
          appended, known := appended + [batch[n]], known + {batch[n].id};
        }
      }
      assert batch[|batch|..] == [] && appended + [] == appended;
      assert appended == NewIn(KnownIds(state), batch);
      assert state.pending + [] == state.pending;
      added := |appended|;
      if added > 0 { state := state.(pending := state.pending + appended); }
    }

    /** Delivers in order and stops at the first outcome that is not a delivery. */
    method Drain(outcomes: seq<Outcome>) returns (log: seq<Payload>)
      modifies this
      ensures (state, log) == Drained(old(state), outcomes)
    {
      log := [];
      if state.dead != [] { return; }
      var i := 0;
      assert outcomes[0..] == outcomes;
      assert [] + Drained(state, outcomes).1 == Drained(state, outcomes).1;
      while i < |outcomes| && state.pending != []
        invariant i <= |outcomes| && state.dead == []
        invariant Drained(old(state), outcomes)
               == (Drained(state, outcomes[i..]).0, log + Drained(state, outcomes[i..]).1)
      {
        assert outcomes[i..][0] == outcomes[i] && outcomes[i..][1..] == outcomes[i + 1..];
        var head, next := state.pending[0], AfterSend(state, outcomes[i]);
        ghost var rest := Drained(next, outcomes[i + 1..]).1;
        assert log + ([head] + rest) == (log + [head]) + rest;
        log, state := log + [head], next;
        if outcomes[i] != Sent { return; }
        i := i + 1;
      }
      assert log + [] == log;
    }
  }

  // ---------------------------------------------------------------- runs

  datatype Operation = Enqueue(batch: seq<Payload>) | Drain(outcomes: seq<Outcome>)

  /** A run from an empty outbox, with its history: everything accepted and everything delivered, in
      order, and each send as the rank, among the accepted payloads, of the payload that was sent. */
  datatype Run = Run(state: Queue, accepted: seq<Payload>, delivered: seq<Payload>, sends: seq<nat>)

  const START := Run(EMPTY, [], [], [])

  ghost function SendOne(r: Run, outcome: Outcome): Run
    requires r.state.pending != []
  {
    Run(AfterSend(r.state, outcome),
        r.accepted,
        if outcome == Sent then r.delivered + [r.state.pending[0]] else r.delivered,
        r.sends + [|r.delivered| + |r.state.dead|])
  }

  ghost function DrainRun(r: Run, outcomes: seq<Outcome>): Run
    decreases outcomes
  {
    if r.state.dead != [] || r.state.pending == [] || outcomes == [] then r
    else
      var next := SendOne(r, outcomes[0]);
      if outcomes[0] != Sent then next else DrainRun(next, outcomes[1..])
  }

  ghost function Perform(r: Run, op: Operation): Run {
    match op
    case Enqueue(batch) =>
      Run(Enqueued(r.state, batch), r.accepted + NewIn(KnownIds(r.state), batch), r.delivered, r.sends)
    case Drain(outcomes) => DrainRun(r, outcomes)
  }

  ghost function RunOf(ops: seq<Operation>): Run {
    if ops == [] then START else Perform(RunOf(ops[..|ops| - 1]), ops[|ops| - 1])
  }

  /** The sends walk through the accepted payloads without skipping or going back; a payload repeats
      only until its delivery is stored, and nothing follows a dead letter. */
  ghost predicate InOrder(r: Run) {
    && (r.sends != [] ==> r.sends[0] == 0)
    && (forall i | 0 < i < |r.sends| :: r.sends[i - 1] <= r.sends[i] <= r.sends[i - 1] + 1)
    && (forall i | 0 <= i < |r.sends| :: r.sends[i] <= |r.delivered| && r.sends[i] < |r.accepted|)
    && (forall n: nat | n < |r.delivered| + |r.state.dead| :: n in r.sends)
    && (r.sends != [] ==> |r.delivered| + |r.state.dead| <= r.sends[|r.sends| - 1] + 1)
  }

  /** Nothing accepted is lost, reordered or held twice. */
  ghost predicate Conserved(r: Run) {
    && r.accepted == r.delivered + r.state.dead + r.state.pending
    && |r.state.dead| <= 1
    && Loadable(r.state)
  }

  ghost predicate Causal(r: Run) { Conserved(r) && InOrder(r) }

  lemma {:induction false} SendConserves(r: Run, outcome: Outcome)
    requires Conserved(r) && r.state.dead == [] && r.state.pending != []
    ensures Conserved(SendOne(r, outcome))
  {
    var q, head, rest := SendOne(r, outcome), r.state.pending[0], r.state.pending[1..];
    assert r.state.pending == [head] + rest;
    forall p | p in rest ensures p.id != head.id && p in r.state.pending {}
    assert q.accepted == q.delivered + q.state.dead + q.state.pending;
  }

  lemma {:induction false} SendKeepsOrder(r: Run, outcome: Outcome)
    requires Causal(r) && r.state.dead == [] && r.state.pending != []
    ensures Causal(SendOne(r, outcome))
  {
    SendConserves(r, outcome);
    var q := SendOne(r, outcome);
    assert q.sends[|r.sends|] == |r.delivered|;
    if r.sends == [] {
      assert |r.delivered| > 0 ==> 0 in r.sends;
    }
    forall n: nat | n < |q.delivered| + |q.state.dead| ensures n in q.sends {
      if n < |r.delivered| { assert n in r.sends; }
    }
  }

  lemma {:induction false} DrainKeepsOrder(r: Run, outcomes: seq<Outcome>)
    requires Causal(r)
    ensures Causal(DrainRun(r, outcomes))
    decreases outcomes
  {
    if r.state.dead == [] && r.state.pending != [] && outcomes != [] {
      SendKeepsOrder(r, outcomes[0]);
      if outcomes[0] == Sent { DrainKeepsOrder(SendOne(r, outcomes[0]), outcomes[1..]); }
    }
  }

  lemma {:induction false} EnqueueConserves(r: Run, batch: seq<Payload>)
    requires Causal(r)
    ensures Causal(Perform(r, Enqueue(batch)))
  {
    var q, added := Perform(r, Enqueue(batch)), NewIn(KnownIds(r.state), batch);
    forall i | 0 <= i < |r.state.pending| ensures r.state.pending[i].id in KnownIds(r.state) {
      assert r.state.pending[i] in r.state.pending;
    }
    forall i | 0 <= i < |added| ensures added[i].id !in KnownIds(r.state) {
      assert added[i] in added;
    }
    assert q.accepted == q.delivered + q.state.dead + q.state.pending;
  }

  /** Over any run of enqueues, drains and crashes from empty: everything accepted is delivered, dead or
      pending, in that order, with at most one dead letter; and what the remote saw is that order, each
      payload at least once if it is delivered or dead, repeated only in place, nothing past a dead
      letter. */
  lemma {:induction false} EveryRunIsCausal(ops: seq<Operation>)
    ensures Causal(RunOf(ops))
  {
    if ops != [] {
      EveryRunIsCausal(ops[..|ops| - 1]);
      match ops[|ops| - 1]
      case Enqueue(batch) => EnqueueConserves(RunOf(ops[..|ops| - 1]), batch);
      case Drain(outcomes) => DrainKeepsOrder(RunOf(ops[..|ops| - 1]), outcomes);
    }
  }

  /** The payloads behind a list of ranks. */
  function LogOf(accepted: seq<Payload>, sends: seq<nat>): seq<Payload>
    requires forall i | 0 <= i < |sends| :: sends[i] < |accepted|
  {
    seq(|sends|, i requires 0 <= i < |sends| => accepted[sends[i]])
  }

  lemma {:induction false} SendIsLogged(r: Run, outcome: Outcome)
    requires Causal(r) && r.state.dead == [] && r.state.pending != []
    ensures Causal(SendOne(r, outcome))
    ensures LogOf(r.accepted, SendOne(r, outcome).sends) == LogOf(r.accepted, r.sends) + [r.state.pending[0]]
  {
    SendKeepsOrder(r, outcome);
    assert r.accepted[|r.delivered|] == r.state.pending[0];
  }

  lemma {:induction false} DrainRunState(r: Run, outcomes: seq<Outcome>)
    ensures DrainRun(r, outcomes).state == Drained(r.state, outcomes).0
    ensures DrainRun(r, outcomes).accepted == r.accepted
    decreases outcomes
  {
    if r.state.dead == [] && r.state.pending != [] && outcomes != [] && outcomes[0] == Sent {
      DrainRunState(SendOne(r, outcomes[0]), outcomes[1..]);
    }
  }

  /** The recorded sends are exactly the payloads the drain loop hands to the sender. */
  lemma {:induction false} SendsAreTheLog(r: Run, outcomes: seq<Outcome>)
    requires Causal(r)
    ensures Causal(DrainRun(r, outcomes)) && DrainRun(r, outcomes).accepted == r.accepted
    ensures DrainRun(r, outcomes).state == Drained(r.state, outcomes).0
    ensures LogOf(r.accepted, DrainRun(r, outcomes).sends) == LogOf(r.accepted, r.sends) + Drained(r.state, outcomes).1
    decreases outcomes
  {
    DrainKeepsOrder(r, outcomes);
    DrainRunState(r, outcomes);
    var log := LogOf(r.accepted, r.sends);
    if r.state.dead != [] || r.state.pending == [] || outcomes == [] {
      assert log + [] == log;
    } else {
      SendIsLogged(r, outcomes[0]);
      if outcomes[0] == Sent {
        var next, head := SendOne(r, outcomes[0]), r.state.pending[0];
        SendsAreTheLog(next, outcomes[1..]);
        AppendAssociates(log, head, Drained(next.state, outcomes[1..]).1);
      }
    }
  }

  lemma {:induction false} AppendAssociates(a: seq<Payload>, p: Payload, b: seq<Payload>)
    ensures (a + [p]) + b == a + ([p] + b)
  {
  }
}
