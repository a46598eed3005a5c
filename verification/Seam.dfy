/** Where history and live meet: after a handoff, every native deal is on exactly one side, and which deals
    reach the server by neither path. */
module Seam {
  import opened Prelude
  import opened Events
  import opened SnapshotDiff
  import opened LiveStream
  import opened Ledger
  import opened PositionMachine
  import opened Projection
  import A = Agreement
  import H = Handoff
  import L = LivePoll

  predicate IsDeal(q: Record) { q.kind == DealAdd && !q.archived && NativeTicket(q).Some? }

  /** The terminal's side of the contract: a deal whose event is not beyond the anchor was already in
      the ledger when the boundary was frozen. */
  ghost predicate LedgerCoversAnchor(log: seq<Record>, m: H.Marker) {
    forall q | q in log && IsDeal(q) && q.sequence <= m.anchor :: NativeTicket(q).value in m.archived
  }

  /** The poll still has the deal to read, and will not skip it. */
  ghost predicate LiveWillRead(q: Record, log: seq<Record>, checkpoint: nat, archived: set<string>) {
    exists r ::
      && r in L.Unread(log, checkpoint, archived)
      && !r.archived && NativeTicket(r) == NativeTicket(q) && r.kind == DealAdd
  }

  lemma {:induction false} ArchivedIsNotRead(q: Record, log: seq<Record>, checkpoint: nat, archived: set<string>)
    requires IsDeal(q) && NativeTicket(q).value in archived
    ensures !LiveWillRead(q, log, checkpoint, archived)
  {
    forall r | r in L.Unread(log, checkpoint, archived) && NativeTicket(r) == NativeTicket(q) && r.kind == DealAdd
      ensures r.archived
    {
      var origin :| origin in log && r == L.Mark(origin, archived);
    }
  }

  lemma {:induction false} AheadIsRead(q: Record, log: seq<Record>, checkpoint: nat, archived: set<string>)
    requires q in log && IsDeal(q) && q.sequence > checkpoint && NativeTicket(q).value !in archived
    ensures LiveWillRead(q, log, checkpoint, archived)
  {
    assert L.Mark(q, archived) in L.Unread(log, checkpoint, archived);
  }

  /** At the moment a job is activated, each native deal is archived or still ahead of live, never both
      and never neither. */
  lemma {:induction false} HandoffPartitionsDeals(
    w: H.World, actions: seq<H.Action>, m: H.Marker, log: seq<Record>, q: Record)
    requires H.Initial(w) && H.IsRun(w, actions) && H.After(w, actions).phase.CheckpointMoved?
    requires H.Do(H.After(w, actions), H.WriteMarker).files.marker == Some(m)
    requires LedgerCoversAnchor(log, m) && q in log && IsDeal(q)
    ensures NativeTicket(q).value in m.archived
       <==> !LiveWillRead(q, log, H.Do(H.After(w, actions), H.WriteMarker).files.checkpoint, m.archived)
  {
    H.MarkerMeansActivated(w, actions);
    if NativeTicket(q).value in m.archived {
      ArchivedIsNotRead(q, log, m.anchor, m.archived);
    } else {
      AheadIsRead(q, log, m.anchor, m.archived);
    }
  }

  /** And it stays there: a deal on the archive's side is never named by an id that any later poll
      computes, whatever the checkpoint and snapshots have become. */
  lemma {:induction false} ArchivedDealIsNeverReplayed(
    account: string, s: L.Store, now: Snapshot, order: seq<string>, q: Record, id: EventId)
    requires IsDeal(q) && NativeTicket(q).value in s.archived && L.Names(id, q)
    ensures id !in L.IdsOf(account, L.Batch(L.Unread(s.log, s.checkpoint, s.archived), s.snapshot, now, order))
  {
    L.BatchAvoidsArchive(account, s, now, order);
  }

  // ---------------------------------------------------------------- over live runs

  /** A live worker that takes over an activated connection, whatever it has delivered or queued before. */
  ghost predicate TakesOver(v: L.World, m: H.Marker) {
    L.Initial(v) && v.store.archived == m.archived && v.store.checkpoint == m.anchor
  }

  /** Over any live run after the handoff, with crashes anywhere, every fill that the checkpoint has passed is
      on one side: if the archive holds it, live adds no id that names it to those it had before; if not, a
      live id that names it is delivered, pending or dead-lettered. */
  lemma {:induction false} EveryFillOnOneSide(m: H.Marker, v: L.World, actions: seq<L.Action>, q: Record)
    requires TakesOver(v, m) && L.IsRun(v, actions)
    requires LedgerCoversAnchor(L.After(v, actions).store.log, m)
    requires q in L.After(v, actions).store.log && L.IsLiveFill(q)
    requires q.sequence <= L.After(v, actions).store.checkpoint
    ensures var kept := L.Kept(L.After(v, actions));
            if NativeTicket(q).value in m.archived then forall id | id in kept && L.Names(id, q) :: id in L.Kept(v)
            else L.Accounted(q, kept)
  {
    L.ArchivedDealsStayOut(v, actions, L.Kept(v));
    if NativeTicket(q).value !in m.archived {
      assert q.sequence > m.anchor;
      L.BaseIsFixed(v, actions);
      L.NoCrashLosesADeal(v, actions, q);
    }
  }

  /** No live id names an archived deal yet, as on a first import. */
  ghost predicate FirstImport(v: L.World, m: H.Marker) { L.NoneArchived(L.Kept(v), m.archived) }

  /** After a first import the two sides exclude each other: a fill that the checkpoint has passed is archived,
      or a live id that names it is delivered, pending or dead-lettered, and never both. (An import that comes
      after live has delivered repeats the ids of live, `Agreement.LateImportRepeatsIds`.) */
  lemma {:induction false} EveryFillOnExactlyOneSide(m: H.Marker, v: L.World, actions: seq<L.Action>, q: Record)
    requires TakesOver(v, m) && FirstImport(v, m) && L.IsRun(v, actions)
    requires LedgerCoversAnchor(L.After(v, actions).store.log, m)
    requires q in L.After(v, actions).store.log && L.IsLiveFill(q)
    requires q.sequence <= L.After(v, actions).store.checkpoint
    ensures NativeTicket(q).value in m.archived <==> !L.Accounted(q, L.Kept(L.After(v, actions)))
  {
    EveryFillOnOneSide(m, v, actions, q);
  }

  // ---------------------------------------------------------------- what the import sends

  /** The positions that the job's mode asks for: all of them, or those opened since its start date. */
  type Choice = string -> bool

  /** The row is a trade with a symbol and a known entry, its position can be reconstructed, and the job asks for
      it. */
  ghost predicate Importable(rows: seq<Deal>, chosen: Choice, i: nat) {
    && i < |rows| && Trades(rows[i], rows[i].positionId) && rows[i].symbol.Some? && rows[i].entry != Unrecognised
    && Safe(rows, rows[i].positionId) && chosen(rows[i].positionId)
  }

  /** The importer sends the row: it is projected as a trade, of a position the job asks for. */
  ghost predicate Sends(rows: seq<Deal>, anchor: Option<Anchor>, chosen: Choice, i: nat) {
    && i < |rows| && Publishable(rows[i]) && ProjectRow(rows, anchor, i).projectAsTrade
    && chosen(rows[i].positionId)
  }

  /** The importer sends just those rows. */
  lemma {:induction false} SendsIffImportable(rows: seq<Deal>, anchor: Option<Anchor>, chosen: Choice, i: nat)
    ensures Sends(rows, anchor, chosen, i) <==> Importable(rows, chosen, i)
    ensures Importable(rows, chosen, i) ==> rows[i].ticket.Some?
  {
    if Importable(rows, chosen, i) { A.SafeRowIsComplete(rows, rows[i].positionId, i); }
  }

  /** What the importer sends for row `i`. */
  ghost function SentAt(rows: seq<Deal>, anchor: Option<Anchor>, chosen: Choice, i: nat): seq<Event> {
    if Sends(rows, anchor, chosen, i) then [A.HistoryEvent(ProjectRow(rows, anchor, i))] else []
  }

  /** And for the whole ledger, in order. */
  ghost function SentFrom(rows: seq<Deal>, anchor: Option<Anchor>, chosen: Choice): seq<Event> {
    A.Gather((i: nat) => SentAt(rows, anchor, chosen, i), |rows|)
  }

  lemma {:induction false} GatheredTickets(sent: nat -> seq<Event>, n: nat, ticket: string)
    ensures ticket in H.ImportedTickets(A.Gather(sent, n)) <==>
              exists i: nat :: i < n && ticket in H.ImportedTickets(sent(i))
  {
    if n > 0 {
      GatheredTickets(sent, n - 1, ticket);
      TicketsOfBoth(A.Gather(sent, n - 1), sent(n - 1), ticket);
    }
  }

  lemma {:induction false} TicketsOfBoth(a: seq<Event>, b: seq<Event>, ticket: string)
    ensures ticket in H.ImportedTickets(a + b) <==> ticket in H.ImportedTickets(a) || ticket in H.ImportedTickets(b)
  {
    assert forall e :: e in a + b <==> e in a || e in b;
  }

  lemma {:induction false} TicketSentAt(rows: seq<Deal>, anchor: Option<Anchor>, chosen: Choice, i: nat, ticket: string)
    ensures ticket in H.ImportedTickets(SentAt(rows, anchor, chosen, i)) <==>
              Importable(rows, chosen, i) && rows[i].ticket == Some(ticket)
  {
    SendsIffImportable(rows, anchor, chosen, i);
  }

  lemma {:induction false} TicketsSent(rows: seq<Deal>, anchor: Option<Anchor>, chosen: Choice, ticket: string)
    ensures ticket in H.ImportedTickets(SentFrom(rows, anchor, chosen)) <==>
              exists i: nat :: Importable(rows, chosen, i) && rows[i].ticket == Some(ticket)
  {
    var sent := (i: nat) => SentAt(rows, anchor, chosen, i);
    GatheredTickets(sent, |rows|, ticket);
    forall i: nat
      ensures ticket in H.ImportedTickets(sent(i)) <==> Importable(rows, chosen, i) && rows[i].ticket == Some(ticket)
    {
      TicketSentAt(rows, anchor, chosen, i, ticket);
    }
  }

  // ---------------------------------------------------------------- the frozen bundle

  function Tickets(rows: seq<Deal>): set<string> {
    set i | 0 <= i < |rows| && rows[i].ticket.Some? :: rows[i].ticket.value
  }

  lemma {:induction false} RowOfTicket(rows: seq<Deal>, ticket: string) returns (i: nat)
    requires ticket in Tickets(rows)
    ensures i < |rows| && rows[i].ticket == Some(ticket)
  {
    i :| i < |rows| && rows[i].ticket.Some? && rows[i].ticket.value == ticket;
  }

  ghost predicate TicketsDistinct(rows: seq<Deal>) {
    forall i, j | 0 <= i < j < |rows| && rows[i].ticket.Some? :: rows[i].ticket != rows[j].ticket
  }

  /** The capture's events were projected from this ledger. */
  ghost predicate CapturedFrom(c: H.Capture, rows: seq<Deal>, anchor: Option<Anchor>, chosen: Choice) {
    c.events == SentFrom(rows, anchor, chosen)
  }

  /** The bundle is frozen as far as it matters: this ledger has every deal that the snapshot shows. */
  ghost predicate Frozen(c: H.Capture, rows: seq<Deal>) { c.snapshot.deals.Keys <= Tickets(rows) }

  /** The delivered document holds the deal. */
  ghost predicate Imported(q: Record, m: H.Marker)
    requires IsDeal(q)
  {
    NativeTicket(q).value in H.ImportedTickets(m.document.events)
  }

  /** Neither the document nor any later poll has the deal. */
  ghost predicate OnNeitherPath(q: Record, log: seq<Record>, m: H.Marker)
    requires IsDeal(q)
  {
    !Imported(q, m) && !LiveWillRead(q, log, m.anchor, m.archived)
  }

  ghost predicate IsRowOf(rows: seq<Deal>, q: Record, i: nat) { i < |rows| && rows[i].ticket == NativeTicket(q) }

  /** The ledger has the deal in a row that cannot be imported. */
  ghost predicate Unimportable(rows: seq<Deal>, chosen: Choice, q: Record) {
    exists i: nat :: IsRowOf(rows, q, i) && !Importable(rows, chosen, i)
  }

  /** A bundle whose marker is written was captured at the start of one of the jobs of the run. */
  lemma {:induction false} MarkedBundleWasCaptured(w: H.World, actions: seq<H.Action>, m: H.Marker)
    returns (job: H.Job, c: H.Capture)
    requires H.Initial(w) && H.IsRun(w, actions) && H.After(w, actions).phase.CheckpointMoved?
    requires H.Do(H.After(w, actions), H.WriteMarker).files.marker == Some(m)
    ensures H.Begin(job, c) in actions && m == H.MarkerOf(H.BundleOf(job, c))
  {
    H.MarkerMeansActivated(w, actions);
    job, c := H.PendingIsBundle(w, actions);
  }

  /** The marker is that of a capture whose document was projected from this ledger. */
  ghost predicate MarksLedger(
    m: H.Marker, job: H.Job, c: H.Capture, rows: seq<Deal>, anchor: Option<Anchor>, chosen: Choice)
  {
    m == H.MarkerOf(H.BundleOf(job, c)) && CapturedFrom(c, rows, anchor, chosen) && TicketsDistinct(rows)
  }

  lemma {:induction false} ImportedIffImportable(
    m: H.Marker, job: H.Job, c: H.Capture, rows: seq<Deal>, anchor: Option<Anchor>, chosen: Choice, q: Record, i: nat)
    requires MarksLedger(m, job, c, rows, anchor, chosen) && IsDeal(q) && IsRowOf(rows, q, i)
    ensures Imported(q, m) <==> Importable(rows, chosen, i)
  {
    TicketsSent(rows, anchor, chosen, NativeTicket(q).value);
    forall j: nat | j < |rows| && rows[j].ticket == NativeTicket(q) ensures j == i {}
  }

  lemma {:induction false} ImportedIsRow(
    m: H.Marker, job: H.Job, c: H.Capture, rows: seq<Deal>, anchor: Option<Anchor>, chosen: Choice, q: Record)
    requires MarksLedger(m, job, c, rows, anchor, chosen) && IsDeal(q) && NativeTicket(q).value !in Tickets(rows)
    ensures !Imported(q, m)
  {
    TicketsSent(rows, anchor, chosen, NativeTicket(q).value);
  }

  /** Which deals does a handoff leave on neither path, whatever the bundle? Exactly those that the snapshot
      shows and the ledger of the document does not have, or has in a row that cannot be imported: one without
      symbol or with an unknown entry, one of a position that cannot be reconstructed, or one the job did not
      ask for. */
  lemma {:induction false} NeitherPathIff(
    m: H.Marker, job: H.Job, c: H.Capture, rows: seq<Deal>, anchor: Option<Anchor>, chosen: Choice,
    log: seq<Record>, q: Record)
    requires MarksLedger(m, job, c, rows, anchor, chosen)
    requires LedgerCoversAnchor(log, m) && q in log && IsDeal(q)
    ensures OnNeitherPath(q, log, m) <==>
              && NativeTicket(q).value in c.snapshot.deals
              && (NativeTicket(q).value !in Tickets(rows) || Unimportable(rows, chosen, q))
  {
    if NativeTicket(q).value in m.archived {
      ArchivedIsNotRead(q, log, m.anchor, m.archived);
    } else {
      AheadIsRead(q, log, m.anchor, m.archived);
    }
    if NativeTicket(q).value in Tickets(rows) {
      var i := RowOfTicket(rows, NativeTicket(q).value);
      ImportedIffImportable(m, job, c, rows, anchor, chosen, q, i);
      forall j: nat | IsRowOf(rows, q, j) ensures j == i {}
    } else {
      ImportedIsRow(m, job, c, rows, anchor, chosen, q);
    }
  }

  /** The handoff loses no deal that could be imported: whatever is on neither path, in any stream, the ledger
      has in a row that cannot be. */
  ghost predicate LosesOnlyUnimportable(m: H.Marker, rows: seq<Deal>, chosen: Choice) {
    forall log: seq<Record>, q: Record |
      q in log && IsDeal(q) && LedgerCoversAnchor(log, m) && OnNeitherPath(q, log, m) :: Unimportable(rows, chosen, q)
  }

  /** Exactly which bundles are good enough: those whose ledger has every deal that their snapshot shows. A
      snapshot that shows fewer deals than the ledger has does no harm. */
  lemma {:induction false} LosesOnlyUnimportableIffFrozen(
    m: H.Marker, job: H.Job, c: H.Capture, rows: seq<Deal>, anchor: Option<Anchor>, chosen: Choice)
    requires MarksLedger(m, job, c, rows, anchor, chosen)
    ensures LosesOnlyUnimportable(m, rows, chosen) <==> Frozen(c, rows)
  {
    if Frozen(c, rows) {
      forall log: seq<Record>, q: Record |
        q in log && IsDeal(q) && LedgerCoversAnchor(log, m) && OnNeitherPath(q, log, m)
        ensures Unimportable(rows, chosen, q)
      {
        NeitherPathIff(m, job, c, rows, anchor, chosen, log, q);
      }
    } else {
      var ticket :| ticket in c.snapshot.deals.Keys && ticket !in Tickets(rows);
      var q := A.ItsFile(TextIn, 0).(dealId := Some(ticket));
      assert LedgerCoversAnchor([q], m) && NativeTicket(q).value == ticket;
      NeitherPathIff(m, job, c, rows, anchor, chosen, [q], q);
      forall i: nat ensures !IsRowOf(rows, q, i) {}
    }
  }

  /** No blind interval. With such a bundle, over any live run after a first import, with crashes anywhere,
      every fill that the checkpoint has passed is imported, or a live id that names it is delivered, pending
      or dead-lettered, unless the snapshot shows it and the ledger has it in a row that cannot be imported. */
  lemma {:induction false} EveryFillReachesTheServerIff(
    m: H.Marker, job: H.Job, c: H.Capture, rows: seq<Deal>, anchor: Option<Anchor>, chosen: Choice,
    v: L.World, actions: seq<L.Action>, q: Record)
    requires MarksLedger(m, job, c, rows, anchor, chosen) && Frozen(c, rows)
    requires TakesOver(v, m) && FirstImport(v, m) && L.IsRun(v, actions)
    requires LedgerCoversAnchor(L.After(v, actions).store.log, m)
    requires q in L.After(v, actions).store.log && L.IsLiveFill(q)
    requires q.sequence <= L.After(v, actions).store.checkpoint
    ensures Imported(q, m) || L.Accounted(q, L.Kept(L.After(v, actions)))
       <==> !(NativeTicket(q).value in c.snapshot.deals && Unimportable(rows, chosen, q))
  {
    var log := L.After(v, actions).store.log;
    EveryFillOnExactlyOneSide(m, v, actions, q);
    NeitherPathIff(m, job, c, rows, anchor, chosen, log, q);
    if NativeTicket(q).value in m.archived {
      ArchivedIsNotRead(q, log, m.anchor, m.archived);
    } else {
      AheadIsRead(q, log, m.anchor, m.archived);
    }
  }

  // ---------------------------------------------------------------- import, then live

  lemma {:induction false} RowTicket(rows: seq<Deal>, anchor: Option<Anchor>, i: nat)
    requires i < |rows| && Publishable(rows[i])
    ensures A.HistoryEvent(ProjectRow(rows, anchor, i)).ticket == rows[i].positionId
  {
  }

  lemma {:induction false} SentAtOfTicket(
    rows: seq<Deal>, anchor: Option<Anchor>, chosen: Choice, p: string, i: nat)
    requires i < |rows| && Safe(rows, p) && A.AllPublishable(rows, p, 0) && chosen(p)
    ensures A.OfTicket(SentAt(rows, anchor, chosen, i), p) ==
              if Belongs(rows[i], p) then [A.Told(rows, anchor, i)] else []
  {
    SendsIffImportable(rows, anchor, chosen, i);
    assert Belongs(rows[i], p) ==> Importable(rows, chosen, i);
    if Sends(rows, anchor, chosen, i) {
      RowTicket(rows, anchor, i);
      A.OfTicketOne(A.HistoryEvent(ProjectRow(rows, anchor, i)), p);
    }
  }

  lemma {:induction false} GatheredChronicle(
    rows: seq<Deal>, told: nat -> Event, sent: nat -> seq<Event>, p: string, n: nat)
    requires n <= |rows|
    requires forall i: nat | i < |rows| ::
               A.OfTicket(sent(i), p) == if Belongs(rows[i], p) then [told(i)] else []
    ensures A.OfTicket(A.Gather(sent, n), p) == A.Chronicle(rows, p, told, 0, n)
  {
    if n > 0 {
      GatheredChronicle(rows, told, sent, p, n - 1);
      A.GatherAdds(sent, n, p, if Belongs(rows[n - 1], p) then [told(n - 1)] else []);
    }
  }

  /** What the document says about a safe position is its history up to the end of the ledger. */
  lemma {:induction false} DocumentTellsHistory(
    rows: seq<Deal>, anchor: Option<Anchor>, chosen: Choice, p: string)
    requires Safe(rows, p) && A.AllPublishable(rows, p, 0) && chosen(p)
    ensures A.OfTicket(SentFrom(rows, anchor, chosen), p) == A.HistoryOf(rows, anchor, p, 0, |rows|)
  {
    var sent := (i: nat) => SentAt(rows, anchor, chosen, i);
    forall i: nat | i < |rows|
      ensures A.OfTicket(sent(i), p) == if Belongs(rows[i], p) then [A.Told(rows, anchor, i)] else []
    {
      SentAtOfTicket(rows, anchor, chosen, p, i);
    }
    GatheredChronicle(rows, A.Teller(rows, anchor), sent, p, |rows|);
  }

  /** The snapshot shows the position as the history machine has it at row `cut`: with its volume and average
      price, or not at all when nothing is open. */
  ghost predicate Shows(s: Snapshot, rows: seq<Deal>, p: string, cut: nat)
    requires cut <= |rows|
  {
    var m := StateAt(rows, p, cut);
    && m.Running? && m.volume >= 0.0 && (m.volume == 0.0 ==> m.notional == 0.0)
    && if m.volume == 0.0 then p !in s.positions
       else p in s.positions && s.positions[p].volume == Some(m.volume)
            && s.positions[p].openPrice == Some(m.notional / m.volume)
  }

  lemma {:induction false} ShownIsSame(s: Snapshot, rows: seq<Deal>, p: string, cut: nat)
    requires cut <= |rows| && Shows(s, rows, p, cut)
    ensures A.SameState(Load(s.positions), StateAt(rows, p, cut), p)
  {
  }

  /** The deals of a position that is open at the handoff are told once and as one history: what the imported
      document says about it, followed by what live says after the handoff, is event by event and in order
      what an import of the whole ledger would say. So every deal has one id, wherever the cut falls. */
  lemma {:induction false} ImportThenLiveTellHistory(
    w: H.World, actions: seq<H.Action>, m: H.Marker, job: H.Job, c: H.Capture,
    rows: seq<Deal>, anchor: Option<Anchor>, earlier: Option<Anchor>, chosen: Choice, p: string, cut: nat,
    polls: seq<A.Poll>)
    requires H.Initial(w) && H.IsRun(w, actions) && H.After(w, actions).phase.CheckpointMoved?
    requires H.After(w, actions).files.pending == Some(H.BundleOf(job, c))
    requires H.Do(H.After(w, actions), H.WriteMarker).files.marker == Some(m)
    requires cut <= |rows| && CapturedFrom(c, rows[..cut], earlier, chosen) && chosen(p)
    requires Safe(rows, p) && A.AllPublishable(rows, p, 0) && HasOpening(rows[..cut], p)
    requires Shows(c.snapshot, rows, p, cut)
    requires var baseline := H.Do(H.After(w, actions), H.WriteMarker).files.liveSnapshot;
             var records := A.AllRecords(polls);
             && A.Mirrors(rows, records, p, cut) && A.NamedEntries(rows, p, cut) && A.OnlyItsFillsReadAs(records, p)
             && A.AllSelfContained(Load(baseline.positions), records) && A.SnapshotsCaughtUp(baseline, polls)
    ensures var baseline := H.Do(H.After(w, actions), H.WriteMarker).files.liveSnapshot;
            A.OfTicket(m.document.events, p) + A.OfTicket(A.PolledDeals(baseline, polls), p)
            == A.HistoryOf(rows, anchor, p, 0, |rows|)
  {
    H.MarkerMeansActivated(w, actions);
    var baseline := H.Do(H.After(w, actions), H.WriteMarker).files.liveSnapshot;
    assert baseline.positions == c.snapshot.positions && m.document.events == c.events;
    ShownIsSame(c.snapshot, rows, p, cut);
    LiveGoesOn(rows, anchor, baseline, polls, p, cut);
    A.PrefixIsSafe(rows, p, cut);
    PrefixPublishable(rows, p, cut);
    DocumentTellsHistory(rows[..cut], earlier, chosen, p);
    A.LongerLedgerSameHistory(rows, anchor, earlier, p, cut);
    A.ChronicleJoins(rows, p, A.Teller(rows, anchor), cut, |rows|);
  }

  lemma {:induction false} PrefixPublishable(rows: seq<Deal>, p: string, cut: nat)
    requires cut <= |rows| && A.AllPublishable(rows, p, 0)
    ensures A.AllPublishable(rows[..cut], p, 0)
  {
    assert forall i | 0 <= i < cut :: rows[..cut][i] == rows[i];
  }

  lemma {:induction false} LiveGoesOn(
    rows: seq<Deal>, anchor: Option<Anchor>, baseline: Snapshot, polls: seq<A.Poll>, p: string, cut: nat)
    requires cut <= |rows| && Safe(rows, p) && A.AllPublishable(rows, p, 0)
    requires A.SameState(Load(baseline.positions), StateAt(rows, p, cut), p)
    requires A.Mirrors(rows, A.AllRecords(polls), p, cut) && A.NamedEntries(rows, p, cut)
    requires A.OnlyItsFillsReadAs(A.AllRecords(polls), p)
    requires A.AllSelfContained(Load(baseline.positions), A.AllRecords(polls)) && A.SnapshotsCaughtUp(baseline, polls)
    ensures A.OfTicket(A.PolledDeals(baseline, polls), p) == A.HistoryOf(rows, anchor, p, cut, |rows|)
  {
    A.PollsSendTheHistory(rows, anchor, baseline, polls, p, cut);
  }

  // One input for it: a position opened before the handoff and closed by live.

  function OpenedAndClosed(): seq<Deal> { [A.OnlyDeal(TextIn), A.OnlyDeal(TextOut).(ticket := Some("2"))] }

  function CloseFile(): Record { A.ItsFile(TextOut, 1).(ticket := Some("2"), dealId := Some("2")) }

  function OpenSnapshot(row: DealRow): Snapshot {
    Snapshot(map["1" := Position(Some(1.0), Some(1.0), None, None, NO_DETAILS)], map[], map["1" := row])
  }

  lemma {:induction false} OpenedAndClosedIsSafe()
    ensures var rows := OpenedAndClosed();
            && Safe(rows, "1") && A.AllPublishable(rows, "1", 0) && HasOpening(rows[..1], "1")
            && rows[..1] == [A.OnlyDeal(TextIn)] && StateAt(rows, "1", 1) == Running(1.0, 1.0, false)
  {
    var rows := OpenedAndClosed();
    assert Belongs(rows[0], "1") && Belongs(rows[1], "1");
    assert HasOpening(rows, "1") && AllIdentified(rows, "1") && !HasReversal(rows, "1");
    assert OpeningsComplete(rows, "1") && ExitsComplete(rows, "1");
    assert StateAt(rows, "1", 0) == FLAT;
    assert StateAt(rows, "1", 1) == Advance(FLAT, rows[0]) == Running(1.0, 1.0, false);
    assert StateAt(rows, "1", 2) == Advance(Running(1.0, 1.0, false), rows[1]) == Running(0.0, 0.0, true);
    assert rows[..1][0] == rows[0];
  }

  lemma {:induction false} CloseIsMirrored()
    ensures A.Mirrors(OpenedAndClosed(), [CloseFile()], "1", 1)
  {
    var rows, records := OpenedAndClosed(), [CloseFile()];
    assert A.DealsOf(rows, "1", 0) == 0 && A.DealsOf(rows, "1", 1) == 1 && A.DealsOf(rows, "1", 2) == 2;
    assert A.FillsOf(records, "1", 0) == 0 && A.FillsOf(records, "1", 1) == 1;
  }

  lemma {:induction false} OpeningIsCaptured(chosen: Choice, row: DealRow, anchor: nat) returns (c: H.Capture)
    requires chosen("1")
    ensures CapturedFrom(c, [A.OnlyDeal(TextIn)], None, chosen) && H.CaptureValid(c)
    ensures c.anchor == anchor && c.snapshot == OpenSnapshot(row)
  {
    var rows := [A.OnlyDeal(TextIn)];
    A.OneOpeningIsSafe(TextIn);
    var sent := SentFrom(rows, None, chosen);
    SendsIffImportable(rows, None, chosen, 0);
    OneRowSent(rows, None, chosen);
    c := H.Capture(sent, 1, anchor, OpenSnapshot(row), 0);
  }

  lemma {:induction false} OneRowSent(rows: seq<Deal>, anchor: Option<Anchor>, chosen: Choice)
    requires |rows| == 1 && Sends(rows, anchor, chosen, 0)
    ensures var sent := SentFrom(rows, anchor, chosen);
            |sent| == 1 && sent[0].nativeDeal == rows[0].ticket
  {
    var sent := (i: nat) => SentAt(rows, anchor, chosen, i);
    assert A.Gather(sent, 0) == [] && A.Gather(sent, 1) == sent(0);
  }

  lemma {:induction false} OnePoll(r: Record, now: Snapshot)
    ensures A.AllRecords([A.Poll([r], now, [])]) == [r]
  {
    assert [A.Poll([r], now, [])][1..] == [] && [r] + [] == [r];
  }

  lemma {:induction false} CloseIsSelfContained(baseline: Snapshot)
    requires "1" in baseline.positions && baseline.positions["1"].volume.Some?
    ensures A.AllSelfContained(Load(baseline.positions), [CloseFile()])
    ensures A.OnlyItsFillsReadAs([CloseFile()], "1") && A.NamedEntries(OpenedAndClosed(), "1", 1)
  {
    assert TrackedAt(Load(baseline.positions), [CloseFile()], 0) == Load(baseline.positions);
  }

  lemma {:induction false} OpeningIsShown(row: DealRow)
    ensures Shows(OpenSnapshot(row), OpenedAndClosed(), "1", 1)
  {
    OpenedAndClosedIsSafe();
  }

  lemma {:induction false} OpenPositionIsToldOnce(w: H.World, job: H.Job, row: DealRow, now: Snapshot)
    returns (run: seq<H.Action>, m: H.Marker)
    requires H.Initial(w)
    ensures H.IsRun(w, run) && H.After(w, run).phase.CheckpointMoved?
    ensures H.Do(H.After(w, run), H.WriteMarker).files.marker == Some(m)
    ensures var baseline := H.Do(H.After(w, run), H.WriteMarker).files.liveSnapshot;
            A.OfTicket(m.document.events, "1")
            + A.OfTicket(A.PolledDeals(baseline, [A.Poll([CloseFile()], now, [])]), "1")
            == A.HistoryOf(OpenedAndClosed(), None, "1", 0, 2)
  {
    var rows, polls := OpenedAndClosed(), [A.Poll([CloseFile()], now, [])];
    OpenedAndClosedIsSafe();
    CloseIsMirrored();
    var c := OpeningIsCaptured(_ => true, row, w.files.checkpoint);
    run := H.CapturedRun(w, job, c);
    m := H.MarkerOf(H.BundleOf(job, c));
    H.MarkerMeansActivated(w, run);
    OnePoll(CloseFile(), now);
    var baseline := H.Do(H.After(w, run), H.WriteMarker).files.liveSnapshot;
    assert baseline.positions == OpenSnapshot(row).positions;
    CloseIsSelfContained(baseline);
    OpeningIsShown(row);
    ImportThenLiveTellHistory(w, run, m, job, c, rows, None, None, _ => true, "1", 1, polls);
  }

  // ---------------------------------------------------------------- deals that are lost

  lemma {:induction false} ExitAloneIsUnimportable(chosen: Choice)
    ensures !Importable([A.OnlyDeal(TextOut)], chosen, 0)
  {
    assert !HasOpening([A.OnlyDeal(TextOut)], "1");
  }

  /** Archived is not imported. A frozen bundle whose ledger holds the exit of a position that was opened before
      the ledger begins: the handoff is activated, and the exit is on neither path. */
  lemma {:induction false} ExitAloneReachesNeitherPath(w: H.World, job: H.Job, row: DealRow, sequence: nat)
    returns (run: seq<H.Action>, c: H.Capture, m: H.Marker)
    requires H.Initial(w)
    ensures MarksLedger(m, job, c, [A.OnlyDeal(TextOut)], None, _ => true) && Frozen(c, [A.OnlyDeal(TextOut)])
    ensures H.IsRun(w, run) && H.Begin(job, c) in run && H.After(w, run).phase.CheckpointMoved?
    ensures H.Do(H.After(w, run), H.WriteMarker).files.marker == Some(m)
    ensures var q := A.ItsFile(TextOut, sequence);
            IsRowOf([A.OnlyDeal(TextOut)], q, 0) && OnNeitherPath(q, [q], m)
  {
    run, c, m := OneDealShown(w, job, row);
    var rows := [A.OnlyDeal(TextOut)];
    ExitAloneIsUnimportable(_ => true);
    SendsIffImportable(rows, None, _ => true, 0);
    assert SentFrom(rows, None, _ => true) == [];
    assert rows[0].ticket == Some("1") && "1" in Tickets(rows);
    ArchivedIsNotRead(A.ItsFile(TextOut, sequence), [A.ItsFile(TextOut, sequence)], m.anchor, m.archived);
  }

  /** A job that captures an empty document and a snapshot showing deal 1, up to its last step. */
  lemma {:induction false} OneDealShown(w: H.World, job: H.Job, row: DealRow)
    returns (run: seq<H.Action>, c: H.Capture, m: H.Marker)
    requires H.Initial(w)
    ensures c.events == [] && c.snapshot.deals.Keys == {"1"} && m == H.MarkerOf(H.BundleOf(job, c))
    ensures H.IsRun(w, run) && H.Begin(job, c) in run && H.After(w, run).phase.CheckpointMoved?
    ensures H.Do(H.After(w, run), H.WriteMarker).files.marker == Some(m)
  {
    c := H.Capture([], 0, w.files.checkpoint, Snapshot(map[], map[], map["1" := row]), 0);
    run := H.CapturedRun(w, job, c);
    m := H.MarkerOf(H.BundleOf(job, c));
  }

  /** Why the bundle must be frozen. A document projected from a cached ledger that is still empty, bound to a
      snapshot that already shows an opening, is accepted and activated; the opening is on neither path, though
      it can be imported from the ledger that the snapshot shows. */
  lemma {:induction false} UnfrozenBundleLosesDeal(w: H.World, job: H.Job, row: DealRow, sequence: nat)
    returns (run: seq<H.Action>, c: H.Capture, m: H.Marker)
    requires H.Initial(w)
    ensures MarksLedger(m, job, c, [], None, _ => true) && !Frozen(c, [])
    ensures Frozen(c, [A.OnlyDeal(TextIn)]) && Importable([A.OnlyDeal(TextIn)], _ => true, 0)
    ensures H.IsRun(w, run) && H.Begin(job, c) in run && H.After(w, run).phase.CheckpointMoved?
    ensures H.Do(H.After(w, run), H.WriteMarker).files.marker == Some(m)
    ensures var q := A.ItsFile(TextIn, sequence);
            IsRowOf([A.OnlyDeal(TextIn)], q, 0) && OnNeitherPath(q, [q], m)
  {
    A.OneOpeningIsSafe(TextIn);
    run, c, m := OneDealShown(w, job, row);
    assert "1" in c.snapshot.deals.Keys;
    assert [A.OnlyDeal(TextIn)][0].ticket == Some("1") && "1" in Tickets([A.OnlyDeal(TextIn)]);
    ArchivedIsNotRead(A.ItsFile(TextIn, sequence), [A.ItsFile(TextIn, sequence)], m.anchor, m.archived);
  }
}
