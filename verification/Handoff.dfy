/** The history-to-live handoff: pending bundle, stage, archive, delivery, activation, with a crash
    possible between any two durable steps, retries, and other history jobs in between
    (windows_agent/real_handlers.py:1832-2474). */
module Handoff {
  import opened Prelude
  import opened Events
  import opened SnapshotDiff

  /** A job, and everything that a stored document must agree with before a retry may reuse it
      (account, server, mode, start date). */
  datatype Job = Job(id: string, scope: string)

  /** The uploaded document. `generatedAt` is the time at which it was built; the same events captured
      again at another time are another document. */
  datatype Document = Document(jobId: string, scope: string, generatedAt: int, events: seq<Event>)

  /** The pending artifact: the exact document together with the frozen boundary it belongs to. Digests
      are taken to be injective, so a digest of a document is the document. */
  datatype Bundle = Bundle(
    jobId: string,
    document: Document,
    dealCount: nat,
    anchor: nat,
    archived: set<string>,
    imported: set<string>,
    baseline: Snapshot)

  datatype Marker = Marker(jobId: string, document: Document, anchor: nat, archived: set<string>, imported: set<string>)

  function MarkerOf(b: Bundle): Marker { Marker(b.jobId, b.document, b.anchor, b.archived, b.imported) }

  /** The files of one connection that take part. Stages and archives are named after the job. */
  datatype Files = Files(
    pending: Option<Bundle>,
    staged: map<string, Document>,
    archives: map<string, Document>,
    checkpoint: nat,
    liveSnapshot: Snapshot,
    marker: Option<Marker>)

  /** What the terminal shows when a job captures a new boundary: the events projected from the cached
      history, the number of deals the import counted, the snapshot with its sequence, and the time. */
  datatype Capture = Capture(events: seq<Event>, dealCount: nat, anchor: nat, snapshot: Snapshot, takenAt: int)

  function ImportedTickets(events: seq<Event>): set<string> {
    set e | e in events && e.nativeDeal.Some? :: e.nativeDeal.value
  }

  predicate CaptureValid(c: Capture) {
    && (forall e | e in c.events :: e.nativeDeal.Some?)
    && c.dealCount == |c.events|
    && ImportedTickets(c.events) <= c.snapshot.deals.Keys
  }

  function BundleOf(job: Job, c: Capture): Bundle {
    Bundle(job.id, Document(job.id, job.scope, c.takenAt, c.events), c.dealCount, c.anchor, c.snapshot.deals.Keys,
           ImportedTickets(c.events), c.snapshot.(deals := map[]))
  }

  predicate PendingFor(f: Files, job: Job) { f.pending.Some? && f.pending.value.jobId == job.id }

  datatype Reply = Accepted(count: nat) | LeaseLost | Invalid

  /** Where a history job stands; lost in a crash. */
  datatype Phase =
    | Idle
    | Prepared(job: Job, document: Document)
    | Staged(job: Job, document: Document)
    | Archived(job: Job, document: Document)
    | Delivered(job: Job)
    | BaselineSaved(job: Job)
    | CheckpointMoved(job: Job)

  /** One upload, with the pending artifact that was on disk when it was made. */
  datatype Upload = Upload(jobId: string, document: Document, pending: Option<Bundle>)

  /** `uploads` and `activated` (the jobs whose marker was ever written) are history. */
  datatype World = World(files: Files, phase: Phase, uploads: seq<Upload>, activated: set<string>)

  datatype Action =
    | Begin(job: Job, capture: Capture)
    | WriteStage
    | Promote
    | Deliver(reply: Reply)
    | SaveBaseline
    | MoveCheckpoint
    | WriteMarker
    | LivePoll(checkpoint: nat, snapshot: Snapshot)
    | Fail

  predicate Enabled(w: World, a: Action) {
    match a
    case Begin(_, _) => w.phase.Idle?
    case WriteStage => w.phase.Prepared?
    case Promote => w.phase.Staged?
    case Deliver(_) => w.phase.Archived?
    case SaveBaseline => w.phase.Delivered?
    case MoveCheckpoint => w.phase.BaselineSaved?
    case WriteMarker => w.phase.CheckpointMoved?
    case LivePoll(to, _) => w.phase.Idle? && to >= w.files.checkpoint
    case Fail => true
  }

  function Stop(w: World): World { w.(phase := Idle) }

  /** The entry of a job: resume an archive or a pending bundle, or capture a new boundary. */
  function Enter(w: World, job: Job, c: Capture): World {
    var f := w.files;
    if job.id in f.archives then
      var document := f.archives[job.id];
      if document.jobId != job.id || document.scope != job.scope then Stop(w)
      else if !PendingFor(f, job) || f.pending.value.document != document
              || f.pending.value.dealCount != |document.events| then Stop(w)
      else w.(phase := Archived(job, document))
    else if PendingFor(f, job) then
      var document := f.pending.value.document;
      if document.jobId != job.id || document.scope != job.scope then Stop(w)
      else if f.pending.value.dealCount != |document.events| then Stop(w)
      else if job.id !in f.staged then w.(phase := Prepared(job, document))
      else if f.staged[job.id] != document then Stop(w)
      else w.(phase := Staged(job, document))
    else if !CaptureValid(c) then Stop(w)
    else
      var b := BundleOf(job, c);
      w.(files := f.(pending := Some(b)), phase := Prepared(job, b.document))
  }

  /** The checks before activation: the pending bundle's own archive must be there, unchanged. */
  predicate Activatable(f: Files) {
    && f.pending.Some?
    && f.pending.value.imported <= f.pending.value.archived
    && f.pending.value.baseline.deals == map[]
    && f.pending.value.jobId in f.archives
    && f.archives[f.pending.value.jobId] == f.pending.value.document
  }

  /** One step. A failed check ends the job, as does a crash. */
  function Do(w: World, a: Action): World
    requires Enabled(w, a)
  {
    var f := w.files;
    match a
    case Begin(job, c) => Enter(w, job, c)
    case WriteStage =>
      w.(files := f.(staged := f.staged[w.phase.job.id := w.phase.document]),
         phase := Staged(w.phase.job, w.phase.document))
    case Promote =>
      var id := w.phase.job.id;
      if id !in f.staged || f.pending.None? || f.pending.value.jobId != id || f.staged[id] != f.pending.value.document
      then Stop(w)
      else w.(files := f.(archives := f.archives[id := f.staged[id]], staged := f.staged - {id}),
              phase := Archived(w.phase.job, w.phase.document))
    case Deliver(reply) =>
      var sent := w.(uploads := w.uploads + [Upload(w.phase.job.id, w.phase.document, f.pending)]);
      if reply == Accepted(|w.phase.document.events|) then sent.(phase := Delivered(w.phase.job)) else Stop(sent)
    case SaveBaseline =>
      if !Activatable(f) then Stop(w)
      else if f.marker == Some(MarkerOf(f.pending.value)) then Stop(w)
      else if f.marker.Some? && f.marker.value.jobId == f.pending.value.jobId then Stop(w)
      else w.(files := f.(liveSnapshot := f.pending.value.baseline), phase := BaselineSaved(w.phase.job))
    case MoveCheckpoint =>
      if f.pending.None? || f.pending.value.anchor < f.checkpoint then Stop(w)
      else w.(files := f.(checkpoint := f.pending.value.anchor), phase := CheckpointMoved(w.phase.job))
    case WriteMarker =>
      if f.pending.None? then Stop(w)
      else World(f.(marker := Some(MarkerOf(f.pending.value))), Idle, w.uploads, w.activated + {f.pending.value.jobId})
    case LivePoll(to, snapshot) => w.(files := f.(checkpoint := to, liveSnapshot := snapshot))
    case Fail => Stop(w)
  }

  ghost predicate IsRun(w: World, actions: seq<Action>)
    decreases |actions|
  {
    actions != [] ==> Enabled(w, actions[0]) && IsRun(Do(w, actions[0]), actions[1..])
  }

  ghost function After(w: World, actions: seq<Action>): World
    requires IsRun(w, actions)
    decreases |actions|
  {
    if actions == [] then w else After(Do(w, actions[0]), actions[1..])
  }

  ghost predicate Initial(w: World) {
    && w.files.pending.None? && w.files.staged == map[] && w.files.archives == map[] && w.files.marker.None?
    && w.phase.Idle? && w.uploads == [] && w.activated == {}
  }

  // ---------------------------------------------------------------- what every step keeps

  /** The pending artifact on disk binds this document to this job. */
  predicate Bound(f: Files, id: string, document: Document) {
    f.pending.Some? && f.pending.value.jobId == id && f.pending.value.document == document
  }

  ghost predicate PhaseInv(w: World) {
    var f := w.files;
    match w.phase
    case Idle => true
    case Prepared(job, document) => Bound(f, job.id, document) && job.id !in f.archives
    case Staged(job, document) =>
      Bound(f, job.id, document) && job.id !in f.archives && job.id in f.staged && f.staged[job.id] == document
    case Archived(job, document) => Bound(f, job.id, document) && job.id in f.archives && f.archives[job.id] == document
    case Delivered(job) => PendingFor(f, job) && job.id in f.archives && f.archives[job.id] == f.pending.value.document
    case BaselineSaved(job) =>
      PendingFor(f, job) && job.id in f.archives && job.id !in w.activated && f.liveSnapshot == f.pending.value.baseline
    case CheckpointMoved(job) =>
      PendingFor(f, job) && job.id in f.archives && job.id !in w.activated && f.liveSnapshot == f.pending.value.baseline
      && f.checkpoint == f.pending.value.anchor
  }

  ghost predicate UploadsInv(w: World) {
    forall u | u in w.uploads ::
      && u.jobId in w.files.archives && w.files.archives[u.jobId] == u.document
      && u.pending.Some? && u.pending.value.jobId == u.jobId && u.pending.value.document == u.document
  }

  /** An activated job's bundle, while it is still the pending one, is the one that was activated. */
  ghost predicate ActivatedInv(w: World) {
    && (w.files.marker.Some? ==> w.files.marker.value.jobId in w.activated)
    && forall id | id in w.activated ::
         && id in w.files.archives
         && (w.files.pending.Some? && w.files.pending.value.jobId == id ==>
               w.files.marker == Some(MarkerOf(w.files.pending.value)))
  }

  ghost predicate BundleInv(f: Files) {
    f.pending.Some? ==>
      var b := f.pending.value;
      && b.document.jobId == b.jobId && b.imported == ImportedTickets(b.document.events)
      && b.imported <= b.archived && b.baseline.deals == map[] && b.dealCount == |b.document.events|
      && (b.jobId in f.archives ==> f.archives[b.jobId] == b.document)
  }

  ghost predicate ArchivesNamed(f: Files) { forall id | id in f.archives :: f.archives[id].jobId == id }

  ghost predicate Inv(w: World) {
    PhaseInv(w) && UploadsInv(w) && ActivatedInv(w) && BundleInv(w.files) && ArchivesNamed(w.files)
  }

  /** Archives are immutable: a step may add one and never changes or removes one. */
  ghost predicate ArchivesKept(f: Files, g: Files) {
    forall id | id in f.archives :: id in g.archives && g.archives[id] == f.archives[id]
  }

  lemma {:induction false} BeginKeepsInv(w: World, job: Job, c: Capture)
    requires Inv(w) && Enabled(w, Begin(job, c))
    ensures Inv(Do(w, Begin(job, c)))
  {
  }

  lemma {:induction false} StepOnlyAdds(w: World, a: Action)
    requires Inv(w) && Enabled(w, a)
    ensures ArchivesKept(w.files, Do(w, a).files)
    ensures w.uploads <= Do(w, a).uploads && w.activated <= Do(w, a).activated
    ensures Do(w, a).files.checkpoint >= w.files.checkpoint
  {
  }

  /** Every step, a crash included, keeps the invariant. */
  lemma {:induction false} StepKeepsInv(w: World, a: Action)
    requires Inv(w) && Enabled(w, a)
    ensures Inv(Do(w, a))
  {
    if a.Begin? { BeginKeepsInv(w, a.job, a.capture); }
  }

  lemma {:induction false} RunKeepsInv(w: World, actions: seq<Action>)
    requires Inv(w) && IsRun(w, actions)
    ensures Inv(After(w, actions)) && ArchivesKept(w.files, After(w, actions).files)
    ensures w.uploads <= After(w, actions).uploads && w.activated <= After(w, actions).activated
    ensures After(w, actions).files.checkpoint >= w.files.checkpoint
    decreases |actions|
  {
    if actions != [] {
      StepKeepsInv(w, actions[0]);
      StepOnlyAdds(w, actions[0]);
      RunKeepsInv(Do(w, actions[0]), actions[1..]);
    }
  }

  // ---------------------------------------------------------------- over every run

  /** One job, one document. Over every sequence of crashes, retries and other jobs, two uploads for the
      same job carry the same document, and each was made while the pending bundle that binds that
      document to its baseline was on disk. */
  lemma {:induction false} OneJobOneDocument(w: World, actions: seq<Action>, u: Upload, v: Upload)
    requires Initial(w) && IsRun(w, actions) && u in After(w, actions).uploads && v in After(w, actions).uploads
    ensures u.jobId == v.jobId ==> u.document == v.document
    ensures u.pending.Some? && u.pending.value.jobId == u.jobId && u.pending.value.document == u.document
  {
    RunKeepsInv(w, actions);
  }

  /** The job that a handoff step acts for. */
  function ActingJob(w: World): Option<string> {
    match w.phase
    case Delivered(job) => Some(job.id)
    case BaselineSaved(job) => Some(job.id)
    case CheckpointMoved(job) => Some(job.id)
    case _ => None
  }

  /** The event checkpoint never moves back, and apart from live polls only a job that has never been
      activated changes it or the live snapshot: once the marker is durable, every retry of that job
      leaves both alone. */
  lemma {:induction false} ActivatedJobsTouchNothing(w: World, actions: seq<Action>, a: Action)
    requires Initial(w) && IsRun(w, actions) && Enabled(After(w, actions), a)
    ensures Do(After(w, actions), a).files.checkpoint >= After(w, actions).files.checkpoint
    ensures var v := After(w, actions); var u := Do(v, a);
            !a.LivePoll?
            && (u.files.checkpoint != v.files.checkpoint || u.files.liveSnapshot != v.files.liveSnapshot) ==>
              ActingJob(v).Some? && ActingJob(v).value !in v.activated
  {
    RunKeepsInv(w, actions);
    StepOnlyAdds(After(w, actions), a);
  }

  /** Activation is all or nothing: when the marker is written, the checkpoint is at the bundle's anchor
      and the live snapshot is the bundle's baseline. */
  lemma {:induction false} MarkerMeansActivated(w: World, actions: seq<Action>)
    requires Initial(w) && IsRun(w, actions) && After(w, actions).phase.CheckpointMoved?
    ensures var v := After(w, actions); var u := Do(v, WriteMarker);
            && u.files.pending.Some? && u.files.marker == Some(MarkerOf(u.files.pending.value))
            && u.files.checkpoint == u.files.marker.value.anchor
            && u.files.liveSnapshot == u.files.pending.value.baseline
            && u.files.marker.value.imported == ImportedTickets(u.files.marker.value.document.events)
            && u.files.marker.value.imported <= u.files.marker.value.archived
  {
    RunKeepsInv(w, actions);
  }

  lemma {:induction false} PendingIsBundle(w: World, actions: seq<Action>) returns (job: Job, c: Capture)
    requires IsRun(w, actions) && After(w, actions).files.pending.Some?
    requires After(w, actions).files.pending != w.files.pending
    ensures Begin(job, c) in actions && After(w, actions).files.pending == Some(BundleOf(job, c)) && CaptureValid(c)
    decreases |actions|
  {
    var v := Do(w, actions[0]);
    if After(w, actions).files.pending != v.files.pending {
      job, c := PendingIsBundle(v, actions[1..]);
    } else {
      job, c := actions[0].job, actions[0].capture;
    }
  }

  /** The bundle that a run leaves pending is what one of its jobs captured: its document has the captured
      events and time, its anchor and baseline are the captured sequence, positions and orders, and it archives
      exactly the deals that the snapshot showed. */
  lemma {:induction false} PendingWasCaptured(w: World, actions: seq<Action>) returns (job: Job, c: Capture)
    requires Initial(w) && IsRun(w, actions) && After(w, actions).files.pending.Some?
    ensures Begin(job, c) in actions
    ensures var b := After(w, actions).files.pending.value;
            && b.jobId == job.id && b.dealCount == |c.events| && b.anchor == c.anchor
            && b.document.jobId == job.id && b.document.scope == job.scope
            && b.document.generatedAt == c.takenAt && b.document.events == c.events
            && b.baseline.positions == c.snapshot.positions && b.baseline.orders == c.snapshot.orders
            && b.baseline.deals == map[]
            && b.archived == c.snapshot.deals.Keys
            && (forall t :: t in b.imported <==> exists e :: e in c.events && e.nativeDeal == Some(t))
            && b.imported <= b.archived && (forall e | e in c.events :: e.nativeDeal.Some?)
  {
    job, c := PendingIsBundle(w, actions);
    var b := After(w, actions).files.pending.value;
    forall t ensures t in b.imported <==> exists e :: e in c.events && e.nativeDeal == Some(t) {}
  }

  /** Activation starts exactly when the pending bundle imports only deals that it archives, its baseline holds no
      deals, its own archive is there unchanged, and its job has no marker yet; else it touches nothing. */
  lemma {:induction false} SavesBaselineIff(w: World)
    requires w.phase.Delivered?
    ensures var v, f := Do(w, SaveBaseline), w.files;
            && (v.phase.BaselineSaved? <==>
                  f.pending.Some? &&
                  var b := f.pending.value;
                  && b.imported <= b.archived && b.baseline.deals == map[]
                  && b.jobId in f.archives && f.archives[b.jobId] == b.document
                  && (f.marker.Some? ==> f.marker.value.jobId != b.jobId))
            && (!v.phase.BaselineSaved? ==> v.phase.Idle? && v.files == f)
  {
  }

  /** What a job that gets as far as its marker leaves behind is one moment of the account, as captured at the
      start of a job of the run: the checkpoint is at the captured sequence, live goes on from the captured
      positions and orders, and the marker archives the deals that the snapshot showed. */
  lemma {:induction false} ActivationRestoresCapture(w: World, actions: seq<Action>) returns (job: Job, c: Capture)
    requires Initial(w) && IsRun(w, actions) && After(w, actions).phase.CheckpointMoved?
    ensures Begin(job, c) in actions
    ensures var f := Do(After(w, actions), WriteMarker).files;
            && f.marker.Some? && f.marker.value.jobId == job.id && f.marker.value.document.events == c.events
            && f.checkpoint == c.anchor && f.marker.value.anchor == c.anchor
            && f.marker.value.archived == c.snapshot.deals.Keys
            && f.liveSnapshot.positions == c.snapshot.positions && f.liveSnapshot.orders == c.snapshot.orders
            && f.liveSnapshot.deals == map[]
  {
    MarkerMeansActivated(w, actions);
    job, c := PendingWasCaptured(w, actions);
  }

  /** So when live then compares what it goes on from with the account as it was captured, it finds no position
      and no order event, and each deal that the snapshot showed as one accounting note. */
  lemma {:induction false} FirstComparisonIsQuiet(w: World, actions: seq<Action>, order: seq<string>)
    returns (job: Job, c: Capture)
    requires Initial(w) && IsRun(w, actions) && After(w, actions).phase.CheckpointMoved?
    ensures Begin(job, c) in actions
    ensures var events := Detect(Do(After(w, actions), WriteMarker).files.liveSnapshot, c.snapshot, order);
            && (forall e | e in events ::
                  e.eventType == DealRecorded && e.ticket in c.snapshot.deals && e.nativeDeal.None?)
            && (forall t | t in c.snapshot.deals && t in order ::
                  exists e :: e in events && e.eventType == DealRecorded && e.ticket == t)
  {
    job, c := ActivationRestoresCapture(w, actions);
    var was, now := Do(After(w, actions), WriteMarker).files.liveSnapshot, c.snapshot;
    forall e | e in Detect(was, now, order) ensures SaysOfDeal(was, now, e) {
      DetectedIff(was, now, order, e);
    }
    forall t | t in now.deals && t in order
      ensures exists e :: e in Detect(was, now, order) && e.eventType == DealRecorded && e.ticket == t
    {
      var d := now.deals[t];
      var e := Event(DealRecorded, t, None, d.volume, None, None, None, d.closePrice, None, None, None, None, None,
                     d.positionTicket, d.details);
      DetectedIff(was, now, order, e);
    }
  }

  // ---------------------------------------------------------------- a job can get stuck

  /** The stage that a crashed attempt left behind disagrees with the bundle that is pending now. */
  predicate StaleStage(f: Files, job: Job) {
    && job.id !in f.archives && PendingFor(f, job)
    && job.id in f.staged && f.staged[job.id] != f.pending.value.document
  }

  /** The document that is already committed for the job. */
  function Committed(f: Files, job: Job): Option<Document> {
    if job.id in f.archives then Some(f.archives[job.id])
    else if PendingFor(f, job) then Some(f.pending.value.document)
    else None
  }

  /** When does the retry of a committed job go ahead? Exactly when it has the scope of the committed document, its
      bundle is still the pending one and no stale stage is in the way; then it carries the committed document,
      whatever the terminal shows by now. */
  lemma {:induction false} RetryGoesAheadIff(w: World, actions: seq<Action>, job: Job, c: Capture)
    requires Initial(w) && IsRun(w, actions) && After(w, actions).phase.Idle?
    requires Committed(After(w, actions).files, job).Some?
    ensures var f := After(w, actions).files; var next := Enter(After(w, actions), job, c);
            && next.files == f
            && (!next.phase.Idle? <==>
                  Committed(f, job).value.scope == job.scope && PendingFor(f, job) && !StaleStage(f, job))
            && (!next.phase.Idle? ==> next.phase.document == Committed(f, job).value)
  {
    RunKeepsInv(w, actions);
  }

  /** And when does a job that has committed nothing yet go ahead? Exactly when every captured event carries the
      ticket of a deal that the snapshot shows, and the import counted as many. Then it carries a document of the
      captured events; otherwise nothing is written. */
  lemma {:induction false} NewJobGoesAheadIff(w: World, job: Job, c: Capture)
    requires w.phase.Idle? && Committed(w.files, job).None?
    ensures var next := Enter(w, job, c);
            && (!next.phase.Idle? <==>
                  && (forall e | e in c.events :: e.nativeDeal.Some? && e.nativeDeal.value in c.snapshot.deals)
                  && c.dealCount == |c.events|)
            && (if next.phase.Idle? then next == w
                else next.phase == Prepared(job, Document(job.id, job.scope, c.takenAt, c.events))
                     && next.files.(pending := None) == w.files.(pending := None))
  {
    assert (forall e | e in c.events :: e.nativeDeal.Some?) ==>
             (ImportedTickets(c.events) <= c.snapshot.deals.Keys <==>
              forall e | e in c.events :: e.nativeDeal.value in c.snapshot.deals)
    by {
      forall e | e in c.events && e.nativeDeal.Some? ensures e.nativeDeal.value in ImportedTickets(c.events) {}
    }
  }

  lemma {:induction false} RunExtends(w: World, actions: seq<Action>, a: Action)
    requires IsRun(w, actions) && Enabled(After(w, actions), a)
    ensures IsRun(w, actions + [a]) && After(w, actions + [a]) == Do(After(w, actions), a)
    decreases |actions|
  {
    if actions == [] {
      assert [a][1..] == [];
    } else {
      assert (actions + [a])[1..] == actions[1..] + [a];
      RunExtends(Do(w, actions[0]), actions[1..], a);
    }
  }

  /** Retries are safe but need not succeed. A job that crashes after staging, is overtaken by another
      job's bundle, and crashes again right after capturing anew, is refused by every later attempt,
      whatever it captures. The second capture only has to be made at another time: the events may be the
      same. */
  lemma {:induction false} StaleStageBlocksEveryRetry(
    w: World, job: Job, other: Job, c: Capture, d: Capture, e: Capture) returns (run: seq<Action>)
    requires Initial(w) && job.id != other.id && CaptureValid(c) && CaptureValid(d) && CaptureValid(e)
    requires c.takenAt != e.takenAt || c.events != e.events
    ensures IsRun(w, run) && After(w, run).phase.Idle? && StaleStage(After(w, run).files, job)
    ensures forall retry :: Do(After(w, run), Begin(job, retry)) == After(w, run)
  {
    run := [];
    RunExtends(w, run, Begin(job, c));
    run := run + [Begin(job, c)];
    RunExtends(w, run, WriteStage);
    run := run + [WriteStage];
    RunExtends(w, run, Fail);
    run := run + [Fail];
    RunExtends(w, run, Begin(other, d));
    run := run + [Begin(other, d)];
    RunExtends(w, run, Fail);
    run := run + [Fail];
    RunExtends(w, run, Begin(job, e));
    run := run + [Begin(job, e)];
    RunExtends(w, run, Fail);
    run := run + [Fail];
  }

  /** The job is archived, and if its bundle is still pending, its anchor is behind the event checkpoint. */
  predicate LateAnchor(f: Files, job: Job) {
    job.id in f.archives && (PendingFor(f, job) ==> f.pending.value.anchor < f.checkpoint)
  }

  /** A job whose anchor has fallen behind is never activated again, whatever is retried. */
  lemma {:induction false} LateAnchorNeverActivates(w: World, actions: seq<Action>, job: Job)
    requires Inv(w) && IsRun(w, actions) && LateAnchor(w.files, job) && job.id !in w.activated
    ensures LateAnchor(After(w, actions).files, job) && job.id !in After(w, actions).activated
    decreases |actions|
  {
    if actions != [] {
      StepKeepsInv(w, actions[0]);
      StepOnlyAdds(w, actions[0]);
      LateAnchorStays(w, actions[0], job);
      LateAnchorNeverActivates(Do(w, actions[0]), actions[1..], job);
    }
  }

  lemma {:induction false} LateAnchorStays(w: World, a: Action, job: Job)
    requires Inv(w) && Enabled(w, a) && LateAnchor(w.files, job) && job.id !in w.activated
    ensures LateAnchor(Do(w, a).files, job) && job.id !in Do(w, a).activated
  {
  }

  /** The steps that activate an archived job whose bundle is pending. */
  lemma {:induction false} ActivatingRun(w: World, job: Job, c: Capture) returns (run: seq<Action>)
    requires Inv(w) && w.phase.Idle? && job.id in w.files.archives && PendingFor(w.files, job)
    requires w.files.archives[job.id].scope == job.scope && job.id !in w.activated
    ensures IsRun(w, run)
    ensures var v, b := After(w, run), w.files.pending.value;
            && v.phase.Idle? && v.files.liveSnapshot == b.baseline
            && (if b.anchor >= w.files.checkpoint then job.id in v.activated && v.files.checkpoint == b.anchor
                else v.activated == w.activated && v.files == w.files.(liveSnapshot := b.baseline))
  {
    run := [];
    RunExtends(w, run, Begin(job, c));
    run := run + [Begin(job, c)];
    var reply := Accepted(|w.files.archives[job.id].events|);
    RunExtends(w, run, Deliver(reply));
    run := run + [Deliver(reply)];
    RunExtends(w, run, SaveBaseline);
    run := run + [SaveBaseline];
    RunExtends(w, run, MoveCheckpoint);
    run := run + [MoveCheckpoint];
    if w.files.pending.value.anchor >= w.files.checkpoint {
      RunExtends(w, run, WriteMarker);
      run := run + [WriteMarker];
    }
  }

  /** Exactly when an archived job whose bundle is pending can still be activated: its anchor is not behind
      the event checkpoint. */
  lemma {:induction false} ActivatesIffAnchorNotLate(w: World, job: Job, c: Capture)
    requires Inv(w) && w.phase.Idle? && job.id in w.files.archives && PendingFor(w.files, job)
    requires w.files.archives[job.id].scope == job.scope && job.id !in w.activated
    ensures (exists run :: IsRun(w, run) && job.id in After(w, run).activated)
       <==> w.files.pending.value.anchor >= w.files.checkpoint
  {
    if w.files.pending.value.anchor >= w.files.checkpoint {
      var run := ActivatingRun(w, job, c);
    } else {
      forall run | IsRun(w, run) ensures job.id !in After(w, run).activated {
        LateAnchorNeverActivates(w, run, job);
      }
    }
  }

  /** A job up to its accepted delivery, from a clean state, and then a crash. */
  lemma {:induction false} DeliveredThenCrash(w: World, job: Job, c: Capture) returns (run: seq<Action>)
    requires Initial(w) && CaptureValid(c)
    ensures IsRun(w, run)
    ensures var v, b := After(w, run), BundleOf(job, c);
            && v.phase.Idle? && v.activated == {} && v.files.pending == Some(b)
            && v.files.archives == map[job.id := b.document]
            && v.files.checkpoint == w.files.checkpoint && v.files.marker.None?
  {
    run := [];
    RunExtends(w, run, Begin(job, c));
    run := run + [Begin(job, c)];
    RunExtends(w, run, WriteStage);
    run := run + [WriteStage];
    RunExtends(w, run, Promote);
    run := run + [Promote];
    RunExtends(w, run, Deliver(Accepted(|c.events|)));
    run := run + [Deliver(Accepted(|c.events|))];
    RunExtends(w, run, Fail);
    run := run + [Fail];
  }

  /** A job from a clean state up to its last step, the marker. */
  lemma {:induction false} CapturedRun(w: World, job: Job, c: Capture) returns (run: seq<Action>)
    requires Initial(w) && CaptureValid(c) && c.anchor >= w.files.checkpoint
    ensures IsRun(w, run) && Begin(job, c) in run && After(w, run).phase.CheckpointMoved?
    ensures After(w, run).files.pending == Some(BundleOf(job, c))
  {
    run := [];
    RunExtends(w, run, Begin(job, c));
    run := run + [Begin(job, c)];
    RunExtends(w, run, WriteStage);
    run := run + [WriteStage];
    RunExtends(w, run, Promote);
    run := run + [Promote];
    RunExtends(w, run, Deliver(Accepted(|c.events|)));
    run := run + [Deliver(Accepted(|c.events|))];
    RunExtends(w, run, SaveBaseline);
    run := run + [SaveBaseline];
    RunExtends(w, run, MoveCheckpoint);
    run := run + [MoveCheckpoint];
  }

  /** A late anchor damages as well as blocks. The run: the document is delivered, the process dies before
      activation, live polls go on past the anchor, and the job is retried. The retry replaces the current
      live snapshot by the old baseline and then fails on the checkpoint, and so does every later one. */
  lemma {:induction false} LateAnchorReplacesSnapshot(
    w: World, job: Job, c: Capture, to: nat, snapshot: Snapshot, retake: Capture) returns (run: seq<Action>)
    requires Initial(w) && CaptureValid(c) && to >= w.files.checkpoint && to > c.anchor
    ensures IsRun(w, run)
    ensures var v := After(w, run);
            && v.phase.Idle? && v.files.checkpoint == to && v.files.liveSnapshot == BundleOf(job, c).baseline
            && v.files.marker.None?
            && forall later | IsRun(v, later) :: job.id !in After(v, later).activated
  {
    run := DeliveredThenCrash(w, job, c);
    RunExtends(w, run, LivePoll(to, snapshot));
    run := run + [LivePoll(to, snapshot)];
    RunKeepsInv(w, run);
    var polled := After(w, run);
    var retry := ActivatingRun(polled, job, retake);
    RunJoins(w, run, retry);
    run := run + retry;
    RunKeepsInv(w, run);
    forall later | IsRun(After(w, run), later) ensures job.id !in After(After(w, run), later).activated {
      LateAnchorNeverActivates(After(w, run), later, job);
    }
  }

  lemma {:induction false} RunJoins(w: World, first: seq<Action>, second: seq<Action>)
    requires IsRun(w, first) && IsRun(After(w, first), second)
    ensures IsRun(w, first + second) && After(w, first + second) == After(After(w, first), second)
    decreases |second|
  {
    if second == [] {
      assert first + second == first;
    } else {
      RunExtends(w, first, second[0]);
      RunJoins(w, first + [second[0]], second[1..]);
      assert first + second == (first + [second[0]]) + second[1..];
    }
  }

  // ---------------------------------------------------------------- the code as a path through the steps

  /** The state directory of one connection, worked on by one job at a time. */
  class Connection {
    var world: World
    ghost var start: World
    ghost var history: seq<Action>

    ghost predicate Valid() reads this {
      Initial(start) && IsRun(start, history) && After(start, history) == world && Inv(world)
    }

    constructor (w: World)
      requires Initial(w)
      ensures Valid() && world == w && start == w
    {
      world, start, history := w, w, [];
    }

    /** One durable step. */
    method Take(a: Action)
      requires Valid() && Enabled(world, a)
      modifies this
      ensures Valid() && start == old(start) && history == old(history) + [a]
      ensures world == Do(old(world), a)
    {
      RunExtends(start, history, a);
      StepKeepsInv(world, a);
      world, history := Do(world, a), history + [a];
    }

    /** From the job's entry to a published archive whose bundle is the pending one. */
    method PublishArchive(job: Job, capture: Capture) returns (ok: bool)
      requires Valid() && world.phase.Idle?
      modifies this
      ensures Valid() && start == old(start) && old(history) <= history
      ensures var e := Enter(old(world), job, capture);
              && ok == !e.phase.Idle? && world.files.pending == e.files.pending
              && (if ok then world.phase == Archived(job, e.phase.document)
                             && world.files.archives == e.files.archives[job.id := e.phase.document]
                  else world == e)
      ensures world.uploads == old(world.uploads)
      ensures world.files.checkpoint == old(world.files.checkpoint)
      ensures world.files.liveSnapshot == old(world.files.liveSnapshot)
      ensures world.files.marker == old(world.files.marker)
    {
      Take(Begin(job, capture));
      if world.phase.Idle? { return false; }
      if world.phase.Prepared? { Take(WriteStage); }
      if world.phase.Staged? { Take(Promote); }
      ok := true;
    }

    /** The import of one job up to the accepted delivery: refused at the entry, or one upload of the
        document that the job's archive then holds and the pending bundle binds; it succeeds exactly when
        the server acknowledges every event. */
    method RunHistorySync(job: Job, capture: Capture, reply: Reply) returns (ok: bool)
      requires Valid() && world.phase.Idle?
      modifies this
      ensures Valid() && start == old(start) && old(history) <= history
      ensures var e := Enter(old(world), job, capture);
              if e.phase.Idle? then !ok && world == e
              else
                var document := e.phase.document;
                && world.uploads == old(world.uploads) + [Upload(job.id, document, e.files.pending)]
                && world.files.archives == old(world.files.archives)[job.id := document]
                && Bound(world.files, job.id, document)
                && (ok <==> reply == Accepted(|document.events|))
                && world.phase == if ok then Delivered(job) else Idle
      ensures world.files.checkpoint == old(world.files.checkpoint)
      ensures world.files.liveSnapshot == old(world.files.liveSnapshot)
      ensures world.files.marker == old(world.files.marker)
    {
      ok := PublishArchive(job, capture);
      if !ok { return; }
      Take(Deliver(reply));
      ok := world.phase.Delivered?;
    }

    /** Activation after an accepted delivery; its checks of the bundle and the archive never fail there. If the
        marker already is the pending bundle's, nothing is touched. Otherwise baseline, checkpoint and marker are
        written, and only an anchor behind the checkpoint stops it in between, with the baseline already saved. */
    method PrepareHandoff() returns (ok: bool)
      requires Valid() && world.phase.Delivered?
      modifies this
      ensures Valid() && start == old(start) && old(history) <= history && world.phase.Idle?
      ensures world.uploads == old(world.uploads) && world.files.archives == old(world.files.archives)
      ensures var f := old(world.files);
              f.pending.Some? &&
              var b := f.pending.value;
              if f.marker == Some(MarkerOf(b)) then ok && world.files == f
              else if f.marker.Some? && f.marker.value.jobId == b.jobId then !ok && world.files == f
              else
                && ok == (b.anchor >= f.checkpoint)
                && world.files.(checkpoint := f.checkpoint, marker := f.marker) == f.(liveSnapshot := b.baseline)
                && world.files.checkpoint == (if ok then b.anchor else f.checkpoint)
                && world.files.marker == (if ok then Some(MarkerOf(b)) else f.marker)
    {
      Take(SaveBaseline);
      if world.phase.Idle? {
        return world.files.pending.Some? && world.files.marker == Some(MarkerOf(world.files.pending.value));
      }
      Take(MoveCheckpoint);
      if world.phase.Idle? { return false; }
      Take(WriteMarker);
      ok := true;
    }
  }
}
