/** What holds of the endpoint registry over every run, and what a concurrent reader can see. */
module RegistryRuns {
  import opened Prelude
  import opened Registry

  // ---------------------------------------------------------------- readers during a publication

  /** Every active record is bound by the manifest. */
  ghost predicate Anchored(d: Disk) {
    forall name, i | name in Loaded(d) && 0 <= i < |Loaded(d)[name]| && Loaded(d)[name][i].status == Verified ::
      Loaded(d)[name][i].endpoint.artifact in ManifestEntries(d.manifest)
  }

  /** Two disks with the same registry, and the same provenance for its active records, answer alike. */
  lemma {:induction false} SameForReaders(nm: Naming, d: Disk, e: Disk, q: Query)
    requires d.registry == e.registry
    requires forall name, i |
                 name in Loaded(d) && 0 <= i < |Loaded(d)[name]| && Loaded(d)[name][i].status == Verified ::
               var path := Loaded(d)[name][i].endpoint.artifact;
               && Digest(d.manifest, path) == Digest(e.manifest, path)
               && Content(d.artifacts, path) == Content(e.artifacts, path)
    ensures Resolve(nm, d, q) == Resolve(nm, e, q)
  {
    if d.registry.Some? && QueryValid(nm, q) && Readable(nm, d.registry.value)
       && |Answers(nm, d.registry.value, q)| == 1 {
      var place := TheAnswer(nm, d.registry.value, q);
      assert Loaded(d)[place.0][place.1].status == Verified;
    }
  }

  /** Bound paths look the same at every point of the publication. */
  lemma {:induction false} ProvenanceStays(nm: Naming, d: Disk, p: Promotion, name: string, k: nat, path: string)
    requires ArtifactsAgree(d, p) && k <= 8 && path in ManifestEntries(d.manifest)
    ensures Digest(During(nm, d, p, name, k).manifest, path) == Digest(d.manifest, path)
    ensures Content(During(nm, d, p, name, k).artifacts, path) == Content(d.artifacts, path)
  {
    PathsDiffer(p.session);
  }

  /** Between the writes, and while they are undone, readers get the answers from before: the registry is
      the old one at every point but the fourth. */
  lemma {:induction false} ReadersSeeBefore(nm: Naming, d: Disk, p: Promotion, name: string, k: nat, q: Query)
    requires ArtifactsAgree(d, p) && Anchored(d) && k <= 8 && k != 4
    ensures Resolve(nm, During(nm, d, p, name, k), q) == Resolve(nm, d, q)
  {
    var e := During(nm, d, p, name, k);
    forall x, i | x in Loaded(d) && 0 <= i < |Loaded(d)[x]| && Loaded(d)[x][i].status == Verified
      ensures var path := Loaded(d)[x][i].endpoint.artifact;
              && Digest(d.manifest, path) == Digest(e.manifest, path)
              && Content(d.artifacts, path) == Content(e.artifacts, path)
    {
      ProvenanceStays(nm, d, p, name, k, Loaded(d)[x][i].endpoint.artifact);
    }
    SameForReaders(nm, d, e, q);
  }

  /** A publication that resolves is atomic to readers: at every point between its writes, every query gets
      the answer from before or the answer from after. */
  lemma {:induction false} ReadersSeeBeforeOrAfter(nm: Naming, d: Disk, p: Promotion, name: string, k: nat, q: Query)
    requires ArtifactsAgree(d, p) && Anchored(d) && k <= 4
    ensures Resolve(nm, During(nm, d, p, name, k), q) ==
              if k < 4 then Resolve(nm, d, q) else Resolve(nm, WrittenDisk(nm, d, p, name), q)
  {
    if k < 4 { ReadersSeeBefore(nm, d, p, name, k, q); }
  }

  // ---------------------------------------------------------------- runs

  /** A change of the disk: a publication that went through, one whose process died after `k` of its writes
      (the undoing ones included), or an invalidation. Whatever is refused leaves the disk alone. */
  datatype Change =
    | Published(p: Promotion, name: string)
    | Interrupted(p: Promotion, name: string, k: nat)
    | Ended(v: Invalidation, name: string, i: nat)

  ghost predicate Possible(nm: Naming, d: Disk, c: Change) {
    Valid(nm, Loaded(d)) &&
    match c
    case Published(p, name) =>
      && MayPublish(nm, d, p) && IsCanonical(nm, Loaded(d), p.broker, name)
      && Resolve(nm, WrittenDisk(nm, d, p, name), Query(Some(name), nm.strip(p.server))).Some?
    case Interrupted(p, name, k) =>
      && MayPublish(nm, d, p) && IsCanonical(nm, Loaded(d), p.broker, name)
      && k <= 8 && (k == 4 ==> !Refused(nm, name))
    case Ended(v, name, i) => d.registry.Some? && MayInvalidate(nm, Loaded(d), v, name, i)
  }

  ghost function After(nm: Naming, d: Disk, c: Change): Disk
    requires Possible(nm, d, c)
  {
    match c
    case Published(p, name) => WrittenDisk(nm, d, p, name)
    case Interrupted(p, name, k) => During(nm, d, p, name, k)
    case Ended(v, name, i) => d.(registry := Some(EndedAt(Loaded(d), v, name, i)))
  }

  ghost predicate IsHistory(nm: Naming, d: Disk, changes: seq<Change>)
    decreases |changes|
  {
    changes != [] ==> Possible(nm, d, changes[0]) && IsHistory(nm, After(nm, d, changes[0]), changes[1..])
  }

  ghost function AfterAll(nm: Naming, d: Disk, changes: seq<Change>): Disk
    requires IsHistory(nm, d, changes)
    decreases |changes|
  {
    if changes == [] then d else AfterAll(nm, After(nm, d, changes[0]), changes[1..])
  }

  /** Stripping takes characters away, and stripping twice is stripping once. */
  ghost predicate Sane(nm: Naming) {
    forall s :: nm.strip(nm.strip(s)) == nm.strip(s) && |nm.strip(s)| <= |s| && forall c | c in nm.strip(s) :: c in s
  }

  predicate IsText(nm: Naming, s: string) { nm.strip(s) != "" && |s| <= 128 && '\r' !in s && '\n' !in s }

  /** When a publication is admissible: both evidence files are there with the promoted digests, the artifact says
      of a verified read-only login to the endpoint what the promotion says, texts and numbers are in range,
      everything the manifest binds is there, and the two artifacts are new or the same. */
  lemma {:induction false} MayPublishIff(nm: Naming, d: Disk, p: Promotion)
    requires Sane(nm)
    ensures MayPublish(nm, d, p) <==>
              && p.evidence.Some? && p.evidence.value.digest == p.sha
              && p.provenance.Some? && p.provenance.value.digest == p.provenanceSha
              && (var e := p.evidence.value.content;
                  && e.kind in {BrokerWizard, MtapiSearch} && e.loginVerified && e.readOnlyVerified
                  && e.session == p.session && e.server == nm.strip(p.server) && e.broker == nm.strip(p.broker)
                  && e.host == p.host && e.port == p.port && e.pid == p.pid
                  && e.processCreation == p.processCreation && e.verifiedAt == p.observedAt
                  && e.provenanceSha == p.provenanceSha)
              && IsText(nm, p.broker) && IsText(nm, p.server)
              && 1 <= p.port <= 65535 && p.pid > 0 && p.processCreation > 0 && p.observedAt > 0
              && (d.manifest.Some? ==>
                    forall path | path in d.manifest.value ::
                      path in d.artifacts && d.artifacts[path] == d.manifest.value[path])
              && (var path := "artifacts/" + p.session + "/endpoint-verification.json";
                  path in d.artifacts ==> d.artifacts[path] == p.sha)
              && (var path := "artifacts/" + p.session + "/login-provenance.json";
                  path in d.artifacts ==> d.artifacts[path] == p.provenanceSha)
  {
    assert forall c | c in nm.strip(p.server) :: c in p.server;
  }

  /** The label under which a promotion is published. */
  lemma {:induction false} CanonicalIsText(nm: Naming, d: Disk, p: Promotion, name: string)
    requires Sane(nm) && Valid(nm, Loaded(d)) && MayPublish(nm, d, p) && IsCanonical(nm, Loaded(d), p.broker, name)
    ensures ValidText(nm, name) && nm.strip(name) == name
  {
    if KnownLabels(nm, Loaded(d), p.broker) == {} {
      assert name == nm.strip(p.broker) && nm.strip(name) == name;
      assert forall c | c in name :: c in p.broker;
    }
  }

  /** Per broker label and case-folded server, at most one record is active. */
  ghost predicate OneActive(nm: Naming, b: Brokers) {
    forall name, i, j |
      name in b && 0 <= i < |b[name]| && 0 <= j < |b[name]| && SameServer(nm, b[name][i], b[name][j]) :: i == j
  }

  predicate Stripped(nm: Naming, r: Record) {
    r.endpoint.server.Some? ==> nm.strip(r.endpoint.server.value) == r.endpoint.server.value
  }

  ghost predicate AllStripped(nm: Naming, b: Brokers) {
    forall name, i | name in b && 0 <= i < |b[name]| :: Stripped(nm, b[name][i])
  }

  predicate SameServer(nm: Naming, r: Record, s: Record) {
    && r.status == Verified && s.status == Verified && r.endpoint.server.Some? && s.endpoint.server.Some?
    && nm.fold(r.endpoint.server.value) == nm.fold(s.endpoint.server.value)
  }

  predicate Intact(d: Disk, e: Endpoint) {
    Digest(d.manifest, e.artifact) == Some(e.sha) && Content(d.artifacts, e.artifact) == Some(e.sha)
  }

  /** Every active record has its manifest entry and its artifact. */
  ghost predicate Backed(d: Disk) {
    forall name, i | name in Loaded(d) && 0 <= i < |Loaded(d)[name]| && Loaded(d)[name][i].status == Verified ::
      Intact(d, Loaded(d)[name][i].endpoint)
  }

  ghost predicate Inv(nm: Naming, d: Disk) {
    Valid(nm, Loaded(d)) && AllStripped(nm, Loaded(d)) && OneActive(nm, Loaded(d)) && Backed(d)
  }

  lemma {:induction false} IntactStays(nm: Naming, d: Disk, p: Promotion, name: string, e: Endpoint)
    requires ArtifactsAgree(d, p) && Intact(d, e)
    ensures Intact(WrittenDisk(nm, d, p, name), e)
  {
    ProvenanceStays(nm, d, p, name, 4, e.artifact);
  }

  lemma {:induction false} SupersedeWellFormed(nm: Naming, r: Record, p: Promotion)
    requires WellFormed(nm, r) && PromotionValid(nm, p)
    ensures WellFormed(nm, Supersede(nm, r, p))
  {
  }

  lemma {:induction false} PublishedIsValid(nm: Naming, d: Disk, p: Promotion, name: string)
    requires Valid(nm, Loaded(d)) && MayPublish(nm, d, p) && IsCanonical(nm, Loaded(d), p.broker, name)
    requires ValidText(nm, name) && nm.strip(name) == name && !Refused(nm, name)
    ensures Valid(nm, PublishedAt(nm, Loaded(d), p, name))
  {
    var b, c := Loaded(d), PublishedAt(nm, Loaded(d), p, name);
    var records := RecordsAt(b, name);
    forall x, i | x in c && 0 <= i < |c[x]|
      ensures WellFormed(nm, c[x][i])
    {
      if x == name && i < |records| { SupersedeWellFormed(nm, records[i], p); }
    }
    assert forall x | x in b && nm.key(x) == nm.key(nm.strip(p.broker)) :: x in KnownLabels(nm, b, p.broker);
  }

  lemma {:induction false} PublishedIsOneActive(nm: Naming, d: Disk, p: Promotion, name: string)
    requires Inv(nm, d) && MayPublish(nm, d, p)
    ensures OneActive(nm, PublishedAt(nm, Loaded(d), p, name))
  {
    var b, c := Loaded(d), PublishedAt(nm, Loaded(d), p, name);
    var records := RecordsAt(b, name);
    forall x, i, j | x in c && 0 <= i < |c[x]| && 0 <= j < |c[x]| && SameServer(nm, c[x][i], c[x][j]) ensures i == j {
      if x == name && i < |records| && j < |records| {
        assert SameServer(nm, records[i], records[j]);
      }
    }
  }

  lemma {:induction false} PublishedIsBacked(nm: Naming, d: Disk, p: Promotion, name: string)
    requires Backed(d) && ArtifactsAgree(d, p)
    ensures Backed(WrittenDisk(nm, d, p, name))
  {
    var e, records := WrittenDisk(nm, d, p, name), RecordsAt(Loaded(d), name);
    PathsDiffer(p.session);
    forall x, i | x in Loaded(e) && 0 <= i < |Loaded(e)[x]| && Loaded(e)[x][i].status == Verified
      ensures Intact(e, Loaded(e)[x][i].endpoint)
    {
      if x != name {
        IntactStays(nm, d, p, name, Loaded(d)[x][i].endpoint);
      } else if i < |records| {
        IntactStays(nm, d, p, name, records[i].endpoint);
      }
    }
  }

  lemma {:induction false} PublishedIsStripped(nm: Naming, b: Brokers, p: Promotion, name: string)
    requires Sane(nm) && AllStripped(nm, b)
    ensures AllStripped(nm, PublishedAt(nm, b, p, name))
  {
  }

  lemma {:induction false} PublishKeepsInv(nm: Naming, d: Disk, p: Promotion, name: string)
    requires Sane(nm) && Inv(nm, d) && MayPublish(nm, d, p) && IsCanonical(nm, Loaded(d), p.broker, name)
    requires !Refused(nm, name)
    ensures Inv(nm, WrittenDisk(nm, d, p, name))
  {
    CanonicalIsText(nm, d, p, name);
    PublishedIsValid(nm, d, p, name);
    PublishedIsStripped(nm, Loaded(d), p, name);
    PublishedIsOneActive(nm, d, p, name);
    PublishedIsBacked(nm, d, p, name);
  }

  lemma {:induction false} PublishedIsNotRefused(nm: Naming, d: Disk, p: Promotion, name: string)
    requires Possible(nm, d, Published(p, name))
    ensures !Refused(nm, name)
  {
    assert name in Loaded(WrittenDisk(nm, d, p, name));
  }

  lemma {:induction false} DuringIsBacked(nm: Naming, d: Disk, p: Promotion, name: string, k: nat)
    requires Backed(d) && ArtifactsAgree(d, p) && k <= 8 && k != 4
    ensures Backed(During(nm, d, p, name, k))
  {
    var e := During(nm, d, p, name, k);
    forall x, i | x in Loaded(e) && 0 <= i < |Loaded(e)[x]| && Loaded(e)[x][i].status == Verified
      ensures Intact(e, Loaded(e)[x][i].endpoint)
    {
      ProvenanceStays(nm, d, p, name, k, Loaded(d)[x][i].endpoint.artifact);
    }
  }

  /** A publication may die after any of its writes, the undoing ones included, and the registry it leaves is
      as good as before, unless the promoted label is refused and its record has just been written. */
  lemma {:induction false} DuringKeepsInv(nm: Naming, d: Disk, p: Promotion, name: string, k: nat)
    requires Sane(nm) && Inv(nm, d) && MayPublish(nm, d, p) && IsCanonical(nm, Loaded(d), p.broker, name) && k <= 8
    ensures Inv(nm, During(nm, d, p, name, k)) <==> !(k == 4 && Refused(nm, name))
  {
    if k != 4 {
      DuringIsBacked(nm, d, p, name, k);
    } else if !Refused(nm, name) {
      PublishKeepsInv(nm, d, p, name);
    } else {
      assert name in Loaded(During(nm, d, p, name, k));
    }
  }

  lemma {:induction false} EndedIsValid(nm: Naming, b: Brokers, v: Invalidation, name: string, i: nat)
    requires Valid(nm, b) && MayInvalidate(nm, b, v, name, i)
    ensures Valid(nm, EndedAt(b, v, name, i))
  {
    assert WellFormed(nm, Registry.Ended(b[name][i], v));
  }

  lemma {:induction false} EndedIsOneActive(nm: Naming, b: Brokers, v: Invalidation, name: string, i: nat)
    requires OneActive(nm, b) && name in b && i < |b[name]|
    ensures OneActive(nm, EndedAt(b, v, name, i))
  {
    var c := EndedAt(b, v, name, i);
    forall x, j, k | x in c && 0 <= j < |c[x]| && 0 <= k < |c[x]| && SameServer(nm, c[x][j], c[x][k]) ensures j == k {
      assert SameServer(nm, b[x][j], b[x][k]);
    }
  }

  lemma {:induction false} EndedIsBacked(nm: Naming, d: Disk, v: Invalidation, name: string, i: nat)
    requires d.registry.Some? && name in Loaded(d) && i < |Loaded(d)[name]|
    ensures AllStripped(nm, Loaded(d)) ==> AllStripped(nm, EndedAt(Loaded(d), v, name, i))
    ensures Backed(d) ==> Backed(d.(registry := Some(EndedAt(Loaded(d), v, name, i))))
  {
    var c: Brokers := EndedAt(Loaded(d), v, name, i);
    var e := d.(registry := Some(c));
    assert forall x: string, j | x in c && 0 <= j < |c[x]| ::
        c[x][j].endpoint == Loaded(d)[x][j].endpoint && (c[x][j].status == Verified ==> c[x][j] == Loaded(d)[x][j]);
    if Backed(d) {
      forall x: string, j | x in c && 0 <= j < |c[x]| && c[x][j].status == Verified
        ensures Intact(e, c[x][j].endpoint)
      {
        assert Intact(d, Loaded(d)[x][j].endpoint);
      }
    }
  }

  lemma {:induction false} EndKeepsInv(nm: Naming, d: Disk, v: Invalidation, name: string, i: nat)
    requires Inv(nm, d) && Possible(nm, d, Ended(v, name, i))
    ensures Inv(nm, After(nm, d, Ended(v, name, i)))
  {
    EndedIsValid(nm, Loaded(d), v, name, i);
    EndedIsOneActive(nm, Loaded(d), v, name, i);
    EndedIsBacked(nm, d, v, name, i);
  }

  /** A record may only stop being active; nothing else about it changes. */
  predicate Continues(r: Record, s: Record) {
    && r.endpoint == s.endpoint
    && (s == r || (r.status == Verified && s.status in {Superseded, Invalidated}))
  }

  ghost predicate ContinueAll(a: seq<Record>, b: seq<Record>) {
    |a| <= |b| && forall i | 0 <= i < |a| :: Continues(a[i], b[i])
  }

  /** No record is removed or moved, and each one continues. */
  ghost predicate Kept(b: Brokers, c: Brokers) {
    forall name | name in b :: name in c && ContinueAll(b[name], c[name])
  }

  lemma {:induction false} SupersedeContinues(nm: Naming, records: seq<Record>, p: Promotion)
    ensures ContinueAll(records, SupersedeAll(nm, records, p, |records|) + [NewRecord(nm, p)])
  {
  }

  lemma {:induction false} EndContinues(records: seq<Record>, v: Invalidation, i: nat)
    requires i < |records| && records[i].status == Verified
    ensures ContinueAll(records, records[i := Registry.Ended(records[i], v)])
  {
  }

  lemma {:induction false} PublishOnlyEnds(nm: Naming, b: Brokers, p: Promotion, name: string)
    ensures Kept(b, PublishedAt(nm, b, p, name))
  {
    SupersedeContinues(nm, RecordsAt(b, name), p);
  }

  lemma {:induction false} ChangeOnlyEnds(nm: Naming, d: Disk, c: Change)
    requires Possible(nm, d, c)
    ensures Kept(Loaded(d), Loaded(After(nm, d, c)))
  {
    if c.Ended? {
      EndContinues(Loaded(d)[c.name], c.v, c.i);
    } else {
      PublishOnlyEnds(nm, Loaded(d), c.p, c.name);
    }
  }

  lemma {:induction false} ChangeKeeps(nm: Naming, d: Disk, c: Change)
    requires Sane(nm) && Inv(nm, d) && Possible(nm, d, c)
    ensures Inv(nm, After(nm, d, c)) && Kept(Loaded(d), Loaded(After(nm, d, c)))
  {
    ChangeOnlyEnds(nm, d, c);
    match c
    case Published(p, name) =>
      PublishedIsNotRefused(nm, d, p, name);
      PublishKeepsInv(nm, d, p, name);
    case Interrupted(p, name, k) => DuringKeepsInv(nm, d, p, name, k);
    case Ended(v, name, i) => EndKeepsInv(nm, d, v, name, i);
  }

  lemma {:induction false} KeptIsTransitive(a: Brokers, b: Brokers, c: Brokers)
    requires Kept(a, b) && Kept(b, c)
    ensures Kept(a, c)
  {
    forall name | name in a ensures ContinueAll(a[name], c[name]) {
      forall i | 0 <= i < |a[name]| ensures Continues(a[name][i], c[name][i]) {
        assert Continues(a[name][i], b[name][i]) && Continues(b[name][i], c[name][i]);
      }
    }
  }

  /** Only a record that was ended for want of provenance lacks its server or process; and exactly the records that
      are not superseded or invalid have no ending. */
  ghost predicate RecordsComplete(b: Brokers) {
    forall name, i | name in b && 0 <= i < |b[name]| ::
      var r := b[name][i];
      && (r.endpoint.server.None? || r.endpoint.processCreation.None? ==>
            r.status == Invalidated && r.ending.Some?
            && r.ending.value.reason in {LegacyProvenanceInsufficient, LegacyStatusMigration})
      && (r.ending.Some? <==> r.status in {Superseded, Invalidated})
      && (r.status == Superseded <==> r.ending.Some? && r.ending.value.reason == SupersededByNewVerification)
  }

  lemma {:induction false} ValidIsComplete(nm: Naming, b: Brokers)
    requires Valid(nm, b)
    ensures RecordsComplete(b)
  {
    forall name, i | name in b && 0 <= i < |b[name]|
      ensures var r := b[name][i];
              && (r.endpoint.server.None? || r.endpoint.processCreation.None? ==>
                    r.status == Invalidated && r.ending.Some?
                    && r.ending.value.reason in {LegacyProvenanceInsufficient, LegacyStatusMigration})
              && (r.ending.Some? <==> r.status in {Superseded, Invalidated})
              && (r.status == Superseded <==> r.ending.Some? && r.ending.value.reason == SupersededByNewVerification)
    {
      assert WellFormed(nm, b[name][i]);
    }
  }

  /** Over any run from a valid registry with stripped names, with publications that may die between any two
      writes: at most one active record per broker and case-folded server, no record ever removed, statuses that
      only move from VERIFIED to SUPERSEDED or INVALID, and every record complete. */
  lemma {:induction false} RegistryOverRuns(nm: Naming, d: Disk, changes: seq<Change>)
    requires Sane(nm) && Inv(nm, d) && IsHistory(nm, d, changes)
    ensures Inv(nm, AfterAll(nm, d, changes)) && Kept(Loaded(d), Loaded(AfterAll(nm, d, changes)))
    ensures RecordsComplete(Loaded(AfterAll(nm, d, changes)))
    decreases |changes|
  {
    if changes != [] {
      var e := After(nm, d, changes[0]);
      ChangeKeeps(nm, d, changes[0]);
      RegistryOverRuns(nm, e, changes[1..]);
      KeptIsTransitive(Loaded(d), Loaded(e), Loaded(AfterAll(nm, d, changes)));
    } else {
      ValidIsComplete(nm, Loaded(d));
    }
  }

  // ---------------------------------------------------------------- what resolving returns

  ghost predicate ActiveAt(d: Disk, name: string, i: nat, e: Endpoint) {
    && name in Loaded(d) && i < |Loaded(d)[name]|
    && Loaded(d)[name][i].status == Verified && Loaded(d)[name][i].endpoint == e
  }

  /** The query asks for this broker and this server. */
  predicate Asks(nm: Naming, q: Query, name: string, server: string) {
    q.broker.Some? && nm.key(nm.strip(q.broker.value)) == nm.key(name) && nm.fold(nm.strip(q.server)) == nm.fold(server)
  }

  /** Resolving a labelled query returns exactly the active record it asks for, if there is one. */
  lemma {:induction false} ResolvesIffActive(nm: Naming, d: Disk, q: Query, name: string, e: Endpoint)
    requires Inv(nm, d) && d.registry.Some? && QueryValid(nm, q) && q.broker.Some?
    ensures Resolve(nm, d, q) == Some(Found(name, e)) <==>
              exists i: nat :: ActiveAt(d, name, i, e) && e.server.Some? && Asks(nm, q, name, e.server.value)
  {
    var b := Loaded(d);
    assert Readable(nm, b);
    if i: nat :| ActiveAt(d, name, i, e) && e.server.Some? && Asks(nm, q, name, e.server.value) {
      assert Stripped(nm, b[name][i]);
      forall x, j: nat | x in b && j < |b[x]| && LabelFits(nm, x, q) && Serves(nm, b[x][j], q.server)
        ensures x == name && j == i
      {
        assert Stripped(nm, b[x][j]);
        assert x == name;
        assert SameServer(nm, b[name][i], b[name][j]);
      }
      ResolvesTo(nm, d, q, name, i);
      assert Intact(d, e);
    }
    if Resolve(nm, d, q) == Some(Found(name, e)) {
      var place := TheAnswer(nm, b, q);
      assert Stripped(nm, b[place.0][place.1]);
      assert ActiveAt(d, name, place.1, e);
    }
  }

  /** The change ends the record at (name, i): a new verification of its server, or its invalidation. */
  predicate Displaces(nm: Naming, c: Change, name: string, i: nat, server: string) {
    match c
    case Published(p, n) => n == name && nm.fold(server) == nm.fold(nm.strip(p.server))
    case Interrupted(p, n, k) => k == 4 && n == name && nm.fold(server) == nm.fold(nm.strip(p.server))
    case Ended(_, n, j) => n == name && j == i
  }

  lemma {:induction false} PublishKeepsActive(
    nm: Naming, b: Brokers, p: Promotion, name: string, x: string, i: nat)
    requires x in b && i < |b[x]| && b[x][i].status == Verified && b[x][i].endpoint.server.Some?
    requires !(name == x && nm.fold(b[x][i].endpoint.server.value) == nm.fold(nm.strip(p.server)))
    ensures var c := PublishedAt(nm, b, p, name); x in c && i < |c[x]| && c[x][i] == b[x][i]
  {
  }

  lemma {:induction false} StaysActive(nm: Naming, d: Disk, c: Change, name: string, i: nat, e: Endpoint)
    requires Possible(nm, d, c) && ActiveAt(d, name, i, e) && e.server.Some?
    requires !Displaces(nm, c, name, i, e.server.value)
    ensures ActiveAt(After(nm, d, c), name, i, e)
  {
    match c
    case Published(p, n) => PublishKeepsActive(nm, Loaded(d), p, n, name, i);
    case Interrupted(p, n, k) => if k == 4 { PublishKeepsActive(nm, Loaded(d), p, n, name, i); }
    case Ended(_, _, _) =>
  }

  lemma {:induction false} ActiveUntilDisplaced(
    nm: Naming, d: Disk, changes: seq<Change>, name: string, i: nat, e: Endpoint)
    requires Sane(nm) && Inv(nm, d) && IsHistory(nm, d, changes) && ActiveAt(d, name, i, e) && e.server.Some?
    requires forall c | c in changes :: !Displaces(nm, c, name, i, e.server.value)
    ensures ActiveAt(AfterAll(nm, d, changes), name, i, e)
    decreases |changes|
  {
    if changes != [] {
      assert changes[0] in changes && forall c | c in changes[1..] :: c in changes;
      ChangeKeeps(nm, d, changes[0]);
      StaysActive(nm, d, changes[0], name, i, e);
      ActiveUntilDisplaced(nm, After(nm, d, changes[0]), changes[1..], name, i, e);
    }
  }

  lemma {:induction false} AfterAllKeepsRegistry(nm: Naming, d: Disk, changes: seq<Change>)
    requires IsHistory(nm, d, changes) && d.registry.Some?
    ensures AfterAll(nm, d, changes).registry.Some?
    decreases |changes|
  {
    if changes != [] { AfterAllKeepsRegistry(nm, After(nm, d, changes[0]), changes[1..]); }
  }

  /** The endpoint is what the promotion's verification artifact says, field by field, under that artifact's
      path and digest. */
  ghost predicate IsAsVerified(a: Endpoint, p: Promotion) {
    p.evidence.Some? &&
    var e := p.evidence.value.content;
    && a.host == e.host && a.port == e.port && a.server == Some(e.server)
    && a.session == e.session && a.pid == e.pid && a.processCreation == Some(e.processCreation)
    && a.observedAt == e.verifiedAt && a.discovery == ManagedInvestorLogin
    && a.sha == p.evidence.value.digest && a.artifact == "artifacts/" + e.session + "/endpoint-verification.json"
    && e.loginVerified && e.readOnlyVerified && e.kind in {BrokerWizard, MtapiSearch}
    && p.provenance.Some? && p.provenance.value.digest == e.provenanceSha
  }

  lemma {:induction false} NewRecordIsAsVerified(nm: Naming, p: Promotion)
    requires PromotionValid(nm, p)
    ensures IsAsVerified(NewRecord(nm, p).endpoint, p)
  {
  }

  /** After a publication, whatever else is published or invalidated, resolving that broker and server
      returns what the verification artifact of the promotion says, until it is replaced or invalidated. */
  lemma {:induction false} LastPublishedUntilDisplaced(
    nm: Naming, d: Disk, p: Promotion, name: string, changes: seq<Change>, q: Query)
    requires Sane(nm) && Inv(nm, d) && Possible(nm, d, Published(p, name))
    requires IsHistory(nm, After(nm, d, Published(p, name)), changes)
    requires forall c | c in changes :: !Displaces(nm, c, name, |RecordsAt(Loaded(d), name)|, nm.strip(p.server))
    requires QueryValid(nm, q) && Asks(nm, q, name, nm.strip(p.server))
    ensures var found := Resolve(nm, AfterAll(nm, After(nm, d, Published(p, name)), changes), q);
            found.Some? && found.value.name == name && IsAsVerified(found.value.endpoint, p)
  {
    var e := After(nm, d, Published(p, name));
    NewRecordIsAsVerified(nm, p);
    ChangeKeeps(nm, d, Published(p, name));
    ActiveUntilDisplaced(nm, e, changes, name, |RecordsAt(Loaded(d), name)|, NewRecord(nm, p).endpoint);
    RegistryOverRuns(nm, e, changes);
    AfterAllKeepsRegistry(nm, e, changes);
    ResolvesIffActive(nm, AfterAll(nm, e, changes), q, name, NewRecord(nm, p).endpoint);
  }

  /** An active record of the label that the resolver takes for the promoted server and the publisher
      does not: names compare differently once stripped. */
  predicate Padded(nm: Naming, r: Record, p: Promotion) {
    Serves(nm, r, nm.strip(p.server)) && !Replaced(nm, r, nm.strip(p.server))
  }

  lemma {:induction false} UnpaddedResolves(nm: Naming, d: Disk, p: Promotion, name: string)
    requires Sane(nm) && MayPublish(nm, d, p) && Valid(nm, PublishedAt(nm, Loaded(d), p, name))
    requires nm.strip(name) == name
    requires forall r | r in RecordsAt(Loaded(d), name) :: !Padded(nm, r, p)
    ensures Resolve(nm, WrittenDisk(nm, d, p, name), Query(Some(name), nm.strip(p.server)))
         == Some(Found(name, NewRecord(nm, p).endpoint))
  {
    var e, q := WrittenDisk(nm, d, p, name), Query(Some(name), nm.strip(p.server));
    var c, records := Loaded(e), RecordsAt(Loaded(d), name);
    PathsDiffer(p.session);
    assert c[name][|records|] == NewRecord(nm, p);
    forall i | 0 <= i < |records| ensures !Serves(nm, c[name][i], q.server) {
      assert records[i] in records && c[name][i] == Supersede(nm, records[i], p);
    }
    ResolvesTo(nm, e, q, name, |records|);
  }

  lemma {:induction false} PaddedDoesNotResolve(nm: Naming, d: Disk, p: Promotion, name: string, i: nat)
    requires Sane(nm) && nm.strip(name) == name && i < |RecordsAt(Loaded(d), name)|
    requires Padded(nm, RecordsAt(Loaded(d), name)[i], p)
    ensures Resolve(nm, WrittenDisk(nm, d, p, name), Query(Some(name), nm.strip(p.server))) == None
  {
    var q, c := Query(Some(name), nm.strip(p.server)), PublishedAt(nm, Loaded(d), p, name);
    var n := |RecordsAt(Loaded(d), name)|;
    assert c[name][i] == RecordsAt(Loaded(d), name)[i] && c[name][n] == NewRecord(nm, p);
    assert (name, i) in Answers(nm, c, q) && (name, n) in Answers(nm, c, q);
    SingletonIs(Answers(nm, c, q), (name, n));
  }

  /** Nobody can read a registry that holds a refused label: no query is answered, and no publication or
      invalidation loads it. */
  lemma {:induction false} RefusedLabelBlocksRegistry(nm: Naming, d: Disk, name: string, q: Query)
    requires name in Loaded(d) && Refused(nm, name)
    ensures Resolve(nm, d, q) == None && !Valid(nm, Loaded(d))
  {
  }

  /** Exactly when a publication that passes every check of the publisher resolves, and so is not undone: the
      label is one that readers accept, and the label holds no active record whose stored server name matches
      only after stripping. The publisher does not check the first, and compares names as stored. */
  lemma {:induction false} PublicationResolvesIff(nm: Naming, d: Disk, p: Promotion, name: string)
    requires Sane(nm) && Valid(nm, Loaded(d)) && MayPublish(nm, d, p) && IsCanonical(nm, Loaded(d), p.broker, name)
    ensures var found := Resolve(nm, WrittenDisk(nm, d, p, name), Query(Some(name), nm.strip(p.server)));
            && (found.Some? <==>
                  !Refused(nm, name) && forall r | r in RecordsAt(Loaded(d), name) :: !Padded(nm, r, p))
            && (found.Some? ==> found.value.name == name && IsAsVerified(found.value.endpoint, p))
  {
    var records, e := RecordsAt(Loaded(d), name), WrittenDisk(nm, d, p, name);
    CanonicalIsText(nm, d, p, name);
    if Refused(nm, name) {
      RefusedLabelBlocksRegistry(nm, e, name, Query(Some(name), nm.strip(p.server)));
    } else if forall r | r in records :: !Padded(nm, r, p) {
      PublishedIsValid(nm, d, p, name);
      UnpaddedResolves(nm, d, p, name);
      NewRecordIsAsVerified(nm, p);
    } else {
      var r :| r in records && Padded(nm, r, p);
      var i :| 0 <= i < |records| && records[i] == r;
      PaddedDoesNotResolve(nm, d, p, name, i);
    }
  }

  // ---------------------------------------------------------------- readers of an undone publication

  /** Case folding leaves blanks at either end where they are. */
  ghost predicate FoldKeepsPadding(nm: Naming) {
    forall s, t :: nm.fold(s) == nm.fold(nm.strip(t)) ==> nm.strip(s) == s
  }

  /** The query may ask for the promoted server under the promoted label. */
  predicate Touches(nm: Naming, q: Query, name: string, server: string) {
    LabelFits(nm, name, q) && nm.fold(nm.strip(q.server)) == nm.fold(nm.strip(server))
  }

  lemma {:induction false} SupersededDidNotServe(
    nm: Naming, r: Record, p: Promotion, name: string, q: Query)
    requires Sane(nm) && FoldKeepsPadding(nm) && LabelFits(nm, name, q) && !Touches(nm, q, name, p.server)
    ensures Serves(nm, Supersede(nm, r, p), q.server) <==> Serves(nm, r, q.server)
  {
  }

  lemma {:induction false} AnswersStay(nm: Naming, b: Brokers, p: Promotion, name: string, q: Query)
    requires Sane(nm) && FoldKeepsPadding(nm) && !Touches(nm, q, name, p.server)
    ensures Answers(nm, PublishedAt(nm, b, p, name), q) == Answers(nm, b, q)
  {
    var c, records := PublishedAt(nm, b, p, name), RecordsAt(b, name);
    forall x, i: nat
      ensures (x, i) in Answers(nm, c, q) <==> (x, i) in Answers(nm, b, q)
    {
      if x == name && i < |records| && LabelFits(nm, name, q) {
        assert c[x][i] == Supersede(nm, records[i], p);
        SupersededDidNotServe(nm, records[i], p, name, q);
      } else if x == name && i == |records| {
        assert c[x][i] == NewRecord(nm, p);
      }
    }
  }

  lemma {:induction false} LabelsStay(nm: Naming, b: Brokers, p: Promotion, name: string, q: Query)
    requires q.broker.Some? && IsCanonical(nm, b, p.broker, name) && Sane(nm)
    ensures name in b || !LabelFits(nm, name, q) ==>
              LabelsFor(nm, PublishedAt(nm, b, p, name), q) == LabelsFor(nm, b, q)
    ensures name !in b && LabelFits(nm, name, q) ==> LabelsFor(nm, b, q) == {}
  {
    if name !in b {
      assert KnownLabels(nm, b, p.broker) == {};
      forall x | x in b ensures nm.key(x) != nm.key(name) { assert x !in KnownLabels(nm, b, p.broker); }
    }
  }

  lemma {:induction false} AnswersHaveLabels(nm: Naming, b: Brokers, q: Query)
    ensures forall place | place in Answers(nm, b, q) :: place.0 in LabelsFor(nm, b, q)
  {
  }

  lemma {:induction false} SameAnswer(nm: Naming, d: Disk, p: Promotion, name: string, q: Query)
    requires Anchored(d) && ArtifactsAgree(d, p)
    requires var b, c := Loaded(d), PublishedAt(nm, Loaded(d), p, name);
             Answers(nm, c, q) == Answers(nm, b, q) && |Answers(nm, b, q)| == 1
    ensures var b, c := Loaded(d), PublishedAt(nm, Loaded(d), p, name);
            var x, y := TheAnswer(nm, b, q), TheAnswer(nm, c, q);
            var e, w := b[x.0][x.1].endpoint, WrittenDisk(nm, d, p, name);
            && x == y && c[y.0][y.1].endpoint == e
            && Digest(w.manifest, e.artifact) == Digest(d.manifest, e.artifact)
            && Content(w.artifacts, e.artifact) == Content(d.artifacts, e.artifact)
  {
    var b, c := Loaded(d), PublishedAt(nm, Loaded(d), p, name);
    OnlyMember(Answers(nm, b, q));
    var x := TheAnswer(nm, b, q);
    assert b[x.0][x.1].status == Verified;
    ProvenanceStays(nm, d, p, name, 4, b[x.0][x.1].endpoint.artifact);
  }

  /** Two disks whose registries have the same answers, with the same provenance, resolve alike. */
  lemma {:induction false} SameResolve(nm: Naming, d: Disk, e: Disk, q: Query)
    requires d.registry.Some? && e.registry.Some? && Readable(nm, Loaded(d)) && Readable(nm, Loaded(e))
    requires Answers(nm, Loaded(e), q) == Answers(nm, Loaded(d), q)
    requires q.broker.Some? ==>
               LabelsFor(nm, Loaded(e), q) == LabelsFor(nm, Loaded(d), q) || Answers(nm, Loaded(d), q) == {}
    requires |Answers(nm, Loaded(d), q)| == 1 ==>
               var x, y := TheAnswer(nm, Loaded(d), q), TheAnswer(nm, Loaded(e), q);
               var a := Loaded(d)[x.0][x.1].endpoint;
               && x == y && Loaded(e)[y.0][y.1].endpoint == a
               && Digest(e.manifest, a.artifact) == Digest(d.manifest, a.artifact)
               && Content(e.artifacts, a.artifact) == Content(d.artifacts, a.artifact)
    ensures Resolve(nm, e, q) == Resolve(nm, d, q)
  {
  }

  lemma {:induction false} UntouchedStays(nm: Naming, d: Disk, p: Promotion, name: string, q: Query)
    requires Sane(nm) && FoldKeepsPadding(nm) && d.registry.Some? && Valid(nm, Loaded(d)) && Anchored(d)
    requires MayPublish(nm, d, p) && IsCanonical(nm, Loaded(d), p.broker, name) && !Refused(nm, name)
    requires !Touches(nm, q, name, p.server)
    ensures Resolve(nm, WrittenDisk(nm, d, p, name), q) == Resolve(nm, d, q)
  {
    var b, c := Loaded(d), PublishedAt(nm, Loaded(d), p, name);
    assert Readable(nm, c) by {
      CanonicalIsText(nm, d, p, name);
      PublishedIsValid(nm, d, p, name);
    }
    AnswersStay(nm, b, p, name, q);
    AnswersHaveLabels(nm, b, q);
    if q.broker.Some? { LabelsStay(nm, b, p, name, q); }
    if |Answers(nm, b, q)| == 1 { SameAnswer(nm, d, p, name, q); }
    SameResolve(nm, d, WrittenDisk(nm, d, p, name), q);
  }

  lemma {:induction false} TouchedIsAmbiguous(nm: Naming, d: Disk, p: Promotion, name: string, i: nat, q: Query)
    requires Sane(nm) && i < |RecordsAt(Loaded(d), name)| && Padded(nm, RecordsAt(Loaded(d), name)[i], p)
    requires Touches(nm, q, name, p.server)
    ensures Resolve(nm, WrittenDisk(nm, d, p, name), q) == None
  {
    var c, n := PublishedAt(nm, Loaded(d), p, name), |RecordsAt(Loaded(d), name)|;
    assert c[name][i] == RecordsAt(Loaded(d), name)[i] && c[name][n] == NewRecord(nm, p);
    assert (name, i) in Answers(nm, c, q) && (name, n) in Answers(nm, c, q);
    SingletonIs(Answers(nm, c, q), (name, n));
  }

  lemma {:induction false} PaddedReaders(nm: Naming, d: Disk, p: Promotion, name: string, q: Query)
    requires Sane(nm) && FoldKeepsPadding(nm) && Valid(nm, Loaded(d)) && Anchored(d)
    requires MayPublish(nm, d, p) && IsCanonical(nm, Loaded(d), p.broker, name) && !Refused(nm, name)
    requires exists r :: r in RecordsAt(Loaded(d), name) && Padded(nm, r, p)
    ensures Resolve(nm, WrittenDisk(nm, d, p, name), q) ==
              if Touches(nm, q, name, p.server) then None else Resolve(nm, d, q)
  {
    var records := RecordsAt(Loaded(d), name);
    var r :| r in records && Padded(nm, r, p);
    var i :| 0 <= i < |records| && records[i] == r;
    if Touches(nm, q, name, p.server) {
      TouchedIsAmbiguous(nm, d, p, name, i, q);
    } else {
      UntouchedStays(nm, d, p, name, q);
    }
  }

  /** A publication that is undone is not atomic to readers. Between the registry write and its undoing the
      answer disappears for exactly these queries: all of them if the label is refused, else those that may ask
      for the promoted server under its label. Every other query, and every query at every other point
      (`ReadersSeeBefore`), gets the answer from before, which is also the answer afterwards. */
  lemma {:induction false} UndoneReadersLoseExactly(nm: Naming, d: Disk, p: Promotion, name: string, q: Query)
    requires Sane(nm) && FoldKeepsPadding(nm) && Valid(nm, Loaded(d)) && Anchored(d)
    requires MayPublish(nm, d, p) && IsCanonical(nm, Loaded(d), p.broker, name)
    requires Resolve(nm, WrittenDisk(nm, d, p, name), Query(Some(name), nm.strip(p.server))) == None
    ensures Resolve(nm, WrittenDisk(nm, d, p, name), q) ==
              if Refused(nm, name) || Touches(nm, q, name, p.server) then None else Resolve(nm, d, q)
  {
    PublicationResolvesIff(nm, d, p, name);
    if Refused(nm, name) {
      RefusedLabelBlocksRegistry(nm, WrittenDisk(nm, d, p, name), name, q);
    } else {
      PaddedReaders(nm, d, p, name, q);
    }
  }
}
