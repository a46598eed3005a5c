/** The verified-endpoint registry: record states, publication, invalidation, and the independent
    resolver (windows_agent/broker_endpoint_registry.py, windows_agent/broker_endpoint_resolver.py). */
module Registry {
  import opened Prelude

  /** Text handling of the host language: stripping, case folding of server names, the key that identifies
      a broker label, and the words that mark a field as secret-bearing. Everything below holds for any such
      functions. */
  datatype Naming = Naming(
    strip: string -> string,
    fold: string -> string,
    key: string -> string,
    secret: string -> bool)

  datatype Status = Verified | Invalidated | Superseded | Candidate | ContentNetwork

  datatype Reason =
    | ConnectionFailed
    | ConnectionRefused
    | ProtocolIncompatible
    | ServerUnrecognized
    | IdentityMismatch
    | SupersededByNewVerification
    | LegacyProvenanceInsufficient
    | LegacyStatusMigration

  const ENDPOINT_FAILURE_REASONS: set<Reason> :=
    {ConnectionFailed, ConnectionRefused, ProtocolIncompatible, ServerUnrecognized, IdentityMismatch}

  datatype Method = LoginDialog | NoninteractiveConfig | ManagedInvestorLogin | OtherMethod

  const VERIFIED_METHODS: set<Method> := {LoginDialog, NoninteractiveConfig, ManagedInvestorLogin}

  /** How a record stopped being active. */
  datatype Ending = Ending(at: int, reason: Reason, event: string)

  /** What a record is about; it never changes. */
  datatype Endpoint = Endpoint(
    server: Option<string>,
    host: string,
    port: int,
    observedAt: int,
    discovery: Method,
    pid: int,
    processCreation: Option<int>,
    session: string,
    artifact: string,
    sha: string)

  datatype Record = Record(endpoint: Endpoint, status: Status, ending: Option<Ending>)

  predicate ValidText(nm: Naming, s: string) {
    nm.strip(s) != "" && |s| <= 128 && '\r' !in s && '\n' !in s
  }

  /** A broker label that no reader of a registry file accepts: it has no letter or digit, or, being a key of
      the file, it reads as a secret-bearing field. The publisher does not ask this of a promotion. */
  predicate Refused(nm: Naming, name: string) { nm.key(name) == "" || nm.secret(name) }

  predicate LegacyInvalid(r: Record) {
    && r.status == Invalidated && r.ending.Some?
    && r.ending.value.reason in {LegacyProvenanceInsufficient, LegacyStatusMigration}
  }

  /** A record that both the publisher and the resolver accept. */
  predicate WellFormed(nm: Naming, r: Record) {
    var e := r.endpoint;
    && 1 <= e.port <= 65535 && e.observedAt > 0 && e.pid > 0 && e.artifact != ""
    && (r.status == Verified ==> e.discovery in VERIFIED_METHODS)
    && (if e.server.Some? then ValidText(nm, e.server.value) else LegacyInvalid(r))
    && (if e.processCreation.Some? then e.processCreation.value > 0 else LegacyInvalid(r))
    && (if r.status in {Invalidated, Superseded}
        then r.ending.Some? && r.ending.value.at > 0
             && (r.status == Superseded <==> r.ending.value.reason == SupersededByNewVerification)
        else r.ending.None?)
  }

  type Brokers = map<string, seq<Record>>

  /** The files: the registry and the manifest may be missing; artifacts are known by their digest. */
  datatype Disk = Disk(registry: Option<Brokers>, manifest: Option<map<string, string>>, artifacts: map<string, string>)

  /** What loading a registry for publication insists on, for labels that are already stripped. */
  predicate Valid(nm: Naming, b: Brokers) {
    && (forall name | name in b :: ValidText(nm, name) && nm.strip(name) == name && !Refused(nm, name))
    && (forall x, y | x in b && y in b && nm.key(x) == nm.key(y) :: x == y)
    && (forall name, i | name in b && 0 <= i < |b[name]| :: WellFormed(nm, b[name][i]))
  }

  function Loaded(d: Disk): Brokers { if d.registry.Some? then d.registry.value else map[] }

  // ---------------------------------------------------------------- resolving

  datatype Query = Query(broker: Option<string>, server: string)

  datatype Found = Found(name: string, endpoint: Endpoint)

  /** The record is the active one for `server`, as the resolver compares names. */
  predicate Serves(nm: Naming, r: Record, server: string) {
    && r.status == Verified && r.endpoint.server.Some?
    && nm.fold(nm.strip(r.endpoint.server.value)) == nm.fold(nm.strip(server))
  }

  predicate LabelFits(nm: Naming, name: string, q: Query) {
    q.broker.Some? ==> nm.key(name) == nm.key(nm.strip(q.broker.value))
  }

  /** The places of all active records that answer the query. */
  function Answers(nm: Naming, b: Brokers, q: Query): set<(string, nat)> {
    set name, i: nat |
      name in b && i < |b[name]| && LabelFits(nm, name, q) && Serves(nm, b[name][i], q.server) :: (name, i)
  }

  predicate ValidName(s: string) { s != "" && |s| <= 128 && '\r' !in s && '\n' !in s }

  predicate QueryValid(nm: Naming, q: Query) {
    && ValidName(nm.strip(q.server))
    && (q.broker.Some? ==> ValidName(nm.strip(q.broker.value)) && nm.key(nm.strip(q.broker.value)) != "")
  }

  predicate Readable(nm: Naming, b: Brokers) {
    && (forall name | name in b :: ValidText(nm, name) && !Refused(nm, name))
    && (forall name, i | name in b && 0 <= i < |b[name]| :: WellFormed(nm, b[name][i]))
  }

  /** The labels that the query's broker may mean. */
  function LabelsFor(nm: Naming, b: Brokers, q: Query): set<string> {
    set name | name in b && LabelFits(nm, name, q)
  }

  function Digest(manifest: Option<map<string, string>>, path: string): Option<string> {
    if manifest.Some? && path in manifest.value then Some(manifest.value[path]) else None
  }

  function Content(artifacts: map<string, string>, path: string): Option<string> {
    if path in artifacts then Some(artifacts[path]) else None
  }

  function TheAnswer(nm: Naming, b: Brokers, q: Query): (place: (string, nat))
    requires |Answers(nm, b, q)| == 1
    ensures place in Answers(nm, b, q)
  {
    OnlyMember(Answers(nm, b, q));
    var place :| place in Answers(nm, b, q);
    place
  }

  /** The one active record that answers the query, with its manifest entry and artifact intact. */
  function Resolve(nm: Naming, d: Disk, q: Query): (found: Option<Found>)
    ensures found.Some? ==>
              && Digest(d.manifest, found.value.endpoint.artifact) == Some(found.value.endpoint.sha)
              && Content(d.artifacts, found.value.endpoint.artifact) == Some(found.value.endpoint.sha)
  {
    if d.registry.None? || !QueryValid(nm, q) || !Readable(nm, d.registry.value) then None
    else
      var b := d.registry.value;
      if q.broker.Some? && |LabelsFor(nm, b, q)| != 1 then None
      else if |Answers(nm, b, q)| != 1 then None
      else
        var place := TheAnswer(nm, b, q);
        var e := b[place.0][place.1].endpoint;
        if Digest(d.manifest, e.artifact) == Some(e.sha) && Content(d.artifacts, e.artifact) == Some(e.sha)
        then Some(Found(place.0, e)) else None
  }

  lemma {:induction false} SingletonIs<T>(s: set<T>, x: T)
    requires x in s
    ensures |s| == 1 <==> forall y | y in s :: y == x
  {
    var rest := s - {x};
    assert s == rest + {x};
    assert rest == {} <==> forall y | y in s :: y == x;
  }

  lemma {:induction false} OnlyMember<T>(s: set<T>)
    requires |s| == 1
    ensures forall x, y | x in s && y in s :: x == y
  {
    forall x | x in s ensures forall y | y in s :: x == y { SingletonIs(s, x); }
  }

  /** The query is answered by the record at (label, i) exactly when it is the only active one and its
      provenance is intact. */
  lemma {:induction false} ResolvesTo(nm: Naming, d: Disk, q: Query, name: string, i: nat)
    requires d.registry.Some? && QueryValid(nm, q) && Readable(nm, d.registry.value)
    requires name in d.registry.value && i < |d.registry.value[name]| && LabelFits(nm, name, q)
    requires Serves(nm, d.registry.value[name][i], q.server)
    requires q.broker.Some? ==> forall x | x in d.registry.value && LabelFits(nm, x, q) :: x == name
    requires forall x, j: nat | x in d.registry.value && j < |d.registry.value[x]| && LabelFits(nm, x, q)
                         && Serves(nm, d.registry.value[x][j], q.server) :: x == name && j == i
    ensures var e := d.registry.value[name][i].endpoint;
            Resolve(nm, d, q) == if Digest(d.manifest, e.artifact) == Some(e.sha)
                                    && Content(d.artifacts, e.artifact) == Some(e.sha)
                                 then Some(Found(name, e)) else None
  {
    var b := d.registry.value;
    assert (name, i) in Answers(nm, b, q);
    SingletonIs(Answers(nm, b, q), (name, i));
    if q.broker.Some? { SingletonIs(LabelsFor(nm, b, q), name); }
  }

  /** What a reader may rely on: the answer is a verified record of the registry for that server, under a label
      that fits, with a usable endpoint and evidence that is still there; and no other verified record fits. */
  lemma {:induction false} AnswerIsSoleVerified(nm: Naming, d: Disk, q: Query, name: string, e: Endpoint)
    returns (i: nat)
    requires Resolve(nm, d, q) == Some(Found(name, e))
    ensures 0 < |nm.strip(q.server)| <= 128 && '\r' !in nm.strip(q.server) && '\n' !in nm.strip(q.server)
    ensures d.registry.Some? && name in d.registry.value && i < |d.registry.value[name]|
    ensures d.registry.value[name][i] == Record(e, Verified, None)
    ensures e.server.Some? && nm.fold(nm.strip(e.server.value)) == nm.fold(nm.strip(q.server))
    ensures q.broker.Some? ==> nm.key(name) == nm.key(nm.strip(q.broker.value))
    ensures 0 < |nm.strip(e.server.value)| && |e.server.value| <= 128 && 0 < |nm.strip(name)| && |name| <= 128
    ensures 1 <= e.port <= 65535 && e.observedAt > 0 && e.pid > 0 && e.processCreation.Some?
            && e.processCreation.value > 0 && e.discovery in {LoginDialog, NoninteractiveConfig, ManagedInvestorLogin}
    ensures d.manifest.Some? && e.artifact in d.manifest.value && d.manifest.value[e.artifact] == e.sha
    ensures e.artifact in d.artifacts && d.artifacts[e.artifact] == e.sha
    ensures forall x, j: nat | x in d.registry.value && j < |d.registry.value[x]|
                               && d.registry.value[x][j].status == Verified
                               && d.registry.value[x][j].endpoint.server.Some?
                               && nm.fold(nm.strip(d.registry.value[x][j].endpoint.server.value))
                                  == nm.fold(nm.strip(q.server))
                               && (q.broker.Some? ==> nm.key(x) == nm.key(nm.strip(q.broker.value))) ::
              x == name && j == i
  {
    var b := d.registry.value;
    var place := TheAnswer(nm, b, q);
    i := place.1;
    OnlyMember(Answers(nm, b, q));
    assert WellFormed(nm, b[name][i]);
    forall x, j: nat | x in b && j < |b[x]| && LabelFits(nm, x, q) && Serves(nm, b[x][j], q.server)
      ensures x == name && j == i
    {
      assert (x, j) in Answers(nm, b, q);
    }
  }

  // ---------------------------------------------------------------- publishing

  datatype ProvenanceKind = BrokerWizard | MtapiSearch | OtherKind

  /** What the verification artifact says. */
  datatype Evidence = Evidence(
    session: string,
    server: string,
    broker: string,
    host: string,
    port: int,
    pid: int,
    processCreation: int,
    verifiedAt: int,
    loginVerified: bool,
    readOnlyVerified: bool,
    kind: ProvenanceKind,
    provenanceSha: string)

  /** A file with its digest. */
  datatype Sourced<T> = Sourced(digest: string, content: T)

  /** A promotion, with the two evidence files it names; a file that is missing or unreadable is absent. */
  datatype Promotion = Promotion(
    broker: string,
    server: string,
    session: string,
    sha: string,
    provenanceSha: string,
    host: string,
    port: int,
    pid: int,
    processCreation: int,
    observedAt: int,
    evidence: Option<Sourced<Evidence>>,
    provenance: Option<Sourced<string>>)

  /** The evidence files are the ones the promotion was made from, and the artifact says of the endpoint,
      field by field, what the promotion says. */
  predicate EvidenceBinds(nm: Naming, p: Promotion) {
    && p.evidence.Some? && p.evidence.value.digest == p.sha
    && p.provenance.Some? && p.provenance.value.digest == p.provenanceSha
    && var e := p.evidence.value.content;
       && e.kind in {BrokerWizard, MtapiSearch}
       && e == Evidence(p.session, nm.strip(p.server), nm.strip(p.broker), p.host, p.port, p.pid, p.processCreation,
                        p.observedAt, true, true, e.kind, p.provenanceSha)
  }

  function ArtifactPath(session: string): string { "artifacts/" + session + "/endpoint-verification.json" }

  function ProvenancePath(session: string): string { "artifacts/" + session + "/login-provenance.json" }

  predicate PromotionValid(nm: Naming, p: Promotion) {
    && EvidenceBinds(nm, p) && ValidText(nm, p.broker) && ValidText(nm, p.server)
    && 1 <= p.port <= 65535 && p.pid > 0 && p.processCreation > 0 && p.observedAt > 0
  }

  function NewRecord(nm: Naming, p: Promotion): Record {
    Record(Endpoint(Some(nm.strip(p.server)), p.host, p.port, p.observedAt, ManagedInvestorLogin, p.pid,
                    Some(p.processCreation), p.session, ArtifactPath(p.session), p.sha),
           Verified, None)
  }

  /** The record is replaced by a new verification of `server`, as the publisher compares names. */
  predicate Replaced(nm: Naming, r: Record, server: string) {
    r.status == Verified && r.endpoint.server.Some? && nm.fold(r.endpoint.server.value) == nm.fold(server)
  }

  function Supersede(nm: Naming, r: Record, p: Promotion): Record {
    if Replaced(nm, r, nm.strip(p.server))
    then Record(r.endpoint, Superseded, Some(Ending(p.observedAt, SupersededByNewVerification, p.session)))
    else r
  }

  function SupersedeAll(nm: Naming, records: seq<Record>, p: Promotion, n: nat): (updated: seq<Record>)
    requires n <= |records|
    ensures |updated| == n && forall i | 0 <= i < n :: updated[i] == Supersede(nm, records[i], p)
  {
    if n == 0 then [] else SupersedeAll(nm, records, p, n - 1) + [Supersede(nm, records[n - 1], p)]
  }

  /** The labels that mean the same broker. */
  function KnownLabels(nm: Naming, b: Brokers, broker: string): set<string> {
    set x | x in b && nm.key(x) == nm.key(nm.strip(broker))
  }

  /** The label under which the broker is already known, or its own stripped label. */
  predicate IsCanonical(nm: Naming, b: Brokers, broker: string, name: string) {
    if KnownLabels(nm, b, broker) != {} then name in KnownLabels(nm, b, broker) else name == nm.strip(broker)
  }

  function RecordsAt(b: Brokers, name: string): seq<Record> { if name in b then b[name] else [] }

  function PublishedAt(nm: Naming, b: Brokers, p: Promotion, name: string): Brokers {
    var records := RecordsAt(b, name);
    b[name := SupersedeAll(nm, records, p, |records|) + [NewRecord(nm, p)]]
  }

  function ManifestEntries(m: Option<map<string, string>>): map<string, string> { if m.Some? then m.value else map[] }

  /** The manifest binds existing artifacts only, and the promoted evidence does not contradict one. */
  predicate ArtifactsAgree(d: Disk, p: Promotion) {
    && (forall path | path in ManifestEntries(d.manifest) ::
          Content(d.artifacts, path) == Some(ManifestEntries(d.manifest)[path]))
    && Content(d.artifacts, ArtifactPath(p.session)) in {None, Some(p.sha)}
    && Content(d.artifacts, ProvenancePath(p.session)) in {None, Some(p.provenanceSha)}
  }

  predicate MayPublish(nm: Naming, d: Disk, p: Promotion) {
    PromotionValid(nm, p) && ArtifactsAgree(d, p) && WellFormed(nm, NewRecord(nm, p))
  }

  /** The disk once everything is written. */
  function WrittenDisk(nm: Naming, d: Disk, p: Promotion, name: string): Disk {
    Disk(Some(PublishedAt(nm, Loaded(d), p, name)),
         Some(ManifestEntries(d.manifest)
              [ArtifactPath(p.session) := p.sha][ProvenancePath(p.session) := p.provenanceSha]),
         d.artifacts[ArtifactPath(p.session) := p.sha][ProvenancePath(p.session) := p.provenanceSha])
  }

  // ---------------------------------------------------------------- invalidating

  datatype Invalidation = Invalidation(broker: string, target: Endpoint, reason: Reason, at: int, event: string)

  predicate IsTarget(nm: Naming, r: Record, v: Invalidation) {
    && r.status == Verified && r.endpoint.server.Some? && v.target.server.Some?
    && nm.fold(r.endpoint.server.value) == nm.fold(nm.strip(v.target.server.value))
    && r.endpoint.host == v.target.host && r.endpoint.port == v.target.port
    && r.endpoint.session == v.target.session && r.endpoint.sha == v.target.sha
  }

  function Ended(r: Record, v: Invalidation): Record {
    Record(r.endpoint, Invalidated, Some(Ending(v.at, v.reason, v.event)))
  }

  function EndedAt(b: Brokers, v: Invalidation, name: string, i: nat): Brokers
    requires name in b && i < |b[name]|
  {
    b[name := b[name][i := Ended(b[name][i], v)]]
  }

  /** The invalidated record, read back from the file. */
  predicate ReadsBack(r: Record, e: Endpoint, v: Invalidation) {
    && r.status == Invalidated && r.endpoint.server == e.server
    && r.endpoint.host == e.host && r.endpoint.port == e.port
    && r.endpoint.session == e.session && r.ending.Some? && r.ending.value.event == v.event
  }

  predicate InvalidationValid(nm: Naming, v: Invalidation) {
    && ValidText(nm, v.broker) && v.target.server.Some? && ValidText(nm, v.target.server.value)
    && v.reason in ENDPOINT_FAILURE_REASONS && v.at > 0 && v.at >= v.target.observedAt
  }

  /** Record `i` under `label` is the only target, and will be the only record that reads back. */
  predicate MayInvalidate(nm: Naming, b: Brokers, v: Invalidation, name: string, i: nat) {
    && InvalidationValid(nm, v)
    && KnownLabels(nm, b, v.broker) == {name}
    && i < |b[name]| && IsTarget(nm, b[name][i], v)
    && (forall j | 0 <= j < |b[name]| && IsTarget(nm, b[name][j], v) :: j == i)
    && (forall j | 0 <= j < |b[name]| && ReadsBack(b[name][j], b[name][i].endpoint, v) :: j == i)
  }

  ghost predicate Invalidatable(nm: Naming, d: Disk, v: Invalidation) {
    && d.registry.Some? && Valid(nm, d.registry.value)
    && exists name, i: nat :: MayInvalidate(nm, d.registry.value, v, name, i)
  }

  // ---------------------------------------------------------------- the publisher

  /** The disk after `k` of the publisher's writes: artifact, provenance, manifest, registry, and then,
      if the published endpoint does not resolve, the four writes that undo them in reverse. */
  function During(nm: Naming, d: Disk, p: Promotion, name: string, k: nat): Disk {
    var w := WrittenDisk(nm, d, p, name);
    var half := d.artifacts[ArtifactPath(p.session) := p.sha];
    if k == 0 then d
    else if k == 1 then d.(artifacts := half)
    else if k == 2 then d.(artifacts := w.artifacts)
    else if k == 3 then d.(artifacts := w.artifacts, manifest := w.manifest)
    else if k == 4 then w
    else if k == 5 then w.(registry := d.registry)
    else if k == 6 then d.(artifacts := w.artifacts)
    else if k == 7 then
      d.(artifacts := if ArtifactPath(p.session) in d.artifacts then w.artifacts
                      else w.artifacts - {ArtifactPath(p.session)})
    else d
  }

  class Publisher {
    const nm: Naming
    var disk: Disk

    constructor (nm: Naming, disk: Disk)
      ensures this.nm == nm && this.disk == disk
    {
      this.nm, this.disk := nm, disk;
    }

    /** Marks the superseded records one after another. */
    method SupersedeRecords(records: seq<Record>, p: Promotion) returns (updated: seq<Record>)
      ensures updated == SupersedeAll(nm, records, p, |records|)
    {
      updated := [];
      for n := 0 to |records|
        invariant updated == SupersedeAll(nm, records, p, n)
      {
        var r := records[n];
        if r.status == Verified && r.endpoint.server.Some?
           && nm.fold(r.endpoint.server.value) == nm.fold(nm.strip(p.server)) {
          r := Record(r.endpoint, Superseded, Some(Ending(p.observedAt, SupersededByNewVerification, p.session)));
        }
        updated := updated + [r];
      }
    }

    method CanonicalLabel(b: Brokers, broker: string) returns (name: string)
      requires Valid(nm, b)
      ensures IsCanonical(nm, b, broker, name)
    {
      var known := KnownLabels(nm, b, broker);
      if known == {} { return nm.strip(broker); }
      name :| name in known;
    }

    /** Manifest after artifacts, registry last. */
    method WriteAll(p: Promotion, name: string) returns (ghost states: seq<Disk>)
      modifies this
      ensures disk == WrittenDisk(nm, old(disk), p, name)
      ensures |states| == 5 && forall k | 0 <= k < 5 :: states[k] == During(nm, old(disk), p, name, k)
    {
      states := [disk];
      var b := Loaded(disk);
      var superseded := SupersedeRecords(RecordsAt(b, name), p);
      var registry := b[name := superseded + [NewRecord(nm, p)]];
      disk := disk.(artifacts := disk.artifacts[ArtifactPath(p.session) := p.sha]);
      states := states + [disk];
      disk := disk.(artifacts := disk.artifacts[ProvenancePath(p.session) := p.provenanceSha]);
      states := states + [disk];
      var manifest := ManifestEntries(disk.manifest)
                      [ArtifactPath(p.session) := p.sha][ProvenancePath(p.session) := p.provenanceSha];
      disk := disk.(manifest := Some(manifest));
      states := states + [disk];
      disk := disk.(registry := Some(registry));
      states := states + [disk];
    }

    /** Registry first, then the manifest, then the artifacts that were not there before. */
    method UndoAll(before: Disk, p: Promotion, name: string) returns (ghost states: seq<Disk>)
      requires disk == WrittenDisk(nm, before, p, name) && ArtifactsAgree(before, p)
      modifies this
      ensures disk == before
      ensures |states| == 4 && forall k | 0 <= k < 4 :: states[k] == During(nm, before, p, name, k + 5)
    {
      PathsDiffer(p.session);
      disk := disk.(registry := before.registry);
      states := [disk];
      disk := disk.(manifest := before.manifest);
      states := states + [disk];
      if ArtifactPath(p.session) !in before.artifacts {
        disk := disk.(artifacts := disk.artifacts - {ArtifactPath(p.session)});
      }
      states := states + [disk];
      if ProvenancePath(p.session) !in before.artifacts {
        disk := disk.(artifacts := disk.artifacts - {ProvenancePath(p.session)});
      }
      RestoredArtifacts(before, p);
      states := states + [disk];
    }

    /** Artifacts, manifest, registry, in that order; the result must resolve, or everything is undone.
        `states` are the disks a reader can see in between. */
    method Publish(p: Promotion) returns (found: Option<Found>, ghost name: string, ghost states: seq<Disk>)
      modifies this
      ensures |states| >= 1 && states[0] == old(disk) && states[|states| - 1] == disk
      ensures |states| > 1 <==> MayPublish(nm, old(disk), p) && Valid(nm, Loaded(old(disk)))
      ensures |states| > 1 ==> IsCanonical(nm, Loaded(old(disk)), p.broker, name)
      ensures forall k | 0 <= k < |states| :: states[k] == During(nm, old(disk), p, name, k)
      ensures found.Some? ==> |states| == 5 && disk == WrittenDisk(nm, old(disk), p, name)
                              && found == Resolve(nm, disk, Query(Some(name), nm.strip(p.server)))
      ensures found.None? ==> disk == old(disk)
      ensures found.None? && |states| > 1 ==>
                Resolve(nm, WrittenDisk(nm, old(disk), p, name), Query(Some(name), nm.strip(p.server))).None?
    {
      name, states := "", [disk];
      if !Valid(nm, Loaded(disk)) || !MayPublish(nm, disk, p) { return None, name, states; }
      var before := disk;
      var canonical := CanonicalLabel(Loaded(disk), p.broker);
      name := canonical;
      states := WriteAll(p, canonical);
      found := Resolve(nm, disk, Query(Some(canonical), nm.strip(p.server)));
      if found.None? {
        ghost var undone := UndoAll(before, p, canonical);
        states := states + undone;
      }
    }

    /** The places of the active records that the invalidation names. */
    method ListTargets(records: seq<Record>, v: Invalidation) returns (targets: seq<nat>)
      ensures Distinct(targets)
      ensures forall j: nat :: j in targets <==> j < |records| && IsTarget(nm, records[j], v)
    {
      targets := [];
      for n := 0 to |records|
        invariant forall j: nat :: j in targets <==> j < n && IsTarget(nm, records[j], v)
        invariant Distinct(targets)
      {
        if IsTarget(nm, records[n], v) { targets := targets + [n]; }
      }
    }

    /** Ends exactly the one record it names, and undoes the write if it cannot read it back. */
    method Invalidate(v: Invalidation) returns (done: bool, ghost name: string, ghost i: nat)
      modifies this
      ensures done ==> Valid(nm, Loaded(old(disk))) && old(disk).registry.Some?
                       && MayInvalidate(nm, Loaded(old(disk)), v, name, i)
                       && disk == old(disk).(registry := Some(EndedAt(Loaded(old(disk)), v, name, i)))
      ensures !done ==> disk == old(disk) && !Invalidatable(nm, old(disk), v)
    {
      name, i := "", 0;
      if !InvalidationValid(nm, v) || disk.registry.None? || !Valid(nm, Loaded(disk)) { return false, name, i; }
      var before, b := disk, disk.registry.value;
      var labels := KnownLabels(nm, b, v.broker);
      if labels == {} { return false, name, i; }
      var broker :| broker in labels;
      var targets := ListTargets(b[broker], v);
      NotOneTarget(nm, b, v, broker, targets);
      if |targets| != 1 { return false, name, i; }
      var t := targets[0];
      assert t in targets;
      disk := disk.(registry := Some(EndedAt(b, v, broker, t)));
      if exists j :: 0 <= j < |b[broker]| && j != t && ReadsBack(b[broker][j], b[broker][t].endpoint, v) {
        disk := before;
        return false, name, i;
      }
      assert labels == {broker};
      return true, broker, t;
    }
  }

  lemma {:induction false} NotOneTarget(nm: Naming, b: Brokers, v: Invalidation, name: string, targets: seq<nat>)
    requires name in b && name in KnownLabels(nm, b, v.broker) && Distinct(targets)
    requires forall j: nat :: j in targets <==> j < |b[name]| && IsTarget(nm, b[name][j], v)
    ensures |targets| != 1 ==> forall x, j: nat :: !MayInvalidate(nm, b, v, x, j)
  {
    if |targets| > 1 {
      assert targets[0] in targets && targets[1] in targets && targets[0] != targets[1];
    } else if |targets| == 0 {
      assert targets == [];
    }
  }

  /** When an invalidation takes effect: it gives one of five reasons against the endpoint and a time not before it
      was observed, its label is known once, and record `i` is the one verified record there that has the named
      server, host, port, session and digest; and no other record of that server, host, port and session was ended
      by the same event, which would make the written record ambiguous to read back. */
  lemma {:induction false} MayInvalidateIff(nm: Naming, b: Brokers, v: Invalidation, name: string, i: nat)
    ensures MayInvalidate(nm, b, v, name, i) <==>
              && ValidText(nm, v.broker) && v.target.server.Some? && ValidText(nm, v.target.server.value)
              && v.reason in
                   {ConnectionFailed, ConnectionRefused, ProtocolIncompatible, ServerUnrecognized, IdentityMismatch}
              && v.at > 0 && v.at >= v.target.observedAt
              && name in b && i < |b[name]|
              && (forall x | x in b :: nm.key(x) == nm.key(nm.strip(v.broker)) <==> x == name)
              && (forall j: nat | j < |b[name]| ::
                    j == i <==>
                      var r := b[name][j];
                      && r.status == Verified && r.endpoint.server.Some?
                      && nm.fold(r.endpoint.server.value) == nm.fold(nm.strip(v.target.server.value))
                      && r.endpoint.host == v.target.host && r.endpoint.port == v.target.port
                      && r.endpoint.session == v.target.session && r.endpoint.sha == v.target.sha)
              && (forall j: nat | j < |b[name]| && j != i ::
                    var r, t := b[name][j], b[name][i].endpoint;
                    !(r.status == Invalidated && r.endpoint.server == t.server && r.endpoint.host == t.host
                      && r.endpoint.port == t.port && r.endpoint.session == t.session
                      && r.ending.Some? && r.ending.value.event == v.event))
  {
    KnownOnlyIff(nm, b, v.broker, name);
    if name in b && i < |b[name]| {
      assert (forall j: nat | j < |b[name]| :: j == i <==> IsTarget(nm, b[name][j], v)) <==>
               IsTarget(nm, b[name][i], v) && forall j | 0 <= j < |b[name]| && IsTarget(nm, b[name][j], v) :: j == i;
      assert (forall j | 0 <= j < |b[name]| && ReadsBack(b[name][j], b[name][i].endpoint, v) :: j == i) <==>
               forall j: nat | j < |b[name]| && j != i :: !ReadsBack(b[name][j], b[name][i].endpoint, v);
    }
  }

  lemma {:induction false} KnownOnlyIff(nm: Naming, b: Brokers, broker: string, name: string)
    ensures KnownLabels(nm, b, broker) == {name} <==>
              name in b && forall x | x in b :: nm.key(x) == nm.key(nm.strip(broker)) <==> x == name
  {
    if KnownLabels(nm, b, broker) == {name} {
      assert name in KnownLabels(nm, b, broker);
      forall x | x in b && nm.key(x) == nm.key(nm.strip(broker)) ensures x == name {
        assert x in KnownLabels(nm, b, broker);
      }
    }
  }

  /** It then ends just that record, with its own time, reason and event; every other record stays as it is. */
  lemma {:induction false} EndsTheNamedRecord(b: Brokers, v: Invalidation, name: string, i: nat)
    requires name in b && i < |b[name]|
    ensures var c := EndedAt(b, v, name, i);
            && c.Keys == b.Keys && (forall x | x in b && x != name :: c[x] == b[x])
            && |c[name]| == |b[name]| && (forall j | 0 <= j < |b[name]| && j != i :: c[name][j] == b[name][j])
            && c[name][i] == Record(b[name][i].endpoint, Invalidated, Some(Ending(v.at, v.reason, v.event)))
  {
  }

  /** Removing the two new artifacts gives back the old ones. */
  lemma {:induction false} RestoredArtifacts(d: Disk, p: Promotion)
    requires ArtifactsAgree(d, p)
    ensures var a, b := ArtifactPath(p.session), ProvenancePath(p.session);
            var written := d.artifacts[a := p.sha][b := p.provenanceSha];
            var half := if a in d.artifacts then written else written - {a};
            (if b in d.artifacts then half else half - {b}) == d.artifacts
  {
    PathsDiffer(p.session);
  }

  lemma {:induction false} PathsDiffer(session: string)
    ensures ArtifactPath(session) != ProvenancePath(session)
  {
    assert |ArtifactPath(session)| != |ProvenancePath(session)|;
  }
}
