/** Concrete registries and promotions on which publications fail, one for each reason. */
module RegistryWitnesses {
  import opened Prelude
  import opened Registry
  import opened RegistryRuns

  // ---------------------------------------------------------------- names

  function TrimRight(s: string): (t: string)
    ensures t == "" || t[|t| - 1] != ' '
    ensures |t| <= |s| && t == s[..|t|]
  {
    if s != "" && s[|s| - 1] == ' ' then TrimRight(s[..|s| - 1]) else s
  }

  function TrimLeft(s: string): (t: string)
    ensures t == "" || (s != "" && t[0] != ' ' && t[|t| - 1] == s[|s| - 1])
    ensures |t| <= |s| && t == s[|s| - |t|..]
  {
    if s != "" && s[0] == ' ' then TrimLeft(s[1..]) else s
  }

  function Trim(s: string): string { TrimLeft(TrimRight(s)) }

  predicate IsAlnum(c: char) { 'a' <= c <= 'z' || 'A' <= c <= 'Z' || '0' <= c <= '9' }

  /** The letters and digits of a label. */
  function Letters(s: string): string {
    if s == "" then "" else Letters(s[..|s| - 1]) + if IsAlnum(s[|s| - 1]) then [s[|s| - 1]] else ""
  }

  function LowerChar(c: char): char { if 'A' <= c <= 'Z' then c - 'A' + 'a' else c }

  function Lower(s: string): (t: string)
    ensures |t| == |s| && forall i | 0 <= i < |s| :: t[i] == LowerChar(s[i])
  {
    seq(|s|, i requires 0 <= i < |s| => LowerChar(s[i]))
  }

  const SECRET_WORDS: set<string> := {"password", "passwd", "token", "secret", "credential", "hmac"}

  predicate WordAt(s: string, word: string, i: nat) { i + |word| <= |s| && Lower(s)[i..i + |word|] == word }

  /** Some secret word occurs in the text, whatever its case. */
  predicate MentionsSecret(s: string) {
    exists word, i: nat :: i <= |s| && word in SECRET_WORDS && WordAt(s, word, i)
  }

  /** Blanks are stripped, labels are identified by letters and digits, servers are compared as they are. */
  function PlainNaming(): Naming { Naming(Trim, (s: string) => s, Letters, MentionsSecret) }

  lemma {:induction false} TrimTwice(s: string)
    ensures Trim(Trim(s)) == Trim(s) && |Trim(s)| <= |s| && forall c | c in Trim(s) :: c in s
  {
  }

  lemma {:induction false} PlainNamingIsSane()
    ensures Sane(PlainNaming()) && FoldKeepsPadding(PlainNaming())
  {
    var nm := PlainNaming();
    forall s
      ensures nm.strip(nm.strip(s)) == nm.strip(s) && |nm.strip(s)| <= |s| && forall c | c in nm.strip(s) :: c in s
    {
      TrimTwice(s);
    }
    forall s, t | nm.fold(s) == nm.fold(nm.strip(t)) ensures nm.strip(s) == s { TrimTwice(t); }
  }

  lemma {:induction false} PlainNames()
    ensures Trim("Server ") == "Server" && Trim("Server") == "Server" && Trim("Broker") == "Broker"
    ensures Trim("***") == "***" && Trim("Tokenized Markets") == "Tokenized Markets"
  {
    assert "Server "[..6] == "Server";
  }

  lemma {:induction false} WordsStart(s: string)
    ensures forall word, i: nat | word in SECRET_WORDS && WordAt(s, word, i) ::
              i < |s| && LowerChar(s[i]) in {'p', 't', 's', 'c', 'h'}
  {
    forall word, i: nat | word in SECRET_WORDS && WordAt(s, word, i)
      ensures i < |s| && LowerChar(s[i]) in {'p', 't', 's', 'c', 'h'}
    {
      assert word != "" && word[0] == Lower(s)[i..i + |word|][0] == LowerChar(s[i]);
    }
  }

  lemma {:induction false} NoWordStartsIn(s: string)
    requires forall i | 0 <= i < |s| :: LowerChar(s[i]) !in {'p', 't', 's', 'c', 'h'}
    ensures !MentionsSecret(s)
  {
    WordsStart(s);
  }

  lemma {:induction false} BrokerIsAccepted()
    ensures Letters("Broker") != "" && !MentionsSecret("Broker")
  {
    assert Letters("Broker") == Letters("Broker"[..5]) + "r";
    NoWordStartsIn("Broker");
  }

  lemma {:induction false} StarsAreRefused()
    ensures Letters("***") == ""
  {
    assert "***"[..2] == "**" && "**"[..1] == "*" && "*"[..0] == "";
    assert Letters("*") == "" && Letters("**") == "";
  }

  lemma {:induction false} TokenizedIsRefused()
    ensures MentionsSecret("Tokenized Markets")
  {
    var s := "Tokenized Markets";
    var word := Lower(s)[0..0 + |"token"|];
    assert word[0] == 't' && word[1] == 'o' && word[2] == 'k' && word[3] == 'e' && word[4] == 'n';
    assert word == "token" && "token" in SECRET_WORDS;
    assert WordAt(s, "token", 0);
  }

  /** What the witnesses below need of a naming. */
  ghost predicate ReadsPlainly(nm: Naming) {
    && Sane(nm) && FoldKeepsPadding(nm)
    && nm.strip("Server ") == "Server" && nm.strip("Server") == "Server" && nm.strip("Broker") == "Broker"
    && nm.strip("***") == "***" && nm.strip("Tokenized Markets") == "Tokenized Markets"
    && nm.fold("Server ") != nm.fold("Server")
    && !Refused(nm, "Broker") && Refused(nm, "***") && Refused(nm, "Tokenized Markets")
  }

  lemma {:induction false} PlainNamingReadsPlainly()
    ensures ReadsPlainly(PlainNaming())
  {
    PlainNamingIsSane();
    PlainNames();
    BrokerIsAccepted();
    StarsAreRefused();
    TokenizedIsRefused();
    assert |"Server "| != |"Server"|;
  }

  // ---------------------------------------------------------------- registries and promotions

  /** A promotion of the server "Server" under the given label, with its evidence. */
  function PromotionOf(name: string): Promotion {
    var evidence := Evidence("t", "Server", name, "192.0.2.1", 443, 1, 1, 2, true, true, BrokerWizard, "f");
    Promotion(name, "Server", "t", "e", "f", "192.0.2.1", 443, 1, 1, 2,
              Some(Sourced("e", evidence)), Some(Sourced("f", "")))
  }

  const NO_DISK := Disk(None, None, map[])

  /** An active record that stores its server name with a trailing blank, with its manifest entry and artifact. */
  function PaddedRecord(): Record {
    Record(Endpoint(Some("Server "), "192.0.2.1", 443, 1, ManagedInvestorLogin, 1, Some(1), "s", "a", "d"),
           Verified, None)
  }

  function PaddedDisk(): Disk {
    Disk(Some(map["Broker" := [PaddedRecord()]]), Some(map["a" := "d"]), map["a" := "d"])
  }

  lemma {:induction false} PromotionIsValid(nm: Naming, name: string)
    requires ReadsPlainly(nm) && name in {"Broker", "***", "Tokenized Markets"}
    ensures nm.strip(name) == name && PromotionValid(nm, PromotionOf(name))
    ensures WellFormed(nm, NewRecord(nm, PromotionOf(name)))
  {
  }

  lemma {:induction false} PathsAreNotA(session: string)
    ensures ArtifactPath(session) != "a" && ProvenancePath(session) != "a"
  {
    assert |ArtifactPath(session)| > 1 && |ProvenancePath(session)| > 1;
  }

  /** What the publisher asks for is given, and yet the publication does not resolve. */
  ghost predicate FailsThoughAdmissible(nm: Naming, d: Disk, p: Promotion, name: string) {
    && Valid(nm, Loaded(d)) && Anchored(d) && MayPublish(nm, d, p) && IsCanonical(nm, Loaded(d), p.broker, name)
    && Resolve(nm, WrittenDisk(nm, d, p, name), Query(Some(name), nm.strip(p.server))) == None
  }

  /** A first publication under a label of no letters and digits, or one that mentions a secret word: it passes
      every check with no padded record anywhere, does not resolve, and if the process dies before it is undone
      the registry cannot be loaded any more. */
  lemma {:induction false} RefusedLabelBlocksPublication(nm: Naming, name: string)
    requires ReadsPlainly(nm) && name in {"***", "Tokenized Markets"}
    ensures FailsThoughAdmissible(nm, NO_DISK, PromotionOf(name), name)
    ensures forall r | r in RecordsAt(Loaded(NO_DISK), name) :: !Padded(nm, r, PromotionOf(name))
    ensures !Valid(nm, Loaded(During(nm, NO_DISK, PromotionOf(name), name, 4)))
  {
    var p := PromotionOf(name);
    PromotionIsValid(nm, name);
    assert KnownLabels(nm, Loaded(NO_DISK), p.broker) == {};
    RefusedLabelBlocksRegistry(nm, WrittenDisk(nm, NO_DISK, p, name), name, Query(Some(name), nm.strip(p.server)));
  }

  lemma {:induction false} PaddedDiskIsValid(nm: Naming)
    requires ReadsPlainly(nm)
    ensures Valid(nm, Loaded(PaddedDisk())) && Anchored(PaddedDisk())
    ensures Padded(nm, PaddedRecord(), PromotionOf("Broker"))
  {
    assert WellFormed(nm, PaddedRecord());
  }

  lemma {:induction false} PaddedMayPublish(nm: Naming)
    requires ReadsPlainly(nm)
    ensures MayPublish(nm, PaddedDisk(), PromotionOf("Broker"))
    ensures IsCanonical(nm, Loaded(PaddedDisk()), "Broker", "Broker")
  {
    PromotionIsValid(nm, "Broker");
    PathsAreNotA("t");
    assert "Broker" in KnownLabels(nm, Loaded(PaddedDisk()), "Broker");
  }

  /** A publication that fails on a padded name, under a label that readers accept. */
  lemma {:induction false} PaddedNameBlocksPublication(nm: Naming)
    requires ReadsPlainly(nm)
    ensures FailsThoughAdmissible(nm, PaddedDisk(), PromotionOf("Broker"), "Broker") && !Refused(nm, "Broker")
    ensures RecordsAt(Loaded(PaddedDisk()), "Broker") == [PaddedRecord()]
    ensures Padded(nm, PaddedRecord(), PromotionOf("Broker"))
  {
    PaddedDiskIsValid(nm);
    PaddedMayPublish(nm);
    assert RecordsAt(Loaded(PaddedDisk()), "Broker")[0] == PaddedRecord();
    PaddedDoesNotResolve(nm, PaddedDisk(), PromotionOf("Broker"), "Broker", 0);
  }

  lemma {:induction false} PaddedDiskResolves(nm: Naming)
    requires ReadsPlainly(nm)
    ensures Resolve(nm, PaddedDisk(), Query(Some("Broker"), "Server")).Some?
  {
    PaddedDiskIsValid(nm);
    assert Loaded(PaddedDisk())["Broker"][0] == PaddedRecord();
    ResolvesTo(nm, PaddedDisk(), Query(Some("Broker"), "Server"), "Broker", 0);
  }

  lemma {:induction false} DuringEnds(nm: Naming, d: Disk, p: Promotion, name: string)
    ensures During(nm, d, p, name, 0) == d && During(nm, d, p, name, 8) == d
    ensures During(nm, d, p, name, 4) == WrittenDisk(nm, d, p, name)
  {
  }

  /** What a reader sees of it: the server resolves before, not between the registry write and its undoing, and
      again afterwards. */
  lemma {:induction false} UndonePublicationBlinksOut(nm: Naming)
    requires ReadsPlainly(nm)
    ensures var d, p, q := PaddedDisk(), PromotionOf("Broker"), Query(Some("Broker"), "Server");
            && Resolve(nm, During(nm, d, p, "Broker", 0), q).Some?
            && Resolve(nm, During(nm, d, p, "Broker", 4), q) == None
            && Resolve(nm, During(nm, d, p, "Broker", 8), q).Some?
  {
    PaddedNameBlocksPublication(nm);
    PaddedDiskResolves(nm);
    DuringEnds(nm, PaddedDisk(), PromotionOf("Broker"), "Broker");
  }

  /** All of this on one concrete naming. */
  lemma {:induction false} EachReasonHasAnInput()
    ensures var nm := PlainNaming();
            && FailsThoughAdmissible(nm, NO_DISK, PromotionOf("***"), "***")
            && FailsThoughAdmissible(nm, NO_DISK, PromotionOf("Tokenized Markets"), "Tokenized Markets")
            && FailsThoughAdmissible(nm, PaddedDisk(), PromotionOf("Broker"), "Broker") && !Refused(nm, "Broker")
  {
    PlainNamingReadsPlainly();
    RefusedLabelBlocksPublication(PlainNaming(), "***");
    RefusedLabelBlocksPublication(PlainNaming(), "Tokenized Markets");
    PaddedNameBlocksPublication(PlainNaming());
  }
}
