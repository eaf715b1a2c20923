/** Whole histories: immutability over any calls cut off anywhere, convergence of retries, and backfill. */
module DeliveryHistory {
  import opened Options
  import opened DeliveryNames
  import opened DeliveryRelease
  import opened DeliveryRemote
  import opened CutOff
  import opened DeliveryPublish

  datatype Call =
    | Publish(req: Request, refresh: bool)
    | Promote(component: string, version: string, sha: Option<string>)

  /** One run of the program and where it is cut off, if it is. */
  datatype Session = Session(call: Call, budget: Option<nat>)

  predicate IsAlias(tag: string) {
    tag in set c | c in COMPONENTS :: AliasTag(c)
  }

  /** Nothing outside the rolling aliases is ever lost or changed. */
  ghost predicate Immutable(a: Remote, b: Remote) {
    && (forall p :: p in a.files ==> p in b.files && b.files[p] == a.files[p])
    && (forall t :: t in a.tags && !IsAlias(t) ==> t in b.tags && b.tags[t] == a.tags[t])
    && (forall t :: t in a.releases && !IsAlias(t) ==> t in b.releases && Includes(b.releases[t], a.releases[t]))
  }

  lemma ConfinedImmutable(a: Remote, b: Remote, component: string, version: string)
    requires Confined(a, b, PlaceOf(component, version))
    requires component in COMPONENTS || b == a
    ensures Immutable(a, b)
  {
    assert component in COMPONENTS ==> IsAlias(AliasTag(component));
  }

  lemma ImmutableTrans(a: Remote, b: Remote, c: Remote)
    requires Immutable(a, b) && Immutable(b, c)
    ensures Immutable(a, c)
  {
    hide IsAlias;
  }

  /** Everything a version has under its own names is as it was. */
  ghost predicate SamePlace(a: Remote, b: Remote, p: Place) {
    && (p.path in a.files <==> p.path in b.files) && (p.path in a.files ==> b.files[p.path] == a.files[p.path])
    && (p.tag in a.tags <==> p.tag in b.tags) && (p.tag in a.tags ==> b.tags[p.tag] == a.tags[p.tag])
    && (p.tag in a.releases <==> p.tag in b.releases) &&
      (p.tag in a.releases ==> b.releases[p.tag] == a.releases[p.tag])
  }

  /** A call for one version leaves every other version as it is. */
  lemma OthersKept(a: Remote, b: Remote, component: string, version: string, c: string, v: string)
    requires c in COMPONENTS && (component in COMPONENTS || b == a)
    requires Confined(a, b, PlaceOf(component, version)) && (c != component || v != version)
    ensures SamePlace(a, b, PlaceOf(c, v))
  {
    if component in COMPONENTS {
      VersionTagIsNoAlias(c, v, component);
      if VersionTag(c, v) == VersionTag(component, version) {
        VersionTagInjective(c, v, component, version);
      }
      if MetadataPath(c, v) == MetadataPath(component, version) {
        MetadataPathInjective(c, v, component, version);
      }
    }
  }

  function VersionOf(call: Call): (string, string) {
    match call
    case Publish(req, _) => (req.component, req.version)
    case Promote(component, version, _) => (component, version)
  }

  /** No call is for this version. */
  predicate Elsewhere(sessions: seq<Session>, component: string, version: string) {
    forall i :: 0 <= i < |sessions| ==> VersionOf(sessions[i].call) != (component, version)
  }

  /** Whether a call is to move the component's alias. */
  predicate Moves(call: Call, component: string) {
    match call
    case Publish(req, refresh) => refresh && req.component == component
    case Promote(c, _, _) => c == component
  }

  predicate NoneMoves(sessions: seq<Session>, component: string) {
    forall i :: 0 <= i < |sessions| ==> !Moves(sessions[i].call, component)
  }

  /** A call that is not to move a component's alias leaves it as it is. */
  lemma AliasStays(a: Remote, b: Remote, component: string, version: string, c: string)
    requires c in COMPONENTS && (component in COMPONENTS || b == a)
    requires Confined(a, b, PlaceOf(component, version))
    requires c != component || AliasKept(a, b, AliasTag(c))
    ensures AliasKept(a, b, AliasTag(c))
  {
    if component in COMPONENTS && c != component {
      VersionTagIsNoAlias(component, version, c);
      if AliasTag(c) == AliasTag(component) {
        AliasTagInjective(c, component);
      }
    }
  }

  predicate Directories(sessions: seq<Session>) {
    forall i :: 0 <= i < |sessions| && sessions[i].call.Publish? ==> IsDirectory(sessions[i].call.req.assets)
  }

  /** Whatever one session does, it only adds, and to no version but its own; it moves no alias it is not to move. */
  ghost predicate SessionKeeps(a: Remote, b: Remote, session: Session) {
    && Immutable(a, b)
    && (forall c, v :: c in COMPONENTS && (c, v) != VersionOf(session.call) ==> SamePlace(a, b, PlaceOf(c, v)))
    && (forall c :: c in COMPONENTS && !Moves(session.call, c) ==> AliasKept(a, b, AliasTag(c)))
  }

  method RunSession(repo: Repository, session: Session)
    requires session.call.Publish? ==> IsDirectory(session.call.req.assets)
    modifies repo
    ensures SessionKeeps(old(repo.remote), repo.remote, session)
  {
    hide Immutable, Confined, Outcome, Buildable, Promotable, CompleteAt, AliasCurrent, AliasKept, SamePlace;
    repo.budget := session.budget;
    match session.call {
      case Publish(req, refresh) =>
        var s := PublishRelease(repo, req, refresh);
        BuildableComponent(req);
      case Promote(component, version, sha) =>
        var s := PromoteReleaseAlias(repo, component, version, sha);
    }
    var (component, version) := VersionOf(session.call);
    ConfinedImmutable(old(repo.remote), repo.remote, component, version);
    forall c, v | c in COMPONENTS && (c, v) != (component, version)
      ensures SamePlace(old(repo.remote), repo.remote, PlaceOf(c, v))
    {
      OthersKept(old(repo.remote), repo.remote, component, version, c, v);
    }
    forall c | c in COMPONENTS && !Moves(session.call, c)
      ensures AliasKept(old(repo.remote), repo.remote, AliasTag(c))
    {
      AliasStays(old(repo.remote), repo.remote, component, version, c);
    }
  }

  lemma SamePlaceTrans(a: Remote, b: Remote, c: Remote, p: Place)
    requires SamePlace(a, b, p) && SamePlace(b, c, p)
    ensures SamePlace(a, c, p)
  {
  }

  /**
   * Runs any calls, each cut off anywhere: versions only grow, one that no call is for stays as it is, and so does an
   * alias that no call is to move.
   */
  method RunHistory(repo: Repository, sessions: seq<Session>)
    requires Directories(sessions)
    modifies repo
    ensures Immutable(old(repo.remote), repo.remote)
    ensures forall c, v :: c in COMPONENTS && Elsewhere(sessions, c, v) ==>
      SamePlace(old(repo.remote), repo.remote, PlaceOf(c, v))
    ensures forall c :: c in COMPONENTS && NoneMoves(sessions, c) ==>
      AliasKept(old(repo.remote), repo.remote, AliasTag(c))
  {
    hide Immutable, SamePlace, AliasKept;
    ghost var start := repo.remote;
    ImmutableRefl(start);
    SamePlaceRefl(start);
    for i := 0 to |sessions|
      invariant Immutable(start, repo.remote)
      invariant forall c, v :: c in COMPONENTS && Elsewhere(sessions, c, v) ==>
        SamePlace(start, repo.remote, PlaceOf(c, v))
      invariant forall c :: c in COMPONENTS && NoneMoves(sessions, c) ==> AliasKept(start, repo.remote, AliasTag(c))
    {
      ghost var before := repo.remote;
      RunSession(repo, sessions[i]);
      ImmutableTrans(start, before, repo.remote);
      forall c, v | c in COMPONENTS && Elsewhere(sessions, c, v) ensures SamePlace(start, repo.remote, PlaceOf(c, v)) {
        SamePlaceTrans(start, before, repo.remote, PlaceOf(c, v));
      }
      forall c | c in COMPONENTS && NoneMoves(sessions, c) ensures AliasKept(start, repo.remote, AliasTag(c)) {
        AliasKeptTrans(start, before, repo.remote, AliasTag(c));
      }
    }
  }

  lemma SamePlaceRefl(a: Remote)
    ensures forall p :: SamePlace(a, a, p)
    ensures forall alias :: AliasKept(a, a, alias)
  {
  }

  lemma ImmutableRefl(a: Remote)
    ensures Immutable(a, a)
  {
  }

  lemma BuildableComponent(req: Request)
    ensures Buildable(req) ==> req.component in COMPONENTS
  {
  }

  /** What immutability says about one version: its tag, its metadata file and its assets. */
  lemma VersionImmutable(a: Remote, b: Remote, component: string, version: string)
    requires Immutable(a, b) && component in COMPONENTS
    ensures var p := PlaceOf(component, version);
      && (p.tag in a.tags ==> p.tag in b.tags && b.tags[p.tag] == a.tags[p.tag])
      && (p.path in a.files ==> p.path in b.files && b.files[p.path] == a.files[p.path])
      && (p.tag in a.releases ==> p.tag in b.releases && Includes(b.releases[p.tag], a.releases[p.tag]))
  {
    forall d | d in COMPONENTS ensures VersionTag(component, version) != AliasTag(d) {
      VersionTagIsNoAlias(component, version, d);
    }
  }

  // ---- retries ----

  /** The same release built again: same source and files, whatever the run. */
  predicate SameRelease(a: Request, b: Request) {
    a.component == b.component && a.version == b.version && a.sourceSha == b.sourceSha && a.assets == b.assets
  }

  lemma SameReleaseCompatible(r: Remote, a: Request, b: Request)
    requires SameRelease(a, b)
    ensures Compatible(r, a) <==> Compatible(r, b)
    ensures PublishedAt(r, a) <==> PublishedAt(r, b)
  {
    assert Facts(MetadataOf(a)) == Facts(MetadataOf(b));
  }

  /** A repository that holds nothing of the release. */
  ghost predicate Untouched(r: Remote, req: Request) {
    var p := PlaceOf(req.component, req.version);
    p.path !in r.files && p.tag !in r.tags && p.tag !in r.releases
  }

  /** What a publication builds on and leaves depends only on what lies under its version's own names. */
  lemma SamePlaceCompatible(a: Remote, b: Remote, req: Request)
    requires SamePlace(a, b, PlaceOf(req.component, req.version))
    ensures Compatible(a, req) <==> Compatible(b, req)
    ensures PublishedAt(a, req) <==> PublishedAt(b, req)
  {
    hide Includes, Published;
  }

  /** A retry of a publication: what others do first, its run id, and where it is cut off, if it is. */
  datatype Attempt = Attempt(others: seq<Session>, runId: string, budget: Option<nat>)

  function AttemptRequest(req: Request, a: Attempt): Request {
    req.(runId := a.runId)
  }

  /**
   * Retries until one attempt gets through, with any calls for other versions in between. Attempts fail only by being
   * cut off, so one uncut attempt suffices.
   */
  method PublishWithRetries(repo: Repository, req: Request, attempts: seq<Attempt>, refresh: bool)
    returns (published: bool)
    requires IsDirectory(req.assets) && METADATA !in ByName(req.assets) && Buildable(req)
    requires forall i :: 0 <= i < |attempts| ==> NonBlank(attempts[i].runId)
    requires forall i :: 0 <= i < |attempts| ==>
      Directories(attempts[i].others) && Elsewhere(attempts[i].others, req.component, req.version)
    requires Untouched(repo.remote, req) || Compatible(repo.remote, req)
    modifies repo
    ensures Compatible(repo.remote, req)
    ensures published ==> PublishedAt(repo.remote, req)
    ensures published && refresh ==> AliasCurrent(repo.remote, PlaceOf(req.component, req.version))
    ensures !published ==> forall i :: 0 <= i < |attempts| ==> attempts[i].budget.Some?
  {
    hide Compatible, PublishedAt, Buildable, Confined, AliasCurrent, Filled, ByName, CompleteAt, AlreadyComplete;
    hide Contradicted;
    hide Immutable, SamePlace, Elsewhere;
    UntouchedCompatible(repo.remote, req);
    BuildableComponent(req);
    for i := 0 to |attempts|
      invariant Compatible(repo.remote, req)
      invariant forall j :: 0 <= j < i ==> attempts[j].budget.Some?
    {
      var again := AttemptRequest(req, attempts[i]);
      AttemptBuildable(req, attempts[i]);
      ghost var before := repo.remote;
      RunHistory(repo, attempts[i].others);
      SamePlaceCompatible(before, repo.remote, req);
      SameReleaseCompatible(repo.remote, req, again);
      repo.budget := attempts[i].budget;
      var s := PublishRelease(repo, again, refresh);
      SameReleaseCompatible(repo.remote, req, again);
      if s == Done {
        return true;
      }
    }
    return false;
  }

  lemma UntouchedCompatible(r: Remote, req: Request)
    ensures Untouched(r, req) ==> Compatible(r, req)
  {
  }

  lemma AttemptBuildable(req: Request, a: Attempt)
    requires Buildable(req) && NonBlank(a.runId)
    ensures Buildable(AttemptRequest(req, a)) && SameRelease(req, AttemptRequest(req, a))
  {
  }

  /** A published release passes the completeness check, whoever recorded its provenance. */
  lemma PublishedIsComplete(r: Remote, req: Request)
    requires IsDirectory(req.assets) && METADATA !in ByName(req.assets) && Buildable(req) && PublishedAt(r, req)
    ensures CompleteAt(r, req.component, req.version, Some(req.sourceSha))
  {
    hide CompleteRelease, Buildable;
    var p := PlaceOf(req.component, req.version);
    PublishedComplete(req, r.files[p.path].content.meta);
  }

  /** After a success, another build of the same source changes nothing of the version. */
  lemma RebuildLeavesRelease(a: Remote, b: Remote, req: Request, s: Status)
    requires Buildable(req) && Confined(a, b, PlaceOf(req.component, req.version)) && Outcome(a, b, req, s)
    requires CompleteAt(a, req.component, req.version, Some(req.sourceSha))
    ensures s != Refused
    ensures var p := PlaceOf(req.component, req.version);
      && p.tag in b.releases && b.releases[p.tag] == a.releases[p.tag]
      && p.path in b.files && b.files[p.path] == a.files[p.path]
      && p.tag in b.tags && b.tags[p.tag] == a.tags[p.tag]
  {
    hide CompleteRelease, Confined, Buildable;
    PlaceKept(a, b, req);
  }

  /** After a success, the same version from another source is refused without effect. */
  lemma OtherSourceRefused(a: Remote, b: Remote, req: Request, s: Status, sha: string)
    requires Outcome(a, b, req, s)
    requires CompleteAt(a, req.component, req.version, Some(sha)) && sha != req.sourceSha
    ensures s == Refused && b == a
  {
    hide ChecksumsPair, RecordsMatch, ByName, Compatible, PublishedAt, Filled;
    var p := PlaceOf(req.component, req.version);
    assert a.releases[p.tag][METADATA].meta.sourceSha == sha;
    assert Facts(a.files[p.path].content.meta).sourceSha == sha;
    assert Contradicted(a, req);
  }

  /**
   * A publication that succeeds from a compatible state, and then another for the same version, cut off anywhere: other
   * bytes of the same source are accepted and change nothing of the version, another source is refused without effect.
   */
  method PublishAgain(repo: Repository, first: Request, second: Request, budget: Option<nat>)
    returns (s: Status, t: Status, ghost published: Remote)
    requires IsDirectory(first.assets) && METADATA !in ByName(first.assets) && Buildable(first)
    requires Compatible(repo.remote, first)
    requires IsDirectory(second.assets) && Buildable(second)
    requires second.component == first.component && second.version == first.version
    modifies repo
    ensures s != Refused && (s == Cut ==> old(repo.budget).Some?) && (t == Cut ==> budget.Some?)
    ensures s == Done ==> PublishedAt(published, first)
    ensures s == Done && second.sourceSha == first.sourceSha ==>
      t != Refused && SameVersion(published, repo.remote, first)
    ensures s == Done && second.sourceSha != first.sourceSha ==> t == Refused && repo.remote == published
  {
    hide Compatible, PublishedAt, Buildable, Confined, Outcome, CompleteAt, ByName;
    s := PublishRelease(repo, first, false);
    OutcomePublishes(old(repo.remote), repo.remote, first, s);
    published, t := repo.remote, Refused;
    if s == Done {
      PublishedIsComplete(published, first);
      repo.budget := budget;
      t := PublishRelease(repo, second, false);
      if second.sourceSha == first.sourceSha {
        RebuildLeavesRelease(published, repo.remote, second, t);
      } else {
        OtherSourceRefused(published, repo.remote, second, t, first.sourceSha);
      }
    }
  }

  /** The release, the metadata file and the tag of a version are as they were. */
  ghost predicate SameVersion(a: Remote, b: Remote, req: Request) {
    var p := PlaceOf(req.component, req.version);
    && p.tag in a.releases && p.tag in b.releases && b.releases[p.tag] == a.releases[p.tag]
    && p.path in a.files && p.path in b.files && b.files[p.path] == a.files[p.path]
    && p.tag in a.tags && p.tag in b.tags && b.tags[p.tag] == a.tags[p.tag]
  }

  lemma OutcomePublishes(a: Remote, b: Remote, req: Request, s: Status)
    requires Outcome(a, b, req, s) && METADATA !in ByName(req.assets) && Compatible(a, req)
    ensures s != Refused && (s == Done ==> PublishedAt(b, req))
  {
  }

  lemma ByNamePair(a: Asset, b: Asset)
    ensures ByName([a, b]) == map[a.name := a.content][b.name := b.content]
  {
    assert ByName([]) == map[];
    ByNamePush([], a);
    ByNamePush([a], b);
    assert [] + [a] == [a] && [a] + [b] == [a, b];
  }

  /** An archive and its checksum file pair up. */
  lemma PairHolds(name: string, content: Content)
    requires !IsChecksumName(name)
    ensures ChecksumsPair(map[name := content][name + ".sha256" := Sums(Sha256(content), name)])
  {
    var sums := name + ".sha256";
    assert IsChecksumName(sums) && ArchiveName(sums) == name;
  }

  lemma ReleaseNumber()
    ensures ValidVersion("1.0.0")
  {
    assert "1.0.0"[1..] == ".0.0" && ".0.0"[1..] == "0.0";
    assert "0.0"[1..] == ".0" && ".0"[1..] == "0" && "0"[1..] == "";
    assert SkipDigits("1.0.0") == SkipDigits(".0.0") && SkipDigits("0.0") == SkipDigits(".0") &&
      SkipDigits("0") == SkipDigits("");
  }

  lemma MetadataIsNoChecksum()
    ensures !IsChecksumName(METADATA)
  {
    assert METADATA[5..][6] == 'n' && ".sha256"[6] == '6';
  }

  lemma DigitIsSomething()
    ensures NonBlank("1") && ValidSourceSha("0123456789012345678901234567890123456789")
  {
    assert !IsSpace("1"[0]);
  }

  /** A build output called release.json exists: its checksum pairs hold and every demand of a build is met. */
  lemma ClashPossible() returns (req: Request)
    ensures IsDirectory(req.assets) && Buildable(req) && METADATA in ByName(req.assets)
  {
    var file := Asset(METADATA, Blob([]));
    var pair := Asset(METADATA + ".sha256", Sums(Sha256(file.content), METADATA));
    hide ByName, ChecksumsPair, IsChecksumName, ValidVersion, NonBlank, ValidSourceSha;
    ByNamePair(file, pair);
    MetadataIsNoChecksum();
    PairHolds(METADATA, file.content);
    ReleaseNumber();
    DigitIsSomething();
    req := Request("fsite", "1.0.0", "0123456789012345678901234567890123456789", "1", [file, pair]);
  }

  /** A first, uncut publication succeeds exactly when no built file is called release.json. */
  method PublishFirst(repo: Repository, req: Request) returns (s: Status)
    requires IsDirectory(req.assets) && Buildable(req) && Untouched(repo.remote, req) && repo.budget.None?
    modifies repo
    ensures s == Done <==> METADATA !in ByName(req.assets)
    ensures s == Done ==> PublishedAt(repo.remote, req)
  {
    UntouchedCompatible(repo.remote, req);
    s := PublishRelease(repo, req, false);
  }
}
