/** Publishing a versioned release and promoting its rolling alias. */
module DeliveryPublish {
  import opened Options
  import opened DeliveryNames
  import opened DeliveryRelease
  import opened DeliveryRemote
  import opened CutOff
  import opened DeliveryCommands

  /** The names one release lives under. */
  datatype Place = Place(path: string, tag: string, alias: string)

  function PlaceOf(component: string, version: string): Place {
    Place(MetadataPath(component, version), VersionTag(component, version), AliasTag(component))
  }

  /** One call's effect as others see it: it only adds, and only in its own place. */
  ghost predicate Confined(a: Remote, b: Remote, p: Place) {
    Grows(a, b, p.alias) && Touches(a, b, p.path, p.tag, p.alias)
  }

  lemma ConfinedTrans(a: Remote, b: Remote, c: Remote, p: Place)
    requires Confined(a, b, p) && Confined(b, c, p)
    ensures Confined(a, c, p)
  {
    GrowsTrans(a, b, c, p.alias);
    TouchesTrans(a, b, c, p.path, p.tag, p.alias);
  }

  /** The commit a tag of this release has to name. */
  function RecordCommit(r: Remote, p: Place): nat {
    if p.path in r.files then r.files[p.path].commit else r.commits
  }

  /** The version tag, if any, names the metadata commit. */
  predicate TagFits(r: Remote, p: Place) {
    p.tag in r.tags ==> r.tags[p.tag] == RecordCommit(r, p)
  }

  /** The alias tag names the metadata commit and the alias carries the version's files, name for name. */
  ghost predicate AliasCurrent(r: Remote, p: Place) {
    && p.path in r.files && p.tag in r.releases
    && p.alias in r.tags && r.tags[p.alias] == r.files[p.path].commit
    && p.alias in r.releases && r.releases[p.alias] == r.releases[p.tag]
  }

  /** The alias is as it was: its tag and its release. */
  ghost predicate AliasKept(a: Remote, b: Remote, alias: string) {
    && (alias in a.tags <==> alias in b.tags) && (alias in a.tags ==> b.tags[alias] == a.tags[alias])
    && (alias in a.releases <==> alias in b.releases)
    && (alias in a.releases ==> b.releases[alias] == a.releases[alias])
  }

  lemma AliasKeptTrans(a: Remote, b: Remote, c: Remote, alias: string)
    requires AliasKept(a, b, alias) && AliasKept(b, c, alias)
    ensures AliasKept(a, c, alias)
  {
  }

  /** Metadata recorded, version tag set. */
  ghost predicate Anchored(r: Remote, p: Place, m: Metadata) {
    SameFacts(r, p.path, m) && p.tag in r.tags && r.tags[p.tag] == r.files[p.path].commit
  }

  /** Neither the recorded metadata nor the version tag contradicts `m`. */
  predicate Anchorable(r: Remote, p: Place, m: Metadata) {
    (p.path in r.files ==> SameFacts(r, p.path, m)) && TagFits(r, p)
  }

  /** Records the metadata and points the version tag at it. */
  method Anchor(repo: Repository, p: Place, m: Metadata) returns (s: Status, commit: nat, doc: Content)
    requires p.tag != p.alias
    modifies repo
    ensures Confined(old(repo.remote), repo.remote, p) && repo.remote.releases == old(repo.remote).releases
    ensures s == Done ==> Anchored(repo.remote, p, m) && repo.remote.files[p.path] == Recorded(doc, commit)
    ensures s == Refused ==> !Anchorable(old(repo.remote), p, m)
    ensures s == Done ==> Anchorable(old(repo.remote), p, m)
    ensures p.path in old(repo.remote).files && !SameFacts(old(repo.remote), p.path, m) ==>
      s == Refused && repo.remote == old(repo.remote)
    ensures Cuts(old(repo.budget), repo.budget, s)
    ensures p.path !in old(repo.remote).files && p.path in repo.remote.files ==>
      repo.remote.files[p.path].content == Json(m)
    ensures p.tag !in old(repo.remote).tags && p.tag in repo.remote.tags ==>
      p.path in repo.remote.files && repo.remote.tags[p.tag] == repo.remote.files[p.path].commit
    ensures AliasKept(old(repo.remote), repo.remote, p.alias)
  {
    s, commit, doc := EnsureMetadataCommit(repo, p.path, m);
    if s == Done {
      s := EnsureTag(repo, p.tag, commit, false);
    }
  }

  /** Points the alias tag at the commit and makes the alias carry the files. */
  method RefreshAlias(repo: Repository, p: Place, commit: nat, assets: seq<Asset>) returns (s: Status)
    requires p.tag != p.alias && IsDirectory(assets)
    requires p.path in repo.remote.files && repo.remote.files[p.path].commit == commit
    requires p.tag in repo.remote.releases && repo.remote.releases[p.tag] == ByName(assets)
    modifies repo
    ensures Confined(old(repo.remote), repo.remote, p)
    ensures repo.remote.files == old(repo.remote).files
    ensures p.tag in repo.remote.releases && repo.remote.releases[p.tag] == old(repo.remote).releases[p.tag]
    ensures p.tag in repo.remote.tags <==> p.tag in old(repo.remote).tags
    ensures s == Done ==> AliasCurrent(repo.remote, p)
    ensures s != Refused
    ensures Cuts(old(repo.budget), repo.budget, s)
  {
    s := EnsureTag(repo, p.alias, commit, true);
    if s == Done {
      s := PublishAlias(repo, p.alias, assets);
    }
  }

  /** What `promote_release_alias` demands of its arguments and of the remote. */
  predicate Promotable(r: Remote, component: string, version: string, sha: Option<string>) {
    var p := PlaceOf(component, version);
    && component in COMPONENTS && ValidVersion(version) && (sha.Some? ==> ValidSourceSha(sha.value))
    && p.tag in r.releases && CompleteRelease(component, version, sha, r.releases[p.tag])
    && Anchorable(r, p, r.releases[p.tag][METADATA].meta)
  }

  /** A complete versioned release whose metadata is recorded and tagged. */
  ghost predicate CompleteAt(r: Remote, component: string, version: string, sha: Option<string>) {
    var p := PlaceOf(component, version);
    && p.tag in r.releases && CompleteRelease(component, version, sha, r.releases[p.tag])
    && Anchored(r, p, r.releases[p.tag][METADATA].meta)
  }

  /** Repairs or moves the alias onto a complete versioned release. */
  method PromoteReleaseAlias(repo: Repository, component: string, version: string, sha: Option<string>)
    returns (s: Status)
    modifies repo
    ensures Confined(old(repo.remote), repo.remote, PlaceOf(component, version))
    ensures component !in COMPONENTS ==> repo.remote == old(repo.remote)
    ensures s == Refused ==> !Promotable(old(repo.remote), component, version, sha)
    ensures s == Done ==> Promotable(old(repo.remote), component, version, sha)
    ensures s == Done ==> CompleteAt(repo.remote, component, version, sha)
    ensures Cuts(old(repo.budget), repo.budget, s)
    ensures s == Done ==> AliasCurrent(repo.remote, PlaceOf(component, version))
    ensures var tag := VersionTag(component, version);
      tag in old(repo.remote).releases ==>
        tag in repo.remote.releases && repo.remote.releases[tag] == old(repo.remote).releases[tag]
  {
    var p := PlaceOf(component, version);
    if component !in COMPONENTS || !ValidVersion(version) || (sha.Some? && !ValidSourceSha(sha.value)) {
      return Refused;
    }
    VersionTagIsNoAlias(component, version, component);
    if p.tag !in repo.remote.releases {
      return Refused;
    }
    var files := repo.remote.releases[p.tag];
    var meta := ValidatedRelease(component, version, sha, files);
    if meta.None? {
      return Refused;
    }
    ghost var start := repo.remote;
    var commit, doc;
    s, commit, doc := Anchor(repo, p, meta.value);
    if s != Done {
      return;
    }
    ghost var anchored := repo.remote;
    var assets := ListFiles(files);
    s := RefreshAlias(repo, p, commit, assets);
    ConfinedTrans(start, anchored, repo.remote, p);
  }

  /** The release, if there is one, holds wanted files only. */
  predicate Fillable(r: Remote, tag: string, wanted: seq<Asset>) {
    tag in r.releases ==> Includes(ByName(wanted), r.releases[tag])
  }

  /** Creates the release with all files, or adds the missing ones after checking the present ones. */
  method FillRelease(repo: Repository, p: Place, local: seq<Asset>) returns (s: Status)
    requires p.tag != p.alias
    modifies repo
    ensures Confined(old(repo.remote), repo.remote, p)
    ensures AliasKept(old(repo.remote), repo.remote, p.alias)
    ensures repo.remote.files == old(repo.remote).files && repo.remote.tags == old(repo.remote).tags
    ensures IsDirectory(local) && Fillable(old(repo.remote), p.tag, local) ==>
      s != Refused && Fillable(repo.remote, p.tag, local)
    ensures s == Done ==> p.tag in repo.remote.releases && repo.remote.releases[p.tag] == ByName(local)
    ensures Cuts(old(repo.budget), repo.budget, s)
  {
    if p.tag in repo.remote.releases {
      s := TopUp(repo, p, local);
    } else {
      ghost var n;
      s, n := CreateRelease(repo, p.tag, local);
      PrefixIncluded(local, n);
    }
  }

  /** Adds the files that an existing release lacks, if those it has are as wanted. */
  method TopUp(repo: Repository, p: Place, local: seq<Asset>) returns (s: Status)
    requires p.tag != p.alias && p.tag in repo.remote.releases
    modifies repo
    ensures Confined(old(repo.remote), repo.remote, p)
    ensures AliasKept(old(repo.remote), repo.remote, p.alias)
    ensures repo.remote.files == old(repo.remote).files && repo.remote.tags == old(repo.remote).tags
    ensures p.tag in repo.remote.releases
    ensures Includes(ByName(local), old(repo.remote).releases[p.tag]) ==>
      s != Refused && Includes(ByName(local), repo.remote.releases[p.tag])
    ensures s == Done ==> repo.remote.releases[p.tag] == ByName(local)
    ensures Cuts(old(repo.budget), repo.budget, s)
  {
    var remote := repo.remote.releases[p.tag];
    if !(remote.Keys <= ByName(local).Keys) {
      return Refused;  // unexpected assets
    }
    if !Includes(ByName(local), remote) {
      return Refused;  // an asset with other bytes
    }
    hide SetRelease, Confined, AliasKept, Includes, ByName, Absent, IsDirectory;
    SetConfined(repo.remote, p, remote);
    var missing := ListFiles(ByName(local) - remote.Keys);
    ghost var n;
    s, n := UploadNew(repo, p.tag, missing);
    MissingIncluded(local, remote, missing, n);
    DirectoryPrefix(missing);
    SetConfined(old(repo.remote), p, remote + ByName(missing[..n]));
  }

  lemma DirectoryPrefix(assets: seq<Asset>)
    ensures assets[..|assets|] == assets
  {
  }

  /** Giving a release more files than it has is confined to it. */
  lemma SetConfined(a: Remote, p: Place, files: Files)
    requires p.tag != p.alias && p.tag in a.releases && Includes(files, a.releases[p.tag])
    ensures var b := SetRelease(a, p.tag, files);
      && Confined(a, b, p) && Confined(a, a, p) && AliasKept(a, b, p.alias) && AliasKept(a, a, p.alias)
      && b.files == a.files && b.tags == a.tags && p.tag in b.releases && b.releases[p.tag] == files
  {
  }

  lemma PrefixIncluded(local: seq<Asset>, n: nat)
    requires n <= |local|
    ensures IsDirectory(local) ==> Includes(ByName(local), ByName(local[..n]))
  {
    if IsDirectory(local) {
      ByNameKeys(local[..n]);
      forall x | x in ByName(local[..n]) ensures x in ByName(local) && ByName(local)[x] == ByName(local[..n])[x] {
        var i :| 0 <= i < n && local[..n][i].name == x;
        ByNameAt(local, i);
        ByNameAt(local[..n], i);
      }
    }
  }

  /** Topping a release up stays within the wanted files, and with all of the missing ones it holds exactly those. */
  lemma MissingIncluded(local: seq<Asset>, remote: Files, missing: seq<Asset>, n: nat)
    requires Includes(ByName(local), remote) && n <= |missing|
    requires IsDirectory(missing) && ByName(missing) == ByName(local) - remote.Keys
    ensures Includes(ByName(local), remote + ByName(missing[..n])) && Includes(remote + ByName(missing[..n]), remote)
    ensures Includes(remote, remote)
    ensures n == |missing| ==> remote + ByName(missing[..n]) == ByName(local)
    ensures Absent(missing, remote)
  {
    PrefixIncluded(missing, n);
    ByNameKeys(missing);
    if n == |missing| {
      assert missing[..n] == missing;
    }
  }

  /** `release.json` joins the built files last. */
  function LocalAssets(req: Request, doc: Content): seq<Asset> {
    req.assets + [Asset(METADATA, doc)]
  }

  /** The remote holds nothing of this release, or a prefix of publishing the same facts. */
  ghost predicate Compatible(r: Remote, req: Request) {
    var p := PlaceOf(req.component, req.version);
    && (p.path in r.files ==> SameFacts(r, p.path, MetadataOf(req)) && NonBlank(r.files[p.path].content.meta.buildRun))
    && (p.tag in r.tags ==> p.path in r.files && r.tags[p.tag] == r.files[p.path].commit)
    && (p.tag in r.releases ==> p.path in r.files && p.tag in r.tags)
    && (p.tag in r.releases ==> Includes(Published(req, r.files[p.path].content), r.releases[p.tag]))
  }

  /** The release is out: its files are the built ones and the recorded metadata. */
  ghost predicate PublishedAt(r: Remote, req: Request) {
    var p := PlaceOf(req.component, req.version);
    && Compatible(r, req) && p.path in r.files && p.tag in r.tags && p.tag in r.releases
    && r.releases[p.tag] == Published(req, r.files[p.path].content)
  }

  lemma LocalByName(req: Request, doc: Content)
    requires IsDirectory(req.assets)
    ensures ByName(LocalAssets(req, doc)) == Published(req, doc)
    ensures IsDirectory(LocalAssets(req, doc)) <==> METADATA !in ByName(req.assets)
  {
    ByNamePush(req.assets, Asset(METADATA, doc));
    ByNameKeys(req.assets);
    var local := LocalAssets(req, doc);
    if METADATA in ByName(req.assets) {
      var i :| 0 <= i < |req.assets| && req.assets[i].name == METADATA;
      assert local[i].name == local[|req.assets|].name;
    }
  }

  lemma DirectoryVerified(local: seq<Asset>)
    requires IsDirectory(local)
    ensures Verified(local, ByName(local))
  {
    forall i | 0 <= i < |local|
      ensures local[i].name in ByName(local) && ByName(local)[local[i].name] == local[i].content
    {
      ByNameAt(local, i);
    }
  }

  /** A built file called release.json can never verify: the document would have to contain its own digest. */
  lemma ClashFails(req: Request, m: Metadata)
    requires IsDirectory(req.assets) && METADATA in ByName(req.assets) && Facts(m) == Facts(MetadataOf(req))
    ensures !Verified(LocalAssets(req, Json(m)), ByName(LocalAssets(req, Json(m))))
  {
    LocalByName(req, Json(m));
    ByNameKeys(req.assets);
    var i :| 0 <= i < |req.assets| && req.assets[i].name == METADATA;
    var local := LocalAssets(req, Json(m));
    assert m.assets == Records(req.assets) && m.assets[i] == Records(req.assets)[i];
    NoSelfDigest(req.assets[i].content, m, i);
    assert local[i] == req.assets[i];
  }

  /** A complete release inside the wanted files is all of them. */
  lemma CompleteIsPublished(req: Request, m: Metadata, files: Files)
    requires IsDirectory(req.assets) && METADATA !in ByName(req.assets) && Facts(m) == Facts(MetadataOf(req))
    requires Includes(Published(req, Json(m)), files)
    requires CompleteRelease(req.component, req.version, Some(req.sourceSha), files)
    ensures files == Published(req, Json(m))
  {
    ByNameKeys(req.assets);
    assert files[METADATA] == Json(m) && m.assets == Records(req.assets);
    forall n | n in Published(req, Json(m)) ensures n in files {
      if n != METADATA {
        var i :| 0 <= i < |req.assets| && req.assets[i].name == n;
        assert m.assets[i] in m.assets && m.assets[i].name == n;
        assert n in (set r | r in m.assets :: r.name);
      }
    }
  }

  /** The metadata is recorded with the request's facts and the version tag carries exactly the wanted files. */
  ghost predicate Filled(r: Remote, req: Request) {
    var p := PlaceOf(req.component, req.version);
    && Anchored(r, p, MetadataOf(req))
    && p.tag in r.releases && r.releases[p.tag] == Published(req, r.files[p.path].content)
  }

  /** What the steps after the completeness check promise. */
  ghost predicate FreshOutcome(a: Remote, b: Remote, req: Request, s: Status) {
    && (METADATA !in ByName(req.assets) && Compatible(a, req) ==> s != Refused && Compatible(b, req))
    && (s == Done ==> METADATA !in ByName(req.assets) && Filled(b, req))
    && (Contradicted(a, req) ==> s == Refused && b == a)
  }

  /** Metadata with other facts is already recorded for this version. */
  predicate Contradicted(r: Remote, req: Request) {
    var p := PlaceOf(req.component, req.version);
    p.path in r.files && !SameFacts(r, p.path, MetadataOf(req))
  }

  lemma AnchorCompatible(a: Remote, b: Remote, req: Request)
    requires Compatible(a, req) && Buildable(req)
    requires b.releases == a.releases && Confined(a, b, PlaceOf(req.component, req.version))
    requires var p := PlaceOf(req.component, req.version);
      && (p.path !in a.files && p.path in b.files ==> b.files[p.path].content == Json(MetadataOf(req)))
      && (p.tag !in a.tags && p.tag in b.tags ==> p.path in b.files && b.tags[p.tag] == b.files[p.path].commit)
    ensures Compatible(b, req)
  {
    VersionTagIsNoAlias(req.component, req.version, req.component);
  }

  /** Everything after the completeness check: metadata, tag, files, verification, alias. */
  method PublishFresh(repo: Repository, req: Request, refresh: bool) returns (s: Status)
    requires Buildable(req) && IsDirectory(req.assets)
    modifies repo
    ensures Confined(old(repo.remote), repo.remote, PlaceOf(req.component, req.version))
    ensures FreshOutcome(old(repo.remote), repo.remote, req, s)
    ensures !refresh ==> AliasKept(old(repo.remote), repo.remote, AliasTag(req.component))
    ensures s == Done && refresh ==> AliasCurrent(repo.remote, PlaceOf(req.component, req.version))
    ensures Cuts(old(repo.budget), repo.budget, s)
  {
    hide Confined, Anchored, AliasCurrent, AliasKept, ByName, TagFits, Buildable;
    hide Published, LocalAssets, IsDirectory, Verified;
    var p := PlaceOf(req.component, req.version);
    ghost var start := repo.remote;
    PlaceDistinct(req);
    var commit, doc;
    s, commit, doc := Anchor(repo, p, MetadataOf(req));
    ghost var anchored := repo.remote;
    if METADATA !in ByName(req.assets) && Compatible(start, req) {
      CompatibleAnchorable(start, req);
      AnchorCompatible(start, anchored, req);
    }
    if s != Done {
      return;
    }
    var local := LocalAssets(req, doc);
    LocalByName(req, doc);
    AnchoredFacts(anchored, p, MetadataOf(req));
    s := FillRelease(repo, p, local);
    ghost var filled := repo.remote;
    ConfinedTrans(start, anchored, filled, p);
    AliasKeptTrans(start, anchored, filled, p.alias);
    if s != Done {
      return;
    }
    if METADATA in ByName(req.assets) {
      ClashFails(req, doc.meta);
    } else {
      DirectoryVerified(local);
    }
    if !Verified(local, repo.remote.releases[p.tag]) {
      return Refused;
    }
    AnchoredKept(anchored, filled, p, MetadataOf(req));
    if refresh {
      s := RefreshAlias(repo, p, commit, local);
      ConfinedTrans(start, filled, repo.remote, p);
      ConfinedTag(filled, repo.remote, p);
      AnchoredKept(filled, repo.remote, p, MetadataOf(req));
    }
  }

  lemma PlaceDistinct(req: Request)
    requires Buildable(req)
    ensures PlaceOf(req.component, req.version).tag != PlaceOf(req.component, req.version).alias
  {
    VersionTagIsNoAlias(req.component, req.version, req.component);
  }

  lemma CompatibleAnchorable(r: Remote, req: Request)
    requires Compatible(r, req)
    ensures Anchorable(r, PlaceOf(req.component, req.version), MetadataOf(req))
  {
  }

  lemma AnchoredFacts(r: Remote, p: Place, m: Metadata)
    requires Anchored(r, p, m)
    ensures SameFacts(r, p.path, m) && p.tag in r.tags && r.tags[p.tag] == r.files[p.path].commit
  {
  }

  lemma AnchoredKept(a: Remote, b: Remote, p: Place, m: Metadata)
    requires Anchored(a, p, m) && b.files == a.files && p.tag in b.tags && b.tags[p.tag] == a.tags[p.tag]
    ensures Anchored(b, p, m)
  {
  }

  lemma ConfinedTag(a: Remote, b: Remote, p: Place)
    requires Confined(a, b, p) && p.tag in a.tags && p.tag != p.alias
    ensures p.tag in b.tags && b.tags[p.tag] == a.tags[p.tag]
  {
  }

  /** Publishes a versioned release, or finds it complete and at most refreshes its alias. */
  method PublishRelease(repo: Repository, req: Request, refresh: bool) returns (s: Status)
    requires IsDirectory(req.assets)
    modifies repo
    ensures Confined(old(repo.remote), repo.remote, PlaceOf(req.component, req.version))
    ensures !Buildable(req) ==> s == Refused && repo.remote == old(repo.remote)
    ensures Buildable(req) ==> Outcome(old(repo.remote), repo.remote, req, s)
    ensures !refresh ==> AliasKept(old(repo.remote), repo.remote, AliasTag(req.component))
    ensures s == Done && refresh ==> AliasCurrent(repo.remote, PlaceOf(req.component, req.version))
    ensures Cuts(old(repo.budget), repo.budget, s)
  {
    hide Confined, Outcome, FreshOutcome, AliasCurrent, AliasKept, CompleteRelease, Buildable;
    var p := PlaceOf(req.component, req.version);
    ghost var start := repo.remote;
    if !Buildable(req) {
      ConfinedRefl(start, p);
      return Refused;
    }
    var complete := false;
    if p.tag in repo.remote.releases {
      var meta := ValidatedRelease(req.component, req.version, Some(req.sourceSha), repo.remote.releases[p.tag]);
      complete := meta.Some?;
    }
    if complete {
      s := Done;
      ConfinedRefl(start, p);
      if refresh {
        s := PromoteReleaseAlias(repo, req.component, req.version, Some(req.sourceSha));
      }
      CompleteOutcome(start, repo.remote, req, s);
    } else {
      s := PublishFresh(repo, req, refresh);
      IncompleteOutcome(start, repo.remote, req, s);
    }
  }

  lemma ConfinedRefl(a: Remote, p: Place)
    ensures Confined(a, a, p) && AliasKept(a, a, p.alias)
  {
  }

  /** Whether the release is already complete with this request's source. */
  ghost predicate AlreadyComplete(r: Remote, req: Request) {
    var p := PlaceOf(req.component, req.version);
    p.tag in r.releases && CompleteRelease(req.component, req.version, Some(req.sourceSha), r.releases[p.tag])
  }

  /** What `publish_release` promises for a request that builds. */
  ghost predicate Outcome(a: Remote, b: Remote, req: Request, s: Status) {
    var p := PlaceOf(req.component, req.version);
    // From any cut-off point of the same facts it goes through, and stays retryable when cut again.
    && (METADATA !in ByName(req.assets) && Compatible(a, req) ==> s != Refused && Compatible(b, req))
    && (METADATA !in ByName(req.assets) && Compatible(a, req) && s == Done ==> PublishedAt(b, req))
    // It succeeds only by finding the release complete or by filling it with exactly the built files.
    && (s == Done ==> AlreadyComplete(a, req) || (METADATA !in ByName(req.assets) && Filled(b, req)))
    // A complete release is left as it is, whatever was built this time.
    && (AlreadyComplete(a, req) ==> p.tag in b.releases && b.releases[p.tag] == a.releases[p.tag])
    && (CompleteAt(a, req.component, req.version, Some(req.sourceSha)) ==>
         s != Refused && CompleteAt(b, req.component, req.version, Some(req.sourceSha)))
    // Other facts than the recorded ones are refused without effect.
    && (Contradicted(a, req) && !AlreadyComplete(a, req) ==> s == Refused && b == a)
  }

  lemma IncompleteOutcome(a: Remote, b: Remote, req: Request, s: Status)
    requires !AlreadyComplete(a, req) && FreshOutcome(a, b, req, s)
    ensures Outcome(a, b, req, s)
  {
    hide Buildable, CompleteRelease, Published, ByName, Grows, Touches;
  }

  /** A confined call keeps a recorded, tagged release recorded and tagged. */
  lemma PlaceKept(a: Remote, b: Remote, req: Request)
    requires Buildable(req) && Confined(a, b, PlaceOf(req.component, req.version))
    ensures var p := PlaceOf(req.component, req.version);
      && (p.path in a.files ==> p.path in b.files && b.files[p.path] == a.files[p.path])
      && (p.tag in a.tags ==> p.tag in b.tags && b.tags[p.tag] == a.tags[p.tag])
  {
    PlaceDistinct(req);
  }

  lemma CompletePromotable(a: Remote, req: Request)
    requires Buildable(req) && AlreadyComplete(a, req)
    requires Compatible(a, req) || CompleteAt(a, req.component, req.version, Some(req.sourceSha))
    ensures Promotable(a, req.component, req.version, Some(req.sourceSha))
  {
    hide ChecksumsPair, HeaderOk, RecordsMatch, ByName;
  }

  lemma CompatibleKept(a: Remote, b: Remote, req: Request)
    requires Buildable(req) && IsDirectory(req.assets) && AlreadyComplete(a, req) && Compatible(a, req)
    requires METADATA !in ByName(req.assets)
    requires Confined(a, b, PlaceOf(req.component, req.version))
    requires var p := PlaceOf(req.component, req.version); p.tag in b.releases && b.releases[p.tag] == a.releases[p.tag]
    ensures PublishedAt(b, req)
  {
    hide Confined, CompleteRelease, Published, Includes, Buildable;
    var p := PlaceOf(req.component, req.version);
    PlaceKept(a, b, req);
    CompleteIsPublished(req, a.files[p.path].content.meta, a.releases[p.tag]);
  }

  lemma CompleteOutcome(a: Remote, b: Remote, req: Request, s: Status)
    requires Buildable(req) && IsDirectory(req.assets) && AlreadyComplete(a, req)
    requires Confined(a, b, PlaceOf(req.component, req.version))
    requires var p := PlaceOf(req.component, req.version); p.tag in b.releases && b.releases[p.tag] == a.releases[p.tag]
    requires s == Refused ==> !Promotable(a, req.component, req.version, Some(req.sourceSha))
    ensures Outcome(a, b, req, s)
  {
    hide Confined, CompleteRelease, ByName, Buildable, Promotable, Compatible, Filled, IsDirectory;
    PlaceKept(a, b, req);
    if Compatible(a, req) {
      CompletePromotable(a, req);
      if METADATA !in ByName(req.assets) {
        CompatibleKept(a, b, req);
      }
    }
    if CompleteAt(a, req.component, req.version, Some(req.sourceSha)) {
      CompletePromotable(a, req);
    }
  }
}
