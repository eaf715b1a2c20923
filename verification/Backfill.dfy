/** Copying all versioned releases and then moving each component's alias to its newest version. */
module Backfill {
  import opened Options
  import opened DeliveryNames
  import opened DeliveryRelease
  import opened DeliveryRemote
  import opened CutOff
  import opened DeliveryPublish
  import opened DeliveryHistory
  import opened Versions

  /** A source release whose tag is a component version. */
  datatype Candidate = Candidate(component: string, key: Key, sourceSha: string, releaseId: string, assets: seq<Asset>)

  function Lower(c: char): char {
    if 'A' <= c <= 'Z' then (c as int + 32) as char else c
  }

  predicate StartsWith(s: string, word: string) {
    |s| >= |word| && forall j :: 0 <= j < |word| ==> Lower(s[j]) == word[j]
  }

  predicate Mentions(s: string, word: string) {
    StartsWith(s, word) || (s != [] && Mentions(s[1..], word))
  }

  /** The assets that are not the desktop application's. */
  function CliAssets(assets: seq<Asset>): seq<Asset> {
    if assets == [] then [] else
    var rest := CliAssets(assets[..|assets| - 1]);
    var a := assets[|assets| - 1];
    if Mentions(a.name, "electron") || a.name == "latest-mac.yml" then rest else rest + [a]
  }

  lemma {:induction false} CliAssetsDirectory(assets: seq<Asset>)
    requires IsDirectory(assets)
    ensures IsDirectory(CliAssets(assets))
    ensures forall a :: a in CliAssets(assets) ==> a in assets
  {
    if assets != [] {
      var before := assets[..|assets| - 1];
      CliAssetsDirectory(before);
      forall a | a in CliAssets(before) ensures a.name != assets[|assets| - 1].name {
        var j :| 0 <= j < |before| && before[j] == a;
        assert assets[j] == a;
      }
    }
  }

  function RequestOf(c: Candidate): Request {
    Request(c.component, ShowVersion(c.key), c.sourceSha, "github-release-backfill:" + c.releaseId, CliAssets(c.assets))
  }

  /** A request names its version, its source and the release it was copied from. */
  lemma RequestExample(sha: string)
    ensures RequestOf(Candidate("fsite", Key(1, 20, 3), sha, "77", [])) ==
      Request("fsite", "1.20.3", sha, "github-release-backfill:77", [])
  {
    VersionExample();
  }

  /** The word "electron", in any case, stands at `i`. */
  predicate ElectronAt(s: string, i: nat) {
    i + 8 <= |s| && forall j :: 0 <= j < 8 ==> s[i + j] == "electron"[j] || s[i + j] == "ELECTRON"[j]
  }

  lemma {:induction false} MentionsSpelled(s: string)
    ensures Mentions(s, "electron") <==> exists i :: ElectronAt(s, i)
  {
    assert StartsWith(s, "electron") <==> ElectronAt(s, 0) by {
      assert forall j :: 0 <= j < 8 ==> "electron"[j] as int == "ELECTRON"[j] as int + 32;
    }
    if s != [] {
      hide StartsWith;
      MentionsSpelled(s[1..]);
      forall i: nat ensures ElectronAt(s[1..], i) <==> ElectronAt(s, i + 1) {}
      if i: nat :| ElectronAt(s, i) {
        assert i > 0 ==> ElectronAt(s[1..], i - 1);
      }
    }
  }

  /** Just the desktop application's assets stay behind: those that name Electron in any case, and its update list. */
  lemma {:induction false} CliAssetsExactly(assets: seq<Asset>, a: Asset)
    ensures a in CliAssets(assets) <==>
      a in assets && a.name != "latest-mac.yml" && !exists i :: ElectronAt(a.name, i)
  {
    hide Mentions, ElectronAt;
    if assets != [] {
      CliAssetsExactly(assets[..|assets| - 1], a);
      MentionsSpelled(a.name);
      assert assets == assets[..|assets| - 1] + [assets[|assets| - 1]];
    }
  }

  /** `key` is the greatest version of the component among the candidates, built from `sha`. */
  ghost predicate IsNewest(cs: seq<Candidate>, component: string, key: Key, sha: string) {
    && (exists i :: 0 <= i < |cs| && cs[i].component == component && cs[i].key == key && cs[i].sourceSha == sha)
    && (forall i :: 0 <= i < |cs| && cs[i].component == component ==> !Less(key, cs[i].key))
  }

  /** The greatest version is so as a number: none is above it in any base that the smaller parts stay below. */
  lemma NewestIsGreatest(cs: seq<Candidate>, component: string, key: Key, sha: string, i: nat, base: nat)
    requires IsNewest(cs, component, key, sha) && i < |cs| && cs[i].component == component
    requires key.minor < base && key.patch < base && cs[i].key.minor < base && cs[i].key.patch < base
    ensures (cs[i].key.major * base + cs[i].key.minor) * base + cs[i].key.patch <=
      (key.major * base + key.minor) * base + key.patch
  {
    LessIsNumeric(key, cs[i].key, base);
  }

  /** The component's alias carries its greatest candidate version, complete and byte for byte. */
  ghost predicate AliasAtNewest(r: Remote, cs: seq<Candidate>, component: string) {
    exists key, sha :: IsNewest(cs, component, key, sha) && Promoted(r, component, key, sha)
  }

  ghost predicate Promoted(r: Remote, component: string, key: Key, sha: string) {
    AliasCurrent(r, PlaceOf(component, ShowVersion(key))) && CompleteAt(r, component, ShowVersion(key), Some(sha))
  }

  /** Promoting another component leaves this one's alias and version alone. */
  lemma PromotedKept(a: Remote, b: Remote, component: string, key: Key, sha: string, other: string, version: string)
    requires component in COMPONENTS && other in COMPONENTS && component != other
    requires Promoted(a, component, key, sha) && Confined(a, b, PlaceOf(other, version))
    ensures Promoted(b, component, key, sha)
  {
    hide CompleteRelease;
    var v := ShowVersion(key);
    if VersionTag(component, v) == VersionTag(other, version) { VersionTagInjective(component, v, other, version); }
    if MetadataPath(component, v) == MetadataPath(other, version) {
      MetadataPathInjective(component, v, other, version);
    }
    if AliasTag(component) == AliasTag(other) { AliasTagInjective(component, other); }
    VersionTagIsNoAlias(component, v, other);
    VersionTagIsNoAlias(other, version, component);
  }

  lemma BuiltComponent(req: Request)
    ensures Buildable(req) ==> req.component in COMPONENTS
  {
  }

  // ---- when a backfill gets through ----

  /** The candidates are different versions that can be built, and none has a file called release.json. */
  ghost predicate Publishable(cs: seq<Candidate>) {
    && (forall i :: 0 <= i < |cs| ==> Buildable(RequestOf(cs[i])) && METADATA !in ByName(RequestOf(cs[i]).assets))
    && (forall i, j :: 0 <= i < j < |cs| ==> cs[i].component != cs[j].component || cs[i].key != cs[j].key)
  }

  predicate SourceDirectories(cs: seq<Candidate>) {
    forall i :: 0 <= i < |cs| ==> IsDirectory(cs[i].assets)
  }

  /** The remote holds nothing of any candidate that contradicts it. */
  ghost predicate AllCompatible(r: Remote, cs: seq<Candidate>) {
    forall i :: 0 <= i < |cs| ==> Compatible(r, RequestOf(cs[i]))
  }

  ghost predicate FirstPublished(r: Remote, cs: seq<Candidate>, n: nat)
    requires n <= |cs|
  {
    forall i :: 0 <= i < n ==> PublishedAt(r, RequestOf(cs[i]))
  }

  /** Publishing one candidate leaves all others where they stand. */
  lemma CandidateKept(a: Remote, b: Remote, cs: seq<Candidate>, n: nat, i: nat)
    requires Publishable(cs) && n < |cs| && i < |cs| && i != n
    requires Confined(a, b, PlaceOf(cs[n].component, ShowVersion(cs[n].key)))
    ensures Compatible(a, RequestOf(cs[i])) ==> Compatible(b, RequestOf(cs[i]))
    ensures PublishedAt(a, RequestOf(cs[i])) ==> PublishedAt(b, RequestOf(cs[i]))
  {
    hide Compatible, PublishedAt, Confined, SamePlace, CliAssets, Buildable, ByName;
    var c, d := cs[i], cs[n];
    BuiltComponent(RequestOf(c));
    BuiltComponent(RequestOf(d));
    if ShowVersion(c.key) == ShowVersion(d.key) {
      ShowVersionInjective(c.key, d.key);
    }
    OthersKept(a, b, d.component, ShowVersion(d.key), c.component, ShowVersion(c.key));
    SamePlaceCompatible(a, b, RequestOf(c));
  }

  lemma CopyStep(a: Remote, b: Remote, cs: seq<Candidate>, n: nat, s: Status)
    requires Publishable(cs) && AllCompatible(a, cs) && n < |cs| && FirstPublished(a, cs, n)
    requires Confined(a, b, PlaceOf(cs[n].component, ShowVersion(cs[n].key))) && Outcome(a, b, RequestOf(cs[n]), s)
    ensures AllCompatible(b, cs) && s != Refused
    ensures s == Done ==> FirstPublished(b, cs, n + 1)
  {
    hide Compatible, PublishedAt, Confined, Buildable, ByName, CompleteAt, AlreadyComplete, Filled, Contradicted;
    forall i | 0 <= i < |cs| && i != n
      ensures Compatible(b, RequestOf(cs[i])) && (PublishedAt(a, RequestOf(cs[i])) ==> PublishedAt(b, RequestOf(cs[i])))
    {
      CandidateKept(a, b, cs, n, i);
    }
  }

  /** Promoting a published candidate leaves every candidate published. */
  lemma PromoteStep(a: Remote, b: Remote, cs: seq<Candidate>, n: nat)
    requires Publishable(cs) && n < |cs| && FirstPublished(a, cs, |cs|)
    requires Confined(a, b, PlaceOf(cs[n].component, ShowVersion(cs[n].key)))
    requires var tag := VersionTag(cs[n].component, ShowVersion(cs[n].key));
      tag in a.releases && tag in b.releases && b.releases[tag] == a.releases[tag]
    ensures FirstPublished(b, cs, |cs|)
  {
    hide Confined, Buildable, ByName, Published, Includes, CliAssets;
    forall i | 0 <= i < |cs| ensures PublishedAt(b, RequestOf(cs[i])) {
      if i == n {
        PlaceKept(a, b, RequestOf(cs[n]));
        SamePlaceCompatible(a, b, RequestOf(cs[n]));
      } else {
        CandidateKept(a, b, cs, n, i);
      }
    }
  }

  /** A published candidate can be promoted. */
  lemma PublishedPromotable(r: Remote, c: Candidate)
    requires IsDirectory(c.assets) && Buildable(RequestOf(c)) && METADATA !in ByName(RequestOf(c).assets)
    requires PublishedAt(r, RequestOf(c))
    ensures Promotable(r, c.component, ShowVersion(c.key), Some(c.sourceSha))
  {
    hide Buildable, ByName, CompleteRelease, CliAssets, Promotable;
    CliAssetsDirectory(c.assets);
    PublishedIsComplete(r, RequestOf(c));
    CompletePromotable(r, RequestOf(c));
  }

  /** Publishes every candidate in turn and notes the greatest version of each component. */
  method CopyAll(repo: Repository, cs: seq<Candidate>) returns (ok: bool, newest: map<string, (Key, string)>)
    requires SourceDirectories(cs)
    modifies repo
    ensures Cuts(old(repo.budget), repo.budget, Done)
    ensures ok ==> newest.Keys == set i | 0 <= i < |cs| :: cs[i].component
    ensures ok ==> forall c :: c in newest ==> c in COMPONENTS && IsNewest(cs, c, newest[c].0, newest[c].1)
    ensures Publishable(cs) && old(AllCompatible(repo.remote, cs)) ==>
      && AllCompatible(repo.remote, cs)
      && (ok ==> FirstPublished(repo.remote, cs, |cs|))
      && (repo.budget.None? ==> ok)
    ensures forall c :: c in COMPONENTS ==> AliasKept(old(repo.remote), repo.remote, AliasTag(c))
  {
    hide Confined, Outcome, AliasCurrent, AliasKept, IsNewest, CliAssets, Buildable, Publishable;
    hide AllCompatible, FirstPublished;
    newest := map[];
    ghost var sound := Publishable(cs) && AllCompatible(repo.remote, cs);
    NonePublished(repo.remote, cs);
    for i := 0 to |cs|
      invariant Cuts(old(repo.budget), repo.budget, Done)
      invariant newest.Keys == set j | 0 <= j < i :: cs[j].component
      invariant forall c :: c in newest ==> c in COMPONENTS && IsNewest(cs[..i], c, newest[c].0, newest[c].1)
      invariant sound ==> AllCompatible(repo.remote, cs) && FirstPublished(repo.remote, cs, i)
      invariant forall c :: c in COMPONENTS ==> AliasKept(old(repo.remote), repo.remote, AliasTag(c))
    {
      var c := cs[i];
      var req := RequestOf(c);
      CliAssetsDirectory(c.assets);
      CandidateBuilds(cs, i);
      if req.assets == [] {
        return false, newest;
      }
      ghost var before := repo.remote;
      var s := PublishRelease(repo, req, false);
      BuiltComponent(req);
      AliasesKept(old(repo.remote), before, repo.remote, c.component, ShowVersion(c.key));
      if sound {
        CopyStep(before, repo.remote, cs, i, s);
      }
      if s != Done {
        return false, newest;
      }
      assert cs[..i + 1] == cs[..i] + [c];
      newest := NoteNewest(cs[..i], newest, c);
    }
    assert cs[..|cs|] == cs;
    ok := true;
  }

  lemma NonePublished(r: Remote, cs: seq<Candidate>)
    ensures FirstPublished(r, cs, 0)
    ensures forall c :: c in COMPONENTS ==> AliasKept(r, r, AliasTag(c))
  {
  }

  /** Another call that is not to move an alias leaves all of them as they were. */
  lemma AliasesKept(a: Remote, b: Remote, d: Remote, component: string, version: string)
    requires forall c :: c in COMPONENTS ==> AliasKept(a, b, AliasTag(c))
    requires Confined(b, d, PlaceOf(component, version)) && AliasKept(b, d, AliasTag(component))
    requires component in COMPONENTS || d == b
    ensures forall c :: c in COMPONENTS ==> AliasKept(a, d, AliasTag(c))
  {
    hide Confined, AliasKept;
    forall c | c in COMPONENTS ensures AliasKept(a, d, AliasTag(c)) {
      AliasStays(b, d, component, version, c);
      AliasKeptTrans(a, b, d, AliasTag(c));
    }
  }

  lemma CandidateBuilds(cs: seq<Candidate>, i: nat)
    requires i < |cs|
    ensures Publishable(cs) ==> Buildable(RequestOf(cs[i])) && RequestOf(cs[i]).assets != []
  {
  }

  /** Notes a candidate when it is the component's first or greater than the one noted. */
  method NoteNewest(ghost cs: seq<Candidate>, newest: map<string, (Key, string)>, c: Candidate)
    returns (r: map<string, (Key, string)>)
    requires forall d :: d in newest ==> IsNewest(cs, d, newest[d].0, newest[d].1)
    requires newest.Keys == set j | 0 <= j < |cs| :: cs[j].component
    ensures r.Keys == newest.Keys + {c.component}
    ensures r.Keys == set j | 0 <= j < |cs + [c]| :: (cs + [c])[j].component
    ensures forall d :: d in r ==> IsNewest(cs + [c], d, r[d].0, r[d].1)
  {
    r := newest;
    if c.component !in newest || Less(newest[c.component].0, c.key) {
      r := newest[c.component := (c.key, c.sourceSha)];
    }
    forall d | d in r ensures IsNewest(cs + [c], d, r[d].0, r[d].1) {
      NewestGrows(cs, c, d, if d in newest then Some(newest[d]) else None, r[d]);
    }
    assert (cs + [c])[|cs|] == c && forall j :: 0 <= j < |cs| ==> (cs + [c])[j] == cs[j];
  }

  lemma NewestGrows(cs: seq<Candidate>, c: Candidate, d: string, was: Option<(Key, string)>, now: (Key, string))
    requires was.Some? ==> IsNewest(cs, d, was.value.0, was.value.1)
    requires was.None? ==> forall i :: 0 <= i < |cs| ==> cs[i].component != d
    requires was.None? ==> c.component == d
    requires now ==
      if c.component == d && (was.None? || Less(was.value.0, c.key)) then (c.key, c.sourceSha) else was.value
    ensures IsNewest(cs + [c], d, now.0, now.1)
  {
    var all := cs + [c];
    if now == (c.key, c.sourceSha) && c.component == d {
      assert all[|cs|] == c;
    } else {
      var i :| 0 <= i < |cs| && cs[i].component == d && cs[i].key == now.0 && cs[i].sourceSha == now.1;
      assert all[i] == cs[i];
    }
    forall i | 0 <= i < |all| && all[i].component == d ensures !Less(now.0, all[i].key) {
      if i < |cs| {
        assert all[i] == cs[i];
      }
    }
  }

  /** The noted version of a component is one of the published candidates, so its promotion is not refused. */
  lemma NewestPromotes(r: Remote, cs: seq<Candidate>, component: string, key: Key, sha: string) returns (n: nat)
    requires SourceDirectories(cs) && Publishable(cs) && FirstPublished(r, cs, |cs|) &&
      IsNewest(cs, component, key, sha)
    ensures n < |cs| && cs[n].component == component && cs[n].key == key
    ensures Promotable(r, component, ShowVersion(key), Some(sha))
  {
    hide Buildable, PublishedAt, ByName, Promotable;
    n :| 0 <= n < |cs| && cs[n].component == component && cs[n].key == key && cs[n].sourceSha == sha;
    PublishedPromotable(r, cs[n]);
  }

  lemma PromotableTag(r: Remote, component: string, version: string, sha: Option<string>)
    requires Promotable(r, component, version, sha)
    ensures VersionTag(component, version) in r.releases
  {
  }

  /** Promotes the noted version of every component. */
  method PromoteAll(repo: Repository, newest: map<string, (Key, string)>, ghost cs: seq<Candidate>) returns (ok: bool)
    requires SourceDirectories(cs)
    requires forall c :: c in newest ==> c in COMPONENTS && IsNewest(cs, c, newest[c].0, newest[c].1)
    modifies repo
    ensures Cuts(old(repo.budget), repo.budget, Done)
    ensures ok ==> forall c :: c in newest ==> Promoted(repo.remote, c, newest[c].0, newest[c].1)
    ensures Publishable(cs) && old(FirstPublished(repo.remote, cs, |cs|)) ==>
      FirstPublished(repo.remote, cs, |cs|) && (repo.budget.None? ==> ok)
    ensures forall c :: c in COMPONENTS && c !in newest ==> AliasKept(old(repo.remote), repo.remote, AliasTag(c))
  {
    hide Confined, AliasCurrent, AliasKept, CompleteAt, Promotable, Publishable;
    hide FirstPublished, IsNewest, SourceDirectories;
    var left := newest.Keys;
    ghost var sound := Publishable(cs) && FirstPublished(repo.remote, cs, |cs|);
    NonePublished(repo.remote, cs);
    while left != {}
      invariant Cuts(old(repo.budget), repo.budget, Done)
      invariant left <= newest.Keys
      invariant forall c :: c in newest && c !in left ==> Promoted(repo.remote, c, newest[c].0, newest[c].1)
      invariant sound ==> FirstPublished(repo.remote, cs, |cs|)
      invariant forall d :: d in COMPONENTS && d !in newest ==> AliasKept(old(repo.remote), repo.remote, AliasTag(d))
      decreases left
    {
      var c :| c in left;
      var (key, sha) := newest[c];
      ghost var before := repo.remote;
      var s := PromoteReleaseAlias(repo, c, ShowVersion(key), Some(sha));
      if sound {
        var n := NewestPromotes(before, cs, c, key, sha);
        PromotableTag(before, c, ShowVersion(key), Some(sha));
        PromoteStep(before, repo.remote, cs, n);
      }
      forall d | d in COMPONENTS && d !in newest ensures AliasKept(old(repo.remote), repo.remote, AliasTag(d)) {
        AliasStays(before, repo.remote, c, ShowVersion(key), d);
        AliasKeptTrans(old(repo.remote), before, repo.remote, AliasTag(d));
      }
      if s != Done {
        return false;
      }
      left := left - {c};
      forall d | d in newest && d !in left && d != c ensures Promoted(repo.remote, d, newest[d].0, newest[d].1) {
        PromotedKept(before, repo.remote, d, newest[d].0, newest[d].1, c, ShowVersion(key));
      }
    }
    ok := true;
  }

  lemma PublishedCompatible(r: Remote, cs: seq<Candidate>)
    ensures FirstPublished(r, cs, |cs|) ==> AllCompatible(r, cs)
  {
    hide Compatible;
  }

  /**
   * A full backfill. When it reports success every candidate component's alias is at its greatest version. From a
   * remote that contradicts no candidate it can only be cut off, and wherever that happens it can be run again.
   */
  method RunBackfill(repo: Repository, cs: seq<Candidate>) returns (ok: bool)
    requires SourceDirectories(cs)
    modifies repo
    ensures ok ==> cs != [] && forall i :: 0 <= i < |cs| ==> AliasAtNewest(repo.remote, cs, cs[i].component)
    ensures Publishable(cs) && old(AllCompatible(repo.remote, cs)) ==>
      && AllCompatible(repo.remote, cs)
      && (ok ==> FirstPublished(repo.remote, cs, |cs|))
      && (old(repo.budget).None? && cs != [] ==> ok)
    ensures forall c :: c in COMPONENTS && (forall i :: 0 <= i < |cs| ==> cs[i].component != c) ==>
      AliasKept(old(repo.remote), repo.remote, AliasTag(c))
  {
    hide AliasKept, Promoted, IsNewest, Publishable, FirstPublished, AllCompatible, SourceDirectories;
    NonePublished(repo.remote, cs);
    if cs == [] {
      return false;
    }
    var newest;
    ok, newest := CopyAll(repo, cs);
    ghost var copied := repo.remote;
    if ok {
      ok := PromoteAll(repo, newest, cs);
      PublishedCompatible(repo.remote, cs);
      forall c | c in COMPONENTS && c !in newest ensures AliasKept(old(repo.remote), repo.remote, AliasTag(c)) {
        AliasKeptTrans(old(repo.remote), copied, repo.remote, AliasTag(c));
      }
    }
    if ok {
      forall i | 0 <= i < |cs| ensures AliasAtNewest(repo.remote, cs, cs[i].component) {
        var c := cs[i].component;
        assert c in newest && Promoted(repo.remote, c, newest[c].0, newest[c].1);
      }
    }
  }

  /** Backfills cut off anywhere and started again: one that is not cut off brings every candidate and alias out. */
  method BackfillWithRetries(repo: Repository, cs: seq<Candidate>, budgets: seq<Option<nat>>) returns (ok: bool)
    requires SourceDirectories(cs) && Publishable(cs) && cs != [] && AllCompatible(repo.remote, cs)
    modifies repo
    ensures AllCompatible(repo.remote, cs)
    ensures None in budgets ==> ok
    ensures ok ==> FirstPublished(repo.remote, cs, |cs|)
    ensures ok ==> forall i :: 0 <= i < |cs| ==> AliasAtNewest(repo.remote, cs, cs[i].component)
  {
    hide Publishable, FirstPublished, AllCompatible, SourceDirectories, AliasAtNewest;
    for i := 0 to |budgets|
      invariant AllCompatible(repo.remote, cs) && None !in budgets[..i]
    {
      repo.budget := budgets[i];
      ok := RunBackfill(repo, cs);
      if ok {
        return;
      }
    }
    ok := false;
  }
}
