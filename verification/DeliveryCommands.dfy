/** The building blocks of publication: metadata commit, tags, uploads, the rolling alias. */
module DeliveryCommands {
  import opened DeliveryRelease
  import opened DeliveryRemote
  import opened CutOff

  /** The recorded metadata, if any, states the same facts as `m`. */
  predicate SameFacts(r: Remote, path: string, m: Metadata) {
    path in r.files && r.files[path].content.Json? && Facts(r.files[path].content.meta) == Facts(m)
  }

  /** Reuses the recorded metadata when only its provenance differs, or records it. */
  method EnsureMetadataCommit(repo: Repository, path: string, m: Metadata)
    returns (s: Status, commit: nat, doc: Content)
    modifies repo
    ensures path in old(repo.remote).files ==> repo.remote == old(repo.remote) && s != Cut
    ensures path !in old(repo.remote).files ==>
      repo.remote == if s == Done then Commit(old(repo.remote), path, Json(m)) else old(repo.remote)
    ensures s == Refused <==> path in old(repo.remote).files && !SameFacts(old(repo.remote), path, m)
    ensures Cuts(old(repo.budget), repo.budget, s)
    ensures s == Done ==> SameFacts(repo.remote, path, m) && repo.remote.files[path] == Recorded(doc, commit)
  {
    if path in repo.remote.files {
      var existing := repo.remote.files[path];
      commit, doc := existing.commit, existing.content;
      s := if SameFacts(repo.remote, path, m) then Done else Refused;
    } else {
      commit, doc := repo.remote.commits, Json(m);
      s := repo.PutFile(path, doc);
    }
  }

  /** Leaves a tag that already points at the commit alone, and refuses to move one that must not move. */
  method EnsureTag(repo: Repository, tag: string, commit: nat, movable: bool) returns (s: Status)
    modifies repo
    ensures s == Done ==> repo.remote == PointTag(old(repo.remote), tag, commit)
    ensures s != Done ==> repo.remote == old(repo.remote)
    ensures s == Refused <==> !movable && tag in old(repo.remote).tags && old(repo.remote).tags[tag] != commit
    ensures Cuts(old(repo.budget), repo.budget, s)
  {
    if tag in repo.remote.tags {
      if repo.remote.tags[tag] == commit {
        assert repo.remote.tags[tag := commit] == repo.remote.tags;
        return Done;
      }
      if !movable {
        return Refused;
      }
    }
    s := repo.SetTag(tag, commit);
  }

  ghost predicate Absent(assets: seq<Asset>, files: Files) {
    forall i :: 0 <= i < |assets| ==> assets[i].name !in files
  }

  lemma UnionPush(files: Files, assets: seq<Asset>, i: nat)
    requires i < |assets|
    ensures (files + ByName(assets[..i]))[assets[i].name := assets[i].content] == files + ByName(assets[..i + 1])
  {
    assert assets[..i + 1] == assets[..i] + [assets[i]];
    ByNamePush(assets[..i], assets[i]);
  }

  lemma NothingAdded(files: Files, assets: seq<Asset>)
    ensures files + ByName(assets[..0]) == files
  {
    assert assets[..0] == [];
  }

  /** Uploads assets whose names must be free; a cut leaves a prefix of them. */
  method UploadNew(repo: Repository, tag: string, assets: seq<Asset>) returns (s: Status, ghost n: nat)
    requires tag in repo.remote.releases
    modifies repo
    ensures n <= |assets| &&
      repo.remote == SetRelease(old(repo.remote), tag, old(repo.remote).releases[tag] + ByName(assets[..n]))
    ensures IsDirectory(assets[..n]) && Absent(assets[..n], old(repo.remote).releases[tag])
    ensures s == Done ==> n == |assets|
    ensures s == Refused ==> !(IsDirectory(assets) && Absent(assets, old(repo.remote).releases[tag]))
    ensures Cuts(old(repo.budget), repo.budget, s)
  {
    hide SetRelease, ByName;
    ghost var start, files := repo.remote, repo.remote.releases[tag];
    NothingAdded(files, assets);
    SetReleaseAlgebra(start, tag, files, files);
    n := 0;
    s := Done;
    for i := 0 to |assets|
      invariant Cuts(old(repo.budget), repo.budget, Done)
      invariant s == Done && n == i
      invariant repo.remote == SetRelease(start, tag, files + ByName(assets[..i]))
      invariant IsDirectory(assets[..i]) && Absent(assets[..i], files)
    {
      ghost var sofar := files + ByName(assets[..i]);
      SetReleaseAlgebra(start, tag, sofar, sofar[assets[i].name := assets[i].content]);
      ByNameKeys(assets[..i]);
      s := repo.UploadAsset(tag, assets[i]);
      if s != Done {
        if s == Refused && assets[i].name in ByName(assets[..i]) {
          var j :| 0 <= j < i && assets[..i][j].name == assets[i].name;
          assert !IsDirectory(assets);
        }
        return;
      }
      UnionPush(files, assets, i);
      n := i + 1;
    }
    assert assets[..|assets|] == assets;
  }

  /** `gh release create` with assets: the empty release first, then the assets one by one. */
  method CreateRelease(repo: Repository, tag: string, assets: seq<Asset>) returns (s: Status, ghost n: nat)
    requires tag !in repo.remote.releases
    modifies repo
    ensures n <= |assets|
    ensures repo.remote == old(repo.remote) || repo.remote == SetRelease(old(repo.remote), tag, ByName(assets[..n]))
    ensures s == Done ==>
      n == |assets| && IsDirectory(assets) && repo.remote == SetRelease(old(repo.remote), tag, ByName(assets))
    ensures s == Refused ==> !IsDirectory(assets)
    ensures Cuts(old(repo.budget), repo.budget, s)
  {
    n := 0;
    s := repo.CreateEmptyRelease(tag);
    if s == Done {
      s, n := UploadNew(repo, tag, assets);
      assert map[] + ByName(assets[..n]) == ByName(assets[..n]);
      assert assets[..|assets|] == assets;
    }
  }

  /** Some of the assets replaced, or deleted for the next one. */
  ghost predicate Replacing(was: Files, assets: seq<Asset>, files: Files) {
    exists i :: 0 <= i <= |assets| && ReplacingAt(was, assets, i, files)
  }

  ghost predicate ReplacingAt(was: Files, assets: seq<Asset>, i: nat, files: Files)
    requires i <= |assets|
  {
    var sofar := was + ByName(assets[..i]);
    files == sofar || (i < |assets| && files == sofar - {assets[i].name})
  }

  /** Replaces assets one by one: delete when present, then upload. */
  method UploadClobber(repo: Repository, tag: string, assets: seq<Asset>) returns (s: Status, ghost files: Files)
    requires tag in repo.remote.releases
    modifies repo
    ensures repo.remote == SetRelease(old(repo.remote), tag, files)
    ensures s == Done ==> files == old(repo.remote).releases[tag] + ByName(assets)
    ensures Replacing(old(repo.remote).releases[tag], assets, files)
    ensures s != Refused
    ensures Cuts(old(repo.budget), repo.budget, s)
  {
    hide SetRelease, ByName;
    files := repo.remote.releases[tag];
    ghost var start, was := repo.remote, files;
    NothingAdded(was, assets);
    SetReleaseAlgebra(start, tag, files, files);
    s := Done;
    for i := 0 to |assets|
      invariant Cuts(old(repo.budget), repo.budget, Done)
      invariant s == Done && repo.remote == SetRelease(start, tag, files)
      invariant files == was + ByName(assets[..i])
    {
      SetReleaseAlgebra(start, tag, files, files);
      s, files := ReplaceAsset(repo, tag, assets[i]);
      SetReleaseAlgebra(start, tag, was + ByName(assets[..i]), files);
      if s != Done {
        assert ReplacingAt(was, assets, i, files);
        return;
      }
      UnionPush(was, assets, i);
    }
    assert assets[..|assets|] == assets;
    assert ReplacingAt(was, assets, |assets|, files);
  }

  method ReplaceAsset(repo: Repository, tag: string, asset: Asset) returns (s: Status, ghost files: Files)
    requires tag in repo.remote.releases
    modifies repo
    ensures repo.remote == SetRelease(old(repo.remote), tag, files)
    ensures s == Done ==> files == old(repo.remote).releases[tag][asset.name := asset.content]
    ensures s == Cut ==>
      files == old(repo.remote).releases[tag] || files == old(repo.remote).releases[tag] - {asset.name}
    ensures s != Refused
    ensures Cuts(old(repo.budget), repo.budget, s)
  {
    hide SetRelease;
    ghost var start, was := repo.remote, repo.remote.releases[tag];
    files := was;
    SetReleaseAlgebra(start, tag, files, files);
    s := Done;
    if asset.name in repo.remote.releases[tag] {
      s := repo.DeleteAsset(tag, asset.name);
      if s != Done {
        return;
      }
      files := was - {asset.name};
    }
    SetReleaseAlgebra(start, tag, files, files[asset.name := asset.content]);
    s := repo.UploadAsset(tag, asset);
    if s != Done {
      return;
    }
    files := files[asset.name := asset.content];
    assert files == was[asset.name := asset.content];
  }

  /** Only files outside `keep` have gone, and none has changed. */
  ghost predicate Thinned(before: Files, files: Files, keep: set<string>) {
    && (forall n :: n in files ==> n in before && files[n] == before[n])
    && (forall n :: n in before && n in keep ==> n in files)
  }

  /** Deletes every asset the alias should no longer carry, and no other. */
  method DeleteObsolete(repo: Repository, tag: string, keep: set<string>) returns (s: Status, ghost files: Files)
    requires tag in repo.remote.releases
    modifies repo
    ensures repo.remote == SetRelease(old(repo.remote), tag, files)
    ensures s == Done ==> files.Keys <= keep
    ensures Thinned(old(repo.remote).releases[tag], files, keep)
    ensures s != Refused
    ensures Cuts(old(repo.budget), repo.budget, s)
  {
    hide SetRelease;
    files := repo.remote.releases[tag];
    ghost var start := repo.remote;
    SetReleaseAlgebra(start, tag, files, files);
    s := Done;
    var obsolete := repo.remote.releases[tag].Keys - keep;
    while obsolete != {}
      invariant Cuts(old(repo.budget), repo.budget, Done)
      invariant s == Done && repo.remote == SetRelease(start, tag, files)
      invariant obsolete == files.Keys - keep && Thinned(start.releases[tag], files, keep)
      decreases obsolete
    {
      var name :| name in obsolete;
      SetReleaseAlgebra(start, tag, files, files - {name});
      KeysWithout(files, name, keep);
      s := repo.DeleteAsset(tag, name);
      if s != Done {
        return;
      }
      files := files - {name};
      obsolete := obsolete - {name};
    }
    NoneLeft(files.Keys, keep);
  }

  lemma KeysWithout(files: Files, name: string, keep: set<string>)
    ensures (files - {name}).Keys - keep == files.Keys - keep - {name}
  {
  }

  lemma NoneLeft(names: set<string>, keep: set<string>)
    requires names - keep == {}
    ensures names <= keep
  {
    assert forall n :: n in names && n !in keep ==> n in names - keep;
  }

  /** While a release is refreshed at most one wanted file that it had is missing; each file is the old or the new. */
  ghost predicate Refreshing(before: Files, wanted: Files, files: Files) {
    && (exists gap :: AllBut(gap, before.Keys * wanted.Keys, files.Keys))
    && (forall n :: n in files ==>
        (n in before && files[n] == before[n]) || (n in wanted && files[n] == wanted[n]))
  }

  predicate AllBut(gap: string, names: set<string>, present: set<string>) {
    forall n :: n in names && n != gap ==> n in present
  }

  lemma ThinnedRefreshing(before: Files, wanted: Files, files: Files)
    requires Thinned(before, files, wanted.Keys)
    ensures Refreshing(before, wanted, files)
  {
    assert AllBut("", before.Keys * wanted.Keys, files.Keys);
  }

  lemma ReplacingRefreshing(before: Files, kept: Files, assets: seq<Asset>, files: Files)
    requires IsDirectory(assets) && Thinned(before, kept, ByName(assets).Keys) && Replacing(kept, assets, files)
    ensures Refreshing(before, ByName(assets), files)
  {
    var i :| 0 <= i <= |assets| && ReplacingAt(kept, assets, i, files);
    ByNamePrefix(assets, i);
    var gap := if i < |assets| then assets[i].name else "";
    assert AllBut(gap, before.Keys * ByName(assets).Keys, files.Keys);
  }

  lemma ByNamePrefix(assets: seq<Asset>, i: nat)
    requires IsDirectory(assets) && i <= |assets|
    ensures forall n :: n in ByName(assets[..i]) ==> n in ByName(assets) && ByName(assets)[n] == ByName(assets[..i])[n]
  {
    ByNameKeys(assets[..i]);
    forall n | n in ByName(assets[..i]) ensures n in ByName(assets) && ByName(assets)[n] == ByName(assets[..i])[n] {
      var k :| 0 <= k < i && assets[..i][k].name == n;
      ByNameAt(assets, k);
      ByNameAt(assets[..i], k);
    }
  }

  /** Makes the alias release carry exactly the given assets, whatever it carried before. */
  method PublishAlias(repo: Repository, tag: string, assets: seq<Asset>) returns (s: Status)
    requires IsDirectory(assets)
    modifies repo
    ensures repo.remote == old(repo.remote) || exists files :: repo.remote == SetRelease(old(repo.remote), tag, files)
    ensures s == Done ==> repo.remote == SetRelease(old(repo.remote), tag, ByName(assets))
    ensures tag in old(repo.remote).releases ==>
      tag in repo.remote.releases &&
      Refreshing(old(repo.remote).releases[tag], ByName(assets), repo.remote.releases[tag])
    ensures s != Refused
    ensures Cuts(old(repo.budget), repo.budget, s)
  {
    hide SetRelease, Refreshing, Thinned, Replacing, ByName;
    ghost var start := repo.remote;
    if tag !in repo.remote.releases {
      ghost var n;
      s, n := CreateRelease(repo, tag, assets);
      return;
    }
    ghost var files;
    s, files := DeleteObsolete(repo, tag, set i | 0 <= i < |assets| :: assets[i].name);
    ByNameKeys(assets);
    assert ByName(assets).Keys == set i | 0 <= i < |assets| :: assets[i].name;
    ThinnedRefreshing(start.releases[tag], ByName(assets), files);
    SetReleaseAlgebra(start, tag, files, files);
    if s != Done {
      return;
    }
    ghost var kept := files;
    s, files := UploadClobber(repo, tag, assets);
    SetReleaseAlgebra(start, tag, kept, files);
    SetReleaseAlgebra(start, tag, files, files);
    ReplacingRefreshing(start.releases[tag], kept, assets, files);
    if s != Done {
      return;
    }
    assert kept + ByName(assets) == ByName(assets);
    s := repo.EditNotes(tag);
  }

  /** The files of a release as a directory listing. */
  method ListFiles(files: Files) returns (assets: seq<Asset>)
    ensures IsDirectory(assets) && ByName(assets) == files
  {
    assets := [];
    var rest := files;
    while rest != map[]
      invariant IsDirectory(assets)
      invariant forall n :: n in files <==> n in rest || n in ByName(assets)
      invariant forall n :: n in rest ==> n !in ByName(assets) && rest[n] == files[n]
      invariant forall n :: n in ByName(assets) ==> n in files && ByName(assets)[n] == files[n]
      decreases |rest|
    {
      var n :| n in rest;
      ByNameKeys(assets);
      ByNamePush(assets, Asset(n, rest[n]));
      assets := assets + [Asset(n, rest[n])];
      rest := rest - {n};
    }
  }

  /** Every listed file is among the downloaded ones with the same bytes. */
  predicate Verified(local: seq<Asset>, remote: Files) {
    forall i :: 0 <= i < |local| ==> local[i].name in remote && remote[local[i].name] == local[i].content
  }
}
