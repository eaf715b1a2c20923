/** The remote repository, one command at a time, with a cut-off after any number of effects. */
module DeliveryRemote {
  import opened Options
  import opened CutOff
  import opened DeliveryRelease

  /** A committed metadata file: its content and the commit that recorded it. */
  datatype Recorded = Recorded(content: Content, commit: nat)

  datatype Remote = Remote(files: map<string, Recorded>, tags: map<string, nat>, releases: map<string, Files>,
                           commits: nat)

  function Commit(r: Remote, path: string, content: Content): Remote {
    r.(files := r.files[path := Recorded(content, r.commits)], commits := r.commits + 1)
  }

  function PointTag(r: Remote, tag: string, commit: nat): Remote {
    r.(tags := r.tags[tag := commit])
  }

  function SetRelease(r: Remote, tag: string, files: Files): Remote {
    r.(releases := r.releases[tag := files])
  }

  /** Setting a release's files overrides what was set before and touches nothing else. */
  lemma SetReleaseAlgebra(r: Remote, tag: string, a: Files, b: Files)
    ensures tag in SetRelease(r, tag, a).releases && SetRelease(r, tag, a).releases[tag] == a
    ensures SetRelease(SetRelease(r, tag, a), tag, b) == SetRelease(r, tag, b)
    ensures tag in r.releases ==> SetRelease(r, tag, r.releases[tag]) == r
  {
    assert r.releases[tag := a][tag := b] == r.releases[tag := b];
    if tag in r.releases {
      assert r.releases[tag := r.releases[tag]] == r.releases;
    }
  }

  /** Nothing published is lost or changed, except under the alias tag. */
  ghost predicate Grows(a: Remote, b: Remote, alias: string) {
    && (forall p :: p in a.files ==> p in b.files && b.files[p] == a.files[p])
    && (forall t :: t in a.tags && t != alias ==> t in b.tags && b.tags[t] == a.tags[t])
    && (forall t :: t in a.releases && t != alias ==> t in b.releases && Includes(b.releases[t], a.releases[t]))
  }

  /** Every file of `small` is in `big` with the same content. */
  predicate Includes(big: Files, small: Files) {
    forall n :: n in small ==> n in big && big[n] == small[n]
  }

  /** Nothing outside one release, its metadata file and its alias is touched. */
  ghost predicate Touches(a: Remote, b: Remote, path: string, tag: string, alias: string) {
    && (forall p :: p != path ==> (p in a.files <==> p in b.files) && (p in a.files ==> b.files[p] == a.files[p]))
    && (forall t :: t != tag && t != alias ==>
        (t in a.tags <==> t in b.tags) && (t in a.tags ==> b.tags[t] == a.tags[t]) &&
        (t in a.releases <==> t in b.releases) && (t in a.releases ==> b.releases[t] == a.releases[t]))
  }

  lemma GrowsTrans(a: Remote, b: Remote, c: Remote, alias: string)
    requires Grows(a, b, alias) && Grows(b, c, alias)
    ensures Grows(a, c, alias)
  {
  }

  lemma TouchesTrans(a: Remote, b: Remote, c: Remote, path: string, tag: string, alias: string)
    requires Touches(a, b, path, tag, alias) && Touches(b, c, path, tag, alias)
    ensures Touches(a, c, path, tag, alias)
  {
  }

  /** One writer's view of the repository; `budget` tells how many effects come before the cut-off, if any. */
  class Repository {
    var remote: Remote
    var budget: Option<nat>

    constructor (remote: Remote, budget: Option<nat>)
      ensures this.remote == remote && this.budget == budget
    {
      this.remote := remote;
      this.budget := budget;
    }

    /** Recording a file on the main branch; the remote refuses to overwrite one without its blob. */
    method PutFile(path: string, content: Content) returns (s: Status)
      modifies this
      ensures s == Done ==> path !in old(remote.files) && remote == Commit(old(remote), path, content)
      ensures s != Done ==> remote == old(remote)
      ensures Pays(old(budget), budget, s)
      ensures s == Refused ==> path in remote.files
    {
      if budget == Some(0) {
        return Cut;
      }
      if path in remote.files {
        return Refused;
      }
      budget := Spend(budget);
      remote := Commit(remote, path, content);
      return Done;
    }

    /** Creating a tag, or forcing an existing one. */
    method SetTag(tag: string, commit: nat) returns (s: Status)
      modifies this
      ensures s == Done ==> remote == PointTag(old(remote), tag, commit)
      ensures s == Cut ==> remote == old(remote)
      ensures Pays(old(budget), budget, s)
      ensures s != Refused
    {
      if budget == Some(0) {
        return Cut;
      }
      budget := Spend(budget);
      remote := PointTag(remote, tag, commit);
      return Done;
    }

    method CreateEmptyRelease(tag: string) returns (s: Status)
      requires tag !in remote.releases
      modifies this
      ensures s == Done ==> remote == SetRelease(old(remote), tag, map[])
      ensures s == Cut ==> remote == old(remote)
      ensures Pays(old(budget), budget, s)
      ensures s != Refused
    {
      if budget == Some(0) {
        return Cut;
      }
      budget := Spend(budget);
      remote := SetRelease(remote, tag, map[]);
      return Done;
    }

    /** Uploading one asset; the remote refuses a name that is taken. */
    method UploadAsset(tag: string, asset: Asset) returns (s: Status)
      requires tag in remote.releases
      modifies this
      ensures s == Done ==> asset.name !in old(remote).releases[tag]
      ensures s == Done ==>
        remote == SetRelease(old(remote), tag, old(remote).releases[tag][asset.name := asset.content])
      ensures s != Done ==> remote == old(remote)
      ensures Pays(old(budget), budget, s)
      ensures s == Refused ==> asset.name in remote.releases[tag]
    {
      if budget == Some(0) {
        return Cut;
      }
      if asset.name in remote.releases[tag] {
        return Refused;
      }
      budget := Spend(budget);
      remote := SetRelease(remote, tag, remote.releases[tag][asset.name := asset.content]);
      return Done;
    }

    method DeleteAsset(tag: string, name: string) returns (s: Status)
      requires tag in remote.releases
      modifies this
      ensures s == Done ==> remote == SetRelease(old(remote), tag, old(remote).releases[tag] - {name})
      ensures s == Cut ==> remote == old(remote)
      ensures Pays(old(budget), budget, s)
      ensures s != Refused
    {
      if budget == Some(0) {
        return Cut;
      }
      budget := Spend(budget);
      remote := SetRelease(remote, tag, remote.releases[tag] - {name});
      return Done;
    }

    /** Rewriting release notes, which the model does not hold. */
    method EditNotes(tag: string) returns (s: Status)
      modifies this`budget
      ensures Pays(old(budget), budget, s)
      ensures s != Refused
    {
      if budget == Some(0) {
        return Cut;
      }
      budget := Spend(budget);
      return Done;
    }
  }
}
