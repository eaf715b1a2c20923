/** Release contents: assets, checksum pairs, metadata, and what makes a versioned release complete. */
module DeliveryRelease {
  import opened Options
  import opened DeliveryNames

  /** SHA-256 as a free constructor: equal digests mean equal contents. */
  datatype Digest = Sha256(content: Content)

  /** A file: a checksum record, a JSON release document, or anything else. */
  datatype Content = Blob(bytes: seq<nat>) | Sums(digest: Digest, name: string) | Json(meta: Metadata)

  datatype Record = Record(name: string, digest: Digest, size: nat)

  datatype Metadata = Metadata(schema: string, component: string, version: string, tag: string,
                               sourceSha: string, buildRun: string, assets: seq<Record>)

  /** A file's size: some number that its content decides. */
  function SizeOf(content: Content): nat {
    match content
    case Blob(bytes) => |bytes|
    case Sums(_, name) => 67 + |name|
    case Json(m) => |m.component| + |m.version| + |m.tag| + |m.sourceSha| + |m.buildRun| + |m.assets|
  }

  datatype Asset = Asset(name: string, content: Content)

  type Files = map<string, Content>

  datatype Request = Request(component: string, version: string, sourceSha: string, runId: string, assets: seq<Asset>)

  /** A directory lists each name once. */
  predicate IsDirectory(assets: seq<Asset>) {
    forall i, j :: 0 <= i < j < |assets| ==> assets[i].name != assets[j].name
  }

  /** Files by name; a later file replaces an earlier one of the same name. */
  function ByName(assets: seq<Asset>): Files {
    if assets == [] then map[] else
    var last := assets[|assets| - 1];
    ByName(assets[..|assets| - 1])[last.name := last.content]
  }

  /** Every archive has a checksum file with its name and digest, and every checksum file has its archive. */
  predicate ChecksumsPair(files: Files) {
    forall n :: n in files ==>
      if IsChecksumName(n) then
        ArchiveName(n) in files && files[n] == Sums(Sha256(files[ArchiveName(n)]), ArchiveName(n))
      else n + ".sha256" in files
  }

  function RecordOf(a: Asset): Record {
    Record(a.name, Sha256(a.content), SizeOf(a.content))
  }

  function Records(assets: seq<Asset>): seq<Record> {
    seq(|assets|, i requires 0 <= i < |assets| => RecordOf(assets[i]))
  }

  function MetadataOf(req: Request): Metadata {
    Metadata(SCHEMA, req.component, req.version, VersionTag(req.component, req.version), req.sourceSha, req.runId,
      Records(req.assets))
  }

  /** What `build_release_metadata` demands. */
  predicate Buildable(req: Request) {
    && req.component in COMPONENTS && ValidVersion(req.version) && ValidSourceSha(req.sourceSha) && NonBlank(req.runId)
    && req.assets != [] && ChecksumsPair(ByName(req.assets))
  }

  /** The metadata with the provenance that a retry may change left out. */
  function Facts(m: Metadata): Metadata {
    m.(buildRun := "")
  }

  /** The facts a downloaded release document must state. */
  predicate HeaderOk(m: Metadata, component: string, version: string, sha: Option<string>) {
    && m.schema == SCHEMA && m.component == component && m.version == version && m.tag == VersionTag(component, version)
    && ValidSourceSha(m.sourceSha) && (sha.Some? ==> m.sourceSha == sha.value) && NonBlank(m.buildRun)
    && m.assets != []
  }

  predicate NamesOnce(records: seq<Record>) {
    forall i, j :: 0 <= i < j < |records| ==> records[i].name != records[j].name
  }

  /** The records name exactly the files, with their digests and sizes. */
  predicate RecordsMatch(records: seq<Record>, files: Files) {
    && NamesOnce(records)
    && (set r | r in records :: r.name) == files.Keys
    && (forall r :: r in records ==>
      r.name in files && r.digest == Sha256(files[r.name]) && r.size == SizeOf(files[r.name]))
  }

  /** What a complete versioned release holds. */
  predicate CompleteRelease(component: string, version: string, sha: Option<string>, files: Files) {
    && METADATA in files && files[METADATA].Json?
    && HeaderOk(files[METADATA].meta, component, version, sha)
    && RecordsMatch(files[METADATA].meta.assets, files - {METADATA})
    && ChecksumsPair(files - {METADATA})
  }

  /** The records by name, or None when a name repeats. */
  method IndexRecords(records: seq<Record>) returns (index: Option<map<string, Record>>)
    ensures index.Some? <==> NamesOnce(records)
    ensures index.Some? ==> index.value.Keys == set r | r in records :: r.name
    ensures index.Some? ==> forall r :: r in records ==> r.name in index.value && index.value[r.name] == r
    ensures index.Some? ==> forall n :: n in index.value ==> index.value[n] in records && index.value[n].name == n
  {
    var byName: map<string, Record> := map[];
    for i := 0 to |records|
      invariant NamesOnce(records[..i])
      invariant byName.Keys == set r | r in records[..i] :: r.name
      invariant forall n :: n in byName ==> byName[n] in records[..i] && byName[n].name == n
      invariant forall j :: 0 <= j < i ==> records[j].name in byName && byName[records[j].name] == records[j]
    {
      var r := records[i];
      assert records[..i + 1] == records[..i] + [r];
      if r.name in byName {
        var j :| 0 <= j < i && records[j] == byName[r.name];
        return None;
      }
      byName := byName[r.name := r];
    }
    assert records[..|records|] == records;
    return Some(byName);
  }

  /** Walks the downloaded release the way the program does, first failure out. */
  method ValidatedRelease(component: string, version: string, sha: Option<string>, files: Files)
    returns (meta: Option<Metadata>)
    ensures meta.Some? <==> CompleteRelease(component, version, sha, files)
    ensures meta.Some? ==> METADATA in files && files[METADATA] == Json(meta.value)
  {
    hide ChecksumsPair, HeaderOk, NamesOnce;
    if METADATA !in files || !files[METADATA].Json? {
      return None;
    }
    var m := files[METADATA].meta;
    if !HeaderOk(m, component, version, sha) {
      return None;
    }
    var index := IndexRecords(m.assets);
    var local := files - {METADATA};
    if index.None? || index.value.Keys != local.Keys {
      return None;
    }
    if n :| n in local && (index.value[n].digest != Sha256(local[n]) || index.value[n].size != SizeOf(local[n])) {
      assert index.value[n] in m.assets;
      return None;
    }
    if !ChecksumsPair(local) {
      return None;
    }
    return Some(m);
  }

  // ---- files by name ----

  lemma {:induction false} ByNameKeys(assets: seq<Asset>)
    ensures forall n :: n in ByName(assets) <==> exists i :: 0 <= i < |assets| && assets[i].name == n
  {
    if assets != [] {
      ByNameKeys(assets[..|assets| - 1]);
    }
  }

  lemma {:induction false} ByNameAt(assets: seq<Asset>, i: nat)
    requires IsDirectory(assets) && i < |assets|
    ensures assets[i].name in ByName(assets) && ByName(assets)[assets[i].name] == assets[i].content
  {
    if i < |assets| - 1 {
      ByNameAt(assets[..|assets| - 1], i);
    }
  }

  lemma ByNamePush(assets: seq<Asset>, a: Asset)
    ensures ByName(assets + [a]) == ByName(assets)[a.name := a.content]
  {
    assert (assets + [a])[..|assets|] == assets;
  }

  /** The files a successful publication leaves under the version tag. */
  function Published(req: Request, doc: Content): Files {
    ByName(req.assets)[METADATA := doc]
  }

  /** The records of a directory name exactly its files. */
  lemma RecordsFit(assets: seq<Asset>)
    requires IsDirectory(assets)
    ensures RecordsMatch(Records(assets), ByName(assets))
  {
    hide ByName;
    ByNameKeys(assets);
    forall i | 0 <= i < |assets|
      ensures assets[i].name in ByName(assets) && ByName(assets)[assets[i].name] == assets[i].content
    {
      ByNameAt(assets, i);
    }
    forall n ensures n in (set r | r in Records(assets) :: r.name) <==> n in ByName(assets) {
      if n in ByName(assets) {
        var i :| 0 <= i < |assets| && assets[i].name == n;
        assert Records(assets)[i] in Records(assets) && Records(assets)[i].name == n;
      }
    }
  }

  /** A published request is complete, with the provenance of whichever run recorded it first. */
  lemma PublishedComplete(req: Request, m: Metadata)
    requires Buildable(req) && IsDirectory(req.assets) && METADATA !in ByName(req.assets)
    requires Facts(m) == Facts(MetadataOf(req)) && NonBlank(m.buildRun)
    ensures CompleteRelease(req.component, req.version, Some(req.sourceSha), Published(req, Json(m)))
  {
    hide ByName, ChecksumsPair, RecordsMatch, ValidVersion, ValidSourceSha, NonBlank;
    RecordsFit(req.assets);
    assert m.assets == Records(req.assets);
    assert Published(req, Json(m)) - {METADATA} == ByName(req.assets);
  }

  /** No file can contain a document that lists the file's own digest. */
  lemma NoSelfDigest(content: Content, m: Metadata, i: nat)
    requires i < |m.assets| && m.assets[i].digest == Sha256(content)
    ensures content != Json(m)
  {
  }
}
