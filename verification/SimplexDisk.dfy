/** What a SimpleX reset has to clear, and the state it must reach from any interruption. */
module SimplexDisk {
  import opened Options

  /** A routing or mirror entry; `Sentinel` stands for values that are not records. */
  datatype Entry = Record(simplex: bool, session: string) | Sentinel

  /** `rows` tells which sessions are SimpleX sessions; `family` what deleting a session takes with it. */
  datatype Db = Db(rows: map<string, bool>, routes: map<string, Entry>, family: map<string, set<string>>)

  /** The marker holds the journaled session IDs. `files` are the transcripts, `mirror` is sessions.json beside them. */
  datatype Disk = Disk(marker: Option<set<string>>, db: Option<Db>, mirror: Option<map<string, Entry>>,
                       files: set<string>, home: Option<set<string>>, pairing: set<string>,
                       limits: map<string, map<string, int>>)

  const MIRROR_NAME := "sessions"

  /** Both places where pairing files may lie. */
  const FOLDERS: seq<string> := ["pairing", "platforms/pairing"]

  function Pending(folder: string): string {
    folder + "/simplex-pending.json"
  }

  function Approved(folder: string): string {
    folder + "/simplex-approved.json"
  }

  predicate IsSimplex(e: Entry) {
    e.Record? && e.simplex
  }

  /** Mirror keys that start with an underscore are metadata. */
  predicate Selected(k: string, e: Entry) {
    !("_" <= k) && IsSimplex(e)
  }

  /** So exactly a SimpleX record whose key does not have an underscore as its first character is an entry. */
  lemma SelectedExactly(k: string, e: Entry)
    ensures Selected(k, e) <==> e.Record? && e.simplex && (k == "" || k[0] != '_')
  {
    if k != "" && k[0] == '_' { assert k[..1] == "_"; }
  }

  /** The pairing files of one layout. */
  lemma PairingNames()
    ensures Pending("pairing") == "pairing/simplex-pending.json"
    ensures Approved("pairing") == "pairing/simplex-approved.json"
  {}

  function Family(db: Db, sid: string): set<string> {
    {sid} + if sid in db.family then db.family[sid] else {}
  }

  function Roots(db: Db): set<string> {
    set r | r in db.rows && db.rows[r]
  }

  /** Every session that goes when all SimpleX sessions are deleted. */
  function Doomed(db: Db): set<string> {
    set r, s | r in Roots(db) && s in Family(db, r) :: s
  }

  function RouteIds(routes: map<string, Entry>): set<string> {
    set k | k in routes && IsSimplex(routes[k]) :: routes[k].session
  }

  function MirrorIds(mirror: map<string, Entry>): set<string> {
    set k | k in mirror && Selected(k, mirror[k]) :: mirror[k].session
  }

  /** The session IDs a reset deals with: journaled, mirrored, routed, or about to be deleted. */
  function Gathered(d: Disk): set<string> {
    (if d.marker.Some? then d.marker.value else {})
    + (if d.mirror.Some? then MirrorIds(d.mirror.value) else {})
    + (if d.db.Some? then RouteIds(d.db.value.routes) + Doomed(d.db.value) else {})
  }

  predicate ValidId(s: string) {
    s != "" && forall i :: 0 <= i < |s| ==> IdChar(s[i])
  }

  predicate IdChar(c: char) {
    'A' <= c <= 'Z' || 'a' <= c <= 'z' || '0' <= c <= '9' || c == '_' || c == '-'
  }

  /** The characters of an ID: letters and digits of ASCII, the underscore and the hyphen. */
  lemma IdCharacters(c: char)
    ensures ValidId([c]) <==>
      || c in {'A', 'B', 'C', 'D', 'E', 'F', 'G', 'H', 'I', 'J', 'K', 'L', 'M', 'N', 'O', 'P', 'Q', 'R', 'S', 'T', 'U'}
      || c in {'V', 'W', 'X', 'Y', 'Z', 'a', 'b', 'c', 'd', 'e', 'f', 'g', 'h', 'i', 'j', 'k', 'l', 'm', 'n', 'o', 'p'}
      || c in {'q', 'r', 's', 't', 'u', 'v', 'w', 'x', 'y', 'z', '0', '1', '2', '3', '4', '5', '6', '7', '8', '9'}
      || c in {'_', '-'}
  {
    assert [c][0] == c;
  }

  /** An ID is made of such characters, one or more; so its files lie beside each other and never elsewhere. */
  lemma {:induction false} ValidIdExactly(s: string)
    ensures ValidId(s) <==> s != "" && forall i :: 0 <= i < |s| ==> ValidId([s[i]])
    ensures ValidId(s) ==> '/' !in s && '.' !in s && '\0' !in s
  {
    forall i | 0 <= i < |s| ensures ValidId([s[i]]) <==> IdChar(s[i]) {
      assert [s[i]][0] == s[i];
    }
  }

  predicate HasSuffix(f: string, end: string) {
    |f| >= |end| && f[|f| - |end|..] == end
  }

  /** The files removed for a session: its two transcripts and every name its request-dump pattern matches. */
  predicate Matches(sid: string, f: string) {
    || f == sid + ".json"
    || f == sid + ".jsonl"
    || IsDump(sid, f)
  }

  predicate IsDump(sid: string, f: string) {
    "request_dump_" + sid + "_" <= f && |f| >= |sid| + 19 && HasSuffix(f, ".json")
  }

  predicate Caught(ids: set<string>, f: string) {
    exists s | s in ids :: Matches(s, f)
  }

  predicate SimplexLimit(k: string) {
    "simplex:" <= k || k == "_lockout:simplex" || k == "_failures:simplex"
  }

  /** A limit is SimpleX's when it counts one of its users, or is its lockout or its failures. */
  lemma SimplexLimitExactly(k: string)
    ensures SimplexLimit(k) <==>
      k == "_lockout:simplex" || k == "_failures:simplex" || exists user :: k == "simplex:" + user
  {
    if "simplex:" <= k {
      assert k == "simplex:" + k[8..];
    }
  }

  function KeptLimits(limits: map<string, int>): map<string, int> {
    map k | k in limits && !SimplexLimit(k) :: limits[k]
  }

  function AllKeptLimits(limits: map<string, map<string, int>>): map<string, map<string, int>> {
    map f | f in limits :: KeptLimits(limits[f])
  }

  function KeptRoutes(routes: map<string, Entry>): map<string, Entry> {
    map k | k in routes && !IsSimplex(routes[k]) :: routes[k]
  }

  function KeptMirror(mirror: map<string, Entry>): map<string, Entry> {
    map k | k in mirror && !Selected(k, mirror[k]) :: mirror[k]
  }

  /** What deleting all SimpleX sessions and routes leaves of a database. */
  function KeptDb(db: Db): Db {
    Db(db.rows - Doomed(db), KeptRoutes(db.routes), db.family)
  }

  /**
   * The state an uninterrupted reset leaves. A session that is itself called "sessions" takes the mirror file with it.
   */
  function Target(d: Disk): Disk {
    var ids := Gathered(d);
    Disk(None,
         if d.db.Some? then Some(KeptDb(d.db.value)) else None,
         if d.mirror.Some? && MIRROR_NAME !in ids then Some(KeptMirror(d.mirror.value)) else None,
         (set f | f in d.files && !Caught(ids, f)),
         None, {}, AllKeptLimits(d.limits))
  }

  /** Deleting a session takes its whole family, and a member's family belongs to it; the mirror is not a transcript. */
  predicate Sound(d: Disk) {
    && MIRROR_NAME + ".json" !in d.files
    && (forall f :: f in d.limits ==> f in FOLDERS)
    && (forall p :: p in d.pairing ==> exists f :: f in FOLDERS && (p == Pending(f) || p == Approved(f)))
    && (d.db.Some? ==> Closed(d.db.value))
  }

  predicate Closed(db: Db) {
    forall r :: r in db.family ==> forall s :: s in db.family[r] ==> Family(db, s) <= Family(db, r)
  }

  lemma FamilyClosed(db: Db, r: string, s: string)
    requires Closed(db) && s in Family(db, r)
    ensures Family(db, s) <= Family(db, r)
  {
  }

  /** Where an interrupted database deletion may stand. */
  ghost predicate DbPartway(d: Db, e: Db) {
    && e.family == d.family
    && (forall r :: r in e.rows ==> r in d.rows && e.rows[r] == d.rows[r])
    && (forall r :: r in d.rows && r !in e.rows ==> r in Doomed(d))
    && (forall r :: r in Roots(d) && r !in e.rows ==> Family(d, r) !! e.rows.Keys)
    && (forall k :: k in e.routes ==> k in d.routes && e.routes[k] == d.routes[k])
    && (forall k :: k in d.routes && k !in e.routes ==> IsSimplex(d.routes[k]))
  }

  ghost predicate MirrorPartway(d: Option<map<string, Entry>>, e: Option<map<string, Entry>>, ids: set<string>) {
    if e.None? then d.None? || MIRROR_NAME in ids else
    && d.Some?
    && (forall k :: k in e.value ==> k in d.value && e.value[k] == d.value[k])
    && (forall k :: k in d.value && k !in e.value ==> Selected(k, d.value[k]))
  }

  /** Where an interrupted reset may stand once the IDs are journaled. */
  ghost predicate Partway(d: Disk, e: Disk) {
    && e.marker == Some(Gathered(d))
    && (d.db.Some? <==> e.db.Some?)
    && (d.db.Some? ==> DbPartway(d.db.value, e.db.value))
    && MirrorPartway(d.mirror, e.mirror, Gathered(d))
    && e.files <= d.files
    && (forall f :: f in d.files && f !in e.files ==> Caught(Gathered(d), f))
    && e.pairing <= d.pairing
    && LimitsPartway(d.limits, e.limits)
  }

  /** Before the journal only pairing files and limits have changed. */
  ghost predicate Early(d: Disk, e: Disk) {
    e == d.(pairing := e.pairing, limits := e.limits) && e.pairing <= d.pairing && LimitsPartway(d.limits, e.limits)
  }

  ghost predicate LimitsPartway(d: map<string, map<string, int>>, e: map<string, map<string, int>>) {
    e.Keys == d.Keys && forall f :: f in d ==> e[f] == d[f] || e[f] == KeptLimits(d[f])
  }

  lemma LimitsTarget(d: map<string, map<string, int>>, e: map<string, map<string, int>>)
    requires LimitsPartway(d, e)
    ensures AllKeptLimits(e) == AllKeptLimits(d)
  {
    forall f | f in d ensures KeptLimits(KeptLimits(d[f])) == KeptLimits(d[f]) {}
  }

  lemma EarlyTrans(a: Disk, b: Disk, c: Disk)
    requires Early(a, b) && Early(b, c)
    ensures Early(a, c)
  {
    forall f | f in a.limits ensures KeptLimits(KeptLimits(a.limits[f])) == KeptLimits(a.limits[f]) {}
  }

  lemma EarlyTarget(d: Disk, e: Disk)
    requires Sound(d) && Early(d, e)
    ensures Gathered(e) == Gathered(d) && Sound(e)
    ensures Target(e) == Target(d)
  {
    LimitsTarget(d.limits, e.limits);
  }

  lemma RootsLeft(d: Db, e: Db)
    requires DbPartway(d, e)
    ensures Roots(e) <= Roots(d) && Doomed(e) <= Doomed(d)
    ensures forall s :: s in e.rows && s in Doomed(d) ==> s in Doomed(e)
  {
    forall r | r in Roots(e) ensures r in Roots(d) && Family(e, r) == Family(d, r) {}
    forall s | s in e.rows && s in Doomed(d) ensures s in Doomed(e) {
      var r :| r in Roots(d) && s in Family(d, r);
      assert r in e.rows;
      assert r in Roots(e) && s in Family(e, r);
    }
  }

  /** Deleting some SimpleX sessions first and the rest later deletes the same rows. */
  lemma DbTarget(d: Db, e: Db)
    requires DbPartway(d, e)
    ensures Doomed(e) <= Doomed(d) && RouteIds(e.routes) <= RouteIds(d.routes)
    ensures e.rows - Doomed(e) == d.rows - Doomed(d)
    ensures KeptRoutes(e.routes) == KeptRoutes(d.routes)
  {
    hide Doomed, Roots, Family;
    RootsLeft(d, e);
    assert e.rows - Doomed(e) == d.rows - Doomed(d);
  }

  /** No interruption after the journal changes what the reset deals with, nor where it will end. */
  lemma PartwayTarget(d: Disk, e: Disk)
    requires Sound(d) && Partway(d, e)
    ensures Gathered(e) == Gathered(d) && Sound(e)
    ensures Target(e) == Target(d)
  {
    var ids := Gathered(d);
    if d.db.Some? { DbTarget(d.db.value, e.db.value); }
    if e.mirror.Some? {
      assert MirrorIds(e.mirror.value) <= MirrorIds(d.mirror.value);
      assert KeptMirror(e.mirror.value) == KeptMirror(d.mirror.value);
    }
    assert Gathered(e) == ids;
    LimitsTarget(d.limits, e.limits);
    assert Target(e).files == Target(d).files;
  }

  /** A finished reset leaves no session, route, mirror entry or transcript of SimpleX, and no barrier. */
  lemma TargetClears(d: Disk)
    ensures var t := Target(d);
      && t.marker.None? && t.home.None? && t.pairing == {} && Gathered(t) == {}
      && (t.db.Some? ==>
        Roots(t.db.value) == {} && (forall k :: k in t.db.value.routes ==> !IsSimplex(t.db.value.routes[k])))
      && (t.mirror.Some? ==> forall k :: k in t.mirror.value ==> !Selected(k, t.mirror.value[k]))
      && (forall sid, f :: sid in Gathered(d) && f in t.files ==> !Matches(sid, f))
  {
    var t := Target(d);
    if d.db.Some? {
      forall r | r in Roots(d.db.value) ensures r in Doomed(d.db.value) { assert r in Family(d.db.value, r); }
      assert Roots(t.db.value) == {};
      assert Doomed(t.db.value) == {};
    }
  }

  /** Every row, route, mirror entry and limit that is not SimpleX's stays as it is. */
  ghost predicate OthersKept(d: Disk, t: Disk) {
    && (d.db.Some? ==> t.db.Some?)
    && (d.db.Some? ==>
      forall r :: r in d.db.value.rows && !d.db.value.rows[r] ==> r in t.db.value.rows && !t.db.value.rows[r])
    && (d.db.Some? ==> forall k :: k in d.db.value.routes && !IsSimplex(d.db.value.routes[k]) ==>
        k in t.db.value.routes && t.db.value.routes[k] == d.db.value.routes[k])
    && (d.mirror.Some? ==> forall k :: k in d.mirror.value && !Selected(k, d.mirror.value[k]) ==>
        t.mirror.Some? && k in t.mirror.value && t.mirror.value[k] == d.mirror.value[k])
    && (forall f, k :: f in d.limits && k in d.limits[f] && !SimplexLimit(k) ==>
        f in t.limits && k in t.limits[f] && t.limits[f][k] == d.limits[f][k])
  }

  /**
   * Other platforms keep everything but files exactly when no SimpleX session's family holds one of their sessions and
   * no gathered ID names the mirror file.
   */
  lemma OthersKeptIff(d: Disk)
    ensures OthersKept(d, Target(d)) <==>
      && (d.db.Some? ==> forall r :: r in Doomed(d.db.value) && r in d.db.value.rows ==> d.db.value.rows[r])
      && (MIRROR_NAME in Gathered(d) && d.mirror.Some? ==>
        forall k :: k in d.mirror.value ==> Selected(k, d.mirror.value[k]))
  {
    var t := Target(d);
    if d.mirror.Some? && MIRROR_NAME in Gathered(d) { assert t.mirror.None?; }
    if d.mirror.Some? && MIRROR_NAME !in Gathered(d) { assert t.mirror == Some(KeptMirror(d.mirror.value)); }
    if d.db.Some? {
      var db := d.db.value;
      forall r | r in db.rows ensures r in t.db.value.rows <==> r !in Doomed(db) {}
    }
  }

  /** What other platforms keep in the end state, files included, they keep wherever a reset to it has got to. */
  lemma OthersKeptPartway(d: Disk, e: Disk)
    requires Target(e) == Target(d)
    ensures OthersKept(d, Target(d)) ==> OthersKept(d, e)
    ensures forall f :: f in d.files && !Caught(Gathered(d), f) ==> f in e.files
  {
    hide Gathered, Caught, Doomed, SimplexLimit;
    assert AllKeptLimits(e.limits) == AllKeptLimits(d.limits);
    forall f | f in d.files && !Caught(Gathered(d), f) ensures f in e.files {
      assert f in Target(d).files && f in Target(e).files;
    }
  }

  const DUMP := "request_dump_"

  /**
   * A transcript goes exactly when its own session was gathered or, for the first kind, when its session's ID is itself
   * shaped like a request dump of a gathered one.
   */
  lemma TranscriptsKept(ids: set<string>, o: string)
    ensures Caught(ids, o + ".json") <==> o in ids || exists s | s in ids :: DUMP + s + "_" <= o
    ensures Caught(ids, o + ".jsonl") <==> o in ids
  {
    forall s | s in ids
      ensures Matches(s, o + ".json") <==> s == o || DUMP + s + "_" <= o
      ensures Matches(s, o + ".jsonl") <==> s == o
    {
      MatchesTranscript(s, o);
    }
  }

  lemma MatchesTranscript(s: string, o: string)
    ensures Matches(s, o + ".json") <==> s == o || DUMP + s + "_" <= o
    ensures Matches(s, o + ".jsonl") <==> s == o
  {
    SameStem(s, o, ".json");
    SameStem(s, o, ".jsonl");
    EndsApart(s, o);
    EndsApart(o, s);
    DumpTranscript(s, o);
  }

  lemma DumpTranscript(s: string, o: string)
    ensures IsDump(s, o + ".json") <==> DUMP + s + "_" <= o
    ensures !IsDump(s, o + ".jsonl")
  {
    var head, f, g := DUMP + s + "_", o + ".json", o + ".jsonl";
    assert g[|g| - 5..][4] == 'l' && ".json"[4] == 'n';
    assert f[|f| - 5..] == ".json";
    assert |o| >= |head| ==> f[..|head|] == o[..|head|];
  }

  lemma EndsApart(s: string, t: string)
    ensures s + ".json" != t + ".jsonl"
  {
    var f, g := s + ".json", t + ".jsonl";
    assert f[|f| - 1] == 'n' && g[|g| - 1] == 'l';
  }

  lemma SameStem(s: string, o: string, end: string)
    ensures s + end == o + end ==> s == o
  {
    if s + end == o + end {
      assert s == (s + end)[..|s|] && o == (o + end)[..|o|];
    }
  }

  /**
   * A request dump goes exactly when some gathered ID, followed by an underscore, starts its session's ID and suffix,
   * or when its name is the transcript of a gathered session: disjoint IDs are not enough to keep it apart.
   */
  lemma DumpsKept(ids: set<string>, o: string, rest: string)
    ensures Caught(ids, DUMP + o + "_" + rest + ".json") <==>
      DUMP + o + "_" + rest in ids || exists s | s in ids :: s + "_" <= o + "_" + rest
  {
    forall s | s in ids
      ensures Matches(s, DUMP + o + "_" + rest + ".json") <==> s == DUMP + o + "_" + rest || s + "_" <= o + "_" + rest
    {
      MatchesDump(s, o, rest);
    }
  }

  lemma MatchesDump(s: string, o: string, rest: string)
    ensures Matches(s, DUMP + o + "_" + rest + ".json") <==> s == DUMP + o + "_" + rest || s + "_" <= o + "_" + rest
  {
    var stem := o + "_" + rest;
    assert DUMP + o + "_" + rest == DUMP + stem;
    assert (DUMP + stem) + ".json" == DUMP + (stem + ".json");
    SameStem(s, DUMP + stem, ".json");
    EndsApart(DUMP + stem, s);
    MatchesStem(s, stem);
  }

  lemma MatchesStem(s: string, stem: string)
    ensures IsDump(s, DUMP + (stem + ".json")) <==> s + "_" <= stem
  {
    var f := DUMP + (stem + ".json");
    assert f[|f| - 5..] == ".json";
    assert DUMP + s + "_" == DUMP + (s + "_");
    assert f[..|DUMP|] == DUMP && f[|DUMP|..] == stem + ".json";
    if s + "_" <= stem {
      assert stem == (s + "_") + stem[|s| + 1..];
      assert f == (DUMP + (s + "_")) + (stem[|s| + 1..] + ".json");
    }
    if IsDump(s, f) {
      assert f[|DUMP|..|DUMP| + |s| + 1] == s + "_";
      assert (stem + ".json")[..|s| + 1] == s + "_";
      assert |s| + 1 <= |stem|;
      assert stem[..|s| + 1] == s + "_";
    }
  }

  /** Clearing session s1 also takes the request dumps of an unrelated session s1_2. */
  lemma SharedPrefix()
    ensures "s1_2" !in {"s1"} && Caught({"s1"}, "request_dump_s1_2_0.json")
  {
    assert "request_dump_" + "s1" + "_" <= "request_dump_s1_2_0.json";
    assert HasSuffix("request_dump_s1_2_0.json", ".json");
    assert Matches("s1", "request_dump_s1_2_0.json");
  }

  /** A SimpleX session called like the mirror takes another platform's mirror entry with it. */
  lemma MirrorLost() returns (d: Disk)
    ensures Sound(d) && (forall id :: id in Gathered(d) ==> ValidId(id)) && !OthersKept(d, Target(d))
    ensures d.db.None? && d.mirror.Some? && "other" in d.mirror.value && d.mirror.value["other"] == Record(false, "t")
    ensures Target(d).mirror.None?
  {
    var entries := map["mine" := Record(true, MIRROR_NAME), "other" := Record(false, "t")];
    d := Disk(Some({}), None, Some(entries), {}, None, {}, map[]);
    assert "mine"[0] == 'm' && "other"[0] == 'o' && "_"[0] == '_';
    assert Selected("mine", entries["mine"]) && !Selected("other", entries["other"]);
    assert MirrorIds(entries) == {MIRROR_NAME};
    assert Gathered(d) == {MIRROR_NAME};
    OthersKeptIff(d);
  }
}
