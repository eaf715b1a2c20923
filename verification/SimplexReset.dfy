/** The SimpleX reset as it runs: one effect at a time, cut off after any of them, and retried. */
module SimplexReset {
  import opened Options
  import opened CutOff
  import opened SimplexDisk

  /** All rows of a listing, taken a page of at most a hundred at a time. */
  method ReadPages(listing: seq<string>) returns (rows: seq<string>)
    ensures rows == listing
  {
    rows := [];
    while true
      invariant |rows| <= |listing| && rows == listing[..|rows|]
      decreases |listing| - |rows|
    {
      var offset := |rows|;
      var page := listing[offset..if offset + 100 <= |listing| then offset + 100 else |listing|];
      if page == [] { break; }
      rows := rows + page;
    }
  }

  /** The state after the journal and the database deletions, when only `gone` of the rows have been deleted. */
  ghost function RowsGone(d: Disk, db: Db, gone: set<string>): Disk {
    d.(marker := Some(Gathered(d)), db := Some(Db(db.rows - gone, KeptRoutes(db.routes), db.family)))
  }

  ghost predicate GoneSoFar(db: Db, gone: set<string>) {
    gone <= Doomed(db) && forall r :: r in Roots(db) && r in gone ==> Family(db, r) <= gone
  }

  lemma GoneGrows(db: Db, gone: set<string>, r: string)
    requires Closed(db) && GoneSoFar(db, gone) && r in Roots(db)
    ensures GoneSoFar(db, gone + Family(db, r))
  {
    forall s | s in Roots(db) && s in Family(db, r) ensures Family(db, s) <= Family(db, r) { FamilyClosed(db, r, s); }
  }

  lemma RowsGonePartway(d: Disk, gone: set<string>)
    requires d.db.Some? && GoneSoFar(d.db.value, gone)
    ensures Partway(d, RowsGone(d, d.db.value, gone))
  {
    var db, e := d.db.value, RowsGone(d, d.db.value, gone).db.value;
    forall r | r in Roots(db) && r !in e.rows ensures Family(db, r) !! e.rows.Keys {}
    assert DbPartway(db, e);
  }

  function Uncaught(ids: set<string>, files: set<string>): set<string> {
    set f | f in files && !Caught(ids, f)
  }

  /** Deleting one more root stays on the way and adds its family to what is gone. */
  lemma OneMore(d: Disk, gone: set<string>, r: string)
    requires Sound(d) && d.db.Some? && GoneSoFar(d.db.value, gone) && r in Roots(d.db.value)
    ensures var e := RowsGone(d, d.db.value, gone);
      var more := gone + Family(d.db.value, r);
      && RowsGone(d, d.db.value, more) == e.(db := Some(e.db.value.(rows := e.db.value.rows - Family(e.db.value, r))))
      && GoneSoFar(d.db.value, more) && Partway(d, RowsGone(d, d.db.value, more))
  {
    var rows, family := d.db.value.rows, Family(d.db.value, r);
    GoneGrows(d.db.value, gone, r);
    RowsGonePartway(d, gone + family);
    assert rows - gone - family == rows - (gone + family);
  }

  lemma AllGone(db: Db, gone: set<string>)
    requires GoneSoFar(db, gone) && forall r :: r in Roots(db) ==> Family(db, r) <= gone
    ensures gone == Doomed(db)
  {
  }

  class Manager {
    var disk: Disk
    var budget: Option<nat>

    constructor (disk: Disk, budget: Option<nat>)
      ensures this.disk == disk && this.budget == budget
    {
      this.disk, this.budget := disk, budget;
    }

    twostate predicate Paid(s: Status)
      reads this
    {
      Cuts(old(budget), budget, s)
    }

    /** One atomic effect, unless the cut-off comes first. */
    method Write(next: Disk) returns (s: Status)
      modifies this
      ensures Paid(s) && s != Refused && Pays(old(budget), budget, s)
      ensures disk == if s == Done then next else old(disk)
    {
      if budget == Some(0) { return Cut; }
      budget := Spend(budget);
      disk := next;
      return Done;
    }

    /** Record the intent to reset, once. */
    method PrepareReset(managed: bool, enabled: bool) returns (s: Status)
      modifies this
      ensures Paid(s) && (s == Refused <==> !managed || enabled)
      ensures disk == if s == Done && old(disk).marker.None? then old(disk).(marker := Some({})) else old(disk)
    {
      if !managed || enabled { return Refused; }
      s := Done;
      if disk.marker.None? { s := Write(disk.(marker := Some({}))); }
    }

    /** Remove one layout's pairing files and SimpleX's entries in its rate limits. */
    method ClearFolder(folder: string) returns (s: Status)
      modifies this
      ensures Paid(s) && s != Refused && Early(old(disk), disk)
      ensures s == Done ==>
        disk.pairing == old(disk).pairing - {Pending(folder), Approved(folder)} &&
        disk.limits ==
          if folder !in old(disk).limits then old(disk).limits
          else old(disk).limits[folder := KeptLimits(old(disk).limits[folder])]
    {
      hide KeptLimits;
      s := Done;
      if Pending(folder) in disk.pairing {
        s := Write(disk.(pairing := disk.pairing - {Pending(folder)}));
        if s == Cut { return; }
      }
      if Approved(folder) in disk.pairing {
        s := Write(disk.(pairing := disk.pairing - {Approved(folder)}));
        if s == Cut { return; }
      }
      if folder in disk.limits {
        s := Write(disk.(limits := disk.limits[folder := KeptLimits(disk.limits[folder])]));
      }
    }

    /** Clear both layouts. */
    method ClearPairing() returns (s: Status)
      requires Sound(disk)
      modifies this
      ensures Paid(s) && s != Refused && Early(old(disk), disk)
      ensures s == Done ==> disk.pairing == {} && disk.limits == AllKeptLimits(old(disk).limits)
    {
      hide KeptLimits;
      s := ClearFolder(FOLDERS[0]);
      if s == Cut { return; }
      ghost var mid := disk;
      s := ClearFolder(FOLDERS[1]);
      EarlyTrans(old(disk), mid, disk);
    }

    /** Only transcripts of `sid` have gone, and the mirror if the session is called like it. */
    twostate predicate Unlinked(sid: string)
      reads this
    {
      && disk == old(disk).(files := disk.files, mirror := disk.mirror)
      && disk.files <= old(disk).files
      && (forall f :: f in old(disk).files && f !in disk.files ==> Matches(sid, f))
      && (disk.mirror == old(disk).mirror || (sid == MIRROR_NAME && disk.mirror.None?))
    }

    /** Remove one file beside the mirror, which may be the mirror itself; a missing file is no effect. */
    method Unlink(name: string) returns (s: Status)
      modifies this
      ensures Paid(s) && s != Refused
      ensures s == Cut ==> disk == old(disk)
      ensures s == Done && name == MIRROR_NAME + ".json" ==> disk == old(disk).(mirror := None)
      ensures s == Done && name != MIRROR_NAME + ".json" ==> disk == old(disk).(files := old(disk).files - {name})
    {
      s := Done;
      if name == MIRROR_NAME + ".json" {
        if disk.mirror.Some? { s := Write(disk.(mirror := None)); }
      } else if name in disk.files {
        s := Write(disk.(files := disk.files - {name}));
      }
    }

    /** Remove every file whose name the session's request-dump pattern matches. */
    method RemoveDumps(sid: string) returns (s: Status)
      modifies this
      ensures Paid(s) && s != Refused && Unlinked(sid) && disk.mirror == old(disk).mirror
      ensures s == Done ==> disk.files == set f | f in old(disk).files && !IsDump(sid, f)
    {
      var dumps := set f | f in disk.files && IsDump(sid, f);
      hide IsDump;
      s := Done;
      while dumps != {}
        invariant Cuts(old(budget), budget, Done) && s == Done
        invariant disk == old(disk).(files := disk.files) && disk.files <= old(disk).files
        invariant forall f :: f in old(disk).files && f !in disk.files ==> IsDump(sid, f)
        invariant dumps == set f | f in disk.files && IsDump(sid, f)
      {
        var f :| f in dumps;
        s := Write(disk.(files := disk.files - {f}));
        if s == Cut { return; }
        dumps := dumps - {f};
      }
      assert forall f :: f in disk.files && IsDump(sid, f) ==> f in dumps;
    }

    /** Remove every file of one session. */
    method RemoveFor(sid: string) returns (s: Status)
      requires MIRROR_NAME + ".json" !in disk.files
      modifies this
      ensures Paid(s) && s != Refused && Unlinked(sid)
      ensures s == Done ==> disk.files == set f | f in old(disk).files && !Matches(sid, f)
      ensures s == Done ==> disk.mirror == if sid == MIRROR_NAME then None else old(disk).mirror
    {
      hide IsDump;
      SameStem(sid, MIRROR_NAME, ".json");
      EndsApart(MIRROR_NAME, sid);
      s := Unlink(sid + ".json");
      if s == Cut { return; }
      s := Unlink(sid + ".jsonl");
      if s == Cut { return; }
      s := RemoveDumps(sid);
    }

    /** Remove the transcripts of every gathered session. */
    method RemoveTranscripts(ids: set<string>, ghost d: Disk) returns (s: Status)
      requires Sound(d) && Partway(d, disk) && ids == Gathered(d)
      modifies this
      ensures Paid(s) && s != Refused && Partway(d, disk)
      ensures s == Done ==>
        disk == old(disk).(files := Uncaught(ids, old(disk).files),
                           mirror := if MIRROR_NAME in ids then None else old(disk).mirror)
    {
      var todo := ids;
      ghost var start := disk;
      hide Matches, Gathered, Closed, Target, DbPartway, LimitsPartway;
      s := Done;
      while todo != {}
        invariant Cuts(old(budget), budget, Done) && s == Done
        invariant todo <= ids && Partway(d, disk)
        invariant disk == start.(files := disk.files, mirror := disk.mirror) && disk.files <= start.files
        invariant forall f :: f in start.files ==> (f in disk.files <==> !Caught(ids - todo, f))
        invariant disk.mirror == if MIRROR_NAME in ids - todo then None else start.mirror
      {
        var sid :| sid in todo;
        ghost var before := disk;
        s := RemoveFor(sid);
        forall f | f in before.files && f !in disk.files ensures Caught(ids, f) { assert Matches(sid, f); }
        assert Partway(d, disk);
        if s == Cut { return; }
        forall f | f in start.files ensures f in disk.files <==> !Caught(ids - (todo - {sid}), f) {
          assert Caught(ids - (todo - {sid}), f) <==> Caught(ids - todo, f) || Matches(sid, f);
        }
        todo := todo - {sid};
      }
      assert ids - todo == ids;
    }

    /** `gone` of the rows have been deleted, and all of SimpleX's routes. */
    ghost predicate AtRows(d: Disk, gone: set<string>)
      reads this
    {
      d.db.Some? && disk == RowsGone(d, d.db.value, gone) && GoneSoFar(d.db.value, gone) && Partway(d, disk)
    }

    /** Delete one SimpleX session with its family. */
    method DeleteRow(root: string, ghost d: Disk, ghost gone: set<string>) returns (s: Status)
      requires Sound(d) && AtRows(d, gone) && root in Roots(d.db.value)
      modifies this
      ensures Paid(s) && s != Refused
      ensures if s == Done then AtRows(d, gone + Family(d.db.value, root)) else disk == old(disk)
    {
      OneMore(d, gone, root);
      var db := disk.db.value;
      s := Write(disk.(db := Some(db.(rows := db.rows - Family(db, root)))));
    }

    /** Delete every SimpleX session. */
    method DeleteRows(roots: seq<string>, ghost d: Disk) returns (s: Status)
      requires Sound(d) && AtRows(d, {})
      requires forall r :: r in roots <==> r in Roots(d.db.value)
      modifies this
      ensures Paid(s) && s != Refused && Partway(d, disk)
      ensures s == Done ==> disk == RowsGone(d, d.db.value, Doomed(d.db.value))
    {
      hide RowsGone, Partway, GoneSoFar, Doomed, Roots, Family, Sound;
      ghost var gone := {};
      s := Done;
      for i := 0 to |roots|
        invariant Cuts(old(budget), budget, Done) && s == Done
        invariant AtRows(d, gone)
        invariant forall j :: 0 <= j < i ==> Family(d.db.value, roots[j]) <= gone
      {
        s := DeleteRow(roots[i], d, gone);
        if s == Cut { return; }
        gone := gone + Family(d.db.value, roots[i]);
      }
      AllGone(d.db.value, gone);
    }

    /** Delete the database's SimpleX routes and sessions. */
    method ClearDb(ghost d: Disk) returns (s: Status)
      requires Sound(d) && d.db.Some? && disk == d.(marker := Some(Gathered(d)))
      modifies this
      ensures Paid(s) && s != Refused && Partway(d, disk)
      ensures s == Done ==> disk == RowsGone(d, d.db.value, Doomed(d.db.value))
    {
      ghost var start := d.db.value;
      var db := disk.db.value;
      assert DbPartway(db, db);
      s := Write(disk.(db := Some(db.(routes := KeptRoutes(db.routes)))));
      if s == Cut { return; }
      assert db.rows - {} == db.rows;
      RowsGonePartway(d, {});
      var listing := List(Roots(db));
      var roots := ReadPages(listing);
      assert forall r :: r in Roots(db) <==> r in (set x | x in roots);
      s := DeleteRows(roots, d);
    }

    /** Check every gathered ID, journal them all, and only then delete. */
    method ClearSessions() returns (s: Status)
      requires Sound(disk) && disk.marker.Some?
      modifies this
      ensures Paid(s) && disk.marker.Some?
      ensures s == Refused <==> exists id :: id in Gathered(old(disk)) && !ValidId(id)
      ensures disk == old(disk) || Partway(old(disk), disk)
      ensures s == Refused ==> disk == old(disk)
      ensures s == Done ==> disk == Swept(old(disk))
    {
      ghost var d := disk;
      var ids := Gathered(disk);
      if exists id :: id in ids && !ValidId(id) { return Refused; }
      s := Write(disk.(marker := Some(ids)));
      if s == Cut { return; }
      if disk.db.Some? {
        s := ClearDb(d);
        if s == Cut { return; }
      }
      assert Partway(d, disk);
      if disk.mirror.Some? {
        s := Write(disk.(mirror := Some(KeptMirror(disk.mirror.value))));
        if s == Cut { return; }
      }
      assert Partway(d, disk);
      s := RemoveTranscripts(ids, d);
    }

    /** Remove the state directory, a file at a time. */
    method RemoveHome() returns (s: Status)
      modifies this
      ensures Paid(s) && s != Refused && disk == old(disk).(home := disk.home)
      ensures s == Done ==> disk.home.None?
    {
      s := Done;
      if disk.home.None? { return; }
      while disk.home.value != {}
        invariant Cuts(old(budget), budget, Done) && s == Done
        invariant disk == old(disk).(home := disk.home) && disk.home.Some?
        decreases disk.home.value
      {
        var f :| f in disk.home.value;
        s := Write(disk.(home := Some(disk.home.value - {f})));
        if s == Cut { return; }
      }
      s := Write(disk.(home := None));
    }

    /**
     * One attempt to finish the reset. Wherever it stops, the reset still deals with the same sessions and still ends
     * in the same state; it lifts the barrier only in that state.
     */
    method FinishReset(enabled: bool, idle: bool) returns (s: Status)
      requires Sound(disk)
      modifies this
      ensures Paid(s)
      ensures old(disk).marker.None? ==> s == Done && disk == old(disk)
      ensures old(disk).marker.Some? && s == Done ==> disk == Target(old(disk))
      ensures old(disk).marker.Some? && s != Done ==>
        && disk.marker.Some? && Sound(disk)
        && Gathered(disk) == Gathered(old(disk)) && Target(disk) == Target(old(disk))
        && (Early(old(disk), disk) || disk.marker == Some(Gathered(old(disk))))
      ensures old(disk).marker.Some? && s == Refused ==>
        Early(old(disk), disk) && (enabled || !idle || exists id :: id in Gathered(old(disk)) && !ValidId(id))
      ensures old(disk).marker.Some? && (enabled || !idle) ==> s == Refused && disk == old(disk)
    {
      if disk.marker.None? { return Done; }
      LimitsTarget(disk.limits, disk.limits);
      if enabled || !idle { return Refused; }
      hide Gathered, Partway, Early, Target;
      s := ClearPairing();
      ghost var d := disk;
      EarlyTarget(old(disk), d);
      assert Early(old(disk), d) && d.marker.Some? by { EarlyKeepsMarker(old(disk), d); }
      if s == Cut { return; }
      s := ClearSessions();
      if disk != d {
        PartwayTarget(d, disk);
        PartwayJournals(d, disk);
      }
      if s != Done { return; }
      ghost var swept := disk;
      s := RemoveHome();
      if s == Cut {
        SweptTarget(d, disk);
        return;
      }
      SweptTarget(d, disk);
      s := Write(disk.(marker := None));
      if s == Done { SweptIsTarget(old(disk), d, disk); }
    }
  }

  /** Removing the state directory after the sweep changes nothing the reset deals with. */
  lemma SweptTarget(d: Disk, e: Disk)
    requires Sound(d) && e == Swept(d).(home := e.home)
    ensures Gathered(e) == Gathered(d) && Target(e) == Target(d) && Sound(e) && e.marker.Some?
  {
    if d.db.Some? {
      var db, kept := d.db.value, e.db.value;
      forall r | r in Roots(db) ensures r in Doomed(db) { assert r in Family(db, r); }
      assert DbPartway(db, kept);
    }
    assert Partway(d, e);
    PartwayTarget(d, e);
  }

  lemma SweptIsTarget(d: Disk, d1: Disk, e: Disk)
    requires Target(d1) == Target(d) && d1.pairing == {} && d1.limits == AllKeptLimits(d.limits)
    requires e == Swept(d1).(home := None, marker := None)
    ensures e == Target(d)
  {
    assert Target(d1).limits == Target(d).limits;
  }

  lemma PartwayJournals(d: Disk, e: Disk)
    requires Partway(d, e)
    ensures e.marker == Some(Gathered(d))
  {
  }

  lemma EarlyKeepsMarker(d: Disk, e: Disk)
    requires Early(d, e)
    ensures e.marker == d.marker
  {
  }

  /** What clearing the sessions leaves; only the state directory and the journal remain. */
  ghost function Swept(d: Disk): Disk {
    d.(marker := Some(Gathered(d)), db := Target(d).db, mirror := Target(d).mirror, files := Target(d).files)
  }

  /** The elements of a set, in some order. */
  method List(s: set<string>) returns (xs: seq<string>)
    ensures (set x | x in xs) == s
  {
    var todo := s;
    xs := [];
    while todo != {}
      invariant todo <= s && (set x | x in xs) == s - todo
    {
      var x :| x in todo;
      assert (set y | y in xs + [x]) == (set y | y in xs) + {x};
      xs, todo := xs + [x], todo - {x};
    }
  }

  /** One attempt: when it is cut off, and whether the program finds the channel disabled and the daemon stopped. */
  datatype Attempt = Attempt(budget: Option<nat>, enabled: bool, idle: bool)

  /** Nothing cuts the attempt off, and the channel is disabled and its daemon stopped. */
  predicate Admitted(a: Attempt) {
    a.budget.None? && !a.enabled && a.idle
  }

  predicate AllValid(ids: set<string>) {
    forall id :: id in ids ==> ValidId(id)
  }

  /** The session IDs of SimpleX in a database that may be absent: its rows' families, and its routes. */
  function DbIds(db: Option<Db>): (set<string>, set<string>) {
    if db.Some? then (Doomed(db.value), RouteIds(db.value.routes)) else ({}, {})
  }

  /** The same of a mirror file that may be absent. */
  function FileIds(mirror: Option<map<string, Entry>>): set<string> {
    if mirror.Some? then MirrorIds(mirror.value) else {}
  }

  /**
   * What other platforms may do between attempts: anything that neither adds nor removes something of SimpleX's. They
   * may create the database or the mirror file, and remove one that holds nothing of SimpleX's.
   */
  predicate Foreign(d: Disk, e: Disk) {
    && Sound(e) && e.marker == d.marker && e.home == d.home
    && DbIds(e.db) == DbIds(d.db) && FileIds(e.mirror) == FileIds(d.mirror)
  }

  lemma ForeignKeeps(d: Disk, e: Disk)
    requires Foreign(d, e)
    ensures Gathered(e) == Gathered(d)
  {
  }

  /** The channel is fully disconnected: nothing of it is left, nor any file of the sessions in `ids`. */
  ghost predicate Disconnected(d: Disk, ids: set<string>) {
    && d.marker.None? && d.home.None? && d.pairing == {} && Gathered(d) == {}
    && (forall f :: f in d.files ==> !Caught(ids, f))
  }

  lemma TargetDisconnected(d: Disk)
    ensures Disconnected(Target(d), Gathered(d))
  {
    TargetClears(d);
  }

  /**
   * Any number of attempts, with other platforms at work in between: the barrier stays up and the reset keeps dealing
   * with the sessions it began with, until an attempt succeeds and nothing of them is left.
   */
  method Retry(manager: Manager, attempts: seq<Attempt>) returns (done: bool)
    requires Sound(manager.disk) && manager.disk.marker.Some?
    modifies manager
    ensures done ==> Disconnected(manager.disk, old(Gathered(manager.disk)))
    ensures !done ==>
      manager.disk.marker.Some? && Sound(manager.disk) && Gathered(manager.disk) == old(Gathered(manager.disk))
    ensures AllValid(old(Gathered(manager.disk))) && (exists a :: a in attempts && Admitted(a)) ==> done
  {
    hide Sound, Gathered, Early, Target;
    for i := 0 to |attempts|
      invariant manager.disk.marker.Some? && Sound(manager.disk) &&
        Gathered(manager.disk) == old(Gathered(manager.disk))
      invariant AllValid(old(Gathered(manager.disk))) ==> forall j :: 0 <= j < i ==> !Admitted(attempts[j])
    {
      var moved: Disk := *;
      if Foreign(manager.disk, moved) {
        ForeignKeeps(manager.disk, moved);
        manager.disk := moved;
      }
      ghost var before := manager.disk;
      manager.budget := attempts[i].budget;
      var s := manager.FinishReset(attempts[i].enabled, attempts[i].idle);
      if s == Done {
        TargetDisconnected(before);
        return true;
      }
    }
    return false;
  }
}
