/** Applying the relay settings to the daemon: a durable backup, a write, a read-back, and a rollback. */
module SimplexConfigure {
  import opened Options
  import opened CutOff
  import opened SimplexRelays

  function Ids(groups: seq<Group>): set<Option<nat>> {
    set i, j | 0 <= i < |groups| && 0 <= j < |groups[i].xftp| :: groups[i].xftp[j].id
  }

  function Unnumber(s: Server, ids: set<Option<nat>>): Server {
    if s.id in ids then s else s.(id := None)
  }

  function UnnumberAll(xs: seq<Server>, ids: set<Option<nat>>): (r: seq<Server>)
    ensures |r| == |xs| && forall j :: 0 <= j < |xs| ==> r[j] == Unnumber(xs[j], ids)
  {
    seq(|xs|, j requires 0 <= j < |xs| => Unnumber(xs[j], ids))
  }

  /** The settings with every ID the daemon has newly given out taken off again. */
  function Normalize(groups: seq<Group>, ids: set<Option<nat>>): (r: seq<Group>)
    ensures |r| == |groups|
    ensures forall i :: 0 <= i < |groups| ==> r[i] == groups[i].(xftp := UnnumberAll(groups[i].xftp, ids))
  {
    seq(|groups|, i requires 0 <= i < |groups| => groups[i].(xftp := UnnumberAll(groups[i].xftp, ids)))
  }

  function Live(xs: seq<Server>): seq<Server> {
    if xs == [] then [] else (if xs[0].deleted then [] else [xs[0]]) + Live(xs[1..])
  }

  function DropDeleted(groups: seq<Group>): (r: seq<Group>)
    ensures |r| == |groups| && forall i :: 0 <= i < |groups| ==> r[i] == groups[i].(xftp := Live(groups[i].xftp))
  {
    seq(|groups|, i requires 0 <= i < |groups| => groups[i].(xftp := Live(groups[i].xftp)))
  }

  /** The relays of one group that the change has put there, marked for deletion. */
  function InsertedIn(xs: seq<Server>, ids: set<Option<nat>>, flux: seq<string>): seq<Server> {
    if xs == [] then [] else
    (if xs[0].id !in ids && xs[0].server in flux then [xs[0].(deleted := true)] else [])
    + InsertedIn(xs[1..], ids, flux)
  }

  function Inserted(groups: seq<Group>, ids: set<Option<nat>>, flux: seq<string>): seq<Server> {
    if groups == [] then [] else InsertedIn(groups[0].xftp, ids, flux) + Inserted(groups[1..], ids, flux)
  }

  /** The settings that undo the change: the backup, with the inserted relays marked for deletion. */
  function Rollback(before: seq<Group>, applied: seq<Group>, flux: seq<string>): seq<Group>
    requires Custom(before) < |before|
  {
    Extend(before, Custom(before), Inserted(applied, Ids(before), flux))
  }

  /** Every entry has its ID and none is marked for deletion, as a daemon reports its settings. */
  predicate Reported(groups: seq<Group>) {
    forall i :: 0 <= i < |groups| ==>
      forall j :: 0 <= j < |groups[i].xftp| ==> groups[i].xftp[j].id.Some? && !groups[i].xftp[j].deleted
  }

  /** A daemon that stores what it is told: it drops the entries marked for deletion and numbers the new ones afresh. */
  predicate Stores(value: seq<Group>, left: seq<Group>) {
    Reported(left) && Normalize(left, Ids(value)) == DropDeleted(value)
  }

  /** One entry as it was told and as it is stored: a number stays, and a missing one becomes a fresh one. */
  predicate StoredAs(told: Server, stored: Server, ids: set<Option<nat>>) {
    && stored.server == told.server && stored.preset == told.preset && stored.enabled == told.enabled
    && stored.deleted == told.deleted && stored.id.Some?
    && if told.id.Some? then stored.id == told.id else stored.id !in ids
  }

  /** What storing means, entry by entry: nothing else is dropped, added, reordered or changed. */
  lemma StoresExactly(value: seq<Group>, left: seq<Group>)
    ensures Stores(value, left) <==>
      && Reported(left) && |left| == |value|
      && forall i :: 0 <= i < |value| ==>
        && left[i].(xftp := []) == value[i].(xftp := [])
        && |left[i].xftp| == |Live(value[i].xftp)|
        && forall j :: 0 <= j < |left[i].xftp| ==> StoredAs(Live(value[i].xftp)[j], left[i].xftp[j], Ids(value))
  {
    hide Live, Reported;
    if Reported(left) && |left| == |value| {
      forall i | 0 <= i < |value|
        ensures Normalize(left, Ids(value))[i] == DropDeleted(value)[i] <==>
          && left[i].(xftp := []) == value[i].(xftp := []) && |left[i].xftp| == |Live(value[i].xftp)|
          && forall j :: 0 <= j < |left[i].xftp| ==> StoredAs(Live(value[i].xftp)[j], left[i].xftp[j], Ids(value))
      {
        GroupStored(value, left, i);
      }
    }
  }

  lemma GroupStored(value: seq<Group>, left: seq<Group>, i: nat)
    requires Reported(left) && i < |left| == |value|
    ensures Normalize(left, Ids(value))[i] == DropDeleted(value)[i] <==>
      && left[i].(xftp := []) == value[i].(xftp := []) && |left[i].xftp| == |Live(value[i].xftp)|
      && forall j :: 0 <= j < |left[i].xftp| ==> StoredAs(Live(value[i].xftp)[j], left[i].xftp[j], Ids(value))
  {
    var kept, xs, ids := Live(value[i].xftp), left[i].xftp, Ids(value);
    LiveIds(value, i);
    forall j | 0 <= j < |xs| && j < |kept| ensures Unnumber(xs[j], ids) == kept[j] <==> StoredAs(kept[j], xs[j], ids) {}
    assert UnnumberAll(xs, ids) == kept <==>
      |xs| == |kept| && forall j :: 0 <= j < |xs| ==> Unnumber(xs[j], ids) == kept[j];
  }

  lemma LiveIds(value: seq<Group>, i: nat)
    requires i < |value|
    ensures forall j :: 0 <= j < |Live(value[i].xftp)| ==> Live(value[i].xftp)[j].id in Ids(value)
  {
    var kept := Live(value[i].xftp);
    forall j | 0 <= j < |kept| ensures kept[j].id in Ids(value) {
      var k := LiveFrom(value[i].xftp, j);
      assert value[i].xftp[k].id in Ids(value);
    }
  }

  lemma {:induction false} LiveFrom(xs: seq<Server>, j: nat) returns (k: nat)
    requires j < |Live(xs)|
    ensures k < |xs| && xs[k] == Live(xs)[j] && !xs[k].deleted
  {
    if !xs[0].deleted && j == 0 {
      k := 0;
    } else {
      var rest := LiveFrom(xs[1..], if xs[0].deleted then j else j - 1);
      k := rest + 1;
    }
  }

  /** Undoing marks for deletion exactly the relays among the applied entries that the backup does not know. */
  lemma RollbackLists(before: seq<Group>, applied: seq<Group>, flux: seq<string>, s: Server)
    requires Custom(before) < |before|
    ensures var undone, at := Rollback(before, applied, flux), Custom(before);
      && |undone| == |before| && (forall i :: 0 <= i < |before| && i != at ==> undone[i] == before[i])
      && before[at].xftp <= undone[at].xftp && undone[at].(xftp := []) == before[at].(xftp := [])
      && (s in undone[at].xftp[|before[at].xftp|..] <==> s.deleted && exists i, j, d: bool ::
            0 <= i < |applied| && 0 <= j < |applied[i].xftp| && applied[i].xftp[j] == s.(deleted := d) &&
            s.id !in Ids(before) && s.server in flux)
  {
    InsertedMembers(applied, Ids(before), flux, s);
  }

  lemma {:induction false} InsertedInMembers(xs: seq<Server>, ids: set<Option<nat>>, flux: seq<string>, s: Server)
    ensures s in InsertedIn(xs, ids, flux) <==>
      s.deleted && s.id !in ids && s.server in flux && exists j, d: bool :: 0 <= j < |xs| && xs[j] == s.(deleted := d)
  {
    if xs != [] {
      InsertedInMembers(xs[1..], ids, flux, s);
      if s.deleted {
        assert xs[0] == s.(deleted := xs[0].deleted) || forall d: bool :: xs[0] != s.(deleted := d);
        if j, d: bool :| 0 <= j < |xs[1..]| && xs[1..][j] == s.(deleted := d) { assert xs[j + 1] == s.(deleted := d); }
        if j, d: bool :| 0 <= j < |xs| && xs[j] == s.(deleted := d) {
          assert j > 0 ==> xs[1..][j - 1] == s.(deleted := d);
        }
      }
    }
  }

  lemma {:induction false} InsertedMembers(groups: seq<Group>, ids: set<Option<nat>>, flux: seq<string>, s: Server)
    ensures s in Inserted(groups, ids, flux) <==>
      s.deleted && s.id !in ids && s.server in flux && exists i, j, d: bool ::
        0 <= i < |groups| && 0 <= j < |groups[i].xftp| && groups[i].xftp[j] == s.(deleted := d)
  {
    if groups != [] {
      var rest := groups[1..];
      InsertedInMembers(groups[0].xftp, ids, flux, s);
      InsertedMembers(rest, ids, flux, s);
      if i, j, d: bool :| 0 <= i < |rest| && 0 <= j < |rest[i].xftp| && rest[i].xftp[j] == s.(deleted := d) {
        assert groups[i + 1].xftp[j] == s.(deleted := d);
      }
      if j, d: bool :| 0 <= j < |groups[0].xftp| && groups[0].xftp[j] == s.(deleted := d) {
        assert groups[0].xftp[j] == s.(deleted := d);
      }
      if i, j, d: bool :| 0 <= i < |groups| && 0 <= j < |groups[i].xftp| && groups[i].xftp[j] == s.(deleted := d) {
        assert i > 0 ==> rest[i - 1].xftp[j] == s.(deleted := d);
      }
    }
  }

  lemma {:induction false} LiveAll(xs: seq<Server>)
    requires forall j :: 0 <= j < |xs| ==> !xs[j].deleted
    ensures Live(xs) == xs
  {
    if xs != [] { LiveAll(xs[1..]); }
  }

  lemma {:induction false} LiveDeleted(xs: seq<Server>, more: seq<Server>)
    requires forall j :: 0 <= j < |more| ==> more[j].deleted
    ensures Live(xs + more) == Live(xs)
  {
    if xs != [] {
      assert (xs + more)[1..] == xs[1..] + more;
      LiveDeleted(xs[1..], more);
    } else {
      assert xs + more == more;
      if more != [] { LiveDeleted([], more[1..]); assert [] + more[1..] == more[1..]; }
    }
  }

  lemma {:induction false} InsertedInDeleted(xs: seq<Server>, ids: set<Option<nat>>, flux: seq<string>)
    ensures forall j :: 0 <= j < |InsertedIn(xs, ids, flux)| ==> InsertedIn(xs, ids, flux)[j].deleted
  {
    if xs != [] { InsertedInDeleted(xs[1..], ids, flux); }
  }

  lemma {:induction false} InsertedDeleted(groups: seq<Group>, ids: set<Option<nat>>, flux: seq<string>)
    ensures forall j :: 0 <= j < |Inserted(groups, ids, flux)| ==> Inserted(groups, ids, flux)[j].deleted
  {
    if groups != [] {
      InsertedInDeleted(groups[0].xftp, ids, flux);
      InsertedDeleted(groups[1..], ids, flux);
    }
  }

  /** The change marks nothing for deletion. */
  lemma NothingDropped(before: seq<Group>, flux: seq<string>)
    requires Reported(before)
    ensures DropDeleted(RelaySettings(before, flux)) == RelaySettings(before, flux)
  {
    var after := RelaySettings(before, flux);
    OwnerPolicyKept(before, flux);
    hide RelaySettings, Live;
    forall i | 0 <= i < |after| ensures DropDeleted(after)[i] == after[i] {
      forall j | 0 <= j < |after[i].xftp| ensures !after[i].xftp[j].deleted {
        if j < |before[i].xftp| { assert after[i].xftp[j] == before[i].xftp[j]; }
      }
      LiveAll(after[i].xftp);
    }
  }

  lemma SameNumbering(groups: seq<Group>, a: set<Option<nat>>, b: set<Option<nat>>)
    requires Reported(groups) && forall id: Option<nat> :: id.Some? ==> (id in a <==> id in b)
    ensures Normalize(groups, a) == Normalize(groups, b)
  {
    forall i | 0 <= i < |groups| ensures Normalize(groups, a)[i] == Normalize(groups, b)[i] {
      assert UnnumberAll(groups[i].xftp, a) == UnnumberAll(groups[i].xftp, b);
    }
  }

  /** A daemon that stores what it is told reads back as the settings it was to change to. */
  lemma StoresNormalizes(before: seq<Group>, left: seq<Group>, flux: seq<string>)
    requires Reported(before) && Stores(RelaySettings(before, flux), left)
    ensures Normalize(left, Ids(before)) == RelaySettings(before, flux)
  {
    hide RelaySettings, Reported, Normalize, DropDeleted, Ids;
    NothingDropped(before, flux);
    IdsExtended(before, flux);
    SameNumbering(left, Ids(before), Ids(RelaySettings(before, flux)));
  }

  lemma IdsExtended(before: seq<Group>, flux: seq<string>)
    ensures forall id: Option<nat> :: id.Some? ==> (id in Ids(RelaySettings(before, flux)) <==> id in Ids(before))
  {
    var after := RelaySettings(before, flux);
    OwnerPolicyKept(before, flux);
    forall id: Option<nat> | id.Some? ensures id in Ids(after) <==> id in Ids(before) {
      if id in Ids(before) {
        var i, j :| 0 <= i < |before| && 0 <= j < |before[i].xftp| && before[i].xftp[j].id == id;
        assert after[i].xftp[j].id == id;
      }
      if id in Ids(after) {
        var i, j :| 0 <= i < |after| && 0 <= j < |after[i].xftp| && after[i].xftp[j].id == id;
        assert j < |before[i].xftp|;
        assert before[i].xftp[j].id == id;
      }
    }
  }

  lemma DropsInserted(before: seq<Group>, applied: seq<Group>, flux: seq<string>)
    requires Reported(before) && Custom(before) < |before|
    ensures DropDeleted(Rollback(before, applied, flux)) == before
  {
    hide Inserted;
    var at, more := Custom(before), Inserted(applied, Ids(before), flux);
    InsertedDeleted(applied, Ids(before), flux);
    forall i | 0 <= i < |before| ensures DropDeleted(Rollback(before, applied, flux))[i] == before[i] {
      LiveAll(before[i].xftp);
      if i == at { LiveDeleted(before[i].xftp, more); }
    }
  }

  /** Settings that read the same as numbered ones once fresh IDs are taken off are those settings. */
  lemma AllNumbered(left: seq<Group>, ids: set<Option<nat>>, before: seq<Group>)
    requires Reported(before) && Normalize(left, ids) == before
    ensures left == before
  {
    forall i | 0 <= i < |left| ensures left[i] == before[i] {
      assert before[i] == left[i].(xftp := UnnumberAll(left[i].xftp, ids));
      forall j | 0 <= j < |left[i].xftp| ensures left[i].xftp[j] == before[i].xftp[j] {
        assert Unnumber(left[i].xftp[j], ids) == before[i].xftp[j];
      }
      assert left[i].xftp == before[i].xftp;
    }
  }

  /** Undoing: a daemon that stores the rollback is back at the backup, whatever it had made of the change. */
  lemma RollbackRestores(before: seq<Group>, applied: seq<Group>, left: seq<Group>, flux: seq<string>)
    requires Reported(before) && Custom(before) < |before| && Stores(Rollback(before, applied, flux), left)
    ensures left == before
  {
    hide Rollback, Normalize, DropDeleted, Reported;
    DropsInserted(before, applied, flux);
    AllNumbered(left, Ids(Rollback(before, applied, flux)), before);
  }

  /** One settings write: what the daemon had, what the backup held, what was written, and what that left. */
  datatype Exchange = Exchange(met: seq<Group>, backup: Option<seq<Group>>, value: seq<Group>, left: seq<Group>)

  /** The change itself is written only over the backed-up settings. */
  predicate Applies(flux: seq<string>, x: Exchange) {
    x.backup.Some? && x.met == x.backup.value && x.value == RelaySettings(x.met, flux)
  }

  /** A rollback is written only over what the change just before it left, when that reads back differently. */
  predicate Undoes(flux: seq<string>, x: Exchange, y: Exchange) {
    && Applies(flux, x) && y.backup == x.backup && y.met == x.left
    && Custom(x.met) < |x.met| && y.value == Rollback(x.met, x.left, flux)
    && Normalize(x.left, Ids(x.met)) != RelaySettings(x.met, flux)
  }

  predicate LawfulAt(flux: seq<string>, log: seq<Exchange>, k: nat)
    requires k < |log|
  {
    Applies(flux, log[k]) || (k > 0 && Undoes(flux, log[k - 1], log[k]))
  }

  predicate Lawful(flux: seq<string>, log: seq<Exchange>) {
    forall k :: 0 <= k < |log| ==> LawfulAt(flux, log, k)
  }

  /** Whether writing `value` next, over `met`, is lawful. */
  predicate MayWrite(flux: seq<string>, log: seq<Exchange>, x: Exchange) {
    Applies(flux, x) || (log != [] && Undoes(flux, log[|log| - 1], x))
  }

  lemma LawfulGrows(flux: seq<string>, log: seq<Exchange>, x: Exchange)
    requires Lawful(flux, log) && MayWrite(flux, log, x)
    ensures Lawful(flux, log + [x])
  {
    hide Applies, Undoes;
    var more := log + [x];
    assert more[|log|] == x && forall k :: 0 <= k < |log| ==> more[k] == log[k];
    forall k | 0 <= k < |more| ensures LawfulAt(flux, more, k) {
      assert k < |log| ==> LawfulAt(flux, log, k);
    }
  }

  lemma Extends(groups: seq<Group>, flux: seq<string>)
    requires RelaySettings(groups, flux) != groups
    ensures Custom(groups) < |groups|
  {
  }

  /** The daemon's settings, the manager's files beside them, and every settings write so far. */
  class Setup {
    const flux: seq<string>
    var current: seq<Group>
    var backup: Option<seq<Group>>
    var after: Option<seq<Group>>
    var rollback: Option<seq<Group>>
    var ready: Option<bool>
    var log: seq<Exchange>
    var budget: Option<nat>

    constructor (current: seq<Group>, flux: seq<string>)
      ensures Valid() && this.current == current && this.flux == flux && backup.None? && ready.None? && log == []
    {
      this.flux := flux;
      this.current, backup, after, rollback, ready, log, budget := current, None, None, None, None, [], None;
    }

    /** A backup is only ever made of settings that the change extends. */
    ghost predicate Valid()
      reads this
    {
      Lawful(flux, log) && (backup.Some? ==> RelaySettings(backup.value, flux) != backup.value)
    }

    twostate predicate Paid(s: Status)
      reads this
    {
      Cuts(old(budget), budget, s)
    }

    /** Whether the next effect still happens. */
    method Pay() returns (s: Status)
      modifies this`budget
      ensures Paid(s) && s != Refused && Pays(old(budget), budget, s)
    {
      if budget == Some(0) { return Cut; }
      budget := Spend(budget);
      return Done;
    }

    /** Write settings; the daemon may make anything of them, and unless it is `answered` the answer may be lost. */
    method Set(value: seq<Group>, answered: bool) returns (s: Status)
      requires Lawful(flux, log) && MayWrite(flux, log, Exchange(current, backup, value, []))
      modifies this`current, this`log, this`budget
      ensures Paid(s) && Lawful(flux, log)
      ensures s == Cut ==> log == old(log) && current == old(current)
      ensures s != Cut ==> log == old(log) + [Exchange(old(current), backup, value, current)]
      ensures s == Refused ==> !answered
      ensures s == Cut <==> old(budget) == Some(0)
      ensures s != Cut ==> budget == CutOff.Spend(old(budget))
    {
      s := Pay();
      if s == Cut { return; }
      var left: seq<Group> := *;
      LawfulGrows(flux, log, Exchange(current, backup, value, left));
      log := log + [Exchange(current, backup, value, left)];
      current := left;
      if !answered {
        if * { s := Refused; }
      }
    }

    /** The change is in place: with fresh IDs taken off, the daemon's settings are the extended backup. */
    predicate InPlace()
      reads this
    {
      backup.Some? && Normalize(current, Ids(backup.value)) == RelaySettings(backup.value, flux)
    }

    /** File what was applied and how to undo it; then accept it, or roll back a change made in this attempt. */
    method Conclude(before: seq<Group>, recovering: bool, answered: bool) returns (s: Status)
      requires Valid() && backup == Some(before) && ready.None? && Custom(before) < |before|
      requires !recovering ==>
        log != [] && log[|log| - 1] == Exchange(before, backup, RelaySettings(before, flux), current)
      modifies this
      ensures Valid() && Paid(s) && old(log) <= log && backup == old(backup)
      ensures s == Done <==> ready.Some?
      ensures s != Refused ==> log == old(log) && current == old(current)
      ensures log == old(log) ==> current == old(current)
      ensures log != old(log) ==> !old(InPlace())
      ensures s == Done ==>
        ready == Some(true) && InPlace() && rollback == Some(Rollback(before, current, flux)) && after == Some(current)
      ensures s == Refused ==> !old(InPlace())
      ensures recovering ==> log == old(log) && current == old(current)
      ensures !recovering && s == Refused ==>
        |log| == |old(log)| + 1 && log[|old(log)|].value == Rollback(before, old(current), flux)
      ensures s != Cut ==> after == Some(old(current)) && rollback == Some(Rollback(before, old(current), flux))
      ensures old(budget).Some? ==>
        && (old(budget).value == 0 ==> after == old(after)) && (old(budget).value <= 1 ==> rollback == old(rollback))
        && (old(budget).value <= 2 ==> log == old(log) && ready.None?)
    {
      hide RelaySettings, Rollback, Ids, Custom, Lawful;
      var applied := current;
      var next := Build(before, flux);
      s := Pay();
      if s == Cut { return; }
      after := Some(applied);
      s := Pay();
      if s == Cut { return; }
      rollback := Some(Rollback(before, applied, flux));
      if Normalize(applied, Ids(before)) != next {
        if !recovering {
          s := Set(Rollback(before, applied, flux), answered);
          if s == Cut { return; }
        }
        return Refused;
      }
      s := Pay();
      if s == Done { ready := Some(true); }
    }

    /**
     * One attempt. It writes the change only over the backed-up settings and a rollback only over its own change; it is
     * ready either because nothing is to be changed or because the change is in place, with the rollback filed. When
     * the change is `valid` and every command `answered`, it gives up only on a daemon that did not store the change or
     * on settings that someone else edited.
     */
    method Configure(valid: bool, answered: bool) returns (s: Status)
      requires Valid() && ready.None?
      modifies this
      ensures Valid() && Paid(s) && old(log) <= log
      ensures backup == old(backup) || (old(backup).None? && backup == Some(old(current)))
      ensures s == Done <==> ready.Some?
      ensures ready == Some(false) ==>
        log == old(log) && current == old(current) && backup == old(backup) == None &&
          RelaySettings(current, flux) == current
      ensures ready == Some(true) ==>
        InPlace() && Custom(backup.value) < |backup.value| && rollback == Some(Rollback(backup.value, current, flux)) &&
          after == Some(current)
      ensures old(backup).Some? && old(current) != old(backup).value ==> log == old(log) && current == old(current)
      ensures log == old(log) ==> current == old(current)
      ensures !valid ==> log == old(log) && backup == old(backup)
      ensures old(budget) == Some(0) ==> log == old(log) && backup == old(backup) && ready.None?
      ensures old(budget) == Some(0) ==> after == old(after) && rollback == old(rollback)
      ensures s == Refused && answered && log != old(log) ==>
        && |log| == |old(log)| + 2 && Custom(old(current)) < |old(current)|
        && log[|old(log)| + 1].value == Rollback(old(current), log[|old(log)|].left, flux)
      ensures log != old(log) ==>
        backup == Some(old(current)) && log[|old(log)|].value == RelaySettings(old(current), flux)
      ensures log != old(log) ==> Unstored(|old(log)|) || (|log| == |old(log)| + 1 && current == log[|old(log)|].left)
      ensures s == Refused && valid && answered ==>
        backup.Some? && (Edited(old(current), old(backup)) || Unstored(old(|log|)))
    {
      hide RelaySettings, Rollback, Ids, Custom, Lawful, Normalize;
      var before := if backup.Some? then backup.value else current;
      var next := Build(before, flux);
      var recovering := current != before;
      if !answered {
        if * { return Refused; }
      }
      if !recovering && next == before {
        s := Pay();
        if s == Done { ready := Some(false); }
        return;
      }
      Extends(before, flux);
      if !recovering {
        if !valid { return Refused; }
        if backup.None? {
          s := Pay();
          if s == Cut { return; }
          backup := Some(before);
        }
        s := Set(next, answered);
        if s != Done { return; }
      }
      s := Conclude(before, recovering, answered);
    }

    /** The settings are neither the backup nor the change to it. */
    ghost predicate Edited(settings: seq<Group>, saved: Option<seq<Group>>) {
      saved.Some? && settings != saved.value &&
        Normalize(settings, Ids(saved.value)) != RelaySettings(saved.value, flux)
    }

    /** The write at position `k` reads back differently from what was written. */
    ghost predicate Unstored(k: nat)
      reads this
    {
      k < |log| && backup.Some? && Normalize(log[k].left, Ids(backup.value)) != log[k].value
    }
  }

  /** Every write so far was stored as told. */
  predicate AllStored(log: seq<Exchange>) {
    forall k :: 0 <= k < |log| ==> Stores(log[k].value, log[k].left)
  }

  /** Where interrupted attempts on an obedient daemon that nobody else edits may stand. */
  ghost predicate Midway(flux: seq<string>, first: seq<Group>, current: seq<Group>, backup: Option<seq<Group>>) {
    || (backup.None? && current == first)
    || (backup == Some(first) && (current == first || Normalize(current, Ids(first)) == RelaySettings(first, flux)))
  }

  /** One attempt: when it is cut off, whether the daemon finds the change valid, and whether it answers throughout. */
  datatype Try = Try(budget: Option<nat>, valid: bool, answered: bool)

  /** Nothing cuts the attempt off or refuses it. */
  predicate Admitted(t: Try) {
    t.budget.None? && t.valid && t.answered
  }

  /**
   * Any number of attempts, cut off anywhere, until one is ready; between them the owner may edit the settings unless
   * `quiet`. Every write is lawful, and ready means that the change is in place or that there is nothing to change. On
   * an obedient daemon that nobody else edits one admitted attempt completes the change to the settings it began with,
   * whatever became of the others.
   */
  method Attempts(setup: Setup, tries: seq<Try>, quiet: bool)
    requires setup.Valid() && setup.ready.None? && setup.backup.None? && setup.log == []
    requires Reported(setup.current)
    modifies setup
    ensures Lawful(setup.flux, setup.log)
    ensures quiet && AllStored(setup.log) && (exists t :: t in tries && Admitted(t)) ==> setup.ready.Some?
    ensures setup.ready == Some(true) ==> setup.InPlace()
    ensures setup.ready == Some(false) ==> RelaySettings(setup.current, setup.flux) == setup.current
    ensures quiet && AllStored(setup.log) && setup.ready == Some(true) ==> setup.backup == Some(old(setup.current))
    ensures quiet && AllStored(setup.log) && setup.ready == Some(false) ==> setup.current == old(setup.current)
  {
    hide Lawful, Normalize, RelaySettings, Ids, Reported, Rollback, Custom, Stores;
    ghost var first := setup.current;
    for i := 0 to |tries|
      invariant setup.Valid() && setup.ready.None?
      invariant quiet && AllStored(setup.log) ==> Midway(setup.flux, first, setup.current, setup.backup)
      invariant quiet && AllStored(setup.log) ==> forall j :: 0 <= j < i ==> !Admitted(tries[j])
    {
      if !quiet { setup.current := *; }
      setup.budget := tries[i].budget;
      ghost var log := setup.log;
      var s := setup.Configure(tries[i].valid, tries[i].answered);
      if s == Done { return; }
      if AllStored(setup.log) {
        assert AllStored(log) by { assert forall k :: 0 <= k < |log| ==> setup.log[k] == log[k]; }
        if quiet && setup.log != log { StoresNormalizes(first, setup.log[|log|].left, setup.flux); }
      }
    }
  }
}
