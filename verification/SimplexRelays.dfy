/** Relay settings: what the manager adds to them. `flux` lists the relays to add. */
module SimplexRelays {
  import opened Options

  datatype Server = Server(id: Option<nat>, server: string, preset: bool, enabled: bool, deleted: bool)

  datatype Operator = Operator(tag: string, enabled: bool)

  /** A group of servers; `smp` and `relays` tell whether it names messaging servers or chat relays. */
  datatype Group = Group(operator: Option<Operator>, smp: bool, relays: bool, xftp: seq<Server>)

  function Count(groups: seq<Group>, operators: bool): nat {
    if groups == [] then 0 else (if groups[0].operator.Some? == operators then 1 else 0) + Count(groups[1..], operators)
  }

  /** The position of the first custom group. */
  function Custom(groups: seq<Group>): (i: nat)
    ensures i <= |groups|
    ensures forall j :: 0 <= j < i ==> groups[j].operator.Some?
    ensures i < |groups| ==> groups[i].operator.None?
    ensures i < |groups| <==> Count(groups, false) > 0
  {
    if groups == [] || groups[0].operator.None? then 0 else 1 + Custom(groups[1..])
  }

  predicate Known(groups: seq<Group>, server: string) {
    exists i | 0 <= i < |groups| :: exists j | 0 <= j < |groups[i].xftp| :: groups[i].xftp[j].server == server
  }

  /** The managed default layout: the enabled SimpleX operator, and one custom group with nothing in it. */
  predicate Extensible(groups: seq<Group>) {
    && Count(groups, true) == 1 && Count(groups, false) == 1
    && (forall i :: 0 <= i < |groups| && groups[i].operator.Some? ==>
      groups[i].operator.value == Operator("simplex", true))
    && (forall i :: 0 <= i < |groups| && groups[i].operator.None? ==>
      !groups[i].smp && !groups[i].relays && groups[i].xftp == [])
  }

  /** The added relay: new, unnumbered and switched off. */
  function Added(server: string): Server {
    Server(None, server, false, false, false)
  }

  /** The relays of `flux` that no group knows, as entries to append. */
  function Missing(groups: seq<Group>, flux: seq<string>): seq<Server> {
    if flux == [] then [] else
    Missing(groups, flux[..|flux| - 1]) +
    if Known(groups, flux[|flux| - 1]) then [] else [Added(flux[|flux| - 1])]
  }

  function Extend(groups: seq<Group>, at: nat, more: seq<Server>): seq<Group>
    requires at < |groups|
  {
    groups[at := groups[at].(xftp := groups[at].xftp + more)]
  }

  /** The settings after the change. */
  function RelaySettings(groups: seq<Group>, flux: seq<string>): seq<Group> {
    if Extensible(groups) then Extend(groups, Custom(groups), Missing(groups, flux)) else groups
  }

  lemma {:induction false} CountAfter(groups: seq<Group>, at: nat, more: seq<Server>, operators: bool)
    requires at < |groups|
    ensures Count(Extend(groups, at, more), operators) == Count(groups, operators)
  {
    var wide := Extend(groups, at, more);
    if at == 0 {
      assert wide[1..] == groups[1..];
    } else {
      assert wide[1..] == Extend(groups[1..], at - 1, more);
      CountAfter(groups[1..], at - 1, more, operators);
    }
  }

  lemma {:induction false} MissingServers(groups: seq<Group>, flux: seq<string>)
    ensures forall s :: s in Missing(groups, flux) <==>
      s.server in flux && s == Added(s.server) && !Known(groups, s.server)
    decreases |flux|
  {
    if flux != [] {
      MissingServers(groups, flux[..|flux| - 1]);
      assert flux == flux[..|flux| - 1] + [flux[|flux| - 1]];
    }
  }

  lemma {:induction false} CountAll(groups: seq<Group>)
    ensures Count(groups, true) + Count(groups, false) == |groups|
  {
    if groups != [] { CountAll(groups[1..]); }
  }

  /** Just two groups, in either order: the enabled SimpleX operator's, and a custom one that names nothing. */
  predicate IsDefault(groups: seq<Group>) {
    |groups| == 2 && (IsPair(groups[0], groups[1]) || IsPair(groups[1], groups[0]))
  }

  predicate IsPair(managed: Group, custom: Group) {
    && managed.operator.Some? && managed.operator.value.tag == "simplex" && managed.operator.value.enabled
    && custom.operator.None? && !custom.smp && !custom.relays && custom.xftp == []
  }

  lemma ExtensibleExactly(groups: seq<Group>)
    ensures Extensible(groups) <==> IsDefault(groups)
  {
    CountAll(groups);
    if |groups| == 2 {
      assert groups[1..] == [groups[1]] && groups[1..][1..] == [];
      assert Count(groups[1..], true) == if groups[1].operator.Some? then 1 else 0;
      assert Count(groups[1..], false) == if groups[1].operator.Some? then 0 else 1;
    }
  }

  /** The settings change exactly when they are the managed default layout and some relay is in no group. */
  lemma ChangesIff(groups: seq<Group>, flux: seq<string>)
    ensures RelaySettings(groups, flux) != groups <==> IsDefault(groups) && exists f :: f in flux && !Known(groups, f)
  {
    ExtensibleExactly(groups);
    MissingServers(groups, flux);
    var more := Missing(groups, flux);
    if f :| f in flux && !Known(groups, f) { assert Added(f) in more; }
    if more != [] { assert more[0] in more; }
    if Extensible(groups) { assert RelaySettings(groups, flux)[Custom(groups)].xftp == groups[Custom(groups)].xftp + more; }
  }

  /** Nothing is removed, reordered or edited: every group keeps its entries, in front of what is appended. */
  lemma OwnerPolicyKept(groups: seq<Group>, flux: seq<string>)
    ensures var now := RelaySettings(groups, flux);
      && |now| == |groups|
      && forall i :: 0 <= i < |groups| ==>
        && now[i].(xftp := []) == groups[i].(xftp := [])
        && groups[i].xftp <= now[i].xftp
        && (forall j :: |groups[i].xftp| <= j < |now[i].xftp| ==>
            var s := now[i].xftp[j];
            && s.id.None? && !s.preset && !s.enabled && !s.deleted
            && s.server in flux && !Known(groups, s.server))
  {
    MissingServers(groups, flux);
    var more := Missing(groups, flux);
    assert forall j :: 0 <= j < |more| ==> more[j] in more;
  }

  /** The managed default layout ends up knowing every relay. */
  lemma AllRelaysKnown(groups: seq<Group>, flux: seq<string>)
    requires Extensible(groups)
    ensures forall f :: f in flux ==> Known(RelaySettings(groups, flux), f)
  {
    MissingServers(groups, flux);
    var now, at, more := RelaySettings(groups, flux), Custom(groups), Missing(groups, flux);
    forall f | f in flux ensures Known(now, f) {
      if Known(groups, f) {
        var i, j :| 0 <= i < |groups| && 0 <= j < |groups[i].xftp| && groups[i].xftp[j].server == f;
        assert now[i].xftp[j].server == f;
      } else {
        assert Added(f) in more;
        var j :| 0 <= j < |more| && more[j] == Added(f);
        assert now[at].xftp[|groups[at].xftp| + j].server == f;
      }
    }
  }

  /** Applying the change twice is applying it once. */
  lemma Idempotent(groups: seq<Group>, flux: seq<string>)
    ensures RelaySettings(RelaySettings(groups, flux), flux) == RelaySettings(groups, flux)
  {
    var now, at := RelaySettings(groups, flux), Custom(groups);
    if Extensible(groups) {
      CountAfter(groups, at, Missing(groups, flux), true);
      CountAfter(groups, at, Missing(groups, flux), false);
      if Missing(groups, flux) == [] {
        assert now == groups;
      } else {
        assert now[at].operator.None? && now[at].xftp != [];
      }
    }
  }

  lemma ExtendMore(groups: seq<Group>, at: nat, more: seq<Server>, s: Server)
    requires at < |groups|
    ensures Extend(groups, at, more + [s]) == Extend(Extend(groups, at, more), at, [s])
    ensures Extend(groups, at, more + []) == Extend(groups, at, more)
  {
    assert groups[at].xftp + (more + [s]) == groups[at].xftp + more + [s];
    assert more + [] == more;
  }

  /** The same, appending to a copy in a loop. */
  method Build(groups: seq<Group>, flux: seq<string>) returns (updated: seq<Group>)
    ensures updated == RelaySettings(groups, flux)
  {
    updated := groups;
    if !Extensible(groups) { return; }
    var at := Custom(groups);
    assert groups[at].xftp + [] == groups[at].xftp;
    for k := 0 to |flux|
      invariant updated == Extend(groups, at, Missing(groups, flux[..k]))
    {
      assert flux[..k + 1][..k] == flux[..k];
      ExtendMore(groups, at, Missing(groups, flux[..k]), Added(flux[k]));
      if !Known(groups, flux[k]) {
        var group := updated[at];
        updated := updated[at := group.(xftp := group.xftp + [Added(flux[k])])];
      }
    }
    assert flux[..|flux|] == flux;
  }
}
