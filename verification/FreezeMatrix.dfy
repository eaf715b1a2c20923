/** The main results about the four designs: what the reconciled owner guarantees, and which design is safe when. */
module FreezeMatrix {
  import opened Options
  import opened Transitions
  import opened FreezeModel
  import opened FreezePhases
  import Explorer
  import Replay
  import FreezeReconciled
  import FreezeHost
  import FreezeWitness
  import FreezeKinds
  import FreezeLabels

  ghost predicate Safe(design: Design, sc: Scenario) {
    forall k :: !Violates(Model(design, sc), k)
  }

  /** The scenarios a design can stand, read off its flags. */
  predicate Stands(design: Design, sc: Scenario) {
    !sc.systemdAlive ||
    match design
    case HandlerScoped => !sc.lockWaiter && !sc.getpidsFail && !sc.thawError && (!sc.stuck || sc.release)
    case DetachedTimeoutThaw => false
    case OwnerOrderedThaw => sc.fifo && !sc.thawError
    case OwnerReconciled => true
  }

  /** The reconciled owner exhibits nothing, on any run, in any scenario. */
  lemma ReconciledSafe(sc: Scenario)
    ensures Safe(OwnerReconciled, sc)
  {
    forall k { FreezeReconciled.Safe(sc, k); }
  }

  /** The thaw is sent only once the freeze was processed: it is parked or answered, never queued behind the thaw. */
  lemma ReconciledThawAfterFreeze(sc: Scenario, s: State)
    requires Reachable(Model(OwnerReconciled, sc), s) && Thaw in s.msgs
    ensures s.msgs == [Freeze, Thaw]
    ensures s.pending == Some(FREEZE) || FREEZE in s.replies
    ensures FREEZE !in s.inbox && forall c :: 0 <= c < |s.queues| ==> FREEZE !in s.queues[c]
  {
    FreezeReconciled.ReachableInv(sc, s);
  }

  /** While cgroup.freeze is 1 the owner has not finished and no successor is admitted. */
  lemma ReconciledFences(sc: Scenario, s: State)
    requires Reachable(Model(OwnerReconciled, sc), s)
    ensures s.kf ==> s.pcs.o != Some(Finished) && s.terminal == None && !s.successor
    ensures s.successor ==> !Unanswered(s) && !s.kz
    ensures s.successor && sc.thawError ==> s.msgs == []
  {
    FreezeReconciled.ReachableInv(sc, s);
  }

  /** How every run of the reconciled owner ends. */
  lemma ReconciledEnds(sc: Scenario, s: State)
    requires Reachable(Model(OwnerReconciled, sc), s) && Successors(OwnerReconciled, s, sc) == []
    ensures FreezeReconciled.Ending(s, sc)
  {
    hide FreezeReconciled.Inv, Successors, FreezeReconciled.Ending;
    FreezeReconciled.ReachableInv(sc, s);
    FreezeReconciled.QuiescentEnding(s, sc);
  }

  /**
   * With systemd alive and no thaw error every run finishes, with every call answered and the cgroup thawed. The caller
   * is told of success exactly when the freeze was answered and everybody killed, unless its deadline had passed before.
   */
  lemma ReconciledFinishes(sc: Scenario, s: State)
    requires sc.systemdAlive && !sc.thawError
    requires Reachable(Model(OwnerReconciled, sc), s) && Successors(OwnerReconciled, s, sc) == []
    ensures s.pcs.o == Some(Finished) && s.terminal.Some? && !Unanswered(s) && !s.kf && !s.kz
    ensures s.host in {Some(HostDeadlineOwnerRetained), Some(HostOk), Some(HostError)}
    ensures s.host == Some(HostOk) ==> Successful(s)
    ensures s.host == Some(HostError) ==> !Successful(s)
    ensures s.host == Some(HostDeadlineOwnerRetained) ==> s.deadline
  {
    hide Successors;
    ReconciledEnds(sc, s);
    FreezeReconciled.ReachableInv(sc, s);
    FreezeHost.ReachableTells(OwnerReconciled, sc, s);
  }

  /** Everybody was killed on a freeze that was answered with ok. */
  predicate Successful(s: State) {
    s.killall > 0 && FREEZE in s.replies && s.replies[FREEZE] == Ok
  }

  /** A refused thaw does not always leave the owner unresolved: a deadline before submission finishes it. */
  lemma ThawErrorMayFinish(sc: Scenario) returns (s: State)
    requires sc.thawError
    ensures Reachable(Model(OwnerReconciled, sc), s) && s.terminal == Some(AbortedBeforeSubmit)
    ensures sc.reuse ==> s.successor
  {
    var sys := Model(OwnerReconciled, sc);
    StartReachable(sys);
    var s1 := FreezeWitness.ByDeadline(OwnerReconciled, sc, sys.start);
    var e := FinishO(ODeadlineBeforeSubmit, s1, AbortedBeforeSubmit, HostError, FinishFound(s1, HostError));
    FreezeWitness.ByDesign(OwnerReconciled, sc, s1, e);
    s := e.next;
    if sc.reuse {
      var t := s.(successor := true);
      FreezeWitness.ByEnvironment(OwnerReconciled, sc, s, Edge(AdmitSuccessor, t, []));
      s := t;
    }
  }

  /** With thaw errors a finished run is unresolved exactly when FreezeUnit was ever submitted. */
  lemma ThawErrorOutcome(sc: Scenario, s: State)
    requires sc.systemdAlive && sc.thawError
    requires Reachable(Model(OwnerReconciled, sc), s) && Successors(OwnerReconciled, s, sc) == []
    ensures s.pcs.o == Some(Unresolved) <==> Freeze in s.msgs
    ensures s.pcs.o == Some(Unresolved) <==> s.terminal == None
    ensures s.pcs.o == Some(Unresolved) ==> !s.successor
  {
    hide Successors;
    ReconciledEnds(sc, s);
    FreezeReconciled.ReachableInv(sc, s);
  }

  /** A design is free of violations, over all its runs, exactly in the scenarios it stands. */
  lemma SafeIffStands(design: Design, sc: Scenario)
    ensures Safe(design, sc) <==> Stands(design, sc)
  {
    hide Model;
    forall k { FreezeKinds.ViolatesIff(design, sc, k); }
    if !Stands(design, sc) { assert FreezeKinds.Exhibits(design, sc, StrandedFreeze); }
  }

  datatype Summary = Summary(terminal: Option<Outcome>, host: Option<Host>, kf: bool, owner: Option<Pc>,
                             successor: bool)

  function Summarize(s: State): Summary {
    Summary(s.terminal, s.host, s.kf, s.pcs.o, s.successor)
  }

  /** What a complete exploration of a system with unique labels reports: exact counts, kinds, traces and outcomes. */
  ghost predicate Exact(sys: System<State, Label, Kind>, r: Explorer.Report<State, Label, Kind, Summary>,
                        seen: set<State>)
  {
    r.Explored? ==>
      && (forall s :: s in seen <==> Reachable(sys, s))
      && r.states == |seen| && r.quiescent == |Explorer.IdleStates(sys, seen)|
      && (forall k :: k in r.violations <==> Violates(sys, k))
      && (forall k :: k in r.violations ==> Shortest(sys, k, r.violations[k]))
      && (forall o :: o in r.outcomes <==> exists s :: s in Explorer.IdleStates(sys, seen) && Tells(o, s))
  }

  /** An outcome tells of a state how its generation ended, what its caller was told, and what it left. */
  predicate Tells(o: Summary, s: State) {
    && o.terminal == s.terminal && o.host == s.host && o.kf == s.kf && o.owner == s.pcs.o
    && o.successor == s.successor
  }

  /** A trace that exhibits the kind and replays, and none is shorter. */
  ghost predicate Shortest(sys: System<State, Label, Kind>, k: Kind, t: seq<Item<Label>>) {
    && Shows(sys, k, t) && Replay.ReplayFrom(sys, sys.start, t).Some?
    && forall u :: Shows(sys, k, u) ==> |t| <= |u|
  }

  method ExploreSystem(sys: System<State, Label, Kind>, limit: nat)
    returns (r: Explorer.Report<State, Label, Kind, Summary>, ghost seen: set<State>)
    requires Replay.UniqueLabels(sys)
    ensures r.LimitReached? ==> |seen| == Explorer.Max(limit, 1) + 1 && forall s :: s in seen ==> Reachable(sys, s)
    ensures r.Explored? ==> |seen| <= Explorer.Max(limit, 1)
    ensures Exact(sys, r, seen)
  {
    r, seen := Explorer.Explore(sys, Summarize, limit);
    if r.Explored? {
      forall k | k in r.violations ensures Shortest(sys, k, r.violations[k]) {
        var s := Replay.ReplayAccepts(sys, k, r.violations[k]);
      }
    }
  }

  /**
   * Explores one design; a complete exploration reports exactly the kinds of the table, and counts and outcomes of
   * exactly the states its runs end in. It gives up only once it has seen more reachable states than the limit allows.
   */
  method ExploreDesign(design: Design, sc: Scenario, limit: nat)
    returns (r: Explorer.Report<State, Label, Kind, Summary>, ghost seen: set<State>)
    ensures r.LimitReached? ==>
      |seen| == Explorer.Max(limit, 1) + 1 && forall s :: s in seen ==> Reachable(Model(design, sc), s)
    ensures r.Explored? ==> |seen| <= Explorer.Max(limit, 1)
    ensures Exact(Model(design, sc), r, seen)
    ensures r.Explored? ==> forall k :: k in r.violations <==> FreezeKinds.Exhibits(design, sc, k)
    ensures r.Explored? ==> (r.violations == map[] <==> Stands(design, sc))
  {
    hide Successors, QuiescentViolations, Initial, Stands, Model, FreezeKinds.Exhibits;
    FreezeLabels.LabelsUnique(design, sc);
    r, seen := ExploreSystem(Model(design, sc), limit);
    SafeIffStands(design, sc);
    forall k { FreezeKinds.ViolatesIff(design, sc, k); }
    if r.Explored? {
      NoneViolated(design, sc, r, seen);
    }
  }

  lemma NoneViolated(design: Design, sc: Scenario, r: Explorer.Report<State, Label, Kind, Summary>, seen: set<State>)
    requires Exact(Model(design, sc), r, seen) && r.Explored?
    ensures r.violations == map[] <==> Safe(design, sc)
  {
    hide Model;
    if r.violations != map[] {
      var k :| k in r.violations;
    }
  }
}
