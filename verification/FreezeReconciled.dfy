/** The reconciled owner: safe in every scenario, and exactly how each of its runs ends. */
module FreezeReconciled {
  import opened Options
  import opened Transitions
  import opened FreezeModel
  import opened FreezePhases

  /** ThawUnit travels on its own connection, and only after FreezeUnit was processed. */
  ghost predicate ThawSent(s: State, sc: Scenario) {
    && s.msgs == [Freeze, Thaw]
    && (
      || (FreezeSeen(s) && s.queues == [[], [THAW]] && s.inbox == [])
      || (FreezeSeen(s) && s.queues == [[], []] && s.inbox == [THAW])
      || (s.queues == [[], []] && s.inbox == [] && (if sc.thawError then ThawRefused(s) else ThawHeld(s) || Thawed(s))))
  }

  ghost predicate Settled(s: State) {
    && Thawed(s) && s.queues == [[], []] && s.inbox == []
    && s.terminal == Some(if s.replies[FREEZE] == Ok && s.killall > 0 then Completed else Aborted)
  }

  ghost predicate NeverSubmitted(s: State) {
    Fresh(s) && s.terminal == Some(AbortedBeforeSubmit) && s.vars.freeze == None
  }

  /** The owner's program counter decides where every call is. */
  ghost predicate OwnerAt(s: State, sc: Scenario) {
    match s.pcs.o
    case Some(Pc(0)) => Fresh(s) && s.vars.freeze == None
    case Some(Pc(1)) => FreezeSent(s) && s.killall == 0
    case Some(Pc(2)) => s.msgs == [Freeze] && s.queues == [[]] && s.inbox == [] && FreezeSeen(s)
    case Some(Pc(3)) => ThawSent(s, sc)
    case Some(Finished) => (!sc.thawError && Settled(s)) || NeverSubmitted(s)
    case Some(Unresolved) => sc.thawError && s.msgs == [Freeze, Thaw] && s.queues == [[], []] && s.inbox == [] &&
      ThawRefused(s)
    case _ => false
  }

  ghost predicate Inv(s: State, sc: Scenario) {
    && OwnerAt(s, sc)
    && (s.msgs != [] ==> s.vars.freeze == Some(FREEZE))
    && (|s.msgs| == 2 ==> s.vars.thaw == Some(THAW))
    && s.pcs.h in {Pc(0), Finished}
    && (s.terminal.Some? <==> s.pcs.o == Some(Finished))
    && (s.successor ==> s.terminal.Some?)
    && (!sc.systemdAlive ==> Idle(s) && s.replies == map[])
  }

  lemma InitialInv(sc: Scenario)
    ensures Inv(Initial(OwnerReconciled, sc), sc)
  {
  }

  lemma HandlerInv(s: State, sc: Scenario, e: Step)
    requires Inv(s, sc) && e in RpcHandler(s)
    ensures Inv(e.next, sc) && e.found == []
  {
  }

  lemma Owner0Inv(s: State, sc: Scenario, e: Step)
    requires Inv(s, sc) && e in ReconciledOwner(s, sc)
    requires s.pcs.o == Some(Pc(0))
    ensures Inv(e.next, sc) && e.found == []
  {
    assert OnNewConn(s) == [[FREEZE]];
  }

  lemma Owner1Inv(s: State, sc: Scenario, e: Step)
    requires Inv(s, sc) && e in ReconciledOwner(s, sc)
    requires s.pcs.o == Some(Pc(1))
    ensures Inv(e.next, sc) && e.found == []
  {
    if ReplyTo(s, s.vars.freeze) == Some(Ok) {
      assert FrozenStill(s);
      if sc.getpidsFail {
        assert e == Edge(OFrozenThawAnyway, GotoO(s, Pc(2)), []);
      } else {
        assert e == Edge(OFrozenKill, KillO(s, Pc(2)), []);
      }
    } else {
      assert FreezeSeen(s);
      assert e == Edge(OCancelByThaw, GotoO(s, Pc(2)), []);
    }
  }

  lemma Owner2Inv(s: State, sc: Scenario, e: Step)
    requires Inv(s, sc) && e in ReconciledOwner(s, sc)
    requires s.pcs.o == Some(Pc(2))
    ensures Inv(e.next, sc) && e.found == []
  {
    assert OnNewConn(s) == [[], [THAW]];
    assert e.next.queues == [[], [THAW]];
  }

  lemma Owner3Inv(s: State, sc: Scenario, e: Step)
    requires Inv(s, sc) && e in ReconciledOwner(s, sc)
    requires s.pcs.o == Some(Pc(3))
    ensures Inv(e.next, sc) && e.found == []
  {
  }

  lemma DesignStepInv(s: State, sc: Scenario, e: Step)
    requires Inv(s, sc) && e in ReconciledSteps(s, sc)
    ensures Inv(e.next, sc) && e.found == []
  {
    hide Inv, RpcHandler, ReconciledOwner;
    if e in RpcHandler(s) {
      HandlerInv(s, sc, e);
    } else {
      OwnerInv(s, sc, e);
    }
  }

  lemma OwnerInv(s: State, sc: Scenario, e: Step)
    requires Inv(s, sc) && e in ReconciledOwner(s, sc)
    ensures Inv(e.next, sc) && e.found == []
  {
    hide Inv;
    match s.pcs.o
    case Some(Pc(0)) => Owner0Inv(s, sc, e);
    case Some(Pc(1)) => Owner1Inv(s, sc, e);
    case Some(Pc(2)) => Owner2Inv(s, sc, e);
    case Some(Pc(3)) => Owner3Inv(s, sc, e);
    case _ =>
  }

  lemma DeliverInv(s: State, sc: Scenario, c: nat, i: nat)
    requires Inv(s, sc) && c < |s.queues| && i < Deliverable(s, sc, c)
    ensures Inv(DeliverStep(s, c, i).next, sc)
  {
    OneDelivered(s, sc, c, i);
  }

  lemma ProcessInv(s: State, sc: Scenario)
    requires Inv(s, sc) && sc.systemdAlive && s.inbox != []
    ensures Inv(SystemdProcess(s, sc).next, sc) && SystemdProcess(s, sc).found == []
  {
    assert s.inbox[1..] == [];
    if s.pcs.o == Some(Pc(1)) {
      assert s.inbox[0] == FREEZE;
    } else {
      ProcessThawInv(s, sc);
    }
  }

  lemma ProcessThawInv(s: State, sc: Scenario)
    requires Inv(s, sc) && sc.systemdAlive && s.inbox != [] && s.pcs.o == Some(Pc(3))
    ensures Inv(SystemdProcess(s, sc).next, sc) && SystemdProcess(s, sc).found == []
  {
    assert s.inbox == [THAW] && s.inbox[1..] == [];
    if !sc.thawError { ThawProcessed(s, sc); }
  }

  lemma EventsInv(s: State, sc: Scenario)
    requires Inv(s, sc) && sc.systemdAlive && s.inotify
    ensures Inv(SystemdEvents(s), sc)
  {
    EventsAnswer(s);
  }

  lemma KernelInv(s: State, sc: Scenario, e: Step)
    requires Inv(s, sc) && e in KernelSteps(s, sc)
    ensures Inv(e.next, sc) && e.found == []
  {
    assert !(exists r :: s.replies == map[FREEZE := r] && FreezeAnswer(s, r)) || !ThawHeld(s) || !s.kf;
  }

  lemma OutsideInv(s: State, sc: Scenario, e: Step)
    requires Inv(s, sc) && e in OutsideSteps(s, sc)
    ensures Inv(e.next, sc) && e.found == []
  {
    assert forall r :: FreezeAnswer(e.next, r) == FreezeAnswer(s, r);
  }

  lemma EnvironmentInv(s: State, sc: Scenario, e: Step)
    requires Inv(s, sc) && EnvironmentStep(s, sc, e)
    ensures Inv(e.next, sc) && e.found == []
  {
    hide Inv, SystemdEvents, SystemdProcess;
    var o := OriginOf(s, sc, e);
    match o
    case FromKernel => KernelInv(s, sc, e);
    case FromOutside => OutsideInv(s, sc, e);
    case FromQueue(c, i) => DeliverInv(s, sc, c, i);
    case FromInbox => ProcessInv(s, sc);
    case FromEvents => EventsInv(s, sc);
  }

  lemma StepInv(s: State, sc: Scenario, e: Step)
    requires Inv(s, sc) && e in Successors(OwnerReconciled, s, sc)
    ensures Inv(e.next, sc) && e.found == []
  {
    hide Inv, ReconciledSteps, Environment;
    EnvironmentCases(s, sc, e);
    if e in ReconciledSteps(s, sc) {
      DesignStepInv(s, sc, e);
    } else {
      EnvironmentInv(s, sc, e);
    }
  }

  /** The invariant holds in every state the reconciled owner can reach, in every scenario. */
  lemma ReachableInv(sc: Scenario, s: State)
    requires Reachable(Model(OwnerReconciled, sc), s)
    ensures Inv(s, sc)
  {
    hide Inv, Successors;
    InitialInv(sc);
    forall u, e | Inv(u, sc) && e in Model(OwnerReconciled, sc).succ(u) ensures Inv(e.next, sc) {
      StepInv(u, sc, e);
    }
    Invariant(Model(OwnerReconciled, sc), u => Inv(u, sc));
  }

  /** Nobody is killed when the listing fails, or when a task keeps the kernel from freezing for good. */
  ghost predicate Able(s: State, sc: Scenario) {
    && (sc.getpidsFail ==> s.killall == 0)
    && (s.stuck ==> sc.stuck) && (sc.stuck && !sc.release ==> s.stuck && !s.kz && s.killall == 0)
  }

  /** An owner that meets an answered freeze finds the cgroup frozen. */
  lemma AnsweredFrozen(s: State, sc: Scenario)
    requires Inv(s, sc) && s.pcs.o == Some(Pc(1)) && ReplyTo(s, s.vars.freeze) == Some(Ok)
    ensures s.kz
  {
  }

  lemma OwnerAble(s: State, sc: Scenario, e: Step)
    requires Inv(s, sc) && Able(s, sc) && e in ReconciledSteps(s, sc)
    ensures Able(e.next, sc)
  {
    hide Inv, FinishFound, RpcHandler, ReconciledOwner, Able;
    if e in RpcHandler(s) {
      RpcAble(s, sc, e);
    } else if s.pcs.o == Some(Pc(1)) {
      if ReplyTo(s, s.vars.freeze) == Some(Ok) { AnsweredFrozen(s, sc); }
      KillAble(s, sc, e);
    } else {
      SparesAble(s, sc, e);
    }
  }

  lemma RpcAble(s: State, sc: Scenario, e: Step)
    requires Able(s, sc) && e in RpcHandler(s)
    ensures Able(e.next, sc)
  {
  }

  lemma KillAble(s: State, sc: Scenario, e: Step)
    requires Able(s, sc) && e in ReconciledOwner(s, sc) && s.pcs.o == Some(Pc(1))
    requires ReplyTo(s, s.vars.freeze) == Some(Ok) ==> s.kz
    ensures Able(e.next, sc)
  {
    hide ReplyTo;
  }

  lemma SparesAble(s: State, sc: Scenario, e: Step)
    requires Able(s, sc) && e in ReconciledOwner(s, sc) && s.pcs.o != Some(Pc(1))
    ensures Able(e.next, sc)
  {
    hide ReplyTo, SubmitFreeze, ThawNewConn, Finish, GotoO, FinishFound;
    OwnerSpares(s, Unresolved, Completed, HostOk);
    OwnerSpares(s, Unresolved, Aborted, HostError);
    OwnerSpares(s, Unresolved, AbortedBeforeSubmit, HostError);
  }

  ghost predicate SameFate(s: State, t: State) {
    t.killall == s.killall && t.stuck == s.stuck && t.kz == s.kz
  }

  lemma OwnerSpares(s: State, pc: Pc, outcome: Outcome, host: Host)
    ensures SameFate(s, SubmitFreeze(s, false)) && SameFate(s, ThawNewConn(s)) && SameFate(s, GotoO(s, pc))
    ensures SameFate(s, Finish(s, s.pcs.(o := Some(Finished)), outcome, host))
  {
    hide Finish, OnNewConn;
    FinishSpares(s, outcome, host);
  }

  lemma FinishSpares(s: State, outcome: Outcome, host: Host)
    ensures SameFate(s, Finish(s, s.pcs.(o := Some(Finished)), outcome, host))
  {
  }

  lemma EnvironmentAble(s: State, sc: Scenario, e: Step)
    requires Able(s, sc) && EnvironmentStep(s, sc, e)
    ensures Able(e.next, sc)
  {
    hide EnvironmentStep, SystemdEvents, SystemdProcess, KernelSteps, OutsideSteps, DeliverStep;
    var o := OriginOf(s, sc, e);
    match o
    case FromKernel => KernelAble(s, sc, e);
    case FromOutside => OutsideAble(s, sc, e);
    case FromQueue(c, i) => DeliveryMoves(s, c, i);
    case FromInbox => ProcessActs(s, sc);
    case FromEvents => EventsAct(s);
  }

  lemma KernelAble(s: State, sc: Scenario, e: Step)
    requires Able(s, sc) && e in KernelSteps(s, sc)
    ensures Able(e.next, sc)
  {
  }

  lemma OutsideAble(s: State, sc: Scenario, e: Step)
    requires Able(s, sc) && e in OutsideSteps(s, sc)
    ensures Able(e.next, sc)
  {
  }

  lemma DeliveryMoves(s: State, c: nat, i: nat)
    requires c < |s.queues| && i < |s.queues[c]|
    ensures var t := DeliverStep(s, c, i).next; t == s.(inbox := t.inbox, queues := t.queues)
  {
  }

  lemma ReachableAble(sc: Scenario, s: State)
    requires Reachable(Model(OwnerReconciled, sc), s)
    ensures Able(s, sc)
  {
    hide Inv, Able, Successors;
    InitialInv(sc);
    assert Able(Initial(OwnerReconciled, sc), sc) by { InitialAble(sc); }
    forall u, e | Inv(u, sc) && Able(u, sc) && e in Model(OwnerReconciled, sc).succ(u)
      ensures Inv(e.next, sc) && Able(e.next, sc)
    {
      StepInv(u, sc, e);
      StepAble(u, sc, e);
    }
    Invariant(Model(OwnerReconciled, sc), u => Inv(u, sc) && Able(u, sc));
  }

  lemma InitialAble(sc: Scenario)
    ensures Able(Initial(OwnerReconciled, sc), sc)
  {
  }

  lemma StepAble(s: State, sc: Scenario, e: Step)
    requires Inv(s, sc) && Able(s, sc) && e in Successors(OwnerReconciled, s, sc)
    ensures Able(e.next, sc)
  {
    hide Inv, Able, ReconciledSteps, Environment;
    EnvironmentCases(s, sc, e);
    if e in ReconciledSteps(s, sc) { OwnerAble(s, sc, e); } else { EnvironmentAble(s, sc, e); }
  }

  /** A completed stop killed everybody in a cgroup that had frozen, and was thawed. */
  lemma CompletedAble(sc: Scenario, s: State)
    requires Reachable(Model(OwnerReconciled, sc), s) && s.terminal == Some(Completed)
    ensures !sc.thawError && !sc.getpidsFail && (!sc.stuck || sc.release)
  {
    ReachableInv(sc, s);
    ReachableAble(sc, s);
  }

  lemma QuiescentInFlight(s: State, sc: Scenario)
    requires Inv(s, sc) && Successors(OwnerReconciled, s, sc) == []
    ensures s.queues == [] || s.queues == [[]] || s.queues == [[], []]
    ensures sc.systemdAlive ==> s.inbox == [] && !s.inotify
    ensures s.deadline || s.terminal.Some?
    ensures ReconciledOwner(s, sc) == []
  {
    EnvironmentQuiet(s, sc);
  }

  /** How a run ends: one of four ways, decided by the scenario and by whether FreezeUnit was sent. */
  ghost predicate Ending(s: State, sc: Scenario) {
    if s.msgs == [] then
      NeverSubmitted(s) && !s.kf
    else if !sc.systemdAlive then
      s.pcs.o == Some(Pc(1)) && s.terminal == None && !s.successor && !s.kf && s.inbox == [FREEZE]
    else if sc.thawError then
      s.pcs.o == Some(Unresolved) && s.terminal == None && !s.successor && s.kf
    else
      Settled(s)
  }

  lemma QuiescentEnding(s: State, sc: Scenario)
    requires Inv(s, sc) && Successors(OwnerReconciled, s, sc) == []
    ensures Ending(s, sc)
  {
    hide Successors;
    QuiescentInFlight(s, sc);
    match s.pcs.o
    case Some(Pc(n)) => QuiescentWaiting(s, sc);
    case _ =>
  }

  /** An owner that is still waiting has nothing to wait for unless systemd is stalled. */
  lemma QuiescentWaiting(s: State, sc: Scenario)
    requires Inv(s, sc) && s.pcs.o.Some? && s.pcs.o.value.Pc?
    requires ReconciledOwner(s, sc) == [] && (s.deadline || s.terminal.Some?)
    requires s.queues == [] || s.queues == [[]] || s.queues == [[], []]
    requires sc.systemdAlive ==> s.inbox == [] && !s.inotify
    ensures s.pcs.o == Some(Pc(1)) && !sc.systemdAlive && s.msgs == [Freeze] && s.inbox == [FREEZE]
  {
    assert s.queues != [] ==> s.queues[|s.queues| - 1] == [];
  }

  lemma EndingClean(s: State, sc: Scenario)
    requires Inv(s, sc) && Ending(s, sc)
    ensures QuiescentViolations(OwnerReconciled, s, sc) == []
  {
  }

  /** The reconciled owner exhibits nothing, on any run, in any scenario. */
  lemma Safe(sc: Scenario, k: Kind)
    ensures !Violates(Model(OwnerReconciled, sc), k)
  {
    hide Inv, Successors, QuiescentViolations;
    var sys := Model(OwnerReconciled, sc);
    ViolatesIffCarried(sys, k);
    forall s | Reachable(sys, s) ensures !Carries(sys, s, k) {
      ReachableInv(sc, s);
      forall e | e in sys.succ(s) ensures e.found == [] {
        StepInv(s, sc, e);
      }
      if sys.succ(s) == [] {
        QuiescentEnding(s, sc);
        EndingClean(s, sc);
      }
    }
  }
}
