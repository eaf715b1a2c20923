/** With systemd stalled no call is ever processed, so no design can go wrong. */
module FreezeStalled {
  import opened Options
  import opened Transitions
  import opened FreezeModel
  import opened FreezePhases

  /** Nothing was processed, and no actor got past the point where it waits for an answer. */
  ghost predicate Inv(design: Design, s: State) {
    && Idle(s) && s.replies == map[] && s.terminal != Some(Completed)
    && match design
       case HandlerScoped =>
         s.pcs.o == None && s.pcs.h in {Pc(0), Pc(1), Pc(2), Finished} && (s.pcs.h != Pc(2) ==> s.msgs == [])
       case DetachedTimeoutThaw =>
         s.pcs.o == None && s.pcs.h in {Pc(0), Pc(1), Pc(10)} && s.terminal == None
       case OwnerOrderedThaw =>
         s.pcs.o in {Some(Pc(0)), Some(Pc(1)), Some(Pc(2))} && s.terminal == None
       case OwnerReconciled =>
         s.pcs.o in {Some(Pc(0)), Some(Pc(1)), Some(Finished)} && (s.pcs.o != Some(Pc(1)) ==> s.msgs == [])
  }

  lemma HandlerScopedInv(s: State, sc: Scenario, e: Step)
    requires Inv(HandlerScoped, s) && e in HandlerScopedSteps(s, sc)
    ensures Inv(HandlerScoped, e.next) && e.found == []
  {
  }

  lemma DetachedHandlerInv(s: State, sc: Scenario, e: Step)
    requires Inv(DetachedTimeoutThaw, s) && e in DetachedHandler(s, sc)
    ensures Inv(DetachedTimeoutThaw, e.next) && e.found == []
  {
    hide OnNewConn, OnConn;
  }

  lemma DetachedHelperInv(s: State, e: Step)
    requires Inv(DetachedTimeoutThaw, s) && e in DetachedHelper(s)
    ensures Inv(DetachedTimeoutThaw, e.next) && e.found == []
  {
    hide OnNewConn, OnConn;
  }

  lemma DetachedInv(s: State, sc: Scenario, e: Step)
    requires Inv(DetachedTimeoutThaw, s) && e in DetachedSteps(s, sc)
    ensures Inv(DetachedTimeoutThaw, e.next) && e.found == []
  {
    hide Inv, DetachedHandler, DetachedHelper;
    if e in DetachedHandler(s, sc) { DetachedHandlerInv(s, sc, e); } else { DetachedHelperInv(s, e); }
  }

  lemma RpcHandlerInv(design: Design, s: State, e: Step)
    requires IsOwnerDesign(design) && Inv(design, s) && e in RpcHandler(s)
    ensures Inv(design, e.next) && e.found == []
  {
  }

  lemma OrderedInv(s: State, sc: Scenario, e: Step)
    requires Inv(OwnerOrderedThaw, s) && e in OrderedOwner(s, sc)
    ensures Inv(OwnerOrderedThaw, e.next) && e.found == []
  {
    hide OrderedFound, OnNewConn, OnConn;
  }

  lemma ReconciledInv(s: State, sc: Scenario, e: Step)
    requires Inv(OwnerReconciled, s) && e in ReconciledOwner(s, sc)
    ensures Inv(OwnerReconciled, e.next) && e.found == []
  {
    hide OnNewConn;
  }

  lemma EnvironmentInv(design: Design, s: State, sc: Scenario, e: Step)
    requires !sc.systemdAlive && Inv(design, s) && EnvironmentStep(s, sc, e)
    ensures Inv(design, e.next) && e.found == []
  {
  }

  lemma StepInv(design: Design, s: State, sc: Scenario, e: Step)
    requires !sc.systemdAlive && Inv(design, s) && e in Successors(design, s, sc)
    ensures Inv(design, e.next) && e.found == []
  {
    hide Inv, HandlerScopedSteps, DetachedSteps, OrderedOwner, ReconciledOwner, RpcHandler, Environment;
    EnvironmentCases(s, sc, e);
    if e in Environment(s, sc) {
      EnvironmentInv(design, s, sc, e);
    } else if IsOwnerDesign(design) && e in RpcHandler(s) {
      RpcHandlerInv(design, s, e);
    } else {
      match design
      case HandlerScoped => HandlerScopedInv(s, sc, e);
      case DetachedTimeoutThaw => DetachedInv(s, sc, e);
      case OwnerOrderedThaw => OrderedInv(s, sc, e);
      case OwnerReconciled => ReconciledInv(s, sc, e);
    }
  }

  lemma Quiet(design: Design, s: State, sc: Scenario)
    requires !sc.systemdAlive && Inv(design, s)
    ensures QuiescentViolations(design, s, sc) == []
  {
  }

  lemma InitialInv(design: Design, sc: Scenario)
    ensures Inv(design, Initial(design, sc))
  {
  }

  lemma ReachableInv(design: Design, sc: Scenario)
    requires !sc.systemdAlive
    ensures forall s :: Reachable(Model(design, sc), s) ==> Inv(design, s)
  {
    hide Inv, Successors, QuiescentViolations, Initial;
    var sys := Model(design, sc);
    InitialInv(design, sc);
    forall u, e | Inv(design, u) && e in sys.succ(u) ensures Inv(design, e.next) {
      StepInv(design, u, sc, e);
    }
    Invariant(sys, u => Inv(design, u));
  }

  lemma Safe(design: Design, sc: Scenario, k: Kind)
    requires !sc.systemdAlive
    ensures !Violates(Model(design, sc), k)
  {
    hide Inv, Successors, QuiescentViolations, Initial;
    var sys := Model(design, sc);
    ReachableInv(design, sc);
    ViolatesIffCarried(sys, k);
    forall s | Reachable(sys, s) ensures !Carries(sys, s, k) {
      forall e | e in sys.succ(s) ensures e.found == [] {
        StepInv(design, s, sc, e);
      }
      Quiet(design, s, sc);
    }
  }
}
