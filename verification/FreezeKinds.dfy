/** For each design, exactly which violations it can exhibit in which scenarios, and where it can succeed. */
module FreezeKinds {
  import opened Options
  import opened Transitions
  import opened FreezeModel
  import opened FreezePhases
  import FreezeStalled
  import FreezeHost
  import FreezeHandler
  import FreezeDetached
  import FreezeOrdered
  import FreezeUnordered
  import FreezeReconciled
  import FreezeWitness
  import opened FreezeRuns

  /** The scenarios in which a kind is among a design's violations, read off the flags. */
  predicate Exhibits(design: Design, sc: Scenario, k: Kind) {
    && sc.systemdAlive
    && match design
       case HandlerScoped =>
         if k == StrandedFreeze then (sc.stuck && !sc.release) || sc.lockWaiter || sc.getpidsFail || sc.thawError
         else k == DishonestSuccess && sc.thawError && !sc.getpidsFail && (!sc.stuck || sc.release)
       case DetachedTimeoutThaw =>
         (match k
          case LateOp => true
          case FalseTerminal => true
          case StrandedFreeze => true
          case SuccessorTouched => sc.reuse
          case DishonestSuccess => sc.thawError && !sc.getpidsFail && (!sc.stuck || sc.release)
          case NotTerminal => false)
       case OwnerOrderedThaw =>
         (match k
          case LateOp => !sc.fifo
          case SuccessorTouched => !sc.fifo && sc.reuse
          case FalseTerminal => !sc.fifo || sc.thawError
          case StrandedFreeze => !sc.fifo || sc.thawError
          case _ => false)
       case OwnerReconciled => false
  }

  /** A successor is only ever admitted in scenarios that reuse the unit. */
  ghost predicate Reused(s: State, sc: Scenario) {
    s.successor ==> sc.reuse
  }

  lemma StepReused(design: Design, s: State, sc: Scenario, e: Step)
    requires Reused(s, sc) && e in Successors(design, s, sc)
    ensures Reused(e.next, sc) && (SuccessorTouched in e.found ==> sc.reuse)
  {
    hide DesignSteps, Environment;
    EnvironmentCases(s, sc, e);
    if e in Environment(s, sc) { EnvironmentReused(s, sc, e); } else { DesignReused(design, s, sc, e); }
  }

  lemma EnvironmentReused(s: State, sc: Scenario, e: Step)
    requires Reused(s, sc) && EnvironmentStep(s, sc, e)
    ensures Reused(e.next, sc) && (SuccessorTouched in e.found ==> sc.reuse)
  {
    hide EnvironmentStep, SystemdEvents, SystemdProcess, KernelSteps, OutsideSteps, DeliverStep;
    var o := OriginOf(s, sc, e);
    match o
    case FromKernel => KernelCases(s, sc, e);
    case FromOutside => OutsideCases(s, sc, e);
    case FromQueue(c, i) => DeliveryReused(s, c, i);
    case FromInbox => ProcessActs(s, sc);
    case FromEvents => EventsAct(s);
  }

  lemma DeliveryReused(s: State, c: nat, i: nat)
    requires c < |s.queues| && i < |s.queues[c]|
    ensures DeliverStep(s, c, i).next.successor == s.successor && DeliverStep(s, c, i).found == []
  {
  }

  /** A design's own step admits nobody and touches nobody. */
  ghost predicate Harmless(s: State, e: Step) {
    e.next.successor == s.successor && SuccessorTouched !in e.found && LateOp !in e.found && NotTerminal !in e.found
  }

  lemma FinishHarmless(s: State, pcs: Actors, outcome: Outcome, host: Host, l: Label)
    ensures Harmless(s, Edge(l, Finish(s, pcs, outcome, host), FinishFound(s, host)))
    ensures Harmless(s, Edge(l, Finish(s, pcs, outcome, host), OrderedFound(s, host)))
  {
    hide Unanswered, ReplyTo;
  }

  lemma HandlerScopedHarmless(s: State, sc: Scenario, e: Step)
    requires e in HandlerScopedSteps(s, sc)
    ensures Harmless(s, e)
  {
    hide Harmless, FreezeHost.GoesOn, Finish, FinishFound, GotoH, KillH, SendFreezeH, SendThawH, ReplyTo;
    match s.pcs.h
    case Pc(n) =>
      HandlerHarmless(s, n + 1, s.killall, e.act);
      FinishHarmless(s, s.pcs.(h := Finished), Dropped, HostDeadline, HDropped);
      FinishHarmless(s, s.pcs.(h := Finished), ErrorReturned, HostError, HGetPidsFailed);
      FinishHarmless(s, s.pcs.(h := Finished), Completed, HostOk, HThawReturned);
    case _ =>
  }

  lemma HandlerHarmless(s: State, n: nat, killed: nat, l: Label)
    ensures Harmless(s, Edge(l, GotoH(s, Pc(n)), [])) && Harmless(s, Edge(l, KillH(s, Pc(n)), []))
    ensures Harmless(s, Edge(l, SendFreezeH(s), [])) && Harmless(s, Edge(l, SendThawH(s, killed, n), []))
    ensures Harmless(s, Edge(l, SpawnF(s), []))
  {
    hide GotoH, KillH, SendFreezeH, SendThawH, SpawnF;
    FreezeHost.HandlerGoesOn(s, n, killed);
  }

  lemma DetachedHarmless(s: State, sc: Scenario, e: Step)
    requires e in DetachedHandler(s, sc)
    ensures Harmless(s, e)
  {
    hide Harmless, Finish, FinishFound, GotoH, SpawnF, SendThawH, ReplyTo;
    match s.pcs.h
    case Pc(n) =>
      HandlerHarmless(s, n + 1, s.killall + 1, e.act);
      HandlerHarmless(s, 10, s.killall, e.act);
      FinishHarmless(s, s.pcs.(h := Finished), ErrorReturned, HostError, HGetPidsFailed);
      FinishHarmless(s, s.pcs.(h := Finished), Completed, HostOk, HThawReturned);
      FinishHarmless(s, s.pcs.(h := Finished), Aborted, HostError, HDiscard);
    case _ =>
  }

  lemma HelperHarmless(s: State, e: Step)
    requires e in DetachedHelper(s)
    ensures Harmless(s, e)
  {
    hide ConnectF, SendFreezeF;
    FreezeHost.HelperGoesOn(s);
  }

  lemma RpcHarmless(s: State, e: Step)
    requires e in RpcHandler(s)
    ensures Harmless(s, e)
  {
  }

  lemma OwnerHarmless(s: State, pc: Pc, keep: bool, killed: nat, l: Label)
    ensures Harmless(s, Edge(l, GotoO(s, pc), [])) && Harmless(s, Edge(l, KillO(s, pc), []))
    ensures Harmless(s, Edge(l, SubmitFreeze(s, keep), [])) && Harmless(s, Edge(l, ThawSameConn(s, killed), []))
    ensures Harmless(s, Edge(l, ThawNewConn(s), []))
  {
    hide GotoO, KillO, SubmitFreeze, ThawSameConn, ThawNewConn;
    FreezeHost.OwnerGoesOn(s, pc, keep, killed);
  }

  lemma OrderedHarmless(s: State, sc: Scenario, e: Step)
    requires e in OrderedOwner(s, sc)
    ensures Harmless(s, e)
  {
    hide Harmless, Finish, OrderedFound, SubmitFreeze, ThawSameConn, ReplyTo;
    OwnerHarmless(s, Pc(2), true, s.killall, e.act);
    OwnerHarmless(s, Pc(2), true, s.killall + 1, e.act);
    FinishHarmless(s, s.pcs.(o := Some(Finished)), Completed, HostOk, OThawReply);
    FinishHarmless(s, s.pcs.(o := Some(Finished)), Aborted, HostError, OThawReply);
  }

  lemma ReconciledHarmless(s: State, sc: Scenario, e: Step)
    requires e in ReconciledOwner(s, sc)
    ensures Harmless(s, e)
  {
    hide Harmless, Finish, FinishFound, SubmitFreeze, ThawNewConn, GotoO, KillO, ReplyTo;
    OwnerHarmless(s, Pc(2), false, 0, e.act);
    OwnerHarmless(s, Unresolved, false, 0, e.act);
    FinishHarmless(s, s.pcs.(o := Some(Finished)), AbortedBeforeSubmit, HostError, ODeadlineBeforeSubmit);
    FinishHarmless(s, s.pcs.(o := Some(Finished)), Completed, HostOk, OFinished);
    FinishHarmless(s, s.pcs.(o := Some(Finished)), Aborted, HostError, OFinished);
  }

  lemma DesignReused(design: Design, s: State, sc: Scenario, e: Step)
    requires e in DesignSteps(design, s, sc)
    ensures Harmless(s, e)
  {
    hide Harmless, HandlerScopedSteps, DetachedHandler, DetachedHelper, OrderedOwner, ReconciledOwner, RpcHandler;
    if IsOwnerDesign(design) && e in RpcHandler(s) {
      RpcHarmless(s, e);
    } else {
      match design
      case HandlerScoped => HandlerScopedHarmless(s, sc, e);
      case DetachedTimeoutThaw =>
        if e in DetachedHandler(s, sc) { DetachedHarmless(s, sc, e); } else { HelperHarmless(s, e); }
      case OwnerOrderedThaw => OrderedHarmless(s, sc, e);
      case OwnerReconciled => ReconciledHarmless(s, sc, e);
    }
  }

  lemma OnlyReused(design: Design, sc: Scenario)
    requires Violates(Model(design, sc), SuccessorTouched)
    ensures sc.reuse
  {
    hide Reused, Successors;
    var sys := Model(design, sc);
    assert Reused(sys.start, sc) by { InitialReused(design, sc); }
    forall u, e | Reused(u, sc) && e in sys.succ(u) ensures Reused(e.next, sc) {
      StepReused(design, u, sc, e);
    }
    Invariant(sys, u => Reused(u, sc));
    ViolatesIffCarried(sys, SuccessorTouched);
    var s :| Reachable(sys, s) && Carries(sys, s, SuccessorTouched);
    if e :| e in sys.succ(s) && SuccessorTouched in e.found {
      StepReused(design, s, sc, e);
    }
  }

  lemma InitialReused(design: Design, sc: Scenario)
    ensures Reused(Initial(design, sc), sc)
  {
  }

  /** Only owner designs have an end to miss. */
  lemma OnlyOwnersWait(design: Design, sc: Scenario)
    requires Violates(Model(design, sc), NotTerminal)
    ensures IsOwnerDesign(design)
  {
    hide Successors;
    var sys := Model(design, sc);
    ViolatesIffCarried(sys, NotTerminal);
    var s :| Reachable(sys, s) && Carries(sys, s, NotTerminal);
    if e :| e in sys.succ(s) && NotTerminal in e.found {
      NeverOnSteps(design, s, sc, e);
    }
  }

  lemma NeverOnSteps(design: Design, s: State, sc: Scenario, e: Step)
    requires e in Successors(design, s, sc)
    ensures NotTerminal !in e.found
  {
    hide DesignSteps, Environment, EnvironmentStep, SystemdProcess, SystemdEvents;
    EnvironmentCases(s, sc, e);
    if e in Environment(s, sc) { EnvironmentFound(s, sc, e); } else { DesignReused(design, s, sc, e); }
  }

  lemma EnvironmentFound(s: State, sc: Scenario, e: Step)
    requires EnvironmentStep(s, sc, e)
    ensures NotTerminal !in e.found
  {
    hide SystemdProcess, SystemdEvents;
    if s.inbox != [] { ProcessActs(s, sc); }
  }

  // ---- the table ----

  lemma OnlyExhibited(design: Design, sc: Scenario, k: Kind)
    requires Violates(Model(design, sc), k)
    ensures Exhibits(design, sc, k)
  {
    if !sc.systemdAlive { FreezeStalled.Safe(design, sc, k); }
    if k == SuccessorTouched { OnlyReused(design, sc); }
    match design
    case HandlerScoped =>
      FreezeHandler.OnlyKinds(sc, k);
      if FreezeHandler.Good(sc) { FreezeHandler.Safe(sc, k); }
    case DetachedTimeoutThaw =>
      if k == DishonestSuccess { FreezeDetached.OnlyDishonest(sc); }
      if k == NotTerminal { OnlyOwnersWait(design, sc); }
    case OwnerOrderedThaw =>
      FreezeUnordered.OnlyKinds(sc, k);
      if FreezeOrdered.Good(sc) { FreezeOrdered.Safe(sc, k); }
    case OwnerReconciled =>
      FreezeReconciled.Safe(sc, k);
  }

  lemma AllExhibited(design: Design, sc: Scenario, k: Kind)
    requires Exhibits(design, sc, k)
    ensures Violates(Model(design, sc), k)
  {
    match design
    case HandlerScoped =>
      if k == DishonestSuccess { HandlerSucceeds(sc); } else { HandlerStrands(sc); }
    case DetachedTimeoutThaw =>
      if k == DishonestSuccess { DetachedSucceeds(sc); } else { DetachedOvertaken(sc); }
    case OwnerOrderedThaw =>
      if k == SuccessorTouched {
        FreezeWitness.OrderedSuccessor(sc);
      } else if sc.thawError && k != LateOp {
        FreezeWitness.OrderedRefused(sc);
      } else {
        OrderedUnorderedViolates(sc, k);
      }
  }

  lemma HandlerStrands(sc: Scenario)
    requires Exhibits(HandlerScoped, sc, StrandedFreeze)
    ensures Violates(Model(HandlerScoped, sc), StrandedFreeze)
  {
    if sc.stuck && !sc.release {
      FreezeWitness.HandlerNeverReleased(sc);
    } else if sc.lockWaiter {
      FreezeWitness.HandlerDropped(sc);
    } else if sc.getpidsFail {
      FreezeWitness.HandlerEnumerationFails(sc);
    } else {
      HandlerSucceeds(sc);
    }
  }

  lemma OrderedUnorderedViolates(sc: Scenario, k: Kind)
    requires sc.systemdAlive && !sc.fifo && k in {LateOp, FalseTerminal, StrandedFreeze}
    ensures Violates(Model(OwnerOrderedThaw, sc), k)
  {
    hide Successors;
    var sys := Model(OwnerOrderedThaw, sc);
    var w, i, j := FreezeWitness.OrderedUnordered(sc);
    if k == FalseTerminal {
      WalkViolates(sys, w, i, k);
    } else if k == LateOp {
      WalkViolates(sys, w, j, k);
    } else {
      WalkReaches(sys, w);
      assert Carries(sys, End(sys, w), StrandedFreeze);
      ViolatesIffCarried(sys, k);
    }
  }

  /** Each design exhibits a kind of violation exactly in the scenarios that the table says. */
  lemma ViolatesIff(design: Design, sc: Scenario, k: Kind)
    ensures Violates(Model(design, sc), k) <==> Exhibits(design, sc, k)
  {
    hide Exhibits;
    if Violates(Model(design, sc), k) { OnlyExhibited(design, sc, k); }
    if Exhibits(design, sc, k) { AllExhibited(design, sc, k); }
  }

  /**
   * A caller is told of success on some run exactly when systemd is alive, the kernel can come to freeze the cgroup and
   * its processes can be listed; the owner designs tell so only of thaws that are not refused.
   */
  lemma SucceedsIff(design: Design, sc: Scenario)
    ensures Succeeds(design, sc) <==>
      && sc.systemdAlive && (!sc.stuck || sc.release) && !sc.getpidsFail
      && (IsOwnerDesign(design) ==> !sc.thawError)
  {
    hide Successors;
    if s :| Reachable(Model(design, sc), s) && s.host == Some(HostOk) {
      SuccessNeeds(design, sc, s);
    }
    if FreezeWitness.CanFreeze(sc) && !sc.getpidsFail {
      match design
      case HandlerScoped => HandlerSucceeds(sc);
      case DetachedTimeoutThaw => DetachedSucceeds(sc);
      case OwnerOrderedThaw => if !sc.thawError { OrderedSucceeds(sc); }
      case OwnerReconciled => if !sc.thawError { ReconciledSucceeds(sc); }
    }
  }

  lemma SuccessNeeds(design: Design, sc: Scenario, s: State)
    requires Reachable(Model(design, sc), s) && s.host == Some(HostOk)
    ensures sc.systemdAlive && (!sc.stuck || sc.release) && !sc.getpidsFail
    ensures IsOwnerDesign(design) ==> !sc.thawError
  {
    FreezeHost.ReachableTells(design, sc, s);
    assert s.terminal == Some(Completed);
    if !sc.systemdAlive { FreezeStalled.ReachableInv(design, sc); }
    match design
    case HandlerScoped => FreezeHandler.ReachableInv(sc, s);
    case DetachedTimeoutThaw => FreezeDetached.ReachableInv(sc, s);
    case OwnerOrderedThaw => FreezeUnordered.ReachableInv(sc, s);
    case OwnerReconciled => FreezeReconciled.CompletedAble(sc, s);
  }
}
