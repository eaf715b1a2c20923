/** The handler-scoped design: safe when nothing makes the handler return before its thaw is answered. */
module FreezeHandler {
  import opened Options
  import opened Transitions
  import opened FreezeModel
  import opened FreezePhases

  ghost predicate Good(sc: Scenario) {
    sc.systemdAlive && !sc.lockWaiter && !sc.getpidsFail && !sc.thawError && (!sc.stuck || sc.release)
  }

  /** The cgroup is frozen and the handler is between its two calls. */
  ghost predicate Between(s: State, killed: nat) {
    s.msgs == [Freeze] && s.queues == [[]] && s.inbox == [] && FrozenStill(s) && s.replies == map[FREEZE := Ok] &&
      s.killall == killed
  }

  ghost predicate ThawSent(s: State, sc: Scenario) {
    && s.msgs == [Freeze, Thaw] && s.killall == 1
    && (
      || (FrozenStill(s) && s.replies == map[FREEZE := Ok] && s.queues == [[], [THAW]] && s.inbox == [])
      || (FrozenStill(s) && s.replies == map[FREEZE := Ok] && s.queues == [[], []] && s.inbox == [THAW])
      || (s.queues == [[], []] && s.inbox == [] && (if sc.thawError then Refused(s) else ThawHeld(s) || Thawed(s))))
  }

  /** The handler is gone, and every call it sent was answered. */
  ghost predicate Left(s: State, sc: Scenario) {
    || Fresh(s)
    || (Between(s, 0) && (sc.lockWaiter || sc.getpidsFail))
    || (Between(s, 1) && sc.lockWaiter)
    || (&& s.msgs == [Freeze, Thaw] && s.killall == 1 && s.queues == [[], []] && s.inbox == []
        && if sc.thawError then Refused(s) else Thawed(s))
  }

  ghost predicate HandlerAt(s: State, sc: Scenario) {
    match s.pcs.h
    case Pc(n) =>
      if n <= 1 then Fresh(s)
      else if n == 2 then FreezeSent(s) && s.killall == 0
      else if n <= 4 then Between(s, 0)
      else if n <= 6 then Between(s, 1)
      else n == 7 && ThawSent(s, sc)
    case Finished => Left(s, sc)
    case Unresolved => false
  }

  /** A task that is never released keeps the kernel from freezing, and the handler waiting. */
  ghost predicate Blocked(s: State) {
    s.stuck && !s.kz && (s.pcs.h in {Pc(0), Pc(1), Pc(2)} || Fresh(s))
  }

  ghost predicate Inv(s: State, sc: Scenario) {
    && HandlerAt(s, sc)
    && (s.msgs != [] ==> s.vars.freeze == Some(FREEZE))
    && (|s.msgs| == 2 ==> s.vars.thaw == Some(THAW))
    && s.pcs.o == None
    && (s.terminal.Some? <==> s.pcs.h == Finished) && (s.host.Some? <==> s.pcs.h == Finished)
    && (s.terminal == Some(Completed) ==> |s.msgs| == 2)
    && (s.successor ==> s.host.Some?)
    && (sc.getpidsFail ==> s.killall == 0)
    && (s.stuck ==> sc.stuck) && (sc.stuck && !sc.release ==> Blocked(s))
  }

  /** The scenarios in which the handler reports a thaw that was refused. */
  predicate Dishonest(sc: Scenario) {
    sc.thawError && !sc.getpidsFail && (!sc.stuck || sc.release)
  }

  ghost predicate Tolerable(found: seq<Kind>, sc: Scenario) {
    found == [] || (found == [DishonestSuccess] && Dishonest(sc))
  }

  lemma SendInv(s: State, sc: Scenario, e: Step)
    requires Inv(s, sc) && e in HandlerScopedSteps(s, sc) && s.pcs.h in {Pc(1), Pc(6)}
    ensures Inv(e.next, sc) && e.found == []
  {
    if s.pcs.h == Pc(1) {
      assert OnNewConn(s) == [[FREEZE]];
      assert e.next.msgs == [Freeze];
    } else {
      assert OnNewConn(s) == [[], [THAW]];
      assert e.next.msgs == [Freeze, Thaw];
    }
  }

  lemma FinishInv(s: State, sc: Scenario, e: Step)
    requires Inv(s, sc) && e in HandlerScopedSteps(s, sc) && s.pcs.h == Pc(7)
    ensures Inv(e.next, sc) && Tolerable(e.found, sc)
  {
    assert Thawed(s) || Refused(s);
  }

  lemma LockInv(s: State, sc: Scenario, e: Step)
    requires Inv(s, sc) && e in HandlerScopedSteps(s, sc) && s.pcs.h in {Pc(0), Pc(3), Pc(5)}
    ensures Inv(e.next, sc) && e.found == []
  {
    assert !Unanswered(s);
    hide Unanswered;
  }

  lemma OtherInv(s: State, sc: Scenario, e: Step)
    requires Inv(s, sc) && e in HandlerScopedSteps(s, sc) && s.pcs.h !in {Pc(0), Pc(1), Pc(3), Pc(5), Pc(6), Pc(7)}
    ensures Inv(e.next, sc) && e.found == []
  {
    hide SendFreezeH, SendThawH;
    if s.pcs.h == Pc(4) { assert !Unanswered(s); }
  }

  lemma DesignInv(s: State, sc: Scenario, e: Step)
    requires Inv(s, sc) && e in HandlerScopedSteps(s, sc)
    ensures Inv(e.next, sc) && Tolerable(e.found, sc)
  {
    hide Inv, HandlerScopedSteps;
    if s.pcs.h in {Pc(1), Pc(6)} {
      SendInv(s, sc, e);
    } else if s.pcs.h == Pc(7) {
      FinishInv(s, sc, e);
    } else if s.pcs.h in {Pc(0), Pc(3), Pc(5)} {
      LockInv(s, sc, e);
    } else {
      OtherInv(s, sc, e);
    }
  }

  lemma DeliverInv(s: State, sc: Scenario, c: nat, i: nat)
    requires Inv(s, sc) && c < |s.queues| && i < Deliverable(s, sc, c)
    ensures Inv(DeliverStep(s, c, i).next, sc)
  {
    OneDelivered(s, sc, c, i);
  }

  lemma ProcessInv(s: State, sc: Scenario)
    requires Inv(s, sc) && s.inbox != []
    ensures Inv(SystemdProcess(s, sc).next, sc) && SystemdProcess(s, sc).found == []
  {
    assert s.inbox[1..] == [];
    if s.inbox[0] == THAW {
      assert s.inbox == [THAW];
      if !sc.thawError { ThawProcessed(s, sc); }
    }
  }

  lemma EventsInv(s: State, sc: Scenario)
    requires Inv(s, sc) && s.inotify
    ensures Inv(SystemdEvents(s), sc)
  {
    EventsAnswer(s);
  }

  lemma KernelInv(s: State, sc: Scenario, e: Step)
    requires Inv(s, sc) && e in KernelSteps(s, sc)
    ensures Inv(e.next, sc) && e.found == []
  {
    assert forall r :: FreezeAnswer(e.next, r) == FreezeAnswer(s, r);
  }

  lemma OutsideInv(s: State, sc: Scenario, e: Step)
    requires Inv(s, sc) && e in OutsideSteps(s, sc)
    ensures Inv(e.next, sc) && e.found == []
  {
    assert forall r :: FreezeAnswer(e.next, r) == FreezeAnswer(s, r);
  }

  lemma EnvironmentInv(s: State, sc: Scenario, e: Step)
    requires Inv(s, sc) && EnvironmentStep(s, sc, e)
    ensures Inv(e.next, sc) && e.found == []
  {
    hide Inv, SystemdEvents, SystemdProcess;
    var o := OriginOf(s, sc, e);
    match o
    case FromKernel => KernelInv(s, sc, e);
    case FromOutside => OutsideInv(s, sc, e);
    case FromQueue(c, i) => DeliverInv(s, sc, c, i);
    case FromInbox => ProcessInv(s, sc);
    case FromEvents => EventsInv(s, sc);
  }

  lemma StepInv(s: State, sc: Scenario, e: Step)
    requires Inv(s, sc) && e in Successors(HandlerScoped, s, sc)
    ensures Inv(e.next, sc) && Tolerable(e.found, sc)
  {
    hide Inv, HandlerScopedSteps, Environment;
    EnvironmentCases(s, sc, e);
    if e in HandlerScopedSteps(s, sc) {
      DesignInv(s, sc, e);
    } else {
      EnvironmentInv(s, sc, e);
    }
  }

  lemma InitialInv(sc: Scenario)
    ensures Inv(Initial(HandlerScoped, sc), sc)
  {
  }

  lemma FrozenHandlerMoves(s: State, sc: Scenario)
    requires Good(sc) && Inv(s, sc) && s.kf
    requires !(s.stuck && sc.release) && !(!s.kz && !s.stuck) && s.inbox == [] && !s.inotify
    requires forall c :: 0 <= c < |s.queues| ==> s.queues[c] == []
    ensures |HandlerScopedSteps(s, sc)| == 1
  {
    assert s.queues != [] && s.queues[|s.queues| - 1] == [];
    assert s.pcs.h == Pc(2) || s.pcs.h == Pc(3) || s.pcs.h == Pc(4) || s.pcs.h == Pc(5) || s.pcs.h == Pc(6);
    if s.pcs.h == Pc(2) {
      assert FrozenStill(s) && ReplyTo(s, s.vars.freeze) == Some(Ok);
    }
  }

  /** While the cgroup is frozen something is always left to do. */
  lemma FrozenMoves(s: State, sc: Scenario)
    requires Good(sc) && Inv(s, sc) && s.kf
    ensures Successors(HandlerScoped, s, sc) != []
  {
    hide Environment;
    if Environment(s, sc) == [] {
      EnvironmentQuiet(s, sc);
      FrozenHandlerMoves(s, sc);
    }
  }

  lemma NothingQuiet(s: State, sc: Scenario)
    requires Good(sc) && Inv(s, sc) && Successors(HandlerScoped, s, sc) == []
    ensures QuiescentViolations(HandlerScoped, s, sc) == []
  {
    hide Inv, Successors;
    if s.kf {
      FrozenMoves(s, sc);
    }
  }

  lemma Safe(sc: Scenario, k: Kind)
    requires Good(sc)
    ensures !Violates(Model(HandlerScoped, sc), k)
  {
    hide Inv, Successors, QuiescentViolations;
    var sys := Model(HandlerScoped, sc);
    InitialInv(sc);
    forall u, e | Inv(u, sc) && e in sys.succ(u) ensures Inv(e.next, sc) {
      StepInv(u, sc, e);
    }
    Invariant(sys, u => Inv(u, sc));
    ViolatesIffCarried(sys, k);
    forall s | Reachable(sys, s) ensures !Carries(sys, s, k) {
      forall e | e in sys.succ(s) ensures e.found == [] {
        StepInv(s, sc, e);
      }
      if sys.succ(s) == [] {
        NothingQuiet(s, sc);
      }
    }
  }

  lemma ReachableInv(sc: Scenario, s: State)
    requires Reachable(Model(HandlerScoped, sc), s)
    ensures Inv(s, sc)
  {
    hide Inv, Successors;
    InitialInv(sc);
    forall u, e | Inv(u, sc) && e in Model(HandlerScoped, sc).succ(u) ensures Inv(e.next, sc) {
      StepInv(u, sc, e);
    }
    Invariant(Model(HandlerScoped, sc), u => Inv(u, sc));
  }

  /** Besides stranding the cgroup the handler-scoped design can only report a refused thaw as success. */
  lemma OnlyKinds(sc: Scenario, k: Kind)
    requires Violates(Model(HandlerScoped, sc), k)
    ensures k == StrandedFreeze || (k == DishonestSuccess && Dishonest(sc))
  {
    hide Inv, Successors;
    var sys := Model(HandlerScoped, sc);
    ViolatesIffCarried(sys, k);
    var s :| Reachable(sys, s) && Carries(sys, s, k);
    ReachableInv(sc, s);
    if e :| e in sys.succ(s) && k in e.found {
      StepInv(s, sc, e);
    }
  }
}
