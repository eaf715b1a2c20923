/** The detached design: which of its successes are dishonest. */
module FreezeDetached {
  import opened Options
  import opened Transitions
  import opened FreezeModel
  import opened FreezePhases
  import opened FreezeHandler

  /** The helper on its way to the freeze call, which is the only one so far. */
  ghost predicate HelperAt(s: State) {
    match s.pcs.f
    case Some(Pc(n)) =>
      if n == 0 then Fresh(s)
      else if n == 1 then
        Idle(s) && s.msgs == [] && s.queues == [[]] && s.inbox == [] && s.replies == map[] && s.vars.fconn == Some(1)
      else n == 2 && FreezeSent(s) && s.vars.freeze == Some(FREEZE)
    case _ => false
  }

  /** As long as the handler has not timed out, its calls go one by one; after that it reports no success. */
  ghost predicate HandlerStands(s: State, sc: Scenario) {
    match s.pcs.h
    case Pc(n) =>
      if n == 0 then Fresh(s) && s.pcs.f == None
      else if n == 1 then HelperAt(s) && s.killall == 0
      else if n == 2 then s.pcs.f == Some(Pc(2)) && Between(s, 0)
      else if n == 3 then s.pcs.f == Some(Pc(2)) && FreezeHandler.ThawSent(s, sc) && s.vars.thaw == Some(THAW)
      else n == 10
    case Finished => true
    case Unresolved => false
  }

  ghost predicate Inv(s: State, sc: Scenario) {
    && HandlerStands(s, sc)
    && s.pcs.o == None
    && (s.pcs.h in {Pc(0), Pc(1)} ==> (s.pcs.f != Some(Pc(2)) ==> s.vars.freeze == None))
    && (s.terminal == None || s.pcs.h == Finished)
    && (sc.getpidsFail ==> s.killall == 0)
    && (s.stuck ==> sc.stuck) && (sc.stuck && !sc.release ==> s.stuck && !s.kz && s.pcs.h !in {Pc(2), Pc(3)})
    && (s.host == Some(HostOk) ==> !sc.getpidsFail && (!sc.stuck || sc.release))
  }

  lemma HelperInv(s: State, sc: Scenario, e: Step)
    requires Inv(s, sc) && e in DetachedHelper(s)
    ensures Inv(e.next, sc) && e.found == []
  {
    if s.pcs.h == Pc(1) && s.pcs.f == Some(Pc(1)) {
      assert OnConn(s, s.vars.fconn) == [[FREEZE]] by { assert [] + [FREEZE] == [FREEZE]; }
      assert e.next.msgs == [Freeze];
    }
  }

  lemma SpawnInv(s: State, sc: Scenario, e: Step)
    requires Inv(s, sc) && e in DetachedHandler(s, sc) && s.pcs.h in {Pc(0), Pc(1)}
    ensures Inv(e.next, sc) && e.found == []
  {
    hide SendThawH;
    HandlerSends(s, s.killall, 10);
  }

  lemma HandlerSends(s: State, killed: nat, n: nat)
    ensures var t := SendThawH(s, killed, n);
      t == s.(killall := killed, queues := OnNewConn(s), msgs := s.msgs + [Thaw],
              vars := s.vars.(thaw := Some(|s.msgs| + 1)), pcs := s.pcs.(h := Pc(n)))
  {
    hide OnNewConn;
  }

  lemma KillInv(s: State, sc: Scenario, e: Step)
    requires Inv(s, sc) && e in DetachedHandler(s, sc) && s.pcs.h == Pc(2)
    ensures Inv(e.next, sc) && DishonestSuccess !in e.found
  {
    if !sc.getpidsFail {
      assert OnNewConn(s) == [[], [THAW]];
      assert e.next.msgs == [Freeze, Thaw];
    }
  }

  lemma FinishInv(s: State, sc: Scenario, e: Step)
    requires Inv(s, sc) && e in DetachedHandler(s, sc) && s.pcs.h == Pc(3)
    ensures Inv(e.next, sc) && (DishonestSuccess in e.found ==> Dishonest(sc))
  {
    hide Unanswered;
    assert Thawed(s) || Refused(s);
  }

  lemma DiscardInv(s: State, sc: Scenario, e: Step)
    requires Inv(s, sc) && e in DetachedHandler(s, sc) && s.pcs.h !in {Pc(0), Pc(1), Pc(2), Pc(3)}
    ensures Inv(e.next, sc) && DishonestSuccess !in e.found
  {
    hide Unanswered, HelperAt, FreezeHandler.ThawSent, Between, Fresh;
  }

  lemma HandlerInv(s: State, sc: Scenario, e: Step)
    requires Inv(s, sc) && e in DetachedHandler(s, sc)
    ensures Inv(e.next, sc) && (DishonestSuccess in e.found ==> Dishonest(sc))
  {
    hide Inv, DetachedHandler;
    if s.pcs.h in {Pc(0), Pc(1)} {
      SpawnInv(s, sc, e);
    } else if s.pcs.h == Pc(2) {
      KillInv(s, sc, e);
    } else if s.pcs.h == Pc(3) {
      FinishInv(s, sc, e);
    } else {
      DiscardInv(s, sc, e);
    }
  }

  /** The handler timed out or is gone: nothing but its own steps matters any more. */
  ghost predicate GivenUp(s: State) {
    s.pcs.h !in {Pc(0), Pc(1), Pc(2), Pc(3)}
  }

  lemma GivenUpInv(s: State, t: State, sc: Scenario)
    requires Inv(s, sc) && GivenUp(s)
    requires t.pcs == s.pcs && t.terminal == s.terminal && t.host == s.host && t.killall == s.killall
    requires (t.stuck ==> s.stuck) && (sc.stuck && !sc.release ==> t.stuck && !t.kz)
    ensures Inv(t, sc)
  {
    hide HelperAt, FreezeHandler.ThawSent, Between, Fresh;
  }

  lemma DeliverInv(s: State, sc: Scenario, c: nat, i: nat)
    requires Inv(s, sc) && c < |s.queues| && i < Deliverable(s, sc, c)
    ensures Inv(DeliverStep(s, c, i).next, sc)
  {
    if s.pcs.h in {Pc(1), Pc(3)} {
      OneDelivered(s, sc, c, i);
    }
  }

  lemma ProcessInv(s: State, sc: Scenario)
    requires Inv(s, sc) && s.inbox != [] && !GivenUp(s)
    ensures Inv(SystemdProcess(s, sc).next, sc) && DishonestSuccess !in SystemdProcess(s, sc).found
  {
    assert s.inbox[1..] == [];
    if s.pcs.h == Pc(3) {
      assert s.inbox == [THAW];
      ProcessThawInv(s, sc);
    } else {
      assert s.inbox == [FREEZE];
    }
  }

  lemma ProcessThawInv(s: State, sc: Scenario)
    requires Inv(s, sc) && s.inbox == [THAW] && s.pcs.h == Pc(3)
    ensures Inv(SystemdProcess(s, sc).next, sc) && DishonestSuccess !in SystemdProcess(s, sc).found
  {
    assert s.inbox[1..] == [];
    if !sc.thawError { ThawProcessed(s, sc); }
  }

  lemma ProcessLater(s: State, sc: Scenario)
    requires Inv(s, sc) && s.inbox != [] && GivenUp(s)
    ensures Inv(SystemdProcess(s, sc).next, sc) && DishonestSuccess !in SystemdProcess(s, sc).found
  {
    hide Inv, SystemdProcess;
    Facts(s, sc);
    ProcessActs(s, sc);
    GivenUpInv(s, SystemdProcess(s, sc).next, sc);
  }

  lemma Facts(s: State, sc: Scenario)
    requires Inv(s, sc)
    ensures sc.stuck && !sc.release ==> s.stuck && !s.kz
  {
    hide HandlerStands;
  }

  lemma EventsInv(s: State, sc: Scenario)
    requires Inv(s, sc) && s.inotify && !GivenUp(s)
    ensures Inv(SystemdEvents(s), sc)
  {
    EventsAnswer(s);
    if s.pcs.h == Pc(3) { assert ThawHeld(s); } else { assert s.pcs.h == Pc(1) && Held(s); }
  }

  lemma EventsLater(s: State, sc: Scenario)
    requires Inv(s, sc) && GivenUp(s)
    ensures Inv(SystemdEvents(s), sc)
  {
    hide Inv, SystemdEvents;
    Facts(s, sc);
    EventsAct(s);
    GivenUpInv(s, SystemdEvents(s), sc);
  }

  lemma KernelInv(s: State, sc: Scenario, e: Step)
    requires Inv(s, sc) && e in KernelSteps(s, sc)
    ensures Inv(e.next, sc) && e.found == []
  {
    assert forall r :: FreezeAnswer(e.next, r) == FreezeAnswer(s, r);
  }

  lemma OutsideInv(s: State, sc: Scenario, e: Step)
    requires Inv(s, sc) && e in OutsideSteps(s, sc) && !GivenUp(s)
    ensures Inv(e.next, sc) && e.found == []
  {
    hide HandlerStands;
    Unmoved(s, sc, true, s.successor);
    Unmoved(s, sc, s.deadline, true);
  }

  lemma Unmoved(s: State, sc: Scenario, deadline: bool, successor: bool)
    requires HandlerStands(s, sc)
    ensures HandlerStands(s.(deadline := deadline, successor := successor), sc)
  {
    assert forall r :: FreezeAnswer(s.(deadline := deadline, successor := successor), r) == FreezeAnswer(s, r);
  }

  lemma OutsideLater(s: State, sc: Scenario, e: Step)
    requires Inv(s, sc) && e in OutsideSteps(s, sc) && GivenUp(s)
    ensures Inv(e.next, sc) && e.found == []
  {
    hide Inv;
    Facts(s, sc);
    GivenUpInv(s, e.next, sc);
  }

  lemma EnvironmentInv(s: State, sc: Scenario, e: Step)
    requires Inv(s, sc) && EnvironmentStep(s, sc, e)
    ensures Inv(e.next, sc) && DishonestSuccess !in e.found
  {
    hide Inv, GivenUp, SystemdEvents, SystemdProcess;
    var o := OriginOf(s, sc, e);
    match o
    case FromKernel => KernelInv(s, sc, e);
    case FromOutside => if GivenUp(s) { OutsideLater(s, sc, e); } else { OutsideInv(s, sc, e); }
    case FromQueue(c, i) => DeliverInv(s, sc, c, i);
    case FromInbox => if GivenUp(s) { ProcessLater(s, sc); } else { ProcessInv(s, sc); }
    case FromEvents => if GivenUp(s) { EventsLater(s, sc); } else { EventsInv(s, sc); }
  }

  lemma StepInv(s: State, sc: Scenario, e: Step)
    requires Inv(s, sc) && e in Successors(DetachedTimeoutThaw, s, sc)
    ensures Inv(e.next, sc) && (DishonestSuccess in e.found ==> Dishonest(sc))
  {
    hide Inv, DetachedHandler, DetachedHelper, Environment;
    EnvironmentCases(s, sc, e);
    if e in DetachedHelper(s) {
      HelperInv(s, sc, e);
    } else if e in DetachedHandler(s, sc) {
      HandlerInv(s, sc, e);
    } else {
      EnvironmentInv(s, sc, e);
    }
  }

  lemma InitialInv(sc: Scenario)
    ensures Inv(Initial(DetachedTimeoutThaw, sc), sc)
  {
  }

  lemma ReachableInv(sc: Scenario, s: State)
    requires Reachable(Model(DetachedTimeoutThaw, sc), s)
    ensures Inv(s, sc)
  {
    hide Inv, Successors;
    InitialInv(sc);
    forall u, e | Inv(u, sc) && e in Model(DetachedTimeoutThaw, sc).succ(u) ensures Inv(e.next, sc) {
      StepInv(u, sc, e);
    }
    Invariant(Model(DetachedTimeoutThaw, sc), u => Inv(u, sc));
  }

  /** The detached design is dishonest in the same scenarios as the handler-scoped one. */
  lemma OnlyDishonest(sc: Scenario)
    requires Violates(Model(DetachedTimeoutThaw, sc), DishonestSuccess)
    ensures Dishonest(sc)
  {
    hide Inv, Successors;
    var sys := Model(DetachedTimeoutThaw, sc);
    ViolatesIffCarried(sys, DishonestSuccess);
    var s :| Reachable(sys, s) && Carries(sys, s, DishonestSuccess);
    ReachableInv(sc, s);
    if e :| e in sys.succ(s) && DishonestSuccess in e.found {
      StepInv(s, sc, e);
    }
  }
}
