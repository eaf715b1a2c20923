/** The ordered owner: safe when systemd keeps per-connection order and never refuses the thaw. */
module FreezeOrdered {
  import opened Options
  import opened Transitions
  import opened FreezeModel
  import opened FreezePhases

  /** Both calls share one connection, so systemd meets the freeze first. */
  ghost predicate ThawBehindFreeze(s: State) {
    && s.msgs == [Freeze, Thaw]
    && (
      || (Idle(s) && s.replies == map[] && s.killall == 0 && s.queues == [[FREEZE, THAW]] && s.inbox == [])
      || (Idle(s) && s.replies == map[] && s.killall == 0 && s.queues == [[THAW]] && s.inbox == [FREEZE])
      || (Idle(s) && s.replies == map[] && s.killall == 0 && s.queues == [[]] && s.inbox == [FREEZE, THAW])
      || (FreezeSeen(s) && s.queues == [[THAW]] && s.inbox == [])
      || (FreezeSeen(s) && s.queues == [[]] && s.inbox == [THAW])
      || (s.queues == [[]] && s.inbox == [] && (ThawHeld(s) || Thawed(s))))
  }

  ghost predicate OwnerAt(s: State) {
    match s.pcs.o
    case Some(Pc(0)) => Fresh(s)
    case Some(Pc(1)) => FreezeSent(s) && s.killall == 0 && s.vars.oconn == Some(1)
    case Some(Pc(2)) => ThawBehindFreeze(s)
    case Some(Finished) => Thawed(s) && s.queues == [[]] && s.inbox == []
    case _ => false
  }

  ghost predicate Inv(s: State) {
    && OwnerAt(s)
    && (s.msgs != [] ==> s.vars.freeze == Some(FREEZE))
    && (|s.msgs| == 2 ==> s.vars.thaw == Some(THAW))
    && s.pcs.h in {Pc(0), Finished}
    && (s.terminal.Some? <==> s.pcs.o == Some(Finished))
    && (s.successor ==> s.terminal.Some?)
  }

  ghost predicate Good(sc: Scenario) {
    sc.systemdAlive && sc.fifo && !sc.thawError
  }

  lemma HandlerInv(s: State, e: Step)
    requires Inv(s) && e in RpcHandler(s)
    ensures Inv(e.next) && e.found == []
  {
  }

  lemma Owner0Inv(s: State, sc: Scenario, e: Step)
    requires Inv(s) && e in OrderedOwner(s, sc) && s.pcs.o == Some(Pc(0))
    ensures Inv(e.next) && e.found == []
  {
    assert OnNewConn(s) == [[FREEZE]];
  }

  lemma Owner1Inv(s: State, sc: Scenario, e: Step)
    requires Inv(s) && e in OrderedOwner(s, sc) && s.pcs.o == Some(Pc(1))
    ensures Inv(e.next) && e.found == []
  {
    var q := OnConn(s, s.vars.oconn);
    assert q == [s.queues[0] + [THAW]];
    if s.queues[0] == [FREEZE] {
      assert s.queues[0] + [THAW] == [FREEZE, THAW];
    } else {
      assert s.queues[0] + [THAW] == [THAW];
    }
    assert e.next.msgs == [Freeze, Thaw] && e.next.queues == q;
  }

  lemma Owner2Inv(s: State, sc: Scenario, e: Step)
    requires Inv(s) && e in OrderedOwner(s, sc) && s.pcs.o == Some(Pc(2))
    ensures Inv(e.next) && e.found == []
  {
    assert Thawed(s);
  }

  lemma OwnerInv(s: State, sc: Scenario, e: Step)
    requires Inv(s) && e in OrderedOwner(s, sc)
    ensures Inv(e.next) && e.found == []
  {
    hide Inv;
    match s.pcs.o
    case Some(Pc(0)) => Owner0Inv(s, sc, e);
    case Some(Pc(1)) => Owner1Inv(s, sc, e);
    case Some(Pc(2)) => Owner2Inv(s, sc, e);
    case _ =>
  }

  lemma DeliverInv(s: State, sc: Scenario, c: nat, i: nat)
    requires Good(sc) && Inv(s) && c < |s.queues| && i < Deliverable(s, sc, c)
    ensures Inv(DeliverStep(s, c, i).next)
  {
    var t := DeliverStep(s, c, i).next;
    assert c == 0 && i == 0;
    if s.queues == [[FREEZE, THAW]] {
      assert s.queues[0][..0] + s.queues[0][1..] == [THAW];
      assert t.queues == [[THAW]] && t.inbox == [FREEZE];
    } else {
      OneDelivered(s, sc, c, i);
      assert t.queues == [[]];
    }
  }

  lemma ProcessInv(s: State, sc: Scenario)
    requires Good(sc) && Inv(s) && s.inbox != []
    ensures Inv(SystemdProcess(s, sc).next) && SystemdProcess(s, sc).found == []
  {
    if s.inbox[0] == FREEZE {
      assert s.inbox == [FREEZE, THAW] ==> s.inbox[1..] == [THAW];
      assert s.inbox == [FREEZE] ==> s.inbox[1..] == [];
    } else {
      ProcessThawInv(s, sc);
    }
  }

  lemma ProcessThawInv(s: State, sc: Scenario)
    requires Good(sc) && Inv(s) && s.inbox != [] && s.inbox[0] != FREEZE
    ensures Inv(SystemdProcess(s, sc).next) && SystemdProcess(s, sc).found == []
  {
    assert s.inbox == [THAW] && FreezeSeen(s);
    ThawProcessed(s, sc);
  }

  lemma EventsInv(s: State)
    requires Inv(s) && s.inotify
    ensures Inv(SystemdEvents(s))
  {
    EventsAnswer(s);
  }

  lemma KernelInv(s: State, sc: Scenario, e: Step)
    requires Inv(s) && e in KernelSteps(s, sc)
    ensures Inv(e.next) && e.found == []
  {
    assert forall r :: FreezeAnswer(e.next, r) == FreezeAnswer(s, r);
  }

  lemma OutsideInv(s: State, sc: Scenario, e: Step)
    requires Inv(s) && e in OutsideSteps(s, sc)
    ensures Inv(e.next) && e.found == []
  {
    assert forall r :: FreezeAnswer(e.next, r) == FreezeAnswer(s, r);
  }

  lemma EnvironmentInv(s: State, sc: Scenario, e: Step)
    requires Good(sc) && Inv(s) && EnvironmentStep(s, sc, e)
    ensures Inv(e.next) && e.found == []
  {
    hide Inv, SystemdEvents, SystemdProcess;
    var o := OriginOf(s, sc, e);
    match o
    case FromKernel => KernelInv(s, sc, e);
    case FromOutside => OutsideInv(s, sc, e);
    case FromQueue(c, i) => DeliverInv(s, sc, c, i);
    case FromInbox => ProcessInv(s, sc);
    case FromEvents => EventsInv(s);
  }

  lemma StepInv(s: State, sc: Scenario, e: Step)
    requires Good(sc) && Inv(s) && e in Successors(OwnerOrderedThaw, s, sc)
    ensures Inv(e.next) && e.found == []
  {
    hide Inv, RpcHandler, OrderedOwner, Environment;
    EnvironmentCases(s, sc, e);
    if e in RpcHandler(s) {
      HandlerInv(s, e);
    } else if e in OrderedOwner(s, sc) {
      OwnerInv(s, sc, e);
    } else {
      EnvironmentInv(s, sc, e);
    }
  }

  /** A quiescent state has finished, thawed, unless the scenario withholds a step it waits for. */
  lemma QuiescentThawed(s: State, sc: Scenario)
    requires Good(sc) && Inv(s) && Successors(OwnerOrderedThaw, s, sc) == []
    ensures s.pcs.o == Some(Finished) && Thawed(s)
  {
    EnvironmentQuiet(s, sc);
    assert OrderedOwner(s, sc) == [];
  }

  lemma Safe(sc: Scenario, k: Kind)
    requires Good(sc)
    ensures !Violates(Model(OwnerOrderedThaw, sc), k)
  {
    hide Inv, Successors, Good;
    var sys := Model(OwnerOrderedThaw, sc);
    assert Inv(sys.start) by { InitialInv(sc); }
    forall u, e | Inv(u) && e in sys.succ(u) ensures Inv(e.next) {
      StepInv(u, sc, e);
    }
    Invariant(sys, Inv);
    ViolatesIffCarried(sys, k);
    forall s | Reachable(sys, s) ensures !Carries(sys, s, k) {
      forall e | e in sys.succ(s) ensures e.found == [] {
        StepInv(s, sc, e);
      }
      if sys.succ(s) == [] {
        NothingQuiet(s, sc);
      }
    }
  }

  lemma InitialInv(sc: Scenario)
    ensures Inv(Initial(OwnerOrderedThaw, sc))
  {
  }

  lemma NothingQuiet(s: State, sc: Scenario)
    requires Good(sc) && Inv(s) && Successors(OwnerOrderedThaw, s, sc) == []
    ensures QuiescentViolations(OwnerOrderedThaw, s, sc) == []
  {
    hide Successors;
    QuiescentThawed(s, sc);
  }
}
