/** In every reachable state of every design the enabled steps have different labels, so traces replay. */
module FreezeLabels {
  import opened Options
  import opened Transitions
  import opened Replay
  import opened FreezeModel
  import opened FreezePhases
  import opened FreezeTermination

  /** No message is queued twice on one connection, and every queued message was sent. */
  ghost predicate Inv(s: State) {
    forall c :: 0 <= c < |s.queues| ==> QueueOk(s.queues[c], |s.msgs|)
  }

  ghost predicate QueueOk(q: seq<nat>, sent: nat) {
    && (forall i :: 0 <= i < |q| ==> q[i] <= sent)
    && (forall i, j :: 0 <= i < j < |q| ==> q[i] != q[j])
  }

  lemma SendsInv(s: State, t: State)
    requires Inv(s) && Sends(s, t)
    ensures Inv(t)
  {
    forall c | 0 <= c < |t.queues| ensures QueueOk(t.queues[c], |t.msgs|) {
      assert c < |s.queues| ==> QueueOk(s.queues[c], |s.msgs|);
    }
  }

  lemma DeliverInv(s: State, c: nat, i: nat)
    requires Inv(s) && c < |s.queues| && i < |s.queues[c]|
    ensures Inv(DeliverStep(s, c, i).next)
  {
    var t := DeliverStep(s, c, i).next;
    forall d | 0 <= d < |t.queues| ensures QueueOk(t.queues[d], |t.msgs|) {
      assert QueueOk(s.queues[d], |s.msgs|);
    }
  }

  lemma FreezeKeeps(s: State, m: nat)
    requires s.inbox != []
    ensures ProcessFreeze(s, m).queues == s.queues && ProcessFreeze(s, m).msgs == s.msgs
  {
    hide Answer;
  }

  lemma ThawKeeps(s: State, m: nat, sc: Scenario)
    requires s.inbox != []
    ensures ProcessThaw(s, m, sc).queues == s.queues && ProcessThaw(s, m, sc).msgs == s.msgs
  {
    hide Answer;
  }

  lemma EventsKeeps(s: State)
    ensures SystemdEvents(s).queues == s.queues && SystemdEvents(s).msgs == s.msgs
  {
    hide Answer;
  }

  lemma QuietInv(s: State, sc: Scenario, e: Step)
    requires EnvironmentStep(s, sc, e) && !DeliveryStep(s, sc, e)
    ensures e.next.queues == s.queues && e.next.msgs == s.msgs
  {
    hide ProcessFreeze, ProcessThaw, SystemdEvents, ProcessKinds;
    EventsKeeps(s);
    if s.inbox != [] {
      FreezeKeeps(s, s.inbox[0]);
      ThawKeeps(s, s.inbox[0], sc);
    }
  }

  lemma StepInv(design: Design, s: State, sc: Scenario, e: Step)
    requires Inv(s) && e in Successors(design, s, sc)
    ensures Inv(e.next)
  {
    hide DesignSteps, Environment, EnvironmentStep, Sends;
    EnvironmentCases(s, sc, e);
    if e in DesignSteps(design, s, sc) {
      DesignSends(design, s, sc, e);
      SendsInv(s, e.next);
    } else if DeliveryStep(s, sc, e) {
      var c, i :| 0 <= c < |s.queues| && 0 <= i < Deliverable(s, sc, c) && e == DeliverStep(s, c, i);
      DeliverInv(s, c, i);
    } else {
      QuietInv(s, sc, e);
    }
  }

  /** Which part of the successor list a label belongs to. */
  function Part(l: Label): nat {
    match l
    case HeldRequestAnswered => 1
    case KernelFrozen => 1
    case Deliver(_, _) => 2
    case Process(_, _) => 3
    case CgroupEvents => 3
    case DeadlinePassed => 4
    case AdmitSuccessor => 4
    case _ => 0
  }

  ghost predicate AllIn(steps: seq<Step>, part: nat) {
    forall i :: 0 <= i < |steps| ==> Part(steps[i].act) == part
  }

  lemma Joined(a: seq<Step>, b: seq<Step>)
    requires Distinguished(a) && Distinguished(b)
    requires forall i, j :: 0 <= i < |a| && 0 <= j < |b| ==> a[i].act != b[j].act
    ensures Distinguished(a + b)
  {
  }

  lemma DesignDistinguished(design: Design, s: State, sc: Scenario)
    ensures Distinguished(DesignSteps(design, s, sc)) && AllIn(DesignSteps(design, s, sc), 0)
  {
    hide FinishFound, Finish, ReplyHost, SubmitFreeze, ThawSameConn, ThawNewConn, SendFreezeH, SendThawH, ConnectF;
    hide SendFreezeF, SpawnF, GotoH, GotoO, KillH, KillO, ReplyTo, OrderedFound;
    match design {
      case HandlerScoped =>
      case DetachedTimeoutThaw => DetachedDistinguished(s, sc);
      case OwnerOrderedThaw => OwnerDistinguished(s, sc);
      case OwnerReconciled => OwnerDistinguished(s, sc);
    }
  }

  lemma OwnerDistinguished(s: State, sc: Scenario)
    ensures Distinguished(OrderedSteps(s, sc)) && AllIn(OrderedSteps(s, sc), 0)
    ensures Distinguished(ReconciledSteps(s, sc)) && AllIn(ReconciledSteps(s, sc), 0)
  {
    hide FinishFound, Finish, ReplyHost, SubmitFreeze, ThawSameConn, ThawNewConn, GotoO, KillO, ReplyTo, OrderedFound;
    assert |RpcHandler(s)| <= 1 && |OrderedOwner(s, sc)| <= 1 && |ReconciledOwner(s, sc)| <= 1;
  }

  lemma Pair(a: bool, x: Step, b: bool, y: Step)
    requires x.act != y.act && Part(x.act) == Part(y.act)
    ensures Distinguished(When(a, x) + When(b, y)) && AllIn(When(a, x) + When(b, y), Part(x.act))
  {
  }

  lemma DetachedHandlerDistinguished(s: State, sc: Scenario)
    ensures Distinguished(DetachedHandler(s, sc)) && AllIn(DetachedHandler(s, sc), 0)
    ensures forall e :: e in DetachedHandler(s, sc) ==> e.act !in {FConnect, FSendFreeze}
  {
    hide FinishFound, Finish, SendThawH, SpawnF, GotoH, ReplyTo, Distinguished, AllIn, When;
    if s.pcs.h == Pc(1) {
      var x, y := Edge(HFreezeResult, GotoH(s, Pc(2)), []), Edge(HLocalTimeout, SendThawH(s, s.killall, 10), []);
      Pair(ReplyTo(s, s.vars.freeze).Some?, x, s.deadline, y);
      WhenMembers(ReplyTo(s, s.vars.freeze).Some?, x);
      WhenMembers(s.deadline, y);
    } else {
      DetachedSingle(s, sc);
    }
  }

  lemma WhenMembers(a: bool, x: Step)
    ensures forall e :: e in When(a, x) ==> e == x
  {
  }

  lemma DetachedSingle(s: State, sc: Scenario)
    requires s.pcs.h != Pc(1)
    ensures Distinguished(DetachedHandler(s, sc)) && AllIn(DetachedHandler(s, sc), 0)
    ensures forall e :: e in DetachedHandler(s, sc) ==> e.act !in {FConnect, FSendFreeze}
  {
    hide FinishFound, Finish, SendThawH, SpawnF, GotoH, ReplyTo;
  }

  lemma DetachedDistinguished(s: State, sc: Scenario)
    ensures Distinguished(DetachedSteps(s, sc)) && AllIn(DetachedSteps(s, sc), 0)
  {
    hide DetachedHandler, ConnectF, SendFreezeF;
    DetachedHandlerDistinguished(s, sc);
    Pair(s.pcs.f == Some(Pc(0)), Edge(FConnect, ConnectF(s), []), s.pcs.f == Some(Pc(1)),
      Edge(FSendFreeze, SendFreezeF(s), []));
    Joined(DetachedHelper(s), DetachedHandler(s, sc));
  }

  lemma {:induction false} DeliverFromLabels(s: State, sc: Scenario, c: nat, i: nat)
    requires Inv(s) && c < |s.queues| && i <= Deliverable(s, sc, c)
    ensures var r := DeliverFrom(s, sc, c, i);
      && |r| == Deliverable(s, sc, c) - i
      && (forall j :: 0 <= j < |r| ==> r[j].act == Deliver(s.queues[c][i + j], c + 1))
    decreases Deliverable(s, sc, c) - i
  {
    if i < Deliverable(s, sc, c) {
      DeliverFromLabels(s, sc, c, i + 1);
    }
  }

  lemma {:induction false} DeliveriesDistinguished(s: State, sc: Scenario, c: nat)
    requires Inv(s) && c <= |s.queues|
    ensures Distinguished(Deliveries(s, sc, c)) && AllIn(Deliveries(s, sc, c), 2)
    ensures forall j :: 0 <= j < |Deliveries(s, sc, c)| ==>
      Deliveries(s, sc, c)[j].act.Deliver? && Deliveries(s, sc, c)[j].act.conn > c
    decreases |s.queues| - c
  {
    if c < |s.queues| {
      DeliverFromLabels(s, sc, c, 0);
      DeliveriesDistinguished(s, sc, c + 1);
      assert QueueOk(s.queues[c], |s.msgs|);
      Joined(DeliverFrom(s, sc, c, 0), Deliveries(s, sc, c + 1));
    }
  }

  lemma KernelPart(s: State, sc: Scenario)
    ensures Distinguished(KernelSteps(s, sc)) && AllIn(KernelSteps(s, sc), 1)
  {
    hide Distinguished, AllIn;
    Pair(s.stuck && sc.release, Edge(HeldRequestAnswered, s.(stuck := false), []),
         s.kf && !s.kz && !s.stuck, Edge(KernelFrozen, s.(kz := true, inotify := true), []));
  }

  lemma OutsidePart(s: State, sc: Scenario)
    ensures Distinguished(OutsideSteps(s, sc)) && AllIn(OutsideSteps(s, sc), 4)
  {
    hide Distinguished, AllIn, SuccessorAllowed;
    Pair(!s.deadline && s.terminal.None?, Edge(DeadlinePassed, s.(deadline := true), []),
         sc.reuse && !s.successor && SuccessorAllowed(s), Edge(AdmitSuccessor, s.(successor := true), []));
  }

  lemma SystemdPart(s: State, sc: Scenario)
    ensures Distinguished(SystemdSteps(s, sc)) && AllIn(SystemdSteps(s, sc), 3)
  {
    hide SystemdEvents, Distinguished, AllIn, ProcessFreeze, ProcessThaw, ProcessKinds;
    var events := Edge(CgroupEvents, SystemdEvents(s), []);
    if s.inbox != [] {
      Pair(sc.systemdAlive, SystemdProcess(s, sc), sc.systemdAlive && s.inotify, events);
    } else {
      Pair(false, Edge(Process(0, Freeze), s, []), sc.systemdAlive && s.inotify, events);
    }
  }

  lemma SuccessorsDistinguished(design: Design, s: State, sc: Scenario)
    requires Inv(s)
    ensures Distinguished(Successors(design, s, sc))
  {
    hide DesignSteps, KernelSteps, Deliveries, SystemdSteps, OutsideSteps;
    DesignDistinguished(design, s, sc);
    KernelPart(s, sc);
    SystemdPart(s, sc);
    OutsidePart(s, sc);
    DeliveriesDistinguished(s, sc, 0);
    var k, d, y, o := KernelSteps(s, sc), Deliveries(s, sc, 0), SystemdSteps(s, sc), OutsideSteps(s, sc);
    Joined(k, d);
    Joined(k + d, y);
    Joined(k + d + y, o);
    Joined(DesignSteps(design, s, sc), k + d + y + o);
  }

  lemma LabelsUnique(design: Design, sc: Scenario)
    ensures UniqueLabels(Model(design, sc))
  {
    hide Inv, Successors;
    var sys := Model(design, sc);
    assert Inv(sys.start) by { InitialInv(design, sc); }
    forall u, e | Inv(u) && e in sys.succ(u) ensures Inv(e.next) {
      StepInv(design, u, sc, e);
    }
    Invariant(sys, Inv);
    forall s | Reachable(sys, s) ensures Distinguished(sys.succ(s)) {
      SuccessorsDistinguished(design, s, sc);
    }
  }

  lemma InitialInv(design: Design, sc: Scenario)
    ensures Inv(Initial(design, sc))
  {
  }
}
