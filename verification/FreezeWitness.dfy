/** Runs that go wrong, for every scenario outside a design's safe ones. */
module FreezeWitness {
  import opened Options
  import opened Transitions
  import opened FreezeModel
  import opened FreezePhases
  import opened FreezeTermination

  lemma ByDesign(design: Design, sc: Scenario, s: State, e: Step)
    requires Reachable(Model(design, sc), s) && e in DesignSteps(design, s, sc)
    ensures Reachable(Model(design, sc), e.next)
    ensures forall k :: k in e.found ==> Violates(Model(design, sc), k)
  {
    StepReaches(Model(design, sc), s, e);
    forall k | k in e.found ensures Violates(Model(design, sc), k) {
      ViolatesIffCarried(Model(design, sc), k);
      assert Carries(Model(design, sc), s, k);
    }
  }

  lemma ByEnvironment(design: Design, sc: Scenario, s: State, e: Step)
    requires Reachable(Model(design, sc), s) && EnvironmentStep(s, sc, e)
    ensures Reachable(Model(design, sc), e.next)
    ensures forall k :: k in e.found ==> Violates(Model(design, sc), k)
  {
    EnvironmentCases(s, sc, e);
    StepReaches(Model(design, sc), s, e);
    forall k | k in e.found ensures Violates(Model(design, sc), k) {
      ViolatesIffCarried(Model(design, sc), k);
      assert Carries(Model(design, sc), s, k);
    }
  }

  lemma ByDelivery(design: Design, sc: Scenario, s: State, c: nat, i: nat) returns (t: State)
    requires Reachable(Model(design, sc), s)
    requires c < |s.queues| && i < Deliverable(s, sc, c)
    ensures Reachable(Model(design, sc), t)
    ensures t == s.(inbox := s.inbox + [s.queues[c][i]],
      queues := s.queues[c := s.queues[c][..i] + s.queues[c][i + 1..]])
  {
    assert DeliveryStep(s, sc, DeliverStep(s, c, i));
    ByEnvironment(design, sc, s, DeliverStep(s, c, i));
    t := DeliverStep(s, c, i).next;
  }

  lemma ByDeadline(design: Design, sc: Scenario, s: State) returns (t: State)
    requires Reachable(Model(design, sc), s) && !s.deadline && s.terminal.None?
    ensures Reachable(Model(design, sc), t) && t == s.(deadline := true)
  {
    t := s.(deadline := true);
    ByEnvironment(design, sc, s, Edge(DeadlinePassed, t, []));
  }

  lemma ByProcess(design: Design, sc: Scenario, s: State) returns (t: State)
    requires Reachable(Model(design, sc), s) && sc.systemdAlive && s.inbox != []
    ensures Reachable(Model(design, sc), t) && t == SystemdProcess(s, sc).next
    ensures forall k :: k in SystemdProcess(s, sc).found ==> Violates(Model(design, sc), k)
  {
    t := SystemdProcess(s, sc).next;
    ByEnvironment(design, sc, s, SystemdProcess(s, sc));
  }

  /** Frozen with the designated actor gone and no call left that could thaw it. */
  ghost predicate Abandoned(design: Design, s: State) {
    && s.kf && s.inbox == [] && (forall c :: 0 <= c < |s.queues| ==> s.queues[c] == [])
    && (match design
        case HandlerScoped => s.pcs.h == Finished
        case DetachedTimeoutThaw => s.pcs.h == Finished && s.pcs.f == Some(Pc(2))
        case OwnerOrderedThaw => s.pcs.o == Some(Finished)
        case OwnerReconciled => false)
  }

  lemma AbandonedStays(design: Design, sc: Scenario, s: State, e: Step)
    requires Abandoned(design, s) && EnvironmentStep(s, sc, e)
    ensures Abandoned(design, e.next)
  {
    hide SystemdProcess;
    assert !DeliveryStep(s, sc, e);
  }

  lemma AbandonedStable(design: Design, sc: Scenario, s: State, e: Step)
    requires Abandoned(design, s) && e in Successors(design, s, sc)
    ensures Abandoned(design, e.next)
  {
    hide Environment, EnvironmentStep;
    EnvironmentCases(s, sc, e);
    if e in Environment(s, sc) {
      AbandonedStays(design, sc, s, e);
    } else if design.OwnerOrderedThaw? {
      assert OrderedOwner(s, sc) == [];
    }
  }

  /** An abandoned freeze stays, so a run that has come to it goes on to end stranded. */
  lemma AbandonedEnds(design: Design, sc: Scenario, w: seq<Step>) returns (v: seq<Step>)
    requires IsWalk(Model(design, sc), w) && Abandoned(design, End(Model(design, sc), w))
    ensures IsWalk(Model(design, sc), v) && w <= v && EndsStranded(design, sc, v)
  {
    hide Successors;
    forall u, e | Abandoned(design, u) && e in Successors(design, u, sc) ensures Abandoned(design, e.next) {
      AbandonedStable(design, sc, u, e);
    }
    v := LeadsToQuiescence(design, sc, w, u => Abandoned(design, u));
  }

  /** The run can go no further and has left the cgroup frozen for good. */
  ghost predicate EndsStranded(design: Design, sc: Scenario, w: seq<Step>) {
    var s := End(Model(design, sc), w);
    Successors(design, s, sc) == [] && StrandedFreeze in QuiescentViolations(design, s, sc)
  }

  lemma AbandonedStrands(design: Design, sc: Scenario, s: State)
    requires Reachable(Model(design, sc), s) && Abandoned(design, s)
    ensures Violates(Model(design, sc), StrandedFreeze)
  {
    hide Successors;
    var sys := Model(design, sc);
    var w :| WalkTo(sys, w, s);
    var v := AbandonedEnds(design, sc, w);
    WalkReaches(sys, v);
    assert Carries(sys, End(sys, v), StrandedFreeze);
    ViolatesIffCarried(sys, StrandedFreeze);
  }

  /** Systemd is alive, and no task keeps the kernel from freezing for good. */
  predicate CanFreeze(sc: Scenario) {
    sc.systemdAlive && (!sc.stuck || sc.release)
  }

  /** The state once the freeze in queue `c` was delivered, processed and answered. */
  function AfterFreeze(s: State, c: nat): State
    requires c < |s.queues|
  {
    s.(queues := s.queues[c := []], unit := Frozen, kf := true, kz := true, stuck := false, replies := map[FREEZE := Ok])
  }

  lemma OnlyDelivered(design: Design, sc: Scenario, s: State, c: nat, m: nat) returns (t: State)
    requires Reachable(Model(design, sc), s)
    requires c < |s.queues| && s.queues[c] == [m] && s.inbox == []
    ensures Reachable(Model(design, sc), t) && t == s.(queues := s.queues[c := []], inbox := [m])
  {
    t := ByDelivery(design, sc, s, c, 0);
    assert [m][..0] + [m][1..] == [] && [] + [m] == [m];
    assert s.queues[c][..0] + s.queues[c][0 + 1..] == [];
  }

  lemma FreezeDelivered(design: Design, sc: Scenario, s: State, c: nat) returns (t: State)
    requires sc.systemdAlive && Reachable(Model(design, sc), s)
    requires Idle(s) && s.replies == map[] && s.inbox == [] && s.msgs == [Freeze]
    requires c < |s.queues| && s.queues[c] == [FREEZE]
    ensures Reachable(Model(design, sc), t)
    ensures t == s.(queues := s.queues[c := []], unit := Freezing, kf := true, pending := Some(FREEZE))
  {
    var u := OnlyDelivered(design, sc, s, c, FREEZE);
    t := ByProcess(design, sc, u);
    assert u.inbox[1..] == [];
  }

  lemma FreezeReported(design: Design, sc: Scenario, s: State) returns (t: State)
    requires CanFreeze(sc) && Reachable(Model(design, sc), s) && (s.stuck ==> sc.stuck)
    requires s.unit == Freezing && s.kf && !s.kz && s.pending == Some(FREEZE) && s.replies == map[] && !s.inotify
    ensures Reachable(Model(design, sc), t)
    ensures t == s.(unit := Frozen, kz := true, pending := None, stuck := false, replies := map[FREEZE := Ok])
  {
    var u := s.(stuck := false);
    if s.stuck {
      ByEnvironment(design, sc, s, Edge(HeldRequestAnswered, u, []));
    } else {
      assert u == s;
    }
    var v := u.(kz := true, inotify := true);
    ByEnvironment(design, sc, u, Edge(KernelFrozen, v, []));
    t := SystemdEvents(v);
    ByEnvironment(design, sc, v, Edge(CgroupEvents, t, []));
    assert t.replies == map[FREEZE := Ok];
  }

  /** A freeze that was sent comes to be answered. */
  lemma FreezeAnswered(design: Design, sc: Scenario, s: State, c: nat)
    requires CanFreeze(sc) && Reachable(Model(design, sc), s) && (s.stuck ==> sc.stuck)
    requires Idle(s) && s.replies == map[] && s.inbox == [] && s.msgs == [Freeze]
    requires c < |s.queues| && s.queues[c] == [FREEZE]
    ensures Reachable(Model(design, sc), AfterFreeze(s, c))
  {
    var t := FreezeDelivered(design, sc, s, c);
    var u := FreezeReported(design, sc, t);
    assert u == AfterFreeze(s, c);
  }

  // ---- one run of the ordered owner ----

  function OrderedEnd(sc: Scenario, w: seq<Step>): State {
    End(Model(OwnerOrderedThaw, sc), w)
  }

  ghost predicate OrderedRun(sc: Scenario, w: seq<Step>) {
    IsWalk(Model(OwnerOrderedThaw, sc), w)
  }

  lemma Extend(sc: Scenario, w: seq<Step>, e: Step) returns (v: seq<Step>)
    requires OrderedRun(sc, w) && e in Successors(OwnerOrderedThaw, OrderedEnd(sc, w), sc)
    ensures OrderedRun(sc, v) && v == w + [e] && OrderedEnd(sc, v) == e.next
  {
    hide Successors;
    WalkExtends(Model(OwnerOrderedThaw, sc), w, e);
    v := w + [e];
  }

  lemma ExtendOwner(sc: Scenario, w: seq<Step>, e: Step) returns (v: seq<Step>)
    requires OrderedRun(sc, w) && e in OrderedOwner(OrderedEnd(sc, w), sc)
    ensures OrderedRun(sc, v) && v == w + [e] && OrderedEnd(sc, v) == e.next
  {
    hide OrderedOwner, Environment, RpcHandler, OrderedRun, OrderedEnd;
    v := Extend(sc, w, e);
  }

  lemma OrderedStart(sc: Scenario)
    ensures OrderedRun(sc, []) && OrderedEnd(sc, []) == Initial(OwnerOrderedThaw, sc)
  {
  }

  lemma ExtendEnvironment(sc: Scenario, w: seq<Step>, e: Step) returns (v: seq<Step>)
    requires OrderedRun(sc, w) && EnvironmentStep(OrderedEnd(sc, w), sc, e)
    ensures OrderedRun(sc, v) && v == w + [e] && OrderedEnd(sc, v) == e.next
  {
    EnvironmentCases(OrderedEnd(sc, w), sc, e);
    v := Extend(sc, w, e);
  }

  lemma ExtendDelivery(sc: Scenario, w: seq<Step>, c: nat, i: nat) returns (v: seq<Step>)
    requires OrderedRun(sc, w) && c < |OrderedEnd(sc, w).queues| && i < Deliverable(OrderedEnd(sc, w), sc, c)
    ensures OrderedRun(sc, v) && w < v && |v| == |w| + 1
    ensures var s := OrderedEnd(sc, w);
      OrderedEnd(sc, v) == s.(inbox := s.inbox + [s.queues[c][i]],
        queues := s.queues[c := s.queues[c][..i] + s.queues[c][i + 1..]])
  {
    var s := OrderedEnd(sc, w);
    assert DeliveryStep(s, sc, DeliverStep(s, c, i));
    v := ExtendEnvironment(sc, w, DeliverStep(s, c, i));
  }

  lemma ExtendProcess(sc: Scenario, w: seq<Step>) returns (v: seq<Step>)
    requires OrderedRun(sc, w) && sc.systemdAlive && OrderedEnd(sc, w).inbox != []
    ensures OrderedRun(sc, v) && v == w + [SystemdProcess(OrderedEnd(sc, w), sc)]
    ensures OrderedEnd(sc, v) == SystemdProcess(OrderedEnd(sc, w), sc).next
  {
    v := ExtendEnvironment(sc, w, SystemdProcess(OrderedEnd(sc, w), sc));
  }

  lemma ExtendDeadline(sc: Scenario, w: seq<Step>) returns (v: seq<Step>)
    requires OrderedRun(sc, w) && !OrderedEnd(sc, w).deadline && OrderedEnd(sc, w).terminal.None?
    ensures OrderedRun(sc, v) && w < v && OrderedEnd(sc, v) == OrderedEnd(sc, w).(deadline := true)
  {
    v := ExtendEnvironment(sc, w, Edge(DeadlinePassed, OrderedEnd(sc, w).(deadline := true), []));
  }

  /** The ordered owner up to a freeze in its queue. */
  lemma OrderedSubmits(sc: Scenario) returns (w: seq<Step>)
    ensures OrderedRun(sc, w)
    ensures OrderedEnd(sc, w) == Initial(OwnerOrderedThaw, sc).(queues := [[FREEZE]], msgs := [Freeze],
      vars := Vars(Some(FREEZE), None, None, Some(1)), pcs := Actors(Pc(0), Some(Pc(1)), None))
  {
    hide OrderedRun, OrderedEnd;
    var s0 := Initial(OwnerOrderedThaw, sc);
    assert OnNewConn(s0) == [[FREEZE]];
    assert SubmitFreeze(s0, true).msgs == [Freeze];
    OrderedStart(sc);
    w := ExtendOwner(sc, [], Edge(OSendFreeze, SubmitFreeze(s0, true), []));
  }

  /**
   * Out of order, in one run: systemd meets the thaw first and the owner finishes on its answer, then the freeze lands,
   * then the run ends with the cgroup frozen.
   */
  lemma OrderedUnordered(sc: Scenario) returns (w: seq<Step>, i: nat, j: nat)
    requires sc.systemdAlive && !sc.fifo
    ensures IsWalk(Model(OwnerOrderedThaw, sc), w) && i < j < |w|
    ensures FalseTerminal in w[i].found && LateOp in w[j].found
    ensures EndsStranded(OwnerOrderedThaw, sc, w)
  {
    hide EndsStranded, IsWalk, OrderedEnd, Abandoned;
    var w6 := OrderedOvertakes(sc);
    var w8 := OrderedLate(sc, w6);
    w := OrderedStrands(sc, w8);
    i, j := |w6| - 1, |w8| - 1;
  }

  lemma OrderedOvertakes(sc: Scenario) returns (w: seq<Step>)
    requires sc.systemdAlive && !sc.fifo
    ensures OrderedRun(sc, w) && w != [] && FalseTerminal in w[|w| - 1].found
    ensures Overtaken(OrderedEnd(sc, w)) && OrderedEnd(sc, w).queues == [[FREEZE]] && OrderedEnd(sc, w).inbox == []
  {
    hide OrderedRun, OrderedEnd;
    var w1 := OrderedSubmits(sc);
    var w2 := ExtendDeadline(sc, w1);
    var w3 := OrderedGivesUp(sc, w2);
    var s3 := OrderedEnd(sc, w3);
    var w4 := ExtendDelivery(sc, w3, 0, 1);
    assert s3.queues[0][..1] + s3.queues[0][2..] == [FREEZE];
    assert OrderedEnd(sc, w4).queues == [[FREEZE]] && OrderedEnd(sc, w4).inbox == [THAW];
    w := OrderedOvertaken(sc, w4);
  }

  /** The deadline passed: ThawUnit joins the freeze's connection. */
  lemma OrderedGivesUp(sc: Scenario, w: seq<Step>) returns (v: seq<Step>)
    requires OrderedRun(sc, w)
    requires var s := OrderedEnd(sc, w);
      && s.pcs.o == Some(Pc(1)) && s.deadline && s.replies == map[] && s.vars.oconn == Some(1) && |s.queues| == 1
      && s.msgs == [Freeze] && s.vars.freeze == Some(FREEZE)
    ensures OrderedRun(sc, v) && w < v
    ensures var s := OrderedEnd(sc, w);
      OrderedEnd(sc, v) == s.(queues := [s.queues[0] + [THAW]], msgs := [Freeze, Thaw],
        vars := s.vars.(thaw := Some(THAW)),
        pcs := s.pcs.(o := Some(Pc(2))))
  {
    hide OrderedRun, OrderedEnd;
    var s := OrderedEnd(sc, w);
    var t := ThawSameConn(s, s.killall);
    assert OnConn(s, s.vars.oconn) == [s.queues[0] + [THAW]];
    assert t.msgs == [Freeze, Thaw];
    v := ExtendOwner(sc, w, Edge(ODeadlineThaw, t, []));
  }

  /** The thaw overtakes the freeze, is answered, and ends the generation. */
  lemma OrderedOvertaken(sc: Scenario, w: seq<Step>) returns (v: seq<Step>)
    requires sc.systemdAlive && !sc.fifo && OrderedRun(sc, w)
    requires var s := OrderedEnd(sc, w);
      && Idle(s) && s.replies == map[] && s.killall == 0 && s.msgs == [Freeze, Thaw] && s.terminal == None
      && s.queues == [[FREEZE]] && s.inbox == [THAW] && s.pcs.o == Some(Pc(2))
      && s.vars.freeze == Some(FREEZE) && s.vars.thaw == Some(THAW)
    ensures OrderedRun(sc, v) && w < v && FalseTerminal in v[|v| - 1].found
    ensures Overtaken(OrderedEnd(sc, v)) && OrderedEnd(sc, v).queues == [[FREEZE]] && OrderedEnd(sc, v).inbox == []
  {
    hide OrderedRun, OrderedEnd;
    var u := ExtendProcess(sc, w);
    var s5 := OrderedEnd(sc, u);
    assert s5.replies == map[THAW := if sc.thawError then Error else Ok] && Idle(s5);
    var e := FinishO(OThawReply, s5, Aborted, HostError, OrderedFound(s5, HostError));
    v := ExtendOwner(sc, u, e);
    assert FalseTerminal in e.found;
  }

  /** The generation has finished and its freeze has not been processed. */
  ghost predicate Overtaken(s: State) {
    Idle(s) && s.msgs == [Freeze, Thaw] && s.terminal.Some? && s.pcs.o == Some(Finished)
  }

  /** The freeze that was still queued lands. */
  lemma OrderedLate(sc: Scenario, w: seq<Step>) returns (v: seq<Step>)
    requires sc.systemdAlive && OrderedRun(sc, w)
    requires Overtaken(OrderedEnd(sc, w)) && OrderedEnd(sc, w).queues == [[FREEZE]] && OrderedEnd(sc, w).inbox == []
    ensures OrderedRun(sc, v) && w < v && LateOp in v[|v| - 1].found && Abandoned(OwnerOrderedThaw, OrderedEnd(sc, v))
  {
    hide OrderedRun, OrderedEnd;
    var u := ExtendDelivery(sc, w, 0, 0);
    assert OrderedEnd(sc, u).queues == [[]] by { assert OrderedEnd(sc, u).queues[0] == []; }
    v := OrderedLands(sc, u);
  }

  lemma OrderedStrands(sc: Scenario, w: seq<Step>) returns (v: seq<Step>)
    requires OrderedRun(sc, w) && Abandoned(OwnerOrderedThaw, OrderedEnd(sc, w))
    ensures IsWalk(Model(OwnerOrderedThaw, sc), v) && w <= v && EndsStranded(OwnerOrderedThaw, sc, v)
  {
    v := AbandonedEnds(OwnerOrderedThaw, sc, w);
  }

  lemma OrderedLands(sc: Scenario, w: seq<Step>) returns (v: seq<Step>)
    requires sc.systemdAlive && OrderedRun(sc, w)
    requires Overtaken(OrderedEnd(sc, w)) && OrderedEnd(sc, w).queues == [[]] && OrderedEnd(sc, w).inbox == [FREEZE]
    ensures OrderedRun(sc, v) && w < v && LateOp in v[|v| - 1].found && Abandoned(OwnerOrderedThaw, OrderedEnd(sc, v))
  {
    hide OrderedRun, OrderedEnd;
    v := ExtendProcess(sc, w);
    assert LateOp in SystemdProcess(OrderedEnd(sc, w), sc).found;
  }

  /** A refused thaw ends the generation while the freeze still waits for the kernel, and nothing thaws it after. */
  lemma OrderedRefused(sc: Scenario)
    requires sc.systemdAlive && sc.thawError
    ensures Violates(Model(OwnerOrderedThaw, sc), FalseTerminal)
    ensures Violates(Model(OwnerOrderedThaw, sc), StrandedFreeze)
  {
    hide OrderedRun, OrderedEnd;
    var w1 := OrderedSubmits(sc);
    var w2 := ExtendDelivery(sc, w1, 0, 0);
    assert OrderedEnd(sc, w2).queues == [[]] by { assert OrderedEnd(sc, w2).queues[0] == []; }
    var w3 := ExtendProcess(sc, w2);
    assert Held(OrderedEnd(sc, w3)) && OrderedEnd(sc, w3).replies == map[] && OrderedEnd(sc, w3).inbox == [];
    var w4 := ExtendDeadline(sc, w3);
    var w5 := OrderedGivesUp(sc, w4);
    assert OrderedEnd(sc, w5).queues == [[THAW]] by { assert [] + [THAW] == [THAW]; }
    var w8 := OrderedRefusedEnd(sc, w5);
    OrderedViolates(sc, w8, |w8| - 1, FalseTerminal);
    OrderedStranded(sc, w8);
  }

  lemma OrderedViolates(sc: Scenario, w: seq<Step>, i: nat, k: Kind)
    requires OrderedRun(sc, w) && i < |w| && k in w[i].found
    ensures Violates(Model(OwnerOrderedThaw, sc), k)
  {
    WalkViolates(Model(OwnerOrderedThaw, sc), w, i, k);
  }

  lemma OrderedRefusedEnd(sc: Scenario, w: seq<Step>) returns (v: seq<Step>)
    requires sc.systemdAlive && sc.thawError && OrderedRun(sc, w)
    requires var s := OrderedEnd(sc, w);
      && s.queues == [[THAW]] && s.inbox == [] && s.msgs == [Freeze, Thaw] && s.replies == map[] && s.kf
      && s.pcs.o == Some(Pc(2)) && s.vars.freeze == Some(FREEZE) && s.vars.thaw == Some(THAW)
    ensures OrderedRun(sc, v) && w < v && FalseTerminal in v[|v| - 1].found
    ensures Abandoned(OwnerOrderedThaw, OrderedEnd(sc, v))
  {
    hide OrderedRun, OrderedEnd;
    var w6 := ExtendDelivery(sc, w, 0, 0);
    assert OrderedEnd(sc, w6).queues == [[]] by { assert OrderedEnd(sc, w6).queues[0] == []; }
    var w7 := ExtendProcess(sc, w6);
    var s := OrderedEnd(sc, w7);
    assert s.replies == map[THAW := Error];
    var e := FinishO(OThawReply, s, Aborted, HostError, OrderedFound(s, HostError));
    v := ExtendOwner(sc, w7, e);
    assert FalseTerminal in v[|w7|].found;
  }

  lemma OrderedStranded(sc: Scenario, w: seq<Step>)
    requires OrderedRun(sc, w) && Abandoned(OwnerOrderedThaw, OrderedEnd(sc, w))
    ensures Violates(Model(OwnerOrderedThaw, sc), StrandedFreeze)
  {
    WalkReaches(Model(OwnerOrderedThaw, sc), w);
    AbandonedStrands(OwnerOrderedThaw, sc, OrderedEnd(sc, w));
  }

  /** Out of order the late freeze may also land on a successor. */
  lemma OrderedSuccessor(sc: Scenario)
    requires sc.systemdAlive && !sc.fifo && sc.reuse
    ensures Violates(Model(OwnerOrderedThaw, sc), SuccessorTouched)
  {
    hide OrderedRun, OrderedEnd;
    var w := OrderedOvertakes(sc);
    var s := OrderedEnd(sc, w);
    OrderedReaches(sc, w);
    var t := s.(successor := true);
    if !s.successor {
      ByEnvironment(OwnerOrderedThaw, sc, s, Edge(AdmitSuccessor, t, []));
    } else {
      assert t == s;
    }
    var u := ByDelivery(OwnerOrderedThaw, sc, t, 0, 0);
    var v := ByProcess(OwnerOrderedThaw, sc, u);
    assert SuccessorTouched in SystemdProcess(u, sc).found;
  }

  lemma OrderedReaches(sc: Scenario, w: seq<Step>)
    requires OrderedRun(sc, w)
    ensures Reachable(Model(OwnerOrderedThaw, sc), OrderedEnd(sc, w))
  {
    WalkReaches(Model(OwnerOrderedThaw, sc), w);
  }

  /** A local timeout thaws before the helper submits, and the freeze lands after the stop was answered. */
  lemma DetachedLate(sc: Scenario)
    requires sc.systemdAlive
    ensures Violates(Model(DetachedTimeoutThaw, sc), LateOp)
  {
    var d := DetachedTimeoutThaw;
    StartReachable(Model(d, sc));
    var s0 := Initial(d, sc);
    ByDesign(d, sc, s0, Edge(HSpawn, SpawnF(s0), []));
    var s2 := ByDeadline(d, sc, SpawnF(s0));
    DetachedTimesOut(sc, s2);
  }

  lemma DetachedTimesOut(sc: Scenario, s2: State)
    requires sc.systemdAlive && Reachable(Model(DetachedTimeoutThaw, sc), s2)
    requires Fresh(s2) && s2.terminal == None && s2.deadline && s2.pcs == Actors(Pc(1), None, Some(Pc(0))) &&
      s2.vars.freeze == None
    ensures Violates(Model(DetachedTimeoutThaw, sc), LateOp)
  {
    var d := DetachedTimeoutThaw;
    var s3 := SendThawH(s2, 0, 10);
    assert OnNewConn(s2) == [[1]] && s3.msgs == [Thaw];
    ByDesign(d, sc, s2, Edge(HLocalTimeout, s3, []));
    DetachedThaws(sc, s3);
  }

  lemma DetachedThaws(sc: Scenario, s3: State)
    requires sc.systemdAlive && Reachable(Model(DetachedTimeoutThaw, sc), s3)
    requires Idle(s3) && s3.replies == map[] && s3.queues == [[1]] && s3.inbox == [] && s3.msgs == [Thaw]
    requires s3.pcs == Actors(Pc(10), None, Some(Pc(0))) && s3.vars.thaw == Some(1) && s3.terminal == None
    ensures Violates(Model(DetachedTimeoutThaw, sc), LateOp)
  {
    var d := DetachedTimeoutThaw;
    var s4 := ByDelivery(d, sc, s3, 0, 0);
    assert s4.queues == [[]] by { assert s4.queues[0] == []; }
    var s5 := ByProcess(d, sc, s4);
    DetachedLateEnd(sc, s5);
  }

  lemma DetachedLateEnd(sc: Scenario, s5: State)
    requires sc.systemdAlive
    requires Reachable(Model(DetachedTimeoutThaw, sc), s5)
    requires s5.unit == Running && s5.queues == [[]] && s5.inbox == [] && s5.msgs == [Thaw] && 1 in s5.replies
    requires s5.pcs.h == Pc(10) && s5.pcs.f == Some(Pc(0)) && s5.vars.thaw == Some(1) && s5.terminal == None
    ensures Violates(Model(DetachedTimeoutThaw, sc), LateOp)
  {
    var d := DetachedTimeoutThaw;
    var e := FinishH(HDiscard, s5, Aborted, HostError);
    ByDesign(d, sc, s5, e);
    var s7 := ConnectF(e.next);
    ByDesign(d, sc, e.next, Edge(FConnect, s7, []));
    assert s7.queues == [[], []];
    DetachedSubmitsLate(sc, s7);
  }

  lemma DetachedSubmitsLate(sc: Scenario, s7: State)
    requires sc.systemdAlive && Reachable(Model(DetachedTimeoutThaw, sc), s7)
    requires s7.unit == Running && s7.queues == [[], []] && s7.inbox == [] && s7.msgs == [Thaw]
    requires s7.pcs.f == Some(Pc(1)) && s7.vars.fconn == Some(2) && s7.terminal.Some?
    ensures Violates(Model(DetachedTimeoutThaw, sc), LateOp)
  {
    var d := DetachedTimeoutThaw;
    var s8 := SendFreezeF(s7);
    ByDesign(d, sc, s7, Edge(FSendFreeze, s8, []));
    assert s8.queues[1] == [2];
    var s9 := ByDelivery(d, sc, s8, 1, 0);
    var s10 := ByProcess(d, sc, s9);
    assert LateOp in SystemdProcess(s9, sc).found;
  }

  // ---- the handler-scoped design ----

  lemma HandlerSubmits(sc: Scenario) returns (s: State)
    ensures Reachable(Model(HandlerScoped, sc), s)
    ensures s == Initial(HandlerScoped, sc).(queues := [[FREEZE]], msgs := [Freeze],
      vars := Vars(Some(FREEZE), None, None, None), pcs := Actors(Pc(2), None, None))
  {
    var d := HandlerScoped;
    StartReachable(Model(d, sc));
    var s0 := Initial(d, sc);
    var s1 := GotoH(s0, Pc(1));
    ByDesign(d, sc, s0, Edge(HLock, s1, []));
    s := SendFreezeH(s1);
    assert OnNewConn(s1) == [[FREEZE]] && s.msgs == [Freeze];
    ByDesign(d, sc, s1, Edge(HSendFreeze, s, []));
  }

  /** The freeze is with systemd, held until the kernel reports frozen. */
  lemma HandlerFreezes(sc: Scenario) returns (s: State)
    requires sc.systemdAlive
    ensures Reachable(Model(HandlerScoped, sc), s)
    ensures Held(s) && !s.kz && s.replies == map[] && s.queues == [[]] && s.inbox == []
    ensures s.pcs == Actors(Pc(2), None, None) && s.stuck == sc.stuck
  {
    hide Successors, QuiescentViolations;
    var s2 := HandlerSubmits(sc);
    s := FreezeDelivered(HandlerScoped, sc, s2, 0);
    assert s2.queues[0 := []] == [[]];
  }

  /** A task that is never released keeps the freeze held and the handler blocked for good. */
  ghost predicate Blocked(s: State) {
    && s.stuck && Held(s) && !s.kz && s.replies == map[] && s.inbox == [] && s.queues == [[]]
    && s.pcs == Actors(Pc(2), None, None)
  }

  lemma BlockedStable(sc: Scenario, s: State, e: Step)
    requires !sc.release && Blocked(s) && e in Successors(HandlerScoped, s, sc)
    ensures Blocked(e.next)
  {
    hide Environment;
    EnvironmentCases(s, sc, e);
    assert !DeliveryStep(s, sc, e);
  }

  lemma HandlerNeverReleased(sc: Scenario)
    requires sc.systemdAlive && sc.stuck && !sc.release
    ensures Violates(Model(HandlerScoped, sc), StrandedFreeze)
  {
    hide Successors;
    var s := HandlerFreezes(sc);
    forall u, e | Blocked(u) && e in Successors(HandlerScoped, u, sc) ensures Blocked(e.next) {
      BlockedStable(sc, u, e);
    }
    var sys := Model(HandlerScoped, sc);
    var w :| WalkTo(sys, w, s);
    var v := LeadsToQuiescence(HandlerScoped, sc, w, Blocked);
    WalkReaches(sys, v);
    assert Carries(sys, End(sys, v), StrandedFreeze);
    ViolatesIffCarried(sys, StrandedFreeze);
  }

  /** The freeze was answered and the handler goes on. */
  lemma HandlerFrozen(sc: Scenario) returns (s: State)
    requires CanFreeze(sc)
    ensures Reachable(Model(HandlerScoped, sc), s)
    ensures FrozenStill(s) && s.replies == map[FREEZE := Ok] && s.queues == [[]] && s.inbox == [] && s.msgs == [Freeze]
    ensures s.pcs == Actors(Pc(3), None, None) && s.killall == 0
    ensures !s.deadline && s.terminal == None && s.host == None
  {
    hide Successors, QuiescentViolations;
    var s2 := HandlerSubmits(sc);
    FreezeAnswered(HandlerScoped, sc, s2, 0);
    var s7 := AfterFreeze(s2, 0);
    assert s2.queues[0 := []] == [[]];
    s := GotoH(s7, Pc(3));
    ByDesign(HandlerScoped, sc, s7, Edge(HFreezeReturned, s, []));
  }

  lemma HandlerDropped(sc: Scenario)
    requires sc.systemdAlive && (!sc.stuck || sc.release) && sc.lockWaiter
    ensures Violates(Model(HandlerScoped, sc), StrandedFreeze)
  {
    var s := HandlerFrozen(sc);
    var t := ByDeadline(HandlerScoped, sc, s);
    var e := FinishH(HDropped, t, Dropped, HostDeadline);
    ByDesign(HandlerScoped, sc, t, e);
    AbandonedStrands(HandlerScoped, sc, e.next);
  }

  lemma HandlerEnumerationFails(sc: Scenario)
    requires sc.systemdAlive && (!sc.stuck || sc.release) && sc.getpidsFail
    ensures Violates(Model(HandlerScoped, sc), StrandedFreeze)
  {
    var s := HandlerFrozen(sc);
    var t := GotoH(s, Pc(4));
    ByDesign(HandlerScoped, sc, s, Edge(HLock, t, []));
    var e := FinishH(HGetPidsFailed, t, ErrorReturned, HostError);
    ByDesign(HandlerScoped, sc, t, e);
    AbandonedStrands(HandlerScoped, sc, e.next);
  }
}
