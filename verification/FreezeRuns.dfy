/** Whole runs of each design: how a stop succeeds, and how the detached design goes wrong. */
module FreezeRuns {
  import opened Options
  import opened Transitions
  import opened FreezeModel
  import opened FreezePhases
  import opened FreezeWitness

  /** The state once the thaw in queue `c` was delivered, processed and answered. */
  function AfterThaw(s: State, sc: Scenario, c: nat): State
    requires c < |s.queues|
  {
    var t := s.(queues := s.queues[c := []], replies := map[FREEZE := Ok, THAW := if sc.thawError then Error else Ok]);
    if sc.thawError then t else t.(unit := Running, kf := false, kz := false)
  }

  /** A thaw that was sent after an answered freeze comes to be answered, or refused. */
  lemma ThawAnswered(design: Design, sc: Scenario, s: State, c: nat)
    requires sc.systemdAlive && Reachable(Model(design, sc), s)
    requires FrozenStill(s) && s.replies == map[FREEZE := Ok] && s.inbox == [] && s.msgs == [Freeze, Thaw]
    requires c < |s.queues| && s.queues[c] == [THAW]
    ensures Reachable(Model(design, sc), AfterThaw(s, sc, c))
  {
    var u := OnlyDelivered(design, sc, s, c, THAW);
    var v := ByProcess(design, sc, u);
    assert u.inbox[1..] == [];
    if sc.thawError {
      assert v == AfterThaw(s, sc, c);
    } else {
      ThawReported(design, sc, v);
      assert SystemdEvents(v) == AfterThaw(s, sc, c);
    }
  }

  lemma ThawReported(design: Design, sc: Scenario, v: State)
    requires sc.systemdAlive && Reachable(Model(design, sc), v) && v.inotify
    ensures Reachable(Model(design, sc), SystemdEvents(v))
  {
    ByEnvironment(design, sc, v, Edge(CgroupEvents, SystemdEvents(v), []));
  }

  /** The caller is told of success, honestly or not. */
  ghost predicate Succeeds(design: Design, sc: Scenario) {
    exists s :: Reachable(Model(design, sc), s) && s.host == Some(HostOk)
  }

  // ---- the handler-scoped design ----

  lemma HandlerKills(sc: Scenario, s3: State) returns (s: State)
    requires !sc.getpidsFail && Reachable(Model(HandlerScoped, sc), s3) && !s3.deadline
    requires s3.pcs == Actors(Pc(2), None, None) && FREEZE in s3.replies && s3.vars.freeze == Some(FREEZE)
    ensures Reachable(Model(HandlerScoped, sc), s)
    ensures s == s3.(killall := s3.killall + 1, pcs := Actors(Pc(6), None, None))
  {
    hide Successors, QuiescentViolations, Initial;
    var d := HandlerScoped;
    var s4 := GotoH(s3, Pc(3));
    ByDesign(d, sc, s3, Edge(HFreezeReturned, s4, []));
    var s5 := GotoH(s4, Pc(4));
    ByDesign(d, sc, s4, Edge(HLock, s5, []));
    var s6 := KillH(s5, Pc(5));
    ByDesign(d, sc, s5, Edge(HKillAll, s6, []));
    s := GotoH(s6, Pc(6));
    ByDesign(d, sc, s6, Edge(HLock, s, []));
  }

  lemma HandlerSucceeds(sc: Scenario)
    requires CanFreeze(sc) && !sc.getpidsFail
    ensures Succeeds(HandlerScoped, sc)
    ensures sc.thawError ==> Violates(Model(HandlerScoped, sc), DishonestSuccess)
    ensures sc.thawError ==> Violates(Model(HandlerScoped, sc), StrandedFreeze)
  {
    var s2 := HandlerSubmits(sc);
    FreezeAnswered(HandlerScoped, sc, s2, 0);
    var s6 := HandlerKills(sc, AfterFreeze(s2, 0));
    HandlerThaws(sc, s6);
  }

  lemma HandlerThaws(sc: Scenario, s6: State)
    requires sc.systemdAlive && Reachable(Model(HandlerScoped, sc), s6)
    requires FrozenStill(s6) && s6.replies == map[FREEZE := Ok] && s6.inbox == [] && s6.msgs == [Freeze]
    requires s6.queues == [[]] && s6.killall == 1 && s6.pcs == Actors(Pc(6), None, None) && s6.host == None
    ensures Succeeds(HandlerScoped, sc)
    ensures sc.thawError ==> Violates(Model(HandlerScoped, sc), DishonestSuccess)
    ensures sc.thawError ==> Violates(Model(HandlerScoped, sc), StrandedFreeze)
  {
    var d := HandlerScoped;
    var s7 := SendThawH(s6, s6.killall, 7);
    assert OnNewConn(s6) == [[], [THAW]] && s7.msgs == [Freeze, Thaw];
    ByDesign(d, sc, s6, Edge(HSendThaw, s7, []));
    ThawAnswered(d, sc, s7, 1);
    HandlerReports(sc, AfterThaw(s7, sc, 1));
  }

  lemma HandlerReports(sc: Scenario, s: State)
    requires Reachable(Model(HandlerScoped, sc), s)
    requires s.pcs == Actors(Pc(7), None, None) && s.vars.thaw == Some(THAW) && THAW in s.replies && s.host == None
    requires s.kf == sc.thawError && s.queues == [[], []] && s.inbox == []
    ensures Succeeds(HandlerScoped, sc)
    ensures sc.thawError ==> Violates(Model(HandlerScoped, sc), DishonestSuccess)
    ensures sc.thawError ==> Violates(Model(HandlerScoped, sc), StrandedFreeze)
  {
    hide Successors, QuiescentViolations, Initial;
    var e := FinishH(HThawReturned, s, Completed, HostOk);
    ByDesign(HandlerScoped, sc, s, e);
    if sc.thawError {
      assert DishonestSuccess in e.found;
      AbandonedStrands(HandlerScoped, sc, e.next);
    }
  }

  // ---- the detached design ----

  lemma ByDetachedHandler(sc: Scenario, s: State, e: Step)
    requires Reachable(Model(DetachedTimeoutThaw, sc), s) && e in DetachedHandler(s, sc)
    ensures Reachable(Model(DetachedTimeoutThaw, sc), e.next)
    ensures forall k :: k in e.found ==> Violates(Model(DetachedTimeoutThaw, sc), k)
  {
    hide DetachedHandler, DetachedHelper;
    ByDesign(DetachedTimeoutThaw, sc, s, e);
  }

  lemma ByDetachedHelper(sc: Scenario, s: State, e: Step)
    requires Reachable(Model(DetachedTimeoutThaw, sc), s) && e in DetachedHelper(s)
    ensures Reachable(Model(DetachedTimeoutThaw, sc), e.next)
  {
    hide DetachedHandler, DetachedHelper;
    ByDesign(DetachedTimeoutThaw, sc, s, e);
  }

  lemma DetachedSubmits(sc: Scenario) returns (s: State)
    ensures Reachable(Model(DetachedTimeoutThaw, sc), s)
    ensures s == Initial(DetachedTimeoutThaw, sc).(queues := [[FREEZE]], msgs := [Freeze],
      vars := Vars(Some(FREEZE), None, Some(1), None), pcs := Actors(Pc(1), None, Some(Pc(2))))
  {
    var d := DetachedTimeoutThaw;
    StartReachable(Model(d, sc));
    var s0 := Initial(d, sc);
    var s1 := SpawnF(s0);
    ByDetachedHandler(sc, s0, Edge(HSpawn, s1, []));
    s := HelperSends(sc, s1);
  }

  lemma HelperSends(sc: Scenario, s1: State) returns (s: State)
    requires Reachable(Model(DetachedTimeoutThaw, sc), s1) && s1.pcs.f == Some(Pc(0))
    requires s1.queues == [] && s1.msgs == [] && s1.vars == Vars(None, None, None, None)
    ensures Reachable(Model(DetachedTimeoutThaw, sc), s)
    ensures s == s1.(queues := [[FREEZE]], msgs := [Freeze], vars := Vars(Some(FREEZE), None, Some(1), None),
                     pcs := s1.pcs.(f := Some(Pc(2))))
  {
    var s2 := ConnectF(s1);
    ByDetachedHelper(sc, s1, Edge(FConnect, s2, []));
    s := SendFreezeF(s2);
    assert s2.queues == [[]] && OnConn(s2, s2.vars.fconn) == [[FREEZE]] by { assert [] + [FREEZE] == [FREEZE]; }
    assert s.msgs == [Freeze];
    ByDetachedHelper(sc, s2, Edge(FSendFreeze, s, []));
  }

  lemma DetachedSucceeds(sc: Scenario)
    requires CanFreeze(sc) && !sc.getpidsFail
    ensures Succeeds(DetachedTimeoutThaw, sc)
    ensures sc.thawError ==> Violates(Model(DetachedTimeoutThaw, sc), DishonestSuccess)
  {
    var d := DetachedTimeoutThaw;
    var s2 := DetachedSubmits(sc);
    FreezeAnswered(d, sc, s2, 0);
    var s3 := AfterFreeze(s2, 0);
    var s4 := GotoH(s3, Pc(2));
    ByDetachedHandler(sc, s3, Edge(HFreezeResult, s4, []));
    DetachedThawed(sc, s4);
  }

  lemma DetachedThawed(sc: Scenario, s4: State)
    requires sc.systemdAlive && !sc.getpidsFail && Reachable(Model(DetachedTimeoutThaw, sc), s4)
    requires FrozenStill(s4) && s4.replies == map[FREEZE := Ok] && s4.inbox == [] && s4.msgs == [Freeze]
    requires s4.queues == [[]] && s4.killall == 0 && s4.pcs == Actors(Pc(2), None, Some(Pc(2))) && s4.host == None
    ensures Succeeds(DetachedTimeoutThaw, sc)
    ensures sc.thawError ==> Violates(Model(DetachedTimeoutThaw, sc), DishonestSuccess)
  {
    var d := DetachedTimeoutThaw;
    var s5 := SendThawH(s4, 1, 3);
    assert OnNewConn(s4) == [[], [THAW]] && s5.msgs == [Freeze, Thaw];
    ByDetachedHandler(sc, s4, Edge(HKillThaw, s5, []));
    ThawAnswered(d, sc, s5, 1);
    DetachedReports(sc, AfterThaw(s5, sc, 1));
  }

  lemma DetachedReports(sc: Scenario, s: State)
    requires Reachable(Model(DetachedTimeoutThaw, sc), s)
    requires s.pcs.h == Pc(3) && s.vars.thaw == Some(THAW) && THAW in s.replies && s.host == None
    requires s.kf == sc.thawError
    ensures Succeeds(DetachedTimeoutThaw, sc)
    ensures sc.thawError ==> Violates(Model(DetachedTimeoutThaw, sc), DishonestSuccess)
  {
    var e := FinishH(HThawReturned, s, Completed, HostOk);
    ByDetachedHandler(sc, s, e);
    if sc.thawError { assert DishonestSuccess in e.found; }
  }

  /** The freeze waits in its queue while the handler times out and thaws. */
  lemma DetachedTimesOut(sc: Scenario) returns (s: State)
    ensures Reachable(Model(DetachedTimeoutThaw, sc), s)
    ensures s == Initial(DetachedTimeoutThaw, sc).(deadline := true, queues := [[FREEZE], [THAW]], msgs := [Freeze, Thaw],
      vars := Vars(Some(FREEZE), Some(THAW), Some(1), None), pcs := Actors(Pc(10), None, Some(Pc(2))))
  {
    var d := DetachedTimeoutThaw;
    var s2 := DetachedSubmits(sc);
    var s3 := ByDeadline(d, sc, s2);
    s := SendThawH(s3, 0, 10);
    assert OnNewConn(s3) == [[FREEZE], [THAW]] && s.msgs == [Freeze, Thaw];
    ByDetachedHandler(sc, s3, Edge(HLocalTimeout, s, []));
  }

  /** The thaw overtakes the queued freeze: the generation ends, and then the freeze lands, perhaps on a successor. */
  lemma DetachedOvertaken(sc: Scenario)
    requires sc.systemdAlive
    ensures forall k :: k in {LateOp, FalseTerminal, StrandedFreeze} ==> Violates(Model(DetachedTimeoutThaw, sc), k)
    ensures sc.reuse ==> Violates(Model(DetachedTimeoutThaw, sc), SuccessorTouched)
  {
    var d := DetachedTimeoutThaw;
    var s := DetachedTimesOut(sc);
    var t := OnlyDelivered(d, sc, s, 1, THAW);
    assert t.queues == [[FREEZE], []];
    var u := ByProcess(d, sc, t);
    assert t.inbox[1..] == [] && u.replies == map[THAW := if sc.thawError then Error else Ok];
    DetachedEnds(sc, u);
  }

  lemma DetachedEnds(sc: Scenario, u: State)
    requires sc.systemdAlive && Reachable(Model(DetachedTimeoutThaw, sc), u)
    requires Idle(u) && u.queues == [[FREEZE], []] && u.inbox == [] && u.msgs == [Freeze, Thaw] && u.replies.Keys == {THAW}
    requires u.pcs == Actors(Pc(10), None, Some(Pc(2))) && u.vars.thaw == Some(THAW) && u.host == None && !u.successor
    ensures forall k :: k in {LateOp, FalseTerminal, StrandedFreeze} ==> Violates(Model(DetachedTimeoutThaw, sc), k)
    ensures sc.reuse ==> Violates(Model(DetachedTimeoutThaw, sc), SuccessorTouched)
  {
    var d := DetachedTimeoutThaw;
    var e := FinishH(HDiscard, u, Aborted, HostError);
    ByDetachedHandler(sc, u, e);
    assert FREEZE !in u.replies && Unanswered(u) && FalseTerminal in e.found;
    DetachedLands(sc, e.next);
    if sc.reuse {
      var t := e.next.(successor := true);
      ByEnvironment(d, sc, e.next, Edge(AdmitSuccessor, t, []));
      DetachedLands(sc, t);
    }
  }

  lemma DetachedLands(sc: Scenario, s: State)
    requires sc.systemdAlive && Reachable(Model(DetachedTimeoutThaw, sc), s)
    requires Idle(s) && s.queues == [[FREEZE], []] && s.inbox == [] && s.msgs == [Freeze, Thaw]
    requires s.pcs == Actors(Finished, None, Some(Pc(2))) && s.terminal.Some?
    ensures Violates(Model(DetachedTimeoutThaw, sc), LateOp) && Violates(Model(DetachedTimeoutThaw, sc), StrandedFreeze)
    ensures s.successor ==> Violates(Model(DetachedTimeoutThaw, sc), SuccessorTouched)
  {
    var d := DetachedTimeoutThaw;
    var t := OnlyDelivered(d, sc, s, 0, FREEZE);
    assert t.queues == [[], []];
    DetachedLanded(sc, t);
  }

  /** A freeze that finds the unit at rest is parked. */
  lemma IdleFreeze(s: State, sc: Scenario)
    requires Idle(s) && s.inbox == [FREEZE] && OpOf(s, FREEZE) == Freeze
    ensures SystemdProcess(s, sc).next == s.(inbox := [], unit := Freezing, kf := true, pending := Some(FREEZE))
    ensures SystemdProcess(s, sc).found == ProcessFound(s)
  {
    hide ProcessFound;
    assert s.inbox[1..] == [];
  }

  lemma DetachedLanded(sc: Scenario, t: State)
    requires sc.systemdAlive && Reachable(Model(DetachedTimeoutThaw, sc), t)
    requires Idle(t) && t.queues == [[], []] && t.inbox == [FREEZE] && t.msgs == [Freeze, Thaw]
    requires t.pcs == Actors(Finished, None, Some(Pc(2))) && t.terminal.Some?
    ensures Violates(Model(DetachedTimeoutThaw, sc), LateOp) && Violates(Model(DetachedTimeoutThaw, sc), StrandedFreeze)
    ensures t.successor ==> Violates(Model(DetachedTimeoutThaw, sc), SuccessorTouched)
  {
    hide Successors, SystemdProcess, QuiescentViolations, Initial;
    var d := DetachedTimeoutThaw;
    var u := ByProcess(d, sc, t);
    IdleFreeze(t, sc);
    assert LateOp in ProcessFound(t) && (t.successor ==> SuccessorTouched in ProcessFound(t));
    AbandonedStrands(d, sc, u);
  }

  // ---- the owner designs ----

  lemma OwnerSubmits(design: Design, sc: Scenario) returns (s: State)
    requires IsOwnerDesign(design)
    ensures Reachable(Model(design, sc), s)
    ensures s == Initial(design, sc).(queues := [[FREEZE]], msgs := [Freeze],
      vars := Vars(Some(FREEZE), None, None, if design.OwnerOrderedThaw? then Some(1) else None),
      pcs := Actors(Pc(0), Some(Pc(1)), None))
  {
    StartReachable(Model(design, sc));
    var s0 := Initial(design, sc);
    s := SubmitFreeze(s0, design.OwnerOrderedThaw?);
    assert OnNewConn(s0) == [[FREEZE]] && s.msgs == [Freeze];
    ByDesign(design, sc, s0, Edge(OSendFreeze, s, []));
  }

  lemma OrderedSucceeds(sc: Scenario)
    requires CanFreeze(sc) && !sc.getpidsFail && !sc.thawError
    ensures Succeeds(OwnerOrderedThaw, sc)
  {
    var d := OwnerOrderedThaw;
    var s1 := OwnerSubmits(d, sc);
    FreezeAnswered(d, sc, s1, 0);
    OrderedThaws(sc, AfterFreeze(s1, 0));
  }

  lemma OrderedThaws(sc: Scenario, s2: State)
    requires sc.systemdAlive && !sc.getpidsFail && !sc.thawError && Reachable(Model(OwnerOrderedThaw, sc), s2)
    requires FrozenStill(s2) && s2.replies == map[FREEZE := Ok] && s2.inbox == [] && s2.msgs == [Freeze]
    requires s2.queues == [[]] && s2.killall == 0 && s2.pcs == Actors(Pc(0), Some(Pc(1)), None) && s2.host == None
    requires s2.vars.freeze == Some(FREEZE) && s2.vars.oconn == Some(1)
    ensures Succeeds(OwnerOrderedThaw, sc)
  {
    var d := OwnerOrderedThaw;
    var s3 := ThawSameConn(s2, 1);
    assert OnConn(s2, s2.vars.oconn) == [[THAW]] by { assert [] + [THAW] == [THAW]; }
    assert s3.msgs == [Freeze, Thaw];
    ByOrderedOwner(sc, s2, Edge(OFrozenKillThaw, s3, []));
    ThawAnswered(d, sc, s3, 0);
    OrderedReports(sc, AfterThaw(s3, sc, 0));
  }

  lemma OrderedReports(sc: Scenario, s: State)
    requires Reachable(Model(OwnerOrderedThaw, sc), s)
    requires s.pcs.o == Some(Pc(2)) && s.vars.thaw == Some(THAW) && s.replies == map[FREEZE := Ok, THAW := Ok]
    requires s.host == None && s.killall > 0
    ensures Succeeds(OwnerOrderedThaw, sc)
  {
    ByOrderedOwner(sc, s, FinishO(OThawReply, s, Completed, HostOk, OrderedFound(s, HostOk)));
  }

  lemma ByOrderedOwner(sc: Scenario, s: State, e: Step)
    requires Reachable(Model(OwnerOrderedThaw, sc), s) && e in OrderedOwner(s, sc)
    ensures Reachable(Model(OwnerOrderedThaw, sc), e.next)
  {
    hide OrderedOwner, RpcHandler;
    ByDesign(OwnerOrderedThaw, sc, s, e);
  }

  lemma ReconciledSucceeds(sc: Scenario)
    requires CanFreeze(sc) && !sc.getpidsFail && !sc.thawError
    ensures Succeeds(OwnerReconciled, sc)
  {
    var d := OwnerReconciled;
    var s1 := OwnerSubmits(d, sc);
    FreezeAnswered(d, sc, s1, 0);
    var s2 := AfterFreeze(s1, 0);
    var s3 := KillO(s2, Pc(2));
    ByDesign(d, sc, s2, Edge(OFrozenKill, s3, []));
    ReconciledThaws(sc, s3);
  }

  lemma ReconciledThaws(sc: Scenario, s3: State)
    requires sc.systemdAlive && !sc.thawError && Reachable(Model(OwnerReconciled, sc), s3)
    requires FrozenStill(s3) && s3.replies == map[FREEZE := Ok] && s3.inbox == [] && s3.msgs == [Freeze]
    requires s3.queues == [[]] && s3.killall == 1 && s3.pcs == Actors(Pc(0), Some(Pc(2)), None) && s3.host == None
    requires s3.vars.freeze == Some(FREEZE)
    ensures Succeeds(OwnerReconciled, sc)
  {
    var d := OwnerReconciled;
    var s4 := ThawNewConn(s3);
    assert OnNewConn(s3) == [[], [THAW]] && s4.msgs == [Freeze, Thaw];
    ByDesign(d, sc, s3, Edge(OSendThaw, s4, []));
    ThawAnswered(d, sc, s4, 1);
    var s5 := AfterThaw(s4, sc, 1);
    ByDesign(d, sc, s5, FinishO(OFinished, s5, Completed, HostOk, FinishFound(s5, HostOk)));
  }
}
