/** The ordered owner in every scenario: what it can go wrong in when delivery or the thaw fails it. */
module FreezeUnordered {
  import opened Options
  import opened Transitions
  import opened FreezeModel
  import opened FreezePhases

  /** All was killed on an answered freeze, and then the thaw was sent. */
  ghost predicate Killed(s: State, sc: Scenario) {
    && s.killall == 1
    && (
      || (FrozenStill(s) && s.replies == map[FREEZE := Ok] && s.queues == [[THAW]] && s.inbox == [])
      || (FrozenStill(s) && s.replies == map[FREEZE := Ok] && s.queues == [[]] && s.inbox == [THAW])
      || (s.queues == [[]] && s.inbox == [] && (if sc.thawError then Refused(s) else ThawHeld(s) || Thawed(s))))
  }

  /**
   * The thaw is in the queue, in the inbox, answered or parked. In order, what systemd has not processed yet is the end
   * of what was sent, and nothing once the thaw is answered or parked.
   */
  ghost predicate Accounted(queue: seq<nat>, inbox: seq<nat>, answered: bool, parked: bool, fifo: bool) {
    && (THAW in queue || THAW in inbox || answered || parked)
    && (forall m :: m in queue || m in inbox ==> m in {FREEZE, THAW})
    && (fifo ==> inbox + queue in {[FREEZE, THAW], [THAW], []} && (answered || parked ==> inbox + queue == []))
  }

  /** Nobody was killed, and the two calls may have met in any order. */
  ghost predicate Loose(s: State, sc: Scenario) {
    && s.killall == 0 && |s.queues| == 1
    && Accounted(s.queues[0], s.inbox, THAW in s.replies, s.pending == Some(THAW), sc.fifo)
    && (s.pending.Some? ==> s.pending.value in {FREEZE, THAW})
    && (s.pending == Some(THAW) ==> s.unit == Thawing && s.inotify)
  }

  ghost predicate OwnerAt(s: State, sc: Scenario) {
    match s.pcs.o
    case Some(Pc(n)) =>
      if n == 0 then Fresh(s)
      else if n == 1 then FreezeSent(s) && s.killall == 0 && s.vars.oconn == Some(1)
      else n == 2 && s.msgs == [Freeze, Thaw] && (Killed(s, sc) || Loose(s, sc))
    case Some(Finished) => s.msgs == [Freeze, Thaw] && (Killed(s, sc) || Loose(s, sc)) && THAW in s.replies
    case _ => false
  }

  ghost predicate Inv(s: State, sc: Scenario) {
    && OwnerAt(s, sc)
    && (s.msgs != [] ==> s.vars.freeze == Some(FREEZE))
    && (|s.msgs| == 2 ==> s.vars.thaw == Some(THAW))
    && s.pcs.h in {Pc(0), Finished}
    && (s.terminal.Some? <==> s.pcs.o == Some(Finished)) && (s.successor ==> s.terminal.Some?)
    && (sc.getpidsFail ==> s.killall == 0)
    && (s.stuck ==> sc.stuck) && (sc.stuck && !sc.release ==> s.stuck && !s.kz && s.killall == 0)
    && (s.terminal == Some(Completed) ==> s.killall > 0 && !sc.thawError)
  }

  /** In order nothing is processed after the end; in any order success is honest and the owner finishes. */
  ghost predicate Tolerable(found: seq<Kind>, sc: Scenario) {
    && DishonestSuccess !in found && NotTerminal !in found
    && (sc.fifo ==> LateOp !in found && SuccessorTouched !in found)
  }

  lemma InitialInv(sc: Scenario)
    ensures Inv(Initial(OwnerOrderedThaw, sc), sc)
  {
  }

  lemma HandlerInv(s: State, sc: Scenario, e: Step)
    requires Inv(s, sc) && e in RpcHandler(s)
    ensures Inv(e.next, sc) && e.found == []
  {
    hide OwnerAt;
    Untold(s, sc, e.next.host, e.next.pcs.h);
  }

  lemma Untold(s: State, sc: Scenario, host: Option<Host>, h: Pc)
    requires OwnerAt(s, sc)
    ensures OwnerAt(s.(host := host, pcs := s.pcs.(h := h)), sc)
  {
    hide Accounted;
    assert forall r :: FreezeAnswer(s.(host := host, pcs := s.pcs.(h := h)), r) == FreezeAnswer(s, r);
  }

  lemma SubmitInv(s: State, sc: Scenario, e: Step)
    requires Inv(s, sc) && e in OrderedOwner(s, sc) && s.pcs.o == Some(Pc(0))
    ensures Inv(e.next, sc) && e.found == []
  {
    assert OnNewConn(s) == [[FREEZE]];
    assert e.next.msgs == [Freeze];
  }

  /** The thaw joins the freeze's queue; all was killed only on an answered freeze. */
  lemma ThawJoins(s: State, sc: Scenario, e: Step)
    requires |s.queues| == 1 && s.vars.oconn == Some(1) && s.msgs == [Freeze] && s.killall == 0
    requires e in OrderedOwner(s, sc) && s.pcs.o == Some(Pc(1))
    ensures e.found == [] && (e.next.killall == 0 || (e.next.killall == 1 && !sc.getpidsFail))
    ensures e.next.killall == 1 ==> ReplyTo(s, s.vars.freeze) == Some(Ok)
    ensures e.next == s.(killall := e.next.killall, queues := [s.queues[0] + [THAW]], msgs := [Freeze, Thaw],
      vars := s.vars.(thaw := Some(THAW)), pcs := s.pcs.(o := Some(Pc(2))))
  {
    hide ReplyTo;
    assert OnConn(s, s.vars.oconn) == [s.queues[0] + [THAW]];
    assert e.next.msgs == [Freeze, Thaw];
  }

  lemma ThawInv(s: State, sc: Scenario, e: Step)
    requires Inv(s, sc) && e in OrderedOwner(s, sc) && s.pcs.o == Some(Pc(1))
    ensures Inv(e.next, sc) && e.found == []
  {
    hide OrderedOwner;
    ThawJoins(s, sc, e);
    assert [] + [THAW] == [THAW] && [FREEZE] + [THAW] == [FREEZE, THAW] && [] + [FREEZE, THAW] == [FREEZE, THAW];
    assert e.next.queues[0] == [FREEZE, THAW] || e.next.queues[0] == [THAW];
    assert THAW in e.next.queues[0];
  }

  lemma FinishInv(s: State, sc: Scenario, e: Step)
    requires Inv(s, sc) && e in OrderedOwner(s, sc) && s.pcs.o == Some(Pc(2))
    ensures Inv(e.next, sc) && Tolerable(e.found, sc)
  {
    assert THAW in s.replies;
    if s.killall > 0 { assert Thawed(s) || Refused(s); }
  }

  lemma OwnerInv(s: State, sc: Scenario, e: Step)
    requires Inv(s, sc) && e in OrderedOwner(s, sc)
    ensures Inv(e.next, sc) && Tolerable(e.found, sc)
  {
    hide Inv;
    match s.pcs.o
    case Some(Pc(0)) => SubmitInv(s, sc, e);
    case Some(Pc(1)) => ThawInv(s, sc, e);
    case Some(Pc(2)) => FinishInv(s, sc, e);
    case _ =>
  }

  ghost predicate IsLoose(s: State) {
    s.killall == 0 && (s.pcs.o == Some(Pc(2)) || s.pcs.o == Some(Finished))
  }

  lemma DeliverInv(s: State, sc: Scenario, c: nat, i: nat)
    requires Inv(s, sc) && c < |s.queues| && i < Deliverable(s, sc, c) && !IsLoose(s)
    ensures Inv(DeliverStep(s, c, i).next, sc)
  {
    OneDelivered(s, sc, c, i);
  }

  lemma AccountedDelivers(q: seq<nat>, inbox: seq<nat>, answered: bool, parked: bool, fifo: bool, i: nat)
    requires Accounted(q, inbox, answered, parked, fifo) && i < |q| && (fifo ==> i == 0)
    ensures Accounted(q[..i] + q[i + 1..], inbox + [q[i]], answered, parked, fifo)
  {
    var rest, got := q[..i] + q[i + 1..], inbox + [q[i]];
    assert q == q[..i] + [q[i]] + q[i + 1..];
    assert forall m :: m in q <==> m in rest || m == q[i];
    assert forall m :: m in got <==> m in inbox || m == q[i];
    assert fifo ==> got + rest == inbox + q;
    forall m | m in rest || m in got ensures m in {FREEZE, THAW} {
      assert m in q || m in inbox;
    }
  }

  lemma AccountedTakes(q: seq<nat>, inbox: seq<nat>, answered: bool, parked: bool, fifo: bool, done: bool, held: bool)
    requires Accounted(q, inbox, answered, parked, fifo) && inbox != []
    requires answered || parked ==> done || held
    requires if inbox[0] == THAW then done || held else (done || held ==> answered || parked)
    ensures Accounted(q, inbox[1..], done, held, fifo)
  {
    assert inbox == [inbox[0]] + inbox[1..] && inbox[0] in inbox && forall m :: m in inbox[1..] ==> m in inbox;
    if fifo {
      assert inbox + q == [inbox[0]] + (inbox[1..] + q);
      assert inbox + q == [FREEZE, THAW] ==> inbox[1..] + q == [FREEZE, THAW][1..];
      assert inbox + q == [THAW] ==> inbox[1..] + q == [THAW][1..];
    }
  }

  lemma DeliverLoose(s: State, sc: Scenario, c: nat, i: nat)
    requires Inv(s, sc) && c < |s.queues| && i < Deliverable(s, sc, c) && IsLoose(s)
    ensures Inv(DeliverStep(s, c, i).next, sc)
  {
    hide Accounted, Killed;
    var q, t := s.queues[0], DeliverStep(s, c, i).next;
    if Killed(s, sc) { KilledKills(s, sc); }
    assert c == 0 && t.queues == [q[..i] + q[i + 1..]] && t.inbox == s.inbox + [q[i]];
    AccountedDelivers(q, s.inbox, THAW in s.replies, s.pending == Some(THAW), sc.fifo, i);
  }

  lemma KilledKills(s: State, sc: Scenario)
    requires Killed(s, sc)
    ensures s.killall == 1
  {
  }

  lemma ProcessInv(s: State, sc: Scenario)
    requires Inv(s, sc) && s.inbox != [] && !IsLoose(s)
    ensures Inv(SystemdProcess(s, sc).next, sc)
  {
    assert s.inbox[1..] == [];
    if s.pcs.o == Some(Pc(1)) {
      assert s.inbox == [FREEZE];
    } else {
      assert s.inbox == [THAW];
      ProcessKilled(s, sc);
    }
  }

  lemma ProcessKilled(s: State, sc: Scenario)
    requires Inv(s, sc) && s.inbox == [THAW] && Killed(s, sc)
    ensures Inv(SystemdProcess(s, sc).next, sc)
  {
    assert s.inbox[1..] == [];
    if !sc.thawError { ThawProcessed(s, sc); }
  }

  /** Each call that systemd takes from the inbox is answered, or parked with the kernel's report to come. */
  lemma LooseProcessed(s: State, sc: Scenario)
    requires Loose(s, sc) && s.msgs == [Freeze, Thaw] && s.inbox != []
    ensures Loose(SystemdProcess(s, sc).next, sc) && s.replies.Keys <= SystemdProcess(s, sc).next.replies.Keys
  {
    hide ProcessFreeze, ProcessThaw;
    assert s.inbox[0] in s.inbox;
    if s.inbox[0] == FREEZE { LooseFreeze(s, sc); } else { LooseThaw(s, sc); }
  }

  lemma LooseFreeze(s: State, sc: Scenario)
    requires Loose(s, sc) && s.inbox != [] && s.inbox[0] == FREEZE
    ensures Loose(ProcessFreeze(s, FREEZE), sc) && s.replies.Keys <= ProcessFreeze(s, FREEZE).replies.Keys
  {
    hide Accounted, ProcessFreeze;
    var t := ProcessFreeze(s, FREEZE);
    FreezeEffect(s, FREEZE);
    assert THAW in t.replies <==> THAW in s.replies || (s.pending == Some(THAW) && !Busy(s));
    AccountedTakes(s.queues[0], s.inbox, THAW in s.replies, s.pending == Some(THAW), sc.fifo,
                   THAW in t.replies, t.pending == Some(THAW));
  }

  lemma LooseThaw(s: State, sc: Scenario)
    requires Loose(s, sc) && s.inbox != [] && s.inbox[0] == THAW
    ensures Loose(ProcessThaw(s, THAW, sc), sc) && s.replies.Keys <= ProcessThaw(s, THAW, sc).replies.Keys
  {
    hide Accounted, ProcessThaw;
    var t := ProcessThaw(s, THAW, sc);
    ThawEffect(s, THAW, sc);
    AccountedTakes(s.queues[0], s.inbox, THAW in s.replies, s.pending == Some(THAW), sc.fifo,
                   THAW in t.replies, t.pending == Some(THAW));
  }

  lemma ProcessLoose(s: State, sc: Scenario)
    requires Inv(s, sc) && s.inbox != [] && IsLoose(s)
    ensures Inv(SystemdProcess(s, sc).next, sc)
  {
    hide SystemdProcess, Loose;
    ProcessActs(s, sc);
    LooseProcessed(s, sc);
  }

  lemma EventsInv(s: State, sc: Scenario)
    requires Inv(s, sc) && s.inotify && !IsLoose(s)
    ensures Inv(SystemdEvents(s), sc)
  {
    EventsAnswer(s);
  }

  lemma AccountedAnswered(q: seq<nat>, inbox: seq<nat>, answered: bool, parked: bool, fifo: bool)
    requires Accounted(q, inbox, answered, parked, fifo)
    ensures Accounted(q, inbox, answered || parked, false, fifo)
  {
  }

  lemma LooseReported(s: State, sc: Scenario)
    requires Loose(s, sc) && s.inotify
    ensures Loose(SystemdEvents(s), sc) && s.replies.Keys <= SystemdEvents(s).replies.Keys
  {
    hide Accounted, SystemdEvents;
    EventsEffect(s);
    AccountedAnswered(s.queues[0], s.inbox, THAW in s.replies, s.pending == Some(THAW), sc.fifo);
    if Busy(s) {
      assert THAW in SystemdEvents(s).replies <==> THAW in s.replies || s.pending == Some(THAW);
    }
  }

  lemma EventsLoose(s: State, sc: Scenario)
    requires Inv(s, sc) && s.inotify && IsLoose(s)
    ensures Inv(SystemdEvents(s), sc)
  {
    hide SystemdEvents, Loose;
    EventsAct(s);
    LooseReported(s, sc);
  }

  lemma KernelInv(s: State, sc: Scenario, e: Step)
    requires Inv(s, sc) && e in KernelSteps(s, sc) && !IsLoose(s)
    ensures Inv(e.next, sc) && e.found == []
  {
    hide Loose;
    if Loose(s, sc) { LooseSpares(s, sc); }
    assert forall r :: FreezeAnswer(e.next, r) == FreezeAnswer(s, r);
  }

  lemma LooseSpares(s: State, sc: Scenario)
    requires Loose(s, sc)
    ensures s.killall == 0
  {
  }

  lemma KernelLoose(s: State, sc: Scenario, e: Step)
    requires Inv(s, sc) && e in KernelSteps(s, sc) && IsLoose(s)
    ensures Inv(e.next, sc) && e.found == []
  {
    hide Accounted, Killed;
    if Killed(s, sc) { KilledKills(s, sc); }
  }

  lemma OutsideInv(s: State, sc: Scenario, e: Step)
    requires Inv(s, sc) && e in OutsideSteps(s, sc)
    ensures Inv(e.next, sc) && e.found == []
  {
    hide OwnerAt;
    Unmoved(s, sc, true, s.successor);
    Unmoved(s, sc, s.deadline, true);
  }

  lemma Unmoved(s: State, sc: Scenario, deadline: bool, successor: bool)
    requires OwnerAt(s, sc)
    ensures OwnerAt(s.(deadline := deadline, successor := successor), sc)
  {
    assert forall r :: FreezeAnswer(s.(deadline := deadline, successor := successor), r) == FreezeAnswer(s, r);
  }

  /** Once the owner has finished, in order, nothing is left to process. */
  lemma NothingLate(s: State, sc: Scenario)
    requires Inv(s, sc) && s.inbox != []
    ensures Tolerable(SystemdProcess(s, sc).found, sc)
  {
    hide SystemdProcess;
    ProcessActs(s, sc);
  }

  lemma EnvironmentInv(s: State, sc: Scenario, e: Step)
    requires Inv(s, sc) && EnvironmentStep(s, sc, e)
    ensures Inv(e.next, sc) && Tolerable(e.found, sc)
  {
    hide Inv, IsLoose, SystemdEvents, SystemdProcess;
    var o := OriginOf(s, sc, e);
    match o
    case FromKernel => if IsLoose(s) { KernelLoose(s, sc, e); } else { KernelInv(s, sc, e); }
    case FromOutside => OutsideInv(s, sc, e);
    case FromQueue(c, i) => if IsLoose(s) { DeliverLoose(s, sc, c, i); } else { DeliverInv(s, sc, c, i); }
    case FromInbox =>
      NothingLate(s, sc);
      if IsLoose(s) { ProcessLoose(s, sc); } else { ProcessInv(s, sc); }
    case FromEvents => if IsLoose(s) { EventsLoose(s, sc); } else { EventsInv(s, sc); }
  }

  lemma StepInv(s: State, sc: Scenario, e: Step)
    requires Inv(s, sc) && e in Successors(OwnerOrderedThaw, s, sc)
    ensures Inv(e.next, sc) && Tolerable(e.found, sc)
  {
    hide Inv, RpcHandler, OrderedOwner, Environment;
    EnvironmentCases(s, sc, e);
    if e in RpcHandler(s) {
      HandlerInv(s, sc, e);
    } else if e in OrderedOwner(s, sc) {
      OwnerInv(s, sc, e);
    } else {
      EnvironmentInv(s, sc, e);
    }
  }

  lemma ReachableInv(sc: Scenario, s: State)
    requires Reachable(Model(OwnerOrderedThaw, sc), s)
    ensures Inv(s, sc)
  {
    hide Inv, Successors;
    InitialInv(sc);
    forall u, e | Inv(u, sc) && e in Model(OwnerOrderedThaw, sc).succ(u) ensures Inv(e.next, sc) {
      StepInv(u, sc, e);
    }
    Invariant(Model(OwnerOrderedThaw, sc), u => Inv(u, sc));
  }

  /** With systemd alive the owner always comes to its end. */
  lemma Finishes(s: State, sc: Scenario)
    requires sc.systemdAlive && Inv(s, sc) && Successors(OwnerOrderedThaw, s, sc) == []
    ensures s.terminal.Some?
  {
    hide Successors, Killed, Loose;
    assert OrderedOwner(s, sc) == [] && Environment(s, sc) == [] by { Parts(s, sc); }
    hide Environment;
    EnvironmentQuiet(s, sc);
    if s.pcs.o == Some(Pc(2)) { ThawAnswered(s, sc); }
  }

  lemma Parts(s: State, sc: Scenario)
    ensures Successors(OwnerOrderedThaw, s, sc) == RpcHandler(s) + OrderedOwner(s, sc) + Environment(s, sc)
  {
  }

  lemma ThawAnswered(s: State, sc: Scenario)
    requires (Killed(s, sc) || Loose(s, sc)) && s.inbox == [] && !s.inotify
    requires forall c :: 0 <= c < |s.queues| ==> s.queues[c] == []
    ensures THAW in s.replies
  {
    assert |s.queues| == 1 && s.queues[0] == [];
  }

  /** The ordered owner is honest and finishes in every scenario, and in order nothing is processed after its end. */
  lemma OnlyKinds(sc: Scenario, k: Kind)
    requires Violates(Model(OwnerOrderedThaw, sc), k)
    ensures k !in {DishonestSuccess, NotTerminal} && (sc.fifo ==> k !in {LateOp, SuccessorTouched})
  {
    hide Inv, Successors;
    var sys := Model(OwnerOrderedThaw, sc);
    ViolatesIffCarried(sys, k);
    var s :| Reachable(sys, s) && Carries(sys, s, k);
    ReachableInv(sc, s);
    if e :| e in sys.succ(s) && k in e.found {
      StepInv(s, sc, e);
    } else if sc.systemdAlive {
      Finishes(s, sc);
    }
  }
}
