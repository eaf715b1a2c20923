/** Where each call is, and what the kernel and systemd have made of it. */
module FreezePhases {
  import opened Options
  import opened Transitions
  import opened FreezeModel

  /** One environment step, spelled out case by case. */
  ghost predicate EnvironmentStep(s: State, sc: Scenario, e: Step) {
    || (s.stuck && sc.release && e == Edge(HeldRequestAnswered, s.(stuck := false), []))
    || (s.kf && !s.kz && !s.stuck && e == Edge(KernelFrozen, s.(kz := true, inotify := true), []))
    || DeliveryStep(s, sc, e)
    || (sc.systemdAlive && s.inbox != [] && e == SystemdProcess(s, sc))
    || (sc.systemdAlive && s.inotify && e == Edge(CgroupEvents, SystemdEvents(s), []))
    || (!s.deadline && s.terminal.None? && e == Edge(DeadlinePassed, s.(deadline := true), []))
    || (sc.reuse && !s.successor && SuccessorAllowed(s) && e == Edge(AdmitSuccessor, s.(successor := true), []))
  }

  ghost predicate DeliveryStep(s: State, sc: Scenario, e: Step) {
    exists c, i :: 0 <= c < |s.queues| && 0 <= i < Deliverable(s, sc, c) && e == DeliverStep(s, c, i)
  }

  lemma KernelCases(s: State, sc: Scenario, e: Step)
    ensures e in KernelSteps(s, sc) <==>
      || (s.stuck && sc.release && e == Edge(HeldRequestAnswered, s.(stuck := false), []))
      || (s.kf && !s.kz && !s.stuck && e == Edge(KernelFrozen, s.(kz := true, inotify := true), []))
  {
  }

  lemma SystemdCases(s: State, sc: Scenario, e: Step)
    ensures e in SystemdSteps(s, sc) <==>
      || (sc.systemdAlive && s.inbox != [] && e == SystemdProcess(s, sc))
      || (sc.systemdAlive && s.inotify && e == Edge(CgroupEvents, SystemdEvents(s), []))
  {
    hide SystemdProcess, SystemdEvents;
  }

  lemma OutsideCases(s: State, sc: Scenario, e: Step)
    ensures e in OutsideSteps(s, sc) <==>
      || (!s.deadline && s.terminal.None? && e == Edge(DeadlinePassed, s.(deadline := true), []))
      || (sc.reuse && !s.successor && SuccessorAllowed(s) && e == Edge(AdmitSuccessor, s.(successor := true), []))
  {
  }

  lemma EnvironmentCases(s: State, sc: Scenario, e: Step)
    ensures e in Environment(s, sc) <==> EnvironmentStep(s, sc, e)
  {
    hide KernelSteps, SystemdSteps, OutsideSteps, SystemdProcess, SystemdEvents;
    KernelCases(s, sc, e);
    DeliveriesMembers(s, sc, 0, e);
    SystemdCases(s, sc, e);
    OutsideCases(s, sc, e);
  }

  /** A state with no enabled environment step. */
  lemma EnvironmentQuiet(s: State, sc: Scenario)
    requires Environment(s, sc) == []
    ensures !(s.stuck && sc.release) && !(s.kf && !s.kz && !s.stuck)
    ensures forall c :: 0 <= c < |s.queues| ==> s.queues[c] == []
    ensures sc.systemdAlive ==> s.inbox == [] && !s.inotify
    ensures s.deadline || s.terminal.Some?
    ensures sc.reuse && SuccessorAllowed(s) ==> s.successor
  {
    forall c | 0 <= c < |s.queues| ensures s.queues[c] == [] {
      if s.queues[c] != [] {
        DeliveriesMembers(s, sc, 0, DeliverStep(s, c, 0));
      }
    }
  }

  const FREEZE: nat := 1
  const THAW: nat := 2

  /** Neither the kernel nor systemd has anything under way. */
  ghost predicate Idle(s: State) {
    !s.kf && !s.kz && s.unit == Running && s.pending == None && !s.inotify
  }

  /** No call was ever sent. */
  ghost predicate Fresh(s: State) {
    Idle(s) && s.msgs == [] && s.queues == [] && s.inbox == [] && s.replies == map[] && s.killall == 0
  }

  /** FreezeUnit is parked until the kernel reports frozen. */
  ghost predicate Held(s: State) {
    s.pending == Some(FREEZE) && s.unit == Freezing && s.kf && s.kz == s.inotify
  }

  ghost predicate FrozenStill(s: State) {
    s.pending == None && s.unit == Frozen && s.kf && s.kz && !s.inotify
  }

  /** FreezeUnit was processed and nothing after it. */
  ghost predicate FreezeSeen(s: State) {
    || (Held(s) && s.replies == map[] && s.killall == 0)
    || (FrozenStill(s) && s.replies == map[FREEZE := Ok])
  }

  /** ThawUnit was answered with an error; the freeze goes on as before. */
  ghost predicate ThawRefused(s: State) {
    || (Held(s) && s.replies == map[THAW := Error] && s.killall == 0)
    || (FrozenStill(s) && s.replies == map[FREEZE := Ok, THAW := Error])
  }

  /** The freeze was answered and ThawUnit refused: the cgroup stays frozen. */
  ghost predicate Refused(s: State) {
    FrozenStill(s) && s.replies == map[FREEZE := Ok, THAW := Error]
  }

  ghost predicate FreezeAnswer(s: State, r: Reply) {
    r == Ok || (r == Cancelled && s.killall == 0)
  }

  /** ThawUnit is parked until the kernel reports thawed. */
  ghost predicate ThawHeld(s: State) {
    && s.unit == Thawing && s.pending == Some(THAW) && !s.kf && !s.kz && s.inotify
    && (exists r :: s.replies == map[FREEZE := r] && FreezeAnswer(s, r))
  }

  /** Both calls are answered and the cgroup is thawed. */
  ghost predicate Thawed(s: State) {
    && Idle(s) && s.msgs == [Freeze, Thaw]
    && FREEZE in s.replies && THAW in s.replies && s.replies.Keys == {FREEZE, THAW}
    && s.replies[THAW] == Ok && FreezeAnswer(s, s.replies[FREEZE])
  }

  /** FreezeUnit is the only call; it sits in its queue or in systemd's inbox. */
  ghost predicate FreezeInFlight(s: State) {
    && Idle(s) && s.replies == map[] && s.killall == 0
    && ((s.queues == [[FREEZE]] && s.inbox == []) || (s.queues == [[]] && s.inbox == [FREEZE]))
  }

  ghost predicate FreezeSent(s: State) {
    && s.msgs == [Freeze]
    && (FreezeInFlight(s) || (s.queues == [[]] && s.inbox == [] && FreezeSeen(s)))
  }

  /** Where an environment step comes from. */
  datatype Origin = FromKernel | FromOutside | FromQueue(c: nat, i: nat) | FromInbox | FromEvents

  lemma OriginOf(s: State, sc: Scenario, e: Step) returns (o: Origin)
    requires EnvironmentStep(s, sc, e)
    ensures match o
      case FromKernel => e in KernelSteps(s, sc)
      case FromOutside => e in OutsideSteps(s, sc)
      case FromQueue(c, i) => c < |s.queues| && i < Deliverable(s, sc, c) && e == DeliverStep(s, c, i)
      case FromInbox => sc.systemdAlive && s.inbox != [] && e == SystemdProcess(s, sc)
      case FromEvents => sc.systemdAlive && s.inotify && e == Edge(CgroupEvents, SystemdEvents(s), [])
  {
    hide SystemdEvents, SystemdProcess;
    KernelCases(s, sc, e);
    OutsideCases(s, sc, e);
    if e in KernelSteps(s, sc) {
      o := FromKernel;
    } else if e in OutsideSteps(s, sc) {
      o := FromOutside;
    } else if DeliveryStep(s, sc, e) {
      var c, i :| 0 <= c < |s.queues| && 0 <= i < Deliverable(s, sc, c) && e == DeliverStep(s, c, i);
      o := FromQueue(c, i);
    } else if sc.systemdAlive && s.inbox != [] && e == SystemdProcess(s, sc) {
      o := FromInbox;
    } else {
      o := FromEvents;
    }
  }

  /** Delivering the only message of a queue empties it, and all queues when the others are empty. */
  lemma OneDelivered(s: State, sc: Scenario, c: nat, i: nat)
    requires c < |s.queues| <= 2 && i < Deliverable(s, sc, c) && |s.queues[c]| == 1
    requires forall d :: 0 <= d < |s.queues| && d != c ==> s.queues[d] == []
    ensures DeliverStep(s, c, i).next ==
      s.(inbox := s.inbox + s.queues[c], queues := if |s.queues| == 1 then [[]] else [[], []])
  {
    assert i == 0 && s.queues[c][..0] + s.queues[c][1..] == [] && [s.queues[c][0]] == s.queues[c];
    assert s.queues[c := []] == if |s.queues| == 1 then [[]] else [[], []];
  }

  /** A step of systemd: it moves the unit and answers calls, and never freezes anything by itself. */
  ghost predicate SystemdActs(s: State, t: State) {
    && t.pcs == s.pcs && t.vars == s.vars && t.msgs == s.msgs && t.killall == s.killall && t.stuck == s.stuck
    && t.terminal == s.terminal && t.host == s.host && t.deadline == s.deadline && t.successor == s.successor
    && t.queues == s.queues && (t.kz ==> s.kz)
  }

  lemma ProcessActs(s: State, sc: Scenario)
    requires s.inbox != []
    ensures SystemdActs(s, SystemdProcess(s, sc).next)
    ensures forall k :: k in SystemdProcess(s, sc).found ==>
      (k == LateOp && s.terminal.Some?) || (k == SuccessorTouched && s.successor)
  {
    hide ProcessFreeze, ProcessThaw;
    FreezeActs(s, s.inbox[0]);
    ThawActs(s, s.inbox[0], sc);
  }

  lemma FreezeActs(s: State, msg: nat)
    requires s.inbox != []
    ensures SystemdActs(s, ProcessFreeze(s, msg))
  {
    hide SystemdActs, ProcessFreeze;
    if Busy(s) || s.kz { FreezeAnswers(s, msg); } else { FreezeParks(s, msg); }
  }

  lemma FreezeAnswers(s: State, msg: nat)
    requires s.inbox != [] && (Busy(s) || s.kz)
    ensures SystemdActs(s, ProcessFreeze(s, msg))
  {
    hide Answer, Busy;
  }

  lemma FreezeParks(s: State, msg: nat)
    requires s.inbox != [] && !Busy(s) && !s.kz
    ensures SystemdActs(s, ProcessFreeze(s, msg))
  {
    hide Answer, Busy;
  }

  /** A freeze call is refused while the unit is busy, and else answered or parked. */
  lemma FreezeEffect(s: State, msg: nat)
    requires s.inbox != []
    ensures var t := ProcessFreeze(s, msg);
      && t.inbox == s.inbox[1..] && t.queues == s.queues && t.killall == s.killall && t.inotify == s.inotify
      && s.replies.Keys <= t.replies.Keys
      && (Busy(s) ==> t.unit == s.unit && t.pending == s.pending && t.replies.Keys == s.replies.Keys + {msg})
      && (!Busy(s) ==> t.pending in {None, Some(msg)})
      && (!Busy(s) ==> forall m :: m in t.replies ==> m in s.replies || m == msg || s.pending == Some(m))
  {
    hide ProcessFreeze;
    if Busy(s) { FreezeRefused(s, msg); } else { FreezeTaken(s, msg); }
  }

  lemma FreezeRefused(s: State, msg: nat)
    requires s.inbox != [] && Busy(s)
    ensures ProcessFreeze(s, msg) == s.(inbox := s.inbox[1..], replies := s.replies[msg := Ealready])
  {
    hide Answer;
  }

  lemma FreezeTaken(s: State, msg: nat)
    requires s.inbox != [] && !Busy(s)
    ensures var t := ProcessFreeze(s, msg);
      && t.inbox == s.inbox[1..] && t.queues == s.queues && t.killall == s.killall && t.inotify == s.inotify
      && s.replies.Keys <= t.replies.Keys && t.pending in {None, Some(msg)}
      && forall m :: m in t.replies ==> m in s.replies || m == msg || s.pending == Some(m)
  {
    hide Busy;
  }

  /** A thaw call is answered, or parked with the kernel's report under way. */
  lemma ThawEffect(s: State, msg: nat, sc: Scenario)
    requires s.inbox != []
    ensures var t := ProcessThaw(s, msg, sc);
      && t.inbox == s.inbox[1..] && t.queues == s.queues && t.killall == s.killall && s.replies.Keys <= t.replies.Keys
      && (msg in t.replies || t.pending == Some(msg))
      && (|| (t.pending == s.pending && t.unit == s.unit && t.inotify == s.inotify)
          || t.pending == None || (t.pending == Some(msg) && t.unit == Thawing && t.inotify))
      && (s.pending.Some? ==> t.pending == s.pending || s.pending.value in t.replies)
  {
    hide ProcessThaw;
    if sc.thawError || s.unit.Thawing? { ThawTurnedDown(s, msg, sc); } else { ThawTaken(s, msg, sc); }
  }

  lemma ThawTurnedDown(s: State, msg: nat, sc: Scenario)
    requires s.inbox != [] && (sc.thawError || s.unit.Thawing?)
    ensures ProcessThaw(s, msg, sc) ==
      s.(inbox := s.inbox[1..], replies := s.replies[msg := if sc.thawError then Error else Ealready])
  {
    hide Answer;
  }

  lemma ThawTaken(s: State, msg: nat, sc: Scenario)
    requires s.inbox != [] && !sc.thawError && !s.unit.Thawing?
    ensures var t := ProcessThaw(s, msg, sc);
      && t.inbox == s.inbox[1..] && t.queues == s.queues && t.killall == s.killall && s.replies.Keys <= t.replies.Keys
      && (if s.kz then t.pending == Some(msg) && t.unit == Thawing && t.inotify else t.pending == None && msg in t.replies)
      && (s.pending.Some? ==> s.pending.value in t.replies)
  {
  }

  lemma ThawActs(s: State, msg: nat, sc: Scenario)
    requires s.inbox != []
    ensures SystemdActs(s, ProcessThaw(s, msg, sc))
  {
    hide SystemdActs, ProcessThaw;
    if sc.thawError || s.unit.Thawing? || !s.kz {
      ThawAnswers(s, msg, sc);
    } else {
      ThawParks(s, msg, sc);
    }
  }

  lemma ThawAnswers(s: State, msg: nat, sc: Scenario)
    requires s.inbox != [] && (sc.thawError || s.unit.Thawing? || !s.kz)
    ensures SystemdActs(s, ProcessThaw(s, msg, sc))
  {
    hide Answer;
  }

  lemma ThawParks(s: State, msg: nat, sc: Scenario)
    requires s.inbox != [] && !sc.thawError && !s.unit.Thawing? && s.kz
    ensures SystemdActs(s, ProcessThaw(s, msg, sc))
  {
    hide Answer;
  }

  /** The kernel's report answers what is parked, if the unit waits for it. */
  lemma EventsEffect(s: State)
    ensures var t := SystemdEvents(s);
      && t.inbox == s.inbox && t.queues == s.queues && t.killall == s.killall && !t.inotify
      && (if Busy(s) then t.pending == None && t.replies == Answer(s.replies, s.pending, Ok)
          else t.pending == s.pending && t.unit == s.unit && t.replies == s.replies)
  {
    hide Answer, Busy;
  }

  lemma EventsAct(s: State)
    ensures SystemdActs(s, SystemdEvents(s))
  {
    hide Answer, Busy;
  }

  /** The kernel's report answers the parked call. */
  lemma EventsAnswer(s: State)
    requires s.inotify
    ensures var t := SystemdEvents(s);
      && (ThawHeld(s) && s.msgs == [Freeze, Thaw] ==> Thawed(t))
      && (Held(s) && s.replies == map[] ==> FrozenStill(t) && t.replies == map[FREEZE := Ok])
      && (Held(s) && s.replies == map[THAW := Error] ==>
        FrozenStill(t) && t.replies == map[FREEZE := Ok, THAW := Error])
  {
    var t := SystemdEvents(s);
    if ThawHeld(s) && s.msgs == [Freeze, Thaw] {
      var r :| s.replies == map[FREEZE := r] && FreezeAnswer(s, r);
      assert t.replies == map[FREEZE := r, THAW := Ok];
    }
  }

  /** A thaw that is not refused is parked until the kernel reports, or answered at once. */
  lemma ThawProcessed(s: State, sc: Scenario)
    requires !sc.thawError && s.inbox == [THAW] && s.msgs == [Freeze, Thaw] && FreezeSeen(s)
    ensures var e := SystemdProcess(s, sc);
      && e.next.inbox == []
      && (ThawHeld(e.next) || Thawed(e.next))
  {
    var t := SystemdProcess(s, sc).next;
    assert s.inbox[1..] == [];
    if s.kz {
      var r := if Held(s) then Cancelled else Ok;
      assert t.replies == map[FREEZE := r];
      assert FreezeAnswer(t, r);
      assert ThawHeld(t);
    } else {
      assert t.replies == map[FREEZE := Cancelled, THAW := Ok];
      assert Thawed(t);
    }
  }
}
