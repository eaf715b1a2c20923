/** The freeze/kill/thaw transition system: kernel freezer, D-Bus queues, systemd, and four stop designs. */
module FreezeModel {
  import opened Options
  import opened Transitions

  datatype Design = HandlerScoped | DetachedTimeoutThaw | OwnerOrderedThaw | OwnerReconciled

  datatype Scenario = Scenario(
    stuck: bool,        // the kernel cannot freeze until a file-system read comes back
    release: bool,      // and that read may come back
    lockWaiter: bool,   // someone else queues for the lock, so a late handler is dropped there
    getpidsFail: bool,  // the processes cannot be listed, so none is killed
    thawError: bool,    // every thaw is refused
    systemdAlive: bool, // otherwise nothing is ever processed
    fifo: bool,         // a connection's messages arrive in the order sent
    reuse: bool)        // the unit may be taken over once the design lets go of it

  datatype Op = Freeze | Thaw
  datatype Reply = Ok | Ealready | Cancelled | Error
  datatype UnitState = Running | Freezing | Frozen | Thawing
  datatype Outcome = Dropped | ErrorReturned | Completed | Aborted | AbortedBeforeSubmit
  datatype Host = HostOk | HostError | HostDeadline | HostOwner | HostDeadlineOwnerRetained
  datatype Pc = Pc(n: nat) | Finished | Unresolved
  datatype Kind = LateOp | SuccessorTouched | StrandedFreeze | DishonestSuccess | FalseTerminal | NotTerminal

  /** Program counters: the RPC handler, the generation owner, the detached freeze helper. */
  datatype Actors = Actors(h: Pc, o: Option<Pc>, f: Option<Pc>)
  /** Message numbers of the calls sent, and the connections the designs keep. */
  datatype Vars = Vars(freeze: Option<nat>, thaw: Option<nat>, fconn: Option<nat>, oconn: Option<nat>)

  /** Message m is `msgs[m - 1]`; connection c is `queues[c - 1]`. `kf`: cgroup.freeze; `kz`: the kernel's state. */
  datatype State = State(
    kf: bool, kz: bool, stuck: bool, unit: UnitState, pending: Option<nat>, inbox: seq<nat>, inotify: bool,
    queues: seq<seq<nat>>, msgs: seq<Op>, replies: map<nat, Reply>, deadline: bool, killall: nat,
    terminal: Option<Outcome>, host: Option<Host>, successor: bool, vars: Vars, pcs: Actors)

  datatype Label =
    | HeldRequestAnswered | KernelFrozen | Deliver(msg: nat, conn: nat) | Process(msg: nat, op: Op)
    | CgroupEvents | DeadlinePassed | AdmitSuccessor
    | HDropped | HLock | HSendFreeze | HFreezeReturned | HGetPidsFailed | HKillAll | HSendThaw | HThawReturned
    | HSpawn | HFreezeResult | HLocalTimeout | HKillThaw | HDiscard | FConnect | FSendFreeze
    | HOwnerFinished | HOwnerRetained
    | OSendFreeze | OFrozenKillThaw | ODeadlineThaw | OThawReply
    | ODeadlineBeforeSubmit | OFrozenThawAnyway | OFrozenKill | OCancelByThaw | OSendThaw | OThawFailed | OFinished

  type Step = Edge<State, Label, Kind>

  function Initial(design: Design, sc: Scenario): State {
    var owner := if design.OwnerOrderedThaw? || design.OwnerReconciled? then Some(Pc(0)) else None;
    State(false, false, sc.stuck, Running, None, [], false, [], [], map[], false, 0, None, None, false,
          Vars(None, None, None, None), Actors(Pc(0), owner, None))
  }

  function ReplyTo(s: State, msg: Option<nat>): Option<Reply> {
    if msg.Some? && msg.value in s.replies then Some(s.replies[msg.value]) else None
  }

  /** The queues after a new connection sends the next message on its own. */
  function OnNewConn(s: State): seq<seq<nat>> {
    s.queues + [[|s.msgs| + 1]]
  }

  /** The queues after connection `conn` sends the next message. */
  function OnConn(s: State, conn: Option<nat>): seq<seq<nat>> {
    if conn.Some? && 1 <= conn.value <= |s.queues| then
      s.queues[conn.value - 1 := s.queues[conn.value - 1] + [|s.msgs| + 1]]
    else s.queues
  }

  function OpOf(s: State, msg: nat): Op {
    if 1 <= msg <= |s.msgs| then s.msgs[msg - 1] else Thaw
  }

  predicate Unanswered(s: State) {
    exists m :: 1 <= m <= |s.msgs| && m !in s.replies
  }

  function FinishFound(s: State, host: Host): seq<Kind> {
    (if Unanswered(s) then [FalseTerminal] else []) +
    (if host == HostOk && (s.kf || s.killall == 0) then [DishonestSuccess] else [])
  }

  /** The generation ends: the first host answer stands. */
  function Finish(s: State, pcs: Actors, outcome: Outcome, host: Host): State {
    s.(terminal := Some(outcome), host := if s.host.None? then Some(host) else s.host, pcs := pcs)
  }

  function GotoH(s: State, pc: Pc): State { s.(pcs := s.pcs.(h := pc)) }
  function GotoO(s: State, pc: Pc): State { s.(pcs := s.pcs.(o := Some(pc))) }

  function KillH(s: State, pc: Pc): State { s.(killall := s.killall + 1, pcs := s.pcs.(h := pc)) }
  function KillO(s: State, pc: Pc): State { s.(killall := s.killall + 1, pcs := s.pcs.(o := Some(pc))) }

  // ---- environment: kernel, D-Bus delivery, systemd v255 ----

  function Answer(replies: map<nat, Reply>, msg: Option<nat>, reply: Reply): map<nat, Reply> {
    if msg.None? then replies else replies[msg.value := reply]
  }

  function ProcessFound(s: State): seq<Kind> {
    (if s.terminal.Some? then [LateOp] else []) + (if s.successor then [SuccessorTouched] else [])
  }

  function Busy(s: State): bool {
    s.unit.Freezing? || s.unit.Thawing?
  }

  /** FreezeUnit: refused while freezing or thawing, else it cancels the pending call and waits for the kernel. */
  function ProcessFreeze(s: State, msg: nat): State
    requires s.inbox != []
  {
    var rest := s.inbox[1..];
    if Busy(s) then s.(inbox := rest, replies := s.replies[msg := Ealready])
    else if s.kz then
      s.(inbox := rest, replies := Answer(s.replies, s.pending, Cancelled)[msg := Ok], unit := Frozen, pending := None)
    else
      s.(inbox := rest, replies := Answer(s.replies, s.pending, Cancelled), unit := Freezing, kf := true,
        pending := Some(msg))
  }

  /** ThawUnit: cancels the pending call and answers at once when the kernel was not frozen. */
  function ProcessThaw(s: State, msg: nat, sc: Scenario): State
    requires s.inbox != []
  {
    var rest := s.inbox[1..];
    if sc.thawError then s.(inbox := rest, replies := s.replies[msg := Error])
    else if s.unit.Thawing? then s.(inbox := rest, replies := s.replies[msg := Ealready])
    else if s.kz then
      s.(inbox := rest, replies := Answer(s.replies, s.pending, Cancelled), unit := Thawing, pending := Some(msg),
         kf := false, kz := false, inotify := true)
    else
      s.(inbox := rest, replies := Answer(s.replies, s.pending, Cancelled)[msg := Ok], unit := Running, pending := None,
         kf := false, kz := false)
  }

  /** A refused call is answered without touching the unit, so it exhibits nothing. */
  function ProcessKinds(s: State, op: Op, sc: Scenario): seq<Kind> {
    if (if op.Freeze? then Busy(s) else sc.thawError || s.unit.Thawing?) then [] else ProcessFound(s)
  }

  function SystemdProcess(s: State, sc: Scenario): Step
    requires s.inbox != []
  {
    var msg := s.inbox[0];
    var op := OpOf(s, msg);
    var next := if op.Freeze? then ProcessFreeze(s, msg) else ProcessThaw(s, msg, sc);
    Edge(Process(msg, op), next, ProcessKinds(s, op, sc))
  }

  function SystemdEvents(s: State): State {
    if Busy(s) then
      s.(inotify := false, unit := if s.kz then Frozen else Running, pending := None,
         replies := Answer(s.replies, s.pending, Ok))
    else s.(inotify := false)
  }

  function DeliverStep(s: State, c: nat, i: nat): Step
    requires c < |s.queues| && i < |s.queues[c]|
  {
    var q := s.queues[c];
    Edge(Deliver(q[i], c + 1), s.(inbox := s.inbox + [q[i]], queues := s.queues[c := q[..i] + q[i + 1..]]), [])
  }

  /** With FIFO only the head of a connection's queue can be delivered, otherwise any message of it. */
  function Deliverable(s: State, sc: Scenario, c: nat): nat
    requires c < |s.queues|
  {
    if sc.fifo && |s.queues[c]| > 1 then 1 else |s.queues[c]|
  }

  function DeliverFrom(s: State, sc: Scenario, c: nat, i: nat): (r: seq<Step>)
    requires c < |s.queues| && i <= Deliverable(s, sc, c)
    decreases Deliverable(s, sc, c) - i
  {
    if i == Deliverable(s, sc, c) then [] else [DeliverStep(s, c, i)] + DeliverFrom(s, sc, c, i + 1)
  }

  function Deliveries(s: State, sc: Scenario, c: nat): seq<Step>
    requires c <= |s.queues|
    decreases |s.queues| - c
  {
    if c == |s.queues| then [] else DeliverFrom(s, sc, c, 0) + Deliveries(s, sc, c + 1)
  }

  function When(enabled: bool, step: Step): seq<Step> {
    if enabled then [step] else []
  }

  /** Unsafe designs admit a successor once the handler is gone, owners once their generation finished. */
  predicate SuccessorAllowed(s: State) {
    if s.pcs.o.Some? then s.terminal.Some? else s.host.Some?
  }

  function KernelSteps(s: State, sc: Scenario): seq<Step> {
    When(s.stuck && sc.release, Edge(HeldRequestAnswered, s.(stuck := false), [])) +
    When(s.kf && !s.kz && !s.stuck, Edge(KernelFrozen, s.(kz := true, inotify := true), []))
  }

  function SystemdSteps(s: State, sc: Scenario): seq<Step> {
    (if sc.systemdAlive && s.inbox != [] then [SystemdProcess(s, sc)] else []) +
    When(sc.systemdAlive && s.inotify, Edge(CgroupEvents, SystemdEvents(s), []))
  }

  function OutsideSteps(s: State, sc: Scenario): seq<Step> {
    When(!s.deadline && s.terminal.None?, Edge(DeadlinePassed, s.(deadline := true), [])) +
    When(sc.reuse && !s.successor && SuccessorAllowed(s), Edge(AdmitSuccessor, s.(successor := true), []))
  }

  function Environment(s: State, sc: Scenario): seq<Step> {
    KernelSteps(s, sc) + Deliveries(s, sc, 0) + SystemdSteps(s, sc) + OutsideSteps(s, sc)
  }

  // ---- designs ----

  function FinishH(l: Label, s: State, outcome: Outcome, host: Host): Step {
    Edge(l, Finish(s, s.pcs.(h := Finished), outcome, host), FinishFound(s, host))
  }

  function Lock(s: State, sc: Scenario, next: nat): Step {
    if s.deadline && sc.lockWaiter then FinishH(HDropped, s, Dropped, HostDeadline)
    else Edge(HLock, GotoH(s, Pc(next)), [])
  }

  function SendFreezeH(s: State): State {
    s.(queues := OnNewConn(s), msgs := s.msgs + [Freeze], vars := s.vars.(freeze := Some(|s.msgs| + 1)),
       pcs := s.pcs.(h := Pc(2)))
  }

  function SendThawH(s: State, killed: nat, next: nat): State {
    s.(killall := killed, queues := OnNewConn(s), msgs := s.msgs + [Thaw], vars := s.vars.(thaw := Some(|s.msgs| + 1)),
       pcs := s.pcs.(h := Pc(next)))
  }

  function HandlerScopedSteps(s: State, sc: Scenario): seq<Step> {
    match s.pcs.h
    case Pc(0) => [Lock(s, sc, 1)]
    case Pc(1) => [Edge(HSendFreeze, SendFreezeH(s), [])]
    case Pc(2) => When(ReplyTo(s, s.vars.freeze).Some?, Edge(HFreezeReturned, GotoH(s, Pc(3)), []))
    case Pc(3) => [Lock(s, sc, 4)]
    case Pc(4) =>
      if sc.getpidsFail then [FinishH(HGetPidsFailed, s, ErrorReturned, HostError)]
      else [Edge(HKillAll, KillH(s, Pc(5)), [])]
    case Pc(5) => [Lock(s, sc, 6)]
    case Pc(6) => [Edge(HSendThaw, SendThawH(s, s.killall, 7), [])]
    case Pc(7) => When(ReplyTo(s, s.vars.thaw).Some?, FinishH(HThawReturned, s, Completed, HostOk))
    case _ => []
  }

  function SpawnF(s: State): State {
    s.(pcs := s.pcs.(f := Some(Pc(0)), h := Pc(1)))
  }

  function ConnectF(s: State): State {
    s.(queues := s.queues + [[]], vars := s.vars.(fconn := Some(|s.queues| + 1)), pcs := s.pcs.(f := Some(Pc(1))))
  }

  function SendFreezeF(s: State): State {
    s.(queues := OnConn(s, s.vars.fconn), msgs := s.msgs + [Freeze], vars := s.vars.(freeze := Some(|s.msgs| + 1)),
       pcs := s.pcs.(f := Some(Pc(2))))
  }

  function DetachedHelper(s: State): seq<Step> {
    When(s.pcs.f == Some(Pc(0)), Edge(FConnect, ConnectF(s), [])) +
    When(s.pcs.f == Some(Pc(1)), Edge(FSendFreeze, SendFreezeF(s), []))
  }

  function DetachedSteps(s: State, sc: Scenario): seq<Step> {
    DetachedHelper(s) + DetachedHandler(s, sc)
  }

  function DetachedHandler(s: State, sc: Scenario): seq<Step> {
    match s.pcs.h
    case Pc(0) => [Edge(HSpawn, SpawnF(s), [])]
    case Pc(1) =>
      When(ReplyTo(s, s.vars.freeze).Some?, Edge(HFreezeResult, GotoH(s, Pc(2)), [])) +
      When(s.deadline, Edge(HLocalTimeout, SendThawH(s, s.killall, 10), []))
    case Pc(2) =>
      if sc.getpidsFail then [FinishH(HGetPidsFailed, s, ErrorReturned, HostError)]
      else [Edge(HKillThaw, SendThawH(s, s.killall + 1, 3), [])]
    case Pc(3) => When(ReplyTo(s, s.vars.thaw).Some?, FinishH(HThawReturned, s, Completed, HostOk))
    case Pc(10) => When(ReplyTo(s, s.vars.thaw).Some?, FinishH(HDiscard, s, Aborted, HostError))
    case _ => []
  }

  function ReplyHost(s: State, host: Host): State {
    s.(host := Some(host), pcs := s.pcs.(h := Finished))
  }

  /** The handler of an owner design only awaits the owner; its deadline never ends the generation. */
  function RpcHandler(s: State): seq<Step> {
    if s.pcs.h != Pc(0) then []
    else if s.terminal.Some? then
      [Edge(HOwnerFinished, ReplyHost(s, if s.host.None? then HostOwner else s.host.value), [])]
    else When(s.deadline, Edge(HOwnerRetained, ReplyHost(s, HostDeadlineOwnerRetained), []))
  }

  /** Sends FreezeUnit on a new connection, which only the ordered owner keeps. */
  function SubmitFreeze(s: State, keep: bool): State {
    s.(queues := OnNewConn(s), msgs := s.msgs + [Freeze],
       vars := s.vars.(freeze := Some(|s.msgs| + 1), oconn := if keep then Some(|s.queues| + 1) else s.vars.oconn),
       pcs := s.pcs.(o := Some(Pc(1))))
  }

  function ThawSameConn(s: State, killed: nat): State {
    s.(killall := killed, queues := OnConn(s, s.vars.oconn), msgs := s.msgs + [Thaw],
       vars := s.vars.(thaw := Some(|s.msgs| + 1)), pcs := s.pcs.(o := Some(Pc(2))))
  }

  function ThawNewConn(s: State): State {
    s.(queues := OnNewConn(s), msgs := s.msgs + [Thaw], vars := s.vars.(thaw := Some(|s.msgs| + 1)),
       pcs := s.pcs.(o := Some(Pc(3))))
  }

  /** The owner's own terminal check looks at the freeze call alone. */
  function OrderedFound(s: State, host: Host): seq<Kind> {
    (if host == HostOk && (s.kf || s.killall == 0) then [DishonestSuccess] else []) +
    (if ReplyTo(s, s.vars.freeze).None? then [FalseTerminal] else [])
  }

  function FinishO(l: Label, s: State, outcome: Outcome, host: Host, found: seq<Kind>): Step {
    Edge(l, Finish(s, s.pcs.(o := Some(Finished)), outcome, host), found)
  }

  function OrderedOwner(s: State, sc: Scenario): seq<Step> {
    match s.pcs.o
    case Some(Pc(0)) => [Edge(OSendFreeze, SubmitFreeze(s, true), [])]
    case Some(Pc(1)) =>
      if ReplyTo(s, s.vars.freeze) == Some(Ok) then
        [Edge(OFrozenKillThaw, ThawSameConn(s, if sc.getpidsFail then s.killall else s.killall + 1), [])]
      else When(s.deadline, Edge(ODeadlineThaw, ThawSameConn(s, s.killall), []))
    case Some(Pc(2)) =>
      var ok := ReplyTo(s, s.vars.thaw) == Some(Ok) && s.killall > 0;
      var host := if ok then HostOk else HostError;
      When(ReplyTo(s, s.vars.thaw).Some?,
           FinishO(OThawReply, s, if ok then Completed else Aborted, host, OrderedFound(s, host)))
    case _ => []
  }

  function OrderedSteps(s: State, sc: Scenario): seq<Step> {
    RpcHandler(s) + OrderedOwner(s, sc)
  }

  function ReconciledOwner(s: State, sc: Scenario): seq<Step> {
    match s.pcs.o
    case Some(Pc(0)) =>
      if s.deadline then
        [FinishO(ODeadlineBeforeSubmit, s, AbortedBeforeSubmit, HostError, FinishFound(s, HostError))]
      else [Edge(OSendFreeze, SubmitFreeze(s, false), [])]
    case Some(Pc(1)) =>
      var answered := ReplyTo(s, s.vars.freeze);
      if answered == Some(Ok) then
        if sc.getpidsFail then [Edge(OFrozenThawAnyway, GotoO(s, Pc(2)), [])]
        else [Edge(OFrozenKill, KillO(s, Pc(2)), [])]
      else When(answered.Some? || (s.deadline && s.kf), Edge(OCancelByThaw, GotoO(s, Pc(2)), []))
    case Some(Pc(2)) => [Edge(OSendThaw, ThawNewConn(s), [])]
    case Some(Pc(3)) =>
      if ReplyTo(s, s.vars.thaw).None? then []
      else if ReplyTo(s, s.vars.thaw) != Some(Ok) then [Edge(OThawFailed, GotoO(s, Unresolved), [])]
      else
        var ok := ReplyTo(s, s.vars.freeze) == Some(Ok) && s.killall > 0;
        var host := if ok then HostOk else HostError;
        When(ReplyTo(s, s.vars.freeze).Some? && !s.kf && !s.kz,
             FinishO(OFinished, s, if ok then Completed else Aborted, host, FinishFound(s, host)))
    case _ => []
  }

  function ReconciledSteps(s: State, sc: Scenario): seq<Step> {
    RpcHandler(s) + ReconciledOwner(s, sc)
  }

  function DesignSteps(design: Design, s: State, sc: Scenario): seq<Step> {
    match design
    case HandlerScoped => HandlerScopedSteps(s, sc)
    case DetachedTimeoutThaw => DetachedSteps(s, sc)
    case OwnerOrderedThaw => OrderedSteps(s, sc)
    case OwnerReconciled => ReconciledSteps(s, sc)
  }

  function Successors(design: Design, s: State, sc: Scenario): seq<Step> {
    DesignSteps(design, s, sc) + Environment(s, sc)
  }

  predicate IsOwnerDesign(design: Design) {
    design.OwnerOrderedThaw? || design.OwnerReconciled?
  }

  predicate OwnerLive(design: Design, s: State) {
    IsOwnerDesign(design) && s.pcs.o.Some? && s.pcs.o != Some(Finished)
  }

  function QuiescentViolations(design: Design, s: State, sc: Scenario): seq<Kind> {
    (if s.kf && !OwnerLive(design, s) then [StrandedFreeze] else []) +
    (if sc.systemdAlive && !s.stuck && IsOwnerDesign(design) && s.terminal.None? && !sc.thawError
     then [NotTerminal] else [])
  }

  function Model(design: Design, sc: Scenario): System<State, Label, Kind> {
    System(Initial(design, sc), s => Successors(design, s, sc), s => QuiescentViolations(design, s, sc))
  }

  // ---- reading the step lists ----

  lemma {:induction false} DeliverFromMembers(s: State, sc: Scenario, c: nat, i: nat, e: Step)
    requires c < |s.queues| && i <= Deliverable(s, sc, c)
    ensures e in DeliverFrom(s, sc, c, i) <==> exists j :: i <= j < Deliverable(s, sc, c) && e == DeliverStep(s, c, j)
    decreases Deliverable(s, sc, c) - i
  {
    if i < Deliverable(s, sc, c) {
      DeliverFromMembers(s, sc, c, i + 1, e);
    }
  }

  lemma {:induction false} DeliveriesMembers(s: State, sc: Scenario, c: nat, e: Step)
    requires c <= |s.queues|
    ensures e in Deliveries(s, sc, c) <==>
      exists d, j :: c <= d < |s.queues| && 0 <= j < Deliverable(s, sc, d) && e == DeliverStep(s, d, j)
    decreases |s.queues| - c
  {
    if c < |s.queues| {
      DeliverFromMembers(s, sc, c, 0, e);
      DeliveriesMembers(s, sc, c + 1, e);
    }
  }
}
