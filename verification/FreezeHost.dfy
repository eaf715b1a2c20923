/** What the caller of a stop is told, in every design, on every run. */
module FreezeHost {
  import opened Options
  import opened Transitions
  import opened FreezeModel
  import opened FreezePhases

  /** The answer that an outcome of the generation stands for. */
  function Told(outcome: Outcome): Host {
    match outcome
    case Completed => HostOk
    case Dropped => HostDeadline
    case ErrorReturned => HostError
    case Aborted => HostError
    case AbortedBeforeSubmit => HostError
  }

  /** The actor that ends the generation. */
  function Ender(design: Design, s: State): Option<Pc> {
    if IsOwnerDesign(design) then s.pcs.o else Some(s.pcs.h)
  }

  /**
   * The caller is told how the generation ended, and before that at most that its deadline passed while an owner goes
   * on. The generation has ended exactly when its actor has finished.
   */
  ghost predicate HostTells(design: Design, s: State) {
    && (s.terminal.Some? <==> Ender(design, s) == Some(Finished))
    && (if s.host == Some(HostDeadlineOwnerRetained) then IsOwnerDesign(design) && s.deadline && s.pcs.h == Finished
        else s.host == if s.terminal.None? then None else Some(Told(s.terminal.value)))
    && (IsOwnerDesign(design) <==> s.pcs.o.Some?)
    && (IsOwnerDesign(design) && s.pcs.h == Finished ==> s.host.Some?)
    && (IsOwnerDesign(design) ==> s.pcs.h in {Pc(0), Finished})
  }

  /** Nothing changes that the caller may be told by, and the actors stand as `pcs` says. */
  ghost predicate GoesOn(s: State, t: State, pcs: Actors) {
    && t.terminal == s.terminal && t.host == s.host && t.deadline == s.deadline && t.successor == s.successor
    && t.pcs == pcs
  }

  lemma HandlerGoesOn(s: State, n: nat, killed: nat)
    ensures GoesOn(s, GotoH(s, Pc(n)), s.pcs.(h := Pc(n))) && GoesOn(s, KillH(s, Pc(n)), s.pcs.(h := Pc(n)))
    ensures GoesOn(s, SendFreezeH(s), s.pcs.(h := Pc(2))) && GoesOn(s, SendThawH(s, killed, n), s.pcs.(h := Pc(n)))
    ensures GoesOn(s, SpawnF(s), s.pcs.(f := Some(Pc(0)), h := Pc(1)))
  {
    hide OnNewConn;
  }

  lemma HelperGoesOn(s: State)
    ensures GoesOn(s, ConnectF(s), s.pcs.(f := Some(Pc(1)))) && GoesOn(s, SendFreezeF(s), s.pcs.(f := Some(Pc(2))))
  {
    hide OnConn;
  }

  lemma OwnerGoesOn(s: State, pc: Pc, keep: bool, killed: nat)
    ensures GoesOn(s, GotoO(s, pc), s.pcs.(o := Some(pc))) && GoesOn(s, KillO(s, pc), s.pcs.(o := Some(pc)))
    ensures GoesOn(s, SubmitFreeze(s, keep), s.pcs.(o := Some(Pc(1))))
    ensures GoesOn(s, ThawSameConn(s, killed), s.pcs.(o := Some(Pc(2))))
    ensures GoesOn(s, ThawNewConn(s), s.pcs.(o := Some(Pc(3))))
  {
    hide OnConn, OnNewConn;
  }

  lemma GoesOnTells(design: Design, s: State, t: State, pcs: Actors)
    requires HostTells(design, s) && GoesOn(s, t, pcs) && s.terminal.None?
    requires if IsOwnerDesign(design) then pcs.h == s.pcs.h && pcs.o.Some? && pcs.o != Some(Finished)
      else pcs.h != Finished && pcs.o.None?
    ensures HostTells(design, t)
  {
  }

  lemma FinishTells(design: Design, s: State, pcs: Actors, outcome: Outcome, host: Host)
    requires HostTells(design, s) && s.terminal.None? && host == Told(outcome)
    requires pcs == if IsOwnerDesign(design) then s.pcs.(o := Some(Finished)) else s.pcs.(h := Finished)
    ensures HostTells(design, Finish(s, pcs, outcome, host))
  {
  }

  lemma LockTells(design: Design, s: State, sc: Scenario, n: nat)
    requires HostTells(design, s) && !IsOwnerDesign(design) && s.terminal.None?
    ensures HostTells(design, Lock(s, sc, n).next)
  {
    hide HostTells, Finish, GotoH, FinishFound;
    Unended(design, s);
    HandlerGoesOn(s, n, 0);
    FinishTells(design, s, s.pcs.(h := Finished), Dropped, HostDeadline);
    GoesOnTells(design, s, GotoH(s, Pc(n)), s.pcs.(h := Pc(n)));
  }

  lemma Unended(design: Design, s: State)
    requires HostTells(design, s)
    ensures s.terminal.Some? <==> Ender(design, s) == Some(Finished)
    ensures IsOwnerDesign(design) <==> s.pcs.o.Some?
  {
  }

  lemma HandlerScopedTells(s: State, sc: Scenario, e: Step)
    requires HostTells(HandlerScoped, s) && e in HandlerScopedSteps(s, sc)
    ensures HostTells(HandlerScoped, e.next)
  {
    hide HostTells, GoesOn, Finish, FinishFound, Lock, GotoH, KillH, SendFreezeH, SendThawH;
    var d := HandlerScoped;
    Unended(d, s);
    match s.pcs.h
    case Pc(n) =>
      HandlerGoesOn(s, n + 1, s.killall);
      LockTells(d, s, sc, n + 1);
      if n == 1 { GoesOnTells(d, s, SendFreezeH(s), s.pcs.(h := Pc(2))); }
      if n == 2 { GoesOnTells(d, s, GotoH(s, Pc(3)), s.pcs.(h := Pc(3))); }
      if n == 4 {
        FinishTells(d, s, s.pcs.(h := Finished), ErrorReturned, HostError);
        GoesOnTells(d, s, KillH(s, Pc(5)), s.pcs.(h := Pc(5)));
      }
      if n == 6 { GoesOnTells(d, s, SendThawH(s, s.killall, 7), s.pcs.(h := Pc(7))); }
      if n == 7 { FinishTells(d, s, s.pcs.(h := Finished), Completed, HostOk); }
    case _ =>
  }

  lemma DetachedTells(s: State, sc: Scenario, e: Step)
    requires HostTells(DetachedTimeoutThaw, s) && e in DetachedHandler(s, sc)
    ensures HostTells(DetachedTimeoutThaw, e.next)
  {
    hide HostTells, GoesOn, Finish, FinishFound, GotoH, SpawnF, SendThawH;
    var d := DetachedTimeoutThaw;
    Unended(d, s);
    match s.pcs.h
    case Pc(n) =>
      HandlerGoesOn(s, n + 1, s.killall + 1);
      HandlerGoesOn(s, 10, s.killall);
      if n == 0 { GoesOnTells(d, s, SpawnF(s), s.pcs.(f := Some(Pc(0)), h := Pc(1))); }
      if n == 1 {
        GoesOnTells(d, s, GotoH(s, Pc(2)), s.pcs.(h := Pc(2)));
        GoesOnTells(d, s, SendThawH(s, s.killall, 10), s.pcs.(h := Pc(10)));
      }
      if n == 2 {
        FinishTells(d, s, s.pcs.(h := Finished), ErrorReturned, HostError);
        GoesOnTells(d, s, SendThawH(s, s.killall + 1, 3), s.pcs.(h := Pc(3)));
      }
      if n == 3 { FinishTells(d, s, s.pcs.(h := Finished), Completed, HostOk); }
      if n == 10 { FinishTells(d, s, s.pcs.(h := Finished), Aborted, HostError); }
    case _ =>
  }

  lemma HelperTells(s: State, e: Step)
    requires HostTells(DetachedTimeoutThaw, s) && e in DetachedHelper(s)
    ensures HostTells(DetachedTimeoutThaw, e.next)
  {
    hide ConnectF, SendFreezeF;
    HelperGoesOn(s);
  }

  lemma RpcTells(design: Design, s: State, e: Step)
    requires IsOwnerDesign(design) && HostTells(design, s) && e in RpcHandler(s)
    ensures HostTells(design, e.next)
  {
  }

  lemma OrderedTells(s: State, sc: Scenario, e: Step)
    requires HostTells(OwnerOrderedThaw, s) && e in OrderedOwner(s, sc)
    ensures HostTells(OwnerOrderedThaw, e.next)
  {
    hide HostTells, GoesOn, Finish, OrderedFound, SubmitFreeze, ThawSameConn;
    var d := OwnerOrderedThaw;
    Unended(d, s);
    match s.pcs.o
    case Some(Pc(n)) =>
      OwnerGoesOn(s, Pc(n), true, s.killall);
      OwnerGoesOn(s, Pc(n), true, s.killall + 1);
      if n == 0 { GoesOnTells(d, s, SubmitFreeze(s, true), s.pcs.(o := Some(Pc(1)))); }
      if n == 1 {
        GoesOnTells(d, s, ThawSameConn(s, s.killall), s.pcs.(o := Some(Pc(2))));
        GoesOnTells(d, s, ThawSameConn(s, s.killall + 1), s.pcs.(o := Some(Pc(2))));
      }
      if n == 2 {
        FinishTells(d, s, s.pcs.(o := Some(Finished)), Completed, HostOk);
        FinishTells(d, s, s.pcs.(o := Some(Finished)), Aborted, HostError);
      }
    case _ =>
  }

  lemma ReconciledTells(s: State, sc: Scenario, e: Step)
    requires HostTells(OwnerReconciled, s) && e in ReconciledOwner(s, sc)
    ensures HostTells(OwnerReconciled, e.next)
  {
    hide HostTells, GoesOn, Finish, FinishFound, SubmitFreeze, ThawNewConn, GotoO, KillO;
    var d := OwnerReconciled;
    Unended(d, s);
    match s.pcs.o
    case Some(Pc(n)) =>
      OwnerGoesOn(s, Pc(2), false, 0);
      OwnerGoesOn(s, Unresolved, false, 0);
      if n == 0 {
        FinishTells(d, s, s.pcs.(o := Some(Finished)), AbortedBeforeSubmit, HostError);
        GoesOnTells(d, s, SubmitFreeze(s, false), s.pcs.(o := Some(Pc(1))));
      }
      if n == 1 {
        GoesOnTells(d, s, GotoO(s, Pc(2)), s.pcs.(o := Some(Pc(2))));
        GoesOnTells(d, s, KillO(s, Pc(2)), s.pcs.(o := Some(Pc(2))));
      }
      if n == 2 { GoesOnTells(d, s, ThawNewConn(s), s.pcs.(o := Some(Pc(3)))); }
      if n == 3 {
        GoesOnTells(d, s, GotoO(s, Unresolved), s.pcs.(o := Some(Unresolved)));
        FinishTells(d, s, s.pcs.(o := Some(Finished)), Completed, HostOk);
        FinishTells(d, s, s.pcs.(o := Some(Finished)), Aborted, HostError);
      }
    case _ =>
  }

  /** The kernel, the bus and systemd tell the caller nothing. */
  lemma EnvironmentGoesOn(s: State, sc: Scenario, e: Step)
    requires EnvironmentStep(s, sc, e)
    ensures GoesOn(s, e.next.(deadline := s.deadline, successor := s.successor), s.pcs)
    ensures e.next.deadline == s.deadline || e.next.deadline
  {
    hide EnvironmentStep, SystemdEvents, SystemdProcess, KernelSteps, OutsideSteps, DeliverStep;
    var o := OriginOf(s, sc, e);
    match o
    case FromKernel => KernelCases(s, sc, e);
    case FromOutside => OutsideCases(s, sc, e);
    case FromQueue(c, i) => DeliveryGoesOn(s, c, i);
    case FromInbox => ProcessActs(s, sc);
    case FromEvents => EventsAct(s);
  }

  lemma DeliveryGoesOn(s: State, c: nat, i: nat)
    requires c < |s.queues| && i < |s.queues[c]|
    ensures GoesOn(s, DeliverStep(s, c, i).next, s.pcs)
  {
  }

  lemma EnvironmentTells(design: Design, s: State, sc: Scenario, e: Step)
    requires HostTells(design, s) && EnvironmentStep(s, sc, e)
    ensures HostTells(design, e.next)
  {
    hide EnvironmentStep;
    EnvironmentGoesOn(s, sc, e);
  }

  lemma StepTells(design: Design, s: State, sc: Scenario, e: Step)
    requires HostTells(design, s) && e in Successors(design, s, sc)
    ensures HostTells(design, e.next)
  {
    hide HostTells, HandlerScopedSteps, DetachedHandler, DetachedHelper, OrderedOwner, ReconciledOwner, RpcHandler;
    hide Environment, EnvironmentStep;
    EnvironmentCases(s, sc, e);
    if e in Environment(s, sc) {
      EnvironmentTells(design, s, sc, e);
    } else if IsOwnerDesign(design) && e in RpcHandler(s) {
      RpcTells(design, s, e);
    } else {
      match design
      case HandlerScoped => HandlerScopedTells(s, sc, e);
      case DetachedTimeoutThaw => if e in DetachedHandler(s, sc) { DetachedTells(s, sc, e); } else { HelperTells(s, e); }
      case OwnerOrderedThaw => OrderedTells(s, sc, e);
      case OwnerReconciled => ReconciledTells(s, sc, e);
    }
  }

  lemma InitialTells(design: Design, sc: Scenario)
    ensures HostTells(design, Initial(design, sc))
  {
  }

  /** On every run of every design the caller is told the truth about the outcome. */
  lemma ReachableTells(design: Design, sc: Scenario, s: State)
    requires Reachable(Model(design, sc), s)
    ensures HostTells(design, s)
  {
    hide HostTells, Successors, Initial;
    InitialTells(design, sc);
    forall u, e | HostTells(design, u) && e in Model(design, sc).succ(u) ensures HostTells(design, e.next) {
      StepTells(design, u, sc, e);
    }
    Invariant(Model(design, sc), u => HostTells(design, u));
  }
}
