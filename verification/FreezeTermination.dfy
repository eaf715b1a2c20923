/** Every run of every design is finite: each step lowers an explicit rank over all actors and the environment. */
module FreezeTermination {
  import opened Options
  import opened Transitions
  import opened FreezeModel
  import opened FreezePhases

  function Bit(b: bool): nat { if b then 1 else 0 }

  function Queued(queues: seq<seq<nat>>): nat {
    if queues == [] then 0 else Queued(queues[..|queues| - 1]) + |queues[|queues| - 1]|
  }

  /** What is still to come from the handler, from the owner, and from the detached helper. */
  function HandlerRank(design: Design, pc: Pc): nat {
    match (design, pc)
    case (HandlerScoped, Pc(n)) => if n < 8 then 5 * (8 - n) else 0
    case (DetachedTimeoutThaw, Pc(n)) => if n == 0 then 30 else if n == 1 then 15 else if n == 2 then 10 else 5
    case (_, Pc(n)) => if n == 0 then 5 else 0
    case _ => 0
  }

  function OwnerRank(pc: Option<Pc>): nat {
    match pc
    case Some(Pc(n)) => if n < 4 then 5 * (4 - n) else 0
    case _ => 0
  }

  function HelperRank(pc: Option<Pc>): nat {
    match pc
    case Some(Pc(n)) => if n < 2 then 5 * (2 - n) else 0
    case _ => 0
  }

  function ActorRank(design: Design, pcs: Actors): nat {
    HandlerRank(design, pcs.h) + OwnerRank(pcs.o) + HelperRank(pcs.f)
  }

  /** What is still to come from the environment, given the calls in flight. */
  function WorldRank(s: State): nat {
    4 * Queued(s.queues) + 3 * |s.inbox| + 2 * Bit(s.kf && !s.kz) + Bit(s.inotify)
    + Bit(s.stuck) + Bit(!s.deadline) + Bit(!s.successor)
  }

  function Rank(design: Design, s: State): nat {
    ActorRank(design, s.pcs) + WorldRank(s)
  }

  lemma {:induction false} QueuedUpdate(queues: seq<seq<nat>>, c: nat, q: seq<nat>)
    requires c < |queues|
    ensures Queued(queues[c := q]) + |queues[c]| == Queued(queues) + |q|
  {
    var n := |queues| - 1;
    if c < n {
      assert queues[c := q][..n] == queues[..n][c := q];
      QueuedUpdate(queues[..n], c, q);
    } else {
      assert queues[c := q][..n] == queues[..n];
    }
  }

  lemma QueuedPush(queues: seq<seq<nat>>, q: seq<nat>)
    ensures Queued(queues + [q]) == Queued(queues) + |q|
  {
    assert (queues + [q])[..|queues|] == queues;
  }

  /** The two states agree on everything the world rank looks at. */
  ghost predicate SameWorld(s: State, t: State) {
    && s.queues == t.queues && s.inbox == t.inbox && s.kf == t.kf && s.kz == t.kz && s.inotify == t.inotify
    && s.stuck == t.stuck && s.deadline == t.deadline && s.successor == t.successor
  }

  ghost predicate SameButQueues(s: State, t: State) {
    SameWorld(s.(queues := t.queues), t)
  }

  lemma SameButQueuesRank(s: State, t: State, n: nat)
    requires SameButQueues(s, t) && Queued(t.queues) <= Queued(s.queues) + n
    ensures WorldRank(t) <= WorldRank(s) + 4 * n
  {
    hide Queued;
  }

  lemma OnNewConnGrows(s: State)
    ensures Queued(OnNewConn(s)) == Queued(s.queues) + 1
  {
    QueuedPush(s.queues, [|s.msgs| + 1]);
  }

  lemma OnConnGrows(s: State, conn: Option<nat>)
    ensures Queued(OnConn(s, conn)) <= Queued(s.queues) + 1
  {
    if conn.Some? && 1 <= conn.value <= |s.queues| {
      QueuedUpdate(s.queues, conn.value - 1, s.queues[conn.value - 1] + [|s.msgs| + 1]);
    }
  }

  /** A design step leaves the world alone except that it may send one call. */
  ghost predicate Sends(s: State, t: State) {
    && SameButQueues(s, t)
    && if |t.msgs| == |s.msgs| then t.queues == s.queues || t.queues == s.queues + [[]]
       else |t.msgs| == |s.msgs| + 1 && (t.queues == OnNewConn(s) || exists c :: t.queues == OnConn(s, c))
  }

  lemma SendsRank(s: State, t: State)
    requires Sends(s, t)
    ensures WorldRank(t) <= WorldRank(s) + 4
  {
    hide WorldRank, SameButQueues, OnConn, OnNewConn;
    QueuedPush(s.queues, []);
    OnNewConnGrows(s);
    if c :| t.queues == OnConn(s, c) {
      OnConnGrows(s, c);
    }
    SameButQueuesRank(s, t, 1);
  }

  /** What each transition does to the world and to the program counters. */
  ghost predicate Moves(s: State, t: State, pcs: Actors) {
    Sends(s, t) && t.pcs == pcs
  }

  lemma GotoMoves(s: State, pc: Pc)
    ensures Moves(s, GotoH(s, pc), s.pcs.(h := pc)) && Moves(s, GotoO(s, pc), s.pcs.(o := Some(pc)))
    ensures Moves(s, KillH(s, pc), s.pcs.(h := pc)) && Moves(s, KillO(s, pc), s.pcs.(o := Some(pc)))
  {
  }

  lemma FinishMoves(s: State, pcs: Actors)
    ensures forall outcome, host :: Moves(s, Finish(s, pcs, outcome, host), pcs)
    ensures forall host :: Moves(s, ReplyHost(s, host), s.pcs.(h := Finished))
  {
  }

  lemma SendMoves(s: State)
    ensures Moves(s, SendFreezeH(s), s.pcs.(h := Pc(2)))
    ensures forall killed, next :: Moves(s, SendThawH(s, killed, next), s.pcs.(h := Pc(next)))
    ensures forall keep :: Moves(s, SubmitFreeze(s, keep), s.pcs.(o := Some(Pc(1))))
    ensures Moves(s, ThawNewConn(s), s.pcs.(o := Some(Pc(3))))
    ensures forall killed :: Moves(s, ThawSameConn(s, killed), s.pcs.(o := Some(Pc(2))))
  {
    hide OnNewConn, OnConn;
  }

  lemma HelperMoves(s: State)
    ensures Moves(s, SpawnF(s), s.pcs.(f := Some(Pc(0)), h := Pc(1)))
    ensures Moves(s, ConnectF(s), s.pcs.(f := Some(Pc(1))))
    ensures Moves(s, SendFreezeF(s), s.pcs.(f := Some(Pc(2))))
  {
    hide OnConn;
  }

  lemma HandlerScopedMoves(s: State, sc: Scenario, e: Step)
    requires e in HandlerScopedSteps(s, sc)
    ensures Sends(s, e.next)
    ensures ActorRank(HandlerScoped, e.next.pcs) + 5 <= ActorRank(HandlerScoped, s.pcs)
  {
    hide FinishFound, Finish, GotoH, KillH, SendFreezeH, SendThawH, Sends, ReplyTo;
    forall pc { GotoMoves(s, pc); }
    FinishMoves(s, s.pcs.(h := Finished));
    SendMoves(s);
  }

  lemma DetachedHandlerMoves(s: State, sc: Scenario, e: Step)
    requires e in DetachedHandler(s, sc)
    ensures Sends(s, e.next)
    ensures ActorRank(DetachedTimeoutThaw, e.next.pcs) + 5 <= ActorRank(DetachedTimeoutThaw, s.pcs)
  {
    hide FinishFound, Finish, GotoH, SendThawH, SpawnF, Sends, ReplyTo;
    GotoMoves(s, Pc(2));
    FinishMoves(s, s.pcs.(h := Finished));
    SendMoves(s);
    HelperMoves(s);
  }

  lemma DetachedHelperMoves(s: State, e: Step)
    requires e in DetachedHelper(s)
    ensures Sends(s, e.next)
    ensures ActorRank(DetachedTimeoutThaw, e.next.pcs) + 5 <= ActorRank(DetachedTimeoutThaw, s.pcs)
  {
    hide ConnectF, SendFreezeF, Sends;
    HelperMoves(s);
  }

  lemma DetachedMoves(s: State, sc: Scenario, e: Step)
    requires e in DetachedSteps(s, sc)
    ensures Sends(s, e.next)
    ensures ActorRank(DetachedTimeoutThaw, e.next.pcs) + 5 <= ActorRank(DetachedTimeoutThaw, s.pcs)
  {
    hide DetachedHelper, DetachedHandler, Sends, ActorRank;
    if e in DetachedHelper(s) {
      DetachedHelperMoves(s, e);
    } else {
      DetachedHandlerMoves(s, sc, e);
    }
  }

  lemma RpcHandlerMoves(design: Design, s: State, e: Step)
    requires IsOwnerDesign(design) && e in RpcHandler(s)
    ensures Sends(s, e.next)
    ensures ActorRank(design, e.next.pcs) + 5 <= ActorRank(design, s.pcs)
  {
    hide ReplyHost, Sends;
    FinishMoves(s, s.pcs);
  }

  lemma OrderedMoves(s: State, sc: Scenario, e: Step)
    requires e in OrderedOwner(s, sc)
    ensures Sends(s, e.next)
    ensures ActorRank(OwnerOrderedThaw, e.next.pcs) + 5 <= ActorRank(OwnerOrderedThaw, s.pcs)
  {
    hide OrderedFound, Finish, SubmitFreeze, ThawSameConn, Sends, ReplyTo;
    FinishMoves(s, s.pcs.(o := Some(Finished)));
    SendMoves(s);
  }

  lemma ReconciledMoves(s: State, sc: Scenario, e: Step)
    requires e in ReconciledOwner(s, sc)
    ensures Sends(s, e.next)
    ensures ActorRank(OwnerReconciled, e.next.pcs) + 5 <= ActorRank(OwnerReconciled, s.pcs)
  {
    hide FinishFound, Finish, SubmitFreeze, ThawNewConn, GotoO, KillO, Sends, ReplyTo;
    GotoMoves(s, Pc(2));
    GotoMoves(s, Unresolved);
    FinishMoves(s, s.pcs.(o := Some(Finished)));
    SendMoves(s);
  }

  lemma DesignSends(design: Design, s: State, sc: Scenario, e: Step)
    requires e in DesignSteps(design, s, sc)
    ensures Sends(s, e.next)
    ensures ActorRank(design, e.next.pcs) + 5 <= ActorRank(design, s.pcs)
  {
    hide HandlerScopedSteps, DetachedSteps, OrderedOwner, ReconciledOwner, RpcHandler, Sends, ActorRank;
    if IsOwnerDesign(design) && e in RpcHandler(s) {
      RpcHandlerMoves(design, s, e);
    } else {
      match design {
        case HandlerScoped => HandlerScopedMoves(s, sc, e);
        case DetachedTimeoutThaw => DetachedMoves(s, sc, e);
        case OwnerOrderedThaw => OrderedMoves(s, sc, e);
        case OwnerReconciled => ReconciledMoves(s, sc, e);
      }
    }
  }

  lemma DesignRank(design: Design, s: State, sc: Scenario, e: Step)
    requires e in DesignSteps(design, s, sc)
    ensures Rank(design, e.next) < Rank(design, s)
  {
    hide DesignSteps, Sends, WorldRank, ActorRank;
    DesignSends(design, s, sc, e);
    SendsRank(s, e.next);
  }

  lemma DeliverRank(s: State, c: nat, i: nat)
    requires c < |s.queues| && i < |s.queues[c]|
    ensures WorldRank(DeliverStep(s, c, i).next) < WorldRank(s) && DeliverStep(s, c, i).next.pcs == s.pcs
  {
    QueuedUpdate(s.queues, c, s.queues[c][..i] + s.queues[c][i + 1..]);
  }

  /** Handling one inbox message costs its weight, whatever it starts in the kernel. */
  ghost predicate Handled(s: State, t: State) {
    && s.inbox != [] && t.inbox == s.inbox[1..] && t.queues == s.queues && t.pcs == s.pcs
    && t.stuck == s.stuck && t.deadline == s.deadline && t.successor == s.successor
    && (t.kf && !t.kz ==> t.inotify == s.inotify)
  }

  lemma HandledRank(s: State, t: State)
    requires Handled(s, t)
    ensures WorldRank(t) < WorldRank(s)
  {
    hide Queued;
  }

  lemma FreezeHandled(s: State, msg: nat)
    requires s.inbox != []
    ensures Handled(s, ProcessFreeze(s, msg))
  {
    hide Answer;
  }

  lemma ThawHandled(s: State, msg: nat, sc: Scenario)
    requires s.inbox != []
    ensures Handled(s, ProcessThaw(s, msg, sc))
  {
    hide Answer;
  }

  lemma ProcessHandled(s: State, sc: Scenario)
    requires s.inbox != []
    ensures Handled(s, SystemdProcess(s, sc).next)
  {
    hide OpOf, ProcessKinds, ProcessFreeze, ProcessThaw, Handled;
    FreezeHandled(s, s.inbox[0]);
    ThawHandled(s, s.inbox[0], sc);
  }

  /** The remaining environment steps clear one bit each. */
  ghost predicate OneBitLess(s: State, t: State) {
    && t.queues == s.queues && t.inbox == s.inbox && t.pcs == s.pcs
    && 2 * Bit(t.kf && !t.kz) + Bit(t.inotify) + Bit(t.stuck) + Bit(!t.deadline) + Bit(!t.successor)
     < 2 * Bit(s.kf && !s.kz) + Bit(s.inotify) + Bit(s.stuck) + Bit(!s.deadline) + Bit(!s.successor)
  }

  lemma OneBitLessRank(s: State, t: State)
    requires OneBitLess(s, t)
    ensures WorldRank(t) < WorldRank(s)
  {
    hide Queued;
  }

  lemma EventsOneBit(s: State)
    requires s.inotify
    ensures OneBitLess(s, SystemdEvents(s))
  {
  }

  lemma EnvironmentRank(s: State, sc: Scenario, e: Step)
    requires EnvironmentStep(s, sc, e)
    ensures WorldRank(e.next) < WorldRank(s) && e.next.pcs == s.pcs
  {
    hide Queued, SystemdProcess, SystemdEvents, DeliverStep, WorldRank;
    if DeliveryStep(s, sc, e) {
      var c, i :| 0 <= c < |s.queues| && 0 <= i < Deliverable(s, sc, c) && e == DeliverStep(s, c, i);
      DeliverRank(s, c, i);
    } else if s.inbox != [] && e == SystemdProcess(s, sc) {
      ProcessHandled(s, sc);
      HandledRank(s, e.next);
    } else {
      if s.inotify && e == Edge(CgroupEvents, SystemdEvents(s), []) {
        EventsOneBit(s);
      }
      OneBitLessRank(s, e.next);
    }
  }

  lemma StepRank(design: Design, s: State, sc: Scenario, e: Step)
    requires e in Successors(design, s, sc)
    ensures Rank(design, e.next) < Rank(design, s)
  {
    hide DesignSteps, Environment, EnvironmentStep, WorldRank, ActorRank;
    EnvironmentCases(s, sc, e);
    if e in Environment(s, sc) {
      EnvironmentRank(s, sc, e);
    } else {
      DesignRank(design, s, sc, e);
    }
  }

  lemma {:induction false} WalkRank(design: Design, sc: Scenario, w: seq<Step>, i: nat)
    requires IsWalk(Model(design, sc), w) && i <= |w|
    ensures Rank(design, At(Model(design, sc), w, i)) + i <= Rank(design, Initial(design, sc))
  {
    hide Rank, Successors;
    if i > 0 {
      WalkRank(design, sc, w, i - 1);
      StepRank(design, At(Model(design, sc), w, i - 1), sc, w[i - 1]);
    }
  }

  /** No run is longer than 43 steps, and no owner run longer than 28. */
  lemma RunsFinite(design: Design, sc: Scenario, w: seq<Step>)
    requires IsWalk(Model(design, sc), w)
    ensures |w| <= 43 && (IsOwnerDesign(design) ==> |w| <= 28)
  {
    WalkRank(design, sc, w, |w|);
  }

  /** Every run goes on to a quiescent state, through states that keep a stable property. */
  lemma {:induction false} LeadsToQuiescence(design: Design, sc: Scenario, w: seq<Step>, stable: State -> bool)
    returns (v: seq<Step>)
    requires IsWalk(Model(design, sc), w) && stable(End(Model(design, sc), w))
    requires forall u, e :: stable(u) && e in Successors(design, u, sc) ==> stable(e.next)
    ensures IsWalk(Model(design, sc), v) && w <= v && stable(End(Model(design, sc), v))
    ensures Successors(design, End(Model(design, sc), v), sc) == []
    decreases Rank(design, End(Model(design, sc), w))
  {
    hide Successors, Rank;
    var s := End(Model(design, sc), w);
    var steps := Successors(design, s, sc);
    if steps == [] {
      v := w;
    } else {
      var e := steps[0];
      WalkExtends(Model(design, sc), w, e);
      StepRank(design, s, sc, e);
      v := LeadsToQuiescence(design, sc, w + [e], stable);
    }
  }
}
