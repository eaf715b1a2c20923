/** The container engine as an adversary: what one command may do and answer, and what may happen in between. */
module LabEngine {
  import opened Options
  import opened InterruptFrames

  const OWNER := "kata-lifecycle-lab"

  datatype Container = Container(name: string, run: string, owner: string)

  /** `pending`: the run's create was accepted, or may have been, and can still make its container. */
  datatype World = World(containers: map<string, Container>, pending: bool)

  datatype Command = Create | InspectName | Inspect(id: string) | Ps | Remove(id: string) | Other

  /** What a command reports: `Lost` covers timeouts and results that an exception kept from the caller. */
  datatype Answer =
    | Shown(container: Container) | NoSuch | Listed(ids: seq<string>) | Created(id: string) | Conflict
    | Succeeded | Failed | Lost

  datatype Phase = Experiment | Diagnostics | Release | Reconciliation | Cleanup

  datatype Call = Call(phase: Phase, cmd: Command, answer: Answer)

  /** How many calls of each phase raised. */
  datatype Faults = Faults(experiment: nat, diagnostics: nat, release: nat, reconciliation: nat, cleanup: nat)

  const NO_FAULTS := Faults(0, 0, 0, 0, 0)

  function FaultsOf(f: Faults, phase: Phase): nat {
    match phase
    case Experiment => f.experiment
    case Diagnostics => f.diagnostics
    case Release => f.release
    case Reconciliation => f.reconciliation
    case Cleanup => f.cleanup
  }

  function OneMore(f: Faults, phase: Phase): Faults {
    match phase
    case Experiment => f.(experiment := f.experiment + 1)
    case Diagnostics => f.(diagnostics := f.diagnostics + 1)
    case Release => f.(release := f.release + 1)
    case Reconciliation => f.(reconciliation := f.reconciliation + 1)
    case Cleanup => f.(cleanup := f.cleanup + 1)
  }

  predicate AtMost(f: Faults, g: Faults) {
    && f.experiment <= g.experiment && f.diagnostics <= g.diagnostics && f.release <= g.release
    && f.reconciliation <= g.reconciliation && f.cleanup <= g.cleanup
  }

  lemma OneMoreGrows(f: Faults, phase: Phase)
    ensures AtMost(f, OneMore(f, phase)) && AtMost(f, f)
  {
  }

  /** What had happened by finalization: signals and frames, calls, calls that raised, and budgets that were used up. */
  datatype Heard = Heard(events: seq<Event>, calls: seq<Call>, faults: Faults, exhausted: set<Phase>)

  /** Finalization takes diagnostics, reconciles and cleans up; it runs no experiment and releases nothing. */
  predicate Late(phase: Phase) {
    phase in {Diagnostics, Reconciliation, Cleanup}
  }

  predicate OnlyLate(calls: seq<Call>) {
    forall k :: 0 <= k < |calls| ==> Late(calls[k].phase)
  }

  /** How many calls were begun. */
  function Opens(events: seq<Event>): nat {
    if events == [] then 0 else Opens(events[..|events| - 1]) + if events[|events| - 1].Open? then 1 else 0
  }

  /** A signal came before some call was over. */
  predicate Overdue(events: seq<Event>) {
    exists i, j :: 0 <= i < j < |events| && events[i].Signal? && events[j].Close?
  }

  /** No experiment command is sent after a call by whose end a signal had arrived. */
  predicate Prompt(log: seq<Call>, events: seq<Event>) {
    forall p :: 0 <= p < |events| && events[p].Open? && IsExperiment(log, Opens(events[..p])) ==> !Overdue(events[..p])
  }

  predicate IsExperiment(log: seq<Call>, k: nat) {
    k < |log| && log[k].phase == Experiment
  }

  /** Every call was begun in turn and the experiment promptly stopped; since `heard`, only finalization has called. */
  ghost predicate Accounts(log: seq<Call>, depth: nat, events: seq<Event>, heard: Option<Heard>) {
    match heard
    case None => Opens(events) + 1 == |log| + depth && Prompt(log, events)
    case Some(h) =>
      && h.calls <= log && OnlyLate(log[|h.calls|..])
      && Opens(h.events) == |h.calls| && Prompt(h.calls, h.events)
  }

  lemma {:induction false} OpensGrow(events: seq<Event>, i: nat, j: nat)
    requires i < j <= |events| && events[i].Open?
    ensures Opens(events[..i]) < Opens(events[..j])
  {
    assert events[..j][..j - 1] == events[..j - 1];
    if i < j - 1 { OpensGrow(events, i, j - 1); }
  }

  lemma AccountsNote(log: seq<Call>, depth: nat, events: seq<Event>, heard: Option<Heard>, e: Event)
    requires Accounts(log, depth, events, heard) && depth > 0 && !e.Close?
    ensures Accounts(log, if e.Open? then depth + 1 else depth, events + [e], heard)
  {
    hide Overdue;
    var more := events + [e];
    assert more[..|events|] == events;
    assert forall p :: 0 <= p < |events| ==> more[..p] == events[..p] && more[p] == events[p];
  }

  /** A call that was begun at `p` is over. */
  lemma AccountsClose(log: seq<Call>, events: seq<Event>, heard: Option<Heard>, c: Call, p: nat)
    requires Accounts(log, 2, events, heard)
    requires heard.Some? ==> Late(c.phase)
    requires heard.None? ==>
      p < |events| && events[p].Open? && Opens(events[..p]) == |log| &&
        (c.phase == Experiment ==> !Overdue(events[..p]))
    ensures Accounts(log + [c], 1, events + [Close], heard)
  {
    hide Overdue;
    var more, calls := events + [Close], log + [c];
    assert more[..|events|] == events;
    match heard
    case None =>
      forall q | 0 <= q < |more| && more[q].Open? && IsExperiment(calls, Opens(more[..q]))
        ensures !Overdue(more[..q])
      {
        assert more[..q] == events[..q] && more[q] == events[q];
        if p < q { OpensGrow(events, p, q); }
        if q < p { OpensGrow(events, q, p); }
      }
    case Some(h) =>
      assert calls[|h.calls|..] == log[|h.calls|..] + [c];
  }

  lemma NotOverdue(before: seq<Event>, after: seq<Event>)
    requires !HasSignal(before) && before <= after && forall j :: |before| <= j < |after| ==> after[j].Signal?
    ensures !Overdue(after)
  {
    assert forall j :: 0 <= j < |before| ==> after[j] == before[j];
  }

  datatype Raised = Returned | Refusal | Interruption | Fault

  /** A container ID as the engine prints it: 64 lower-case hexadecimal digits. */
  predicate ValidId(s: string) {
    |s| == 64 && forall i :: 0 <= i < |s| ==> '0' <= s[i] <= '9' || 'a' <= s[i] <= 'f'
  }

  /** Each of an ID's 64 characters is one of sixteen. */
  lemma ValidIdExactly(s: string)
    ensures ValidId(s) <==>
      && |s| == 64
      && forall i :: 0 <= i < |s| ==>
           s[i] in {'0', '1', '2', '3', '4', '5', '6', '7', '8', '9', 'a', 'b', 'c', 'd', 'e', 'f'}
  {
  }

  /** The containers carrying a run's label. Labels are fixed at creation, so these are the ones its create made. */
  function Ours(run: string, w: World): set<string> {
    set id | id in w.containers && w.containers[id].run == run
  }

  /** One create makes at most one container: once a labelled one exists, no create is pending. */
  predicate Sane(run: string, w: World) {
    Ours(run, w) != {} ==> !w.pending
  }

  /** What may happen between two commands: a labelled container comes only from a pending create. */
  predicate Evolves(run: string, w: World, v: World) {
    && Sane(run, v)
    && (v.pending ==> w.pending)
    && (forall id :: id in v.containers && id in w.containers ==> v.containers[id].run == w.containers[id].run)
    && (forall id :: id in Ours(run, v) ==> w.pending || id in Ours(run, w))
  }

  /**
   * One command, from the world it meets to the world it leaves. A Conflict answer means that nothing was created;
   * a removal touches the named container only, and whatever it answers may have left it; any command may fail or lose
   * its answer.
   */
  predicate Acts(run: string, cmd: Command, w: World, v: World, a: Answer) {
    match cmd
    case Create => if a == Conflict then v == w else Evolves(run, w.(pending := true), v)
    case Remove(id) =>
      && v.pending == w.pending
      && (v.containers == w.containers || v.containers == w.containers - {id})
    case Inspect(id) =>
      && v == w
      && (a.Shown? ==> id in w.containers && w.containers[id] == a.container)
      && (a == NoSuch ==> id !in w.containers)
    case Ps => v == w && (a.Listed? ==> (set id | id in a.ids) == Ours(run, w))
    case InspectName => v == w
    case Other => v == w
  }

  /** A labelled container comes only from a pending create, so a settled run's containers stay away. */
  predicate Fenced(run: string, w: World) {
    !w.pending && Ours(run, w) == {}
  }

  predicate IsHistory(run: string, ws: seq<World>) {
    forall i :: 0 <= i < |ws| - 1 ==> Evolves(run, ws[i], ws[i + 1])
  }

  /** Once fenced, no container of the run ever appears again, whatever anyone does. */
  lemma {:induction false} FencedForever(run: string, ws: seq<World>, k: nat)
    requires IsHistory(run, ws) && k < |ws| && Fenced(run, ws[0])
    ensures Fenced(run, ws[k])
  {
    if k > 0 {
      FencedForever(run, ws, k - 1);
      assert Evolves(run, ws[k - 1], ws[k - 1 + 1]);
    }
  }

  /** An empty inventory does not fence a pending create: its container may appear next. */
  lemma PendingMayAppear(run: string, w: World, id: string, name: string) returns (v: World)
    requires w.pending && Ours(run, w) == {} && id !in w.containers
    ensures Evolves(run, w, v) && Ours(run, v) == {id}
  {
    v := World(w.containers[id := Container(name, run, OWNER)], false);
    assert forall x :: x in Ours(run, v) ==> x == id || x in Ours(run, w);
  }

  /** Nor does any answer but a conflict: after it the create may be pending and the inventory empty. */
  lemma CreateMayLinger(run: string, w: World, a: Answer) returns (v: World)
    requires a != Conflict && Ours(run, w) == {}
    ensures Acts(run, Create, w, v, a) && v.pending && Ours(run, v) == {}
  {
    v := w.(pending := true);
  }

  /** The calls of the final cleanup, in order. */
  function Cleanups(log: seq<Call>): seq<Call> {
    if log == [] then [] else
    var last := log[|log| - 1];
    Cleanups(log[..|log| - 1]) + if last.phase == Cleanup then [last] else []
  }

  /** A create was sent. */
  predicate Sent(log: seq<Call>) {
    exists i :: 0 <= i < |log| && log[i].cmd == Create
  }

  /** A create was sent and answered with a name conflict. */
  predicate Rejected(log: seq<Call>) {
    exists i :: 0 <= i < |log| && log[i].cmd == Create && log[i].answer == Conflict
  }

  /** Container `id` was shown to carry this run's name and both its labels. */
  predicate Confirms(mine: Container, log: seq<Call>, id: string) {
    exists i :: 0 <= i < |log| && log[i].cmd == Inspect(id) && log[i].answer == Shown(mine)
  }

  /** Nothing of this run can be pending any more, judging by the answers alone. */
  ghost predicate Settled(mine: Container, log: seq<Call>) {
    !Sent(log) || Rejected(log) || exists id :: Confirms(mine, log, id)
  }

  /** A removal comes only right after its exact confirmation, and one create after both freeness checks. */
  predicate Allowed(mine: Container, before: seq<Call>, c: Call) {
    match c.cmd
    case Remove(id) => before != [] && before[|before| - 1] == Call(Cleanup, Inspect(id), Shown(mine))
    case Create =>
      && !Sent(before)
      && |before| >= 2
      && before[|before| - 1] == Call(Experiment, Ps, Listed([]))
      && before[|before| - 2] == Call(Experiment, InspectName, NoSuch)
    case _ => true
  }

  predicate Disciplined(mine: Container, log: seq<Call>) {
    forall i :: 0 <= i < |log| ==> Allowed(mine, log[..i], log[i])
  }

  lemma NothingLogged()
    ensures Cleanups([]) == [] && !Sent([])
  {
  }

  lemma CleanupsGrow(log: seq<Call>, c: Call)
    ensures Cleanups(log + [c]) == Cleanups(log) + if c.phase == Cleanup then [c] else []
  {
    var more := log + [c];
    assert more[..|more| - 1] == log;
  }

  lemma SentGrows(log: seq<Call>, c: Call)
    ensures Sent(log + [c]) <==> Sent(log) || c.cmd == Create
    ensures Rejected(log + [c]) <==> Rejected(log) || (c.cmd == Create && c.answer == Conflict)
  {
    var more := log + [c];
    assert more[|log|] == c;
    assert forall i :: 0 <= i < |log| ==> more[i] == log[i];
  }

  lemma ConfirmsGrow(mine: Container, log: seq<Call>, c: Call, id: string)
    ensures Confirms(mine, log + [c], id) <==>
      Confirms(mine, log, id) || (c.cmd == Inspect(id) && c.answer == Shown(mine))
  {
    var more := log + [c];
    assert more[|log|] == c;
    assert forall i :: 0 <= i < |log| ==> more[i] == log[i];
  }

  lemma DisciplineGrows(mine: Container, log: seq<Call>, c: Call)
    requires Disciplined(mine, log) && Allowed(mine, log, c)
    ensures Disciplined(mine, log + [c])
  {
    hide Allowed;
    var more := log + [c];
    forall i | 0 <= i < |more| ensures Allowed(mine, more[..i], more[i]) {
      assert more[..i] == log[..i] && log[..|log|] == log;
    }
  }

  lemma LogGrows(mine: Container, log: seq<Call>, c: Call)
    ensures Cleanups(log + [c]) == Cleanups(log) + if c.phase == Cleanup then [c] else []
    ensures Sent(log + [c]) <==> Sent(log) || c.cmd == Create
    ensures Rejected(log + [c]) <==> Rejected(log) || (c.cmd == Create && c.answer == Conflict)
    ensures forall id :: Confirms(mine, log + [c], id) <==>
      Confirms(mine, log, id) || (c.cmd == Inspect(id) && c.answer == Shown(mine))
  {
    hide Cleanups, Sent, Rejected, Confirms;
    CleanupsGrow(log, c);
    SentGrows(log, c);
    forall id
      ensures Confirms(mine, log + [c], id) <==>
        Confirms(mine, log, id) || (c.cmd == Inspect(id) && c.answer == Shown(mine))
    {
      ConfirmsGrow(mine, log, c, id);
    }
  }

  /** What a caller knows of a command sent at `w`: others moved first, then it took effect, leaving `v`. */
  ghost predicate Meets(run: string, cmd: Command, w: World, v: World, a: Answer) {
    exists met :: Evolves(run, w, met) && Acts(run, cmd, met, v, a)
  }

  lemma Meeting(run: string, cmd: Command, w: World, met: World, v: World, a: Answer)
    requires Evolves(run, w, met) && Acts(run, cmd, met, v, a)
    requires cmd == Create ==> Fenced(run, met)
    ensures Meets(run, cmd, w, v, a) && Meets(run, cmd, w, v, Lost)
  {
    assert Acts(run, cmd, met, v, Lost);
  }

  /** What each answer proves about the run's own containers. */
  lemma AnswersTell(run: string, cmd: Command, w: World, v: World, a: Answer)
    requires Sane(run, w) && Meets(run, cmd, w, v, a)
    ensures Sane(run, v)
    ensures !w.pending && (cmd != Create || a == Conflict) ==> !v.pending
    ensures cmd.Inspect? && a.Shown? && a.container.run == run ==> !v.pending
    ensures cmd == Ps && a.Listed? ==> Ours(run, v) == set id | id in a.ids
    ensures Fenced(run, w) && cmd != Create ==> Fenced(run, v)
    ensures cmd.Inspect? && a == NoSuch ==> cmd.id !in v.containers
  {
    var met :| Evolves(run, w, met) && Acts(run, cmd, met, v, a);
    if cmd.Inspect? && a.Shown? && a.container.run == run { assert cmd.id in Ours(run, v); }
    if cmd.Remove? { assert Ours(run, v) <= Ours(run, met); }
    if Fenced(run, w) { assert Ours(run, met) == {}; }
  }

  /** The command line in front of the engine, with the frames of deferred signals. */
  class Engine {
    const run: string
    const mine: Container
    var world: World
    var log: seq<Call>
    var frames: seq<Frame>
    ghost var base: seq<Frame>
    ghost var events: seq<Event>
    ghost var heard: Option<Heard>
    var exhausted: set<Phase>
    ghost var faults: Faults

    constructor (run: string, name: string, world: World)
      requires Sane(run, world) && !world.pending
      ensures Valid() && this.run == run && mine == Container(name, run, OWNER) && this.world == world
      ensures log == [] && frames == base == [Frame(None, false)] && events == [] && heard == None && faults == NO_FAULTS
    {
      this.run, mine, this.world, log := run, Container(name, run, OWNER), world, [];
      frames, base, events, heard := [Frame(None, false)], [Frame(None, false)], [], None;
      exhausted, faults := {}, NO_FAULTS;
    }

    /**
     * The frames are what the recorded signals and frames leave of the run's own frame, listening or ignoring, and the
     * calls made are those that may be made under them.
     */
    ghost predicate Valid()
      reads this
    {
      && mine.run == run
      && Sane(run, world)
      && base == [Frame(None, heard.Some?)]
      && Accounts(log, |frames|, events, heard)
      && frames != []
      && After(base, events) == Some(frames)
    }

    /** No call of this phase raised, and its budget is not used up. */
    twostate predicate Calm(phase: Phase)
      reads this
    {
      FaultsOf(faults, phase) == FaultsOf(old(faults), phase) && phase !in exhausted
    }

    /** A refusal comes only from a budget that is used up, and anything else that is raised counts as a fault. */
    twostate predicate Counted(phase: Phase, raised: Raised)
      reads this
    {
      && (raised == Refusal ==> phase in exhausted)
      && (raised in {Returned, Refusal} ==> faults == old(faults))
      && (raised !in {Returned, Refusal} ==> faults == OneMore(old(faults), phase))
    }

    /** Whether a command of this phase may still be sent. */
    ghost predicate MaySend(phase: Phase)
      reads this
    {
      heard.None? || Late(phase)
    }

    /** Signals only add to the history, and every frame opened since has been closed. */
    twostate predicate Onward()
      reads this
    {
      && Valid() && base == old(base) && heard == old(heard) && old(events) <= events && |frames| == |old(frames)|
      && old(exhausted) <= exhausted && AtMost(old(faults), faults)
    }

    /** A frame that raises holds a signal, so one arrived; while the run's frame ignores signals there is none. */
    lemma NotedWasHeard()
      requires Valid()
      ensures Noted(frames) ==> base == [Frame(None, false)] && HasSignal(events)
      ensures base == [Frame(None, false)] && HasSignal(events) ==> CheckRaises(frames)
    {
      if base == [Frame(None, true)] {
        assert base[0].ignore;
        IgnoredNeverRaises(base, events);
      } else {
        SignalsKept(base, events);
      }
    }

    lemma AllBegunOver()
      requires Valid() && |frames| == 1 && heard.None?
      ensures Opens(events) == |log|
    {
    }

    lemma HeardAccounts()
      requires Valid() && heard.Some?
      ensures heard.value.calls <= log && OnlyLate(log[|heard.value.calls|..])
      ensures Opens(heard.value.events) == |heard.value.calls| && Prompt(heard.value.calls, heard.value.events)
    {
    }

    /** Any number of signals arrive. */
    method Arrive()
      requires Valid()
      modifies this`frames, this`events
      ensures Onward()
      ensures forall j :: |old(events)| <= j < |events| ==> events[j].Signal?
    {
      hide Accounts;
      var n: nat :| true;
      for i := 0 to n
        invariant Onward()
        invariant forall j :: |old(events)| <= j < |events| ==> events[j].Signal?
      {
        var signum: int := *;
        Note(Signal(signum), Handle(frames, signum));
      }
    }

    /** Record a signal or a new frame, and the frames it leaves. */
    method Note(ghost e: Event, now: seq<Frame>)
      requires Valid() && !e.Close?
      requires now == match e case Signal(n) => Handle(frames, n) case Open => Enter(frames)
      modifies this`frames, this`events
      ensures Valid() && frames == now && events == old(events) + [e]
      ensures HasSignal(old(events)) ==> HasSignal(events)
    {
      AfterExtends(base, events, e);
      AccountsNote(log, |frames|, events, heard, e);
      assert forall i :: 0 <= i < |events| ==> (events + [e])[i] == events[i];
      frames, events := now, events + [e];
    }

    /** The run's own frame starts to ignore signals; `held` tells whether one had arrived, and `heard` keeps them. */
    method Shield() returns (held: bool)
      requires Valid() && base == [Frame(None, false)] && |frames| == 1
      modifies this`frames, this`base, this`events, this`heard
      ensures Valid() && frames == base == [Frame(None, true)] && events == []
      ensures held <==> HasSignal(old(events))
      ensures heard == Some(Heard(old(events), log, faults, exhausted))
    {
      BottomHoldsSignal(events);
      held := frames[0].signum.Some?;
      heard := Some(Heard(events, log, faults, exhausted));
      assert log[|log|..] == [];
      frames, base, events := [Frame(None, true)], [Frame(None, true)], [];
    }

    /** Any budgets are used up, and stay so. */
    method PassTime()
      modifies this`exhausted
      ensures old(exhausted) <= exhausted
    {
      var more: set<Phase> := *;
      exhausted := exhausted + more;
    }

    /** Admission of one more command: experiment steps stop at a deferred signal, every phase at its budget. */
    method Remaining(phase: Phase) returns (raised: Raised)
      requires Valid()
      modifies this`frames, this`events, this`exhausted, this`faults
      ensures Onward() && Counted(phase, raised) && (raised == Returned ==> phase !in exhausted)
      ensures raised != Fault
      ensures raised == Interruption <==> phase == Experiment && base == [Frame(None, false)] && HasSignal(events)
    {
      Arrive();
      NotedWasHeard();
      PassTime();
      if phase == Experiment && CheckRaises(frames) {
        faults := OneMore(faults, phase);
        return Interruption;
      }
      return if phase in exhausted then Refusal else Returned;
    }

    /** One command in its own frame; the world moves before it, and the answer is lost when the call raises. */
    method Submit(phase: Phase, cmd: Command) returns (raised: Raised, answer: Answer)
      requires Valid() && Disciplined(mine, log) && Allowed(mine, log, Call(phase, cmd, Lost)) && MaySend(phase)
      requires |frames| == 1 && (phase == Experiment ==> !HasSignal(events))
      requires cmd == Create ==> Fenced(run, world)
      modifies this
      ensures Onward() && Counted(phase, raised)
      ensures log == old(log) + [Call(phase, cmd, answer)] && Disciplined(mine, log)
      ensures Meets(run, cmd, old(world), world, answer)
      ensures raised != Refusal && (raised != Returned ==> answer == Lost)
      ensures raised == Interruption ==> base == [Frame(None, false)] && HasSignal(events)
    {
      hide Meets, Evolves, Acts, Disciplined, After, HasSignal, Sane, Accounts, Overdue, OneMore, AtMost;
      OneMoreGrows(faults, phase);
      ghost var begun := Begin(phase);
      answer := Exchange(cmd);
      raised := Return();
      if raised != Returned { answer, faults := Lost, OneMore(faults, phase); }
      PassTime();
      Record(Call(phase, cmd, answer), begun);
    }

    /** How a command begins: a new frame, with signals before and after. */
    method Begin(phase: Phase) returns (ghost begun: seq<Event>)
      requires Valid() && |frames| == 1 && (phase == Experiment ==> !HasSignal(events))
      modifies this`frames, this`events
      ensures Valid() && |frames| == 2 && old(events) <= begun && begun + [Open] <= events
      ensures heard.None? ==> Opens(begun) == |log| && (phase == Experiment ==> !Overdue(begun))
    {
      hide After, HasSignal, Handle, Sane, Accounts, Overdue;
      Arrive();
      begun := events;
      if phase == Experiment { NotOverdue(old(events), begun); }
      if heard.None? { AllBegunOver(); }
      Note(Open, Enter(frames));
      Arrive();
    }

    /** How a command ends: signals may still arrive, and leaving its frame raises what it noted. */
    method Return() returns (raised: Raised)
      requires Valid()
      modifies this`frames, this`events
      ensures Onward()
      ensures raised != Refusal && (raised == Interruption ==> base == [Frame(None, false)] && HasSignal(events))
      ensures raised == Interruption <==> LeaveRaises(frames)
    {
      hide Accounts, After, HasSignal, Handle, Sane;
      Arrive();
      NotedWasHeard();
      raised := *;
      if LeaveRaises(frames) { raised := Interruption; } else if raised != Returned { raised := Fault; }
    }

    /** The call that was `begun` is over: leave its frame and record it. */
    method Record(c: Call, ghost begun: seq<Event>)
      requires Valid() && Disciplined(mine, log) && Allowed(mine, log, c) && MaySend(c.phase)
      requires |frames| == 2 && begun + [Open] <= events
      requires heard.None? ==> Opens(begun) == |log| && (c.phase == Experiment ==> !Overdue(begun))
      modifies this`frames, this`events, this`log
      ensures Valid() && frames == Leave(old(frames)) && events == old(events) + [Close]
      ensures HasSignal(old(events)) ==> HasSignal(events)
      ensures log == old(log) + [c] && Disciplined(mine, log)
    {
      hide Disciplined, Allowed, Overdue, Accounts, After, HasSignal;
      if HasSignal(events) { StillHeard(events, events + [Close]); }
      AfterExtends(base, events, Close);
      DisciplineGrows(mine, log, c);
      assert events[..|begun|] == begun && events[|begun|] == Open;
      AccountsClose(log, events, heard, c, |begun|);
      frames, events, log := Leave(frames), events + [Close], log + [c];
    }

    /** The engine's side: any move of the world and any answer within the rules. */
    method Exchange(cmd: Command) returns (answer: Answer)
      requires Valid() && (cmd == Create ==> Fenced(run, world))
      modifies this`world
      ensures Valid()
      ensures Meets(run, cmd, old(world), world, answer) && Meets(run, cmd, old(world), world, Lost)
    {
      var met: World := *;
      if !Evolves(run, world, met) { met := world; }
      var next: World := *;
      answer := *;
      if !Acts(run, cmd, met, next, answer) { next, answer := met, Lost; }
      Meeting(run, cmd, world, met, next, answer);
      AnswersTell(run, cmd, world, next, answer);
      world := next;
    }
  }
}
