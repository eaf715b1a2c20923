/** One lab run: create a container, work with it, tear it down, and say by the exit code whether cleanup is certain. */
module LabRun {
  import opened Options
  import opened InterruptFrames
  import opened LabEngine
  import opened LabScript

  datatype Outcome = NeverAttempted | Uncertain | Rejected | Confirmed

  /** What is known of the run's create; `required`: it may still be pending. */
  datatype Creation = Creation(outcome: Outcome, required: bool)

  datatype Guard = NotNeeded | Passed | OwnershipMismatch | UnownedLabelMatch | CreateUnresolved | CleanupUnresolved

  datatype Audit = Audit(labelMatches: Option<seq<string>>, absent: Option<bool>)

  datatype Cleaning = Cleaning(guard: Guard, removed: bool, audit: Option<Audit>)

  datatype Status = Aborted | Complete | Interrupted

  datatype Verdict = Pass | Fail | Inconclusive

  /** The answers that show container `id` confirmed and removed, or absent. */
  predicate RemovedTail(mine: Container, id: string, tail: seq<Call>) {
    || tail == [Call(Cleanup, Inspect(id), Shown(mine)), Call(Cleanup, Remove(id), Succeeded)]
    || tail == [Call(Cleanup, Inspect(id), NoSuch)]
  }

  /** The answers that show nothing left: an empty label listing, and the owned ID gone. */
  function AuditTail(owned: Option<string>): seq<Call> {
    [Call(Cleanup, Ps, Listed([]))] + if owned.Some? then [Call(Cleanup, Inspect(owned.value), NoSuch)] else []
  }

  /** The answers that show a clean end. */
  predicate CleanTail(mine: Container, owned: Option<string>, tail: seq<Call>) {
    var audit := AuditTail(owned);
    && |tail| >= |audit|
    && tail[|tail| - |audit|..] == audit
    && var first := tail[..|tail| - |audit|];
       if owned.Some? then RemovedTail(mine, owned.value, first) else first == []
  }

  lemma ShortTail(mine: Container, owned: Option<string>, tail: seq<Call>)
    ensures owned.Some? && |tail| <= 2 ==> !CleanTail(mine, owned, tail)
    ensures tail == [] ==> !CleanTail(mine, owned, tail)
  {
  }

  lemma TailSplits(mine: Container, owned: Option<string>, tail: seq<Call>, added: seq<Call>)
    requires if owned.Some? then |tail| <= 2 else tail == []
    ensures |added| == |AuditTail(owned)| ==>
      (CleanTail(mine, owned, tail + added) <==>
        added == AuditTail(owned) && (owned.Some? ==> RemovedTail(mine, owned.value, tail)))
    ensures Unfinished(owned, added) ==> !CleanTail(mine, owned, tail + added)
  {
    var all, n := tail + added, |AuditTail(owned)|;
    if |added| == n {
      assert all[|all| - n..] == added && all[..|all| - n] == tail;
    }
    if added != [] { assert all[|all| - 1] == added[|added| - 1]; }
    if |all| >= n { assert all[|all| - n..][n - 1] == all[|all| - 1]; }
    ShortTail(mine, owned, tail);
    assert tail + [] == tail;
  }

  /** No call was made, the last one lost its answer, or it was a listing that an inspection should have followed. */
  predicate Unfinished(owned: Option<string>, tail: seq<Call>) {
    tail == [] || (tail[|tail| - 1].answer == Lost || (owned.Some? && tail[|tail| - 1].cmd == Ps))
  }

  /** The owned container was inspected, and a removal sent exactly when that confirmed it. */
  predicate RemovalTail(mine: Container, id: string, tail: seq<Call>) {
    && tail != [] && Is(tail[0], Cleanup, Inspect(id))
    && if tail[0].answer == Shown(mine) then |tail| == 2 && Is(tail[1], Cleanup, Remove(id)) else |tail| == 1
  }

  predicate AuditShape(owned: Option<string>, added: seq<Call>) {
    && added != [] && Is(added[0], Cleanup, Ps)
    && if owned.Some? then |added| == 2 && Is(added[1], Cleanup, Inspect(owned.value)) else |added| == 1
  }

  /** What the removal's answers say: a guard passes on an exact match or on absence. */
  function RemovalOf(mine: Container, tail: seq<Call>): (Guard, bool)
    requires tail != [] && (tail[0].answer == Shown(mine) ==> |tail| > 1)
  {
    if tail[0].answer == Shown(mine) then (Passed, tail[1].answer == Succeeded)
    else if tail[0].answer == NoSuch then (Passed, true)
    else (OwnershipMismatch, false)
  }

  /** What the audit's answers say: the listing if it is well formed, and whether the owned ID is absent. */
  function AuditOf(owned: Option<string>, added: seq<Call>): Audit
    requires AuditShape(owned, added)
  {
    var a := added[0].answer;
    Audit(if a.Listed? && (forall id :: id in a.ids ==> ValidId(id)) then Some(a.ids) else None,
          Some(owned.Some? ==> added[1].answer == NoSuch))
  }

  /** The audit passes exactly on the answers that show nothing left. */
  lemma AuditExactly(owned: Option<string>, added: seq<Call>)
    requires AuditShape(owned, added)
    ensures |added| == |AuditTail(owned)|
    ensures AuditOf(owned, added) == Audit(Some([]), Some(true)) <==> added == AuditTail(owned)
  {
    assert AuditTail(owned)[0] == Call(Cleanup, Ps, Listed([])) && added[0] == Call(Cleanup, Ps, added[0].answer);
    if owned.Some? {
      assert AuditTail(owned)[1] == Call(Cleanup, Inspect(owned.value), NoSuch);
    }
  }

  /** The record of a cleanup that was made in full. */
  function Account(mine: Container, owned: Option<string>, open: bool, tail: seq<Call>): Cleaning
    requires FullTail(mine, owned, tail)
  {
    var audit := AuditOf(owned, tail[|tail| - (if owned.Some? then 2 else 1)..]);
    if open then Cleaning(CreateUnresolved, false, Some(audit.(absent := None)))
    else if owned.Some? then
      var (guard, removed) := RemovalOf(mine, tail);
      Cleaning(guard, removed, Some(audit))
    else
      var none := audit.labelMatches == Some([]);
      Cleaning(if none then Passed else UnownedLabelMatch, none, Some(audit))
  }

  predicate IsClean(c: Cleaning) {
    c.guard in {Passed, NotNeeded} && c.removed && c.audit == Some(Audit(Some([]), Some(true)))
  }

  /** The record of a full cleanup is clean exactly on the answers of a clean end. */
  lemma AccountClean(mine: Container, owned: Option<string>, open: bool, tail: seq<Call>)
    requires FullTail(mine, owned, tail)
    ensures IsClean(Account(mine, owned, open, tail)) <==> !open && CleanTail(mine, owned, tail)
  {
    var n := if owned.Some? then 2 else 1;
    var first, added := tail[..|tail| - n], tail[|tail| - n..];
    assert tail == first + added;
    AuditExactly(owned, added);
    TailSplits(mine, owned, first, added);
  }

  lemma TailJoins(mine: Container, owned: Option<string>, tail: seq<Call>, added: seq<Call>, open: bool)
    requires AuditShape(owned, added)
    requires if owned.Some? then RemovalTail(mine, owned.value, tail) else tail == []
    ensures FullTail(mine, owned, tail + added)
    ensures var audit := AuditOf(owned, added);
      Account(mine, owned, open, tail + added) ==
        if open then Cleaning(CreateUnresolved, false, Some(audit.(absent := None)))
        else if owned.Some? then Cleaning(RemovalOf(mine, tail).0, RemovalOf(mine, tail).1, Some(audit))
        else Cleaning(if audit.labelMatches == Some([]) then Passed else UnownedLabelMatch,
                      audit.labelMatches == Some([]), Some(audit))
  {
    assert (tail + added)[|tail + added| - |added|..] == added;
  }

  lemma SearchFollows(c: Call, start: seq<Call>, asked: seq<Call>, log: seq<Call>)
    requires start <= asked <= log
    ensures ([c] + log[|start|..])[1 + |asked| - |start|..] == log[|asked|..]
  {
  }

  lemma LateSplits(start: seq<Call>, first: seq<Call>, tail: seq<Call>)
    requires start <= first
    ensures (first + tail)[|start|..] == first[|start|..] + tail
    ensures var late := first[|start|..] + tail;
      |tail| <= |late| && late[|late| - |tail|..] == tail && late[..|late| - |tail|] == first[|start|..]
  {
  }

  /** An open create means that no container is owned. */
  lemma RequiredUnowned(mine: Container, pending: bool, log: seq<Call>, owned: Option<string>, creation: Creation)
    requires Tracks(mine, pending, log, owned, creation)
    ensures creation.required ==> owned.None?
    ensures owned.Some? <==> SomeConfirmed(mine, log)
  {
  }

  function OutcomeOf(owned: Option<string>, log: seq<Call>): Outcome {
    if owned.Some? then Confirmed else if LabEngine.Rejected(log) then Rejected
    else if Sent(log) then Uncertain else NeverAttempted
  }

  /** The run's record agrees with the answers it got; a create that may be pending is an open obligation. */
  ghost predicate Tracks(mine: Container, pending: bool, log: seq<Call>, owned: Option<string>, creation: Creation) {
    && (pending ==> creation.required)
    && (creation.required <==> !Settled(mine, log))
    && (owned.Some? ==> ValidId(owned.value) && Confirms(mine, log, owned.value))
    && (owned.None? ==> forall id :: !Confirms(mine, log, id))
    && (owned.Some? ==> Sent(log))
    && creation.outcome == OutcomeOf(owned, log)
  }

  /** A call that neither creates nor confirms a new ID leaves the record as it is. */
  lemma TracksOn(mine: Container, pending: bool, now: bool, log: seq<Call>, c: Call, owned: Option<string>,
                 creation: Creation)
    requires Tracks(mine, pending, log, owned, creation)
    requires c.cmd != Create && (!pending ==> !now)
    requires c.cmd.Inspect? && c.answer == Shown(mine) ==> Confirms(mine, log, c.cmd.id)
    ensures Tracks(mine, now, log + [c], owned, creation)
  {
    LogGrows(mine, log, c);
    if id :| Confirms(mine, log, id) { assert Confirms(mine, log + [c], id); }
  }

  lemma SentMatters(mine: Container, pending: bool, log: seq<Call>, owned: Option<string>, creation: Creation)
    requires Tracks(mine, pending, log, owned, creation)
    ensures !Sent(log) ==> !pending && !creation.required && owned.None?
    ensures pending ==> creation.required
  {
  }

  /** The create itself: an answered conflict settles it, everything else is an open obligation. */
  lemma TracksCreate(mine: Container, pending: bool, now: bool, log: seq<Call>, c: Call, owned: Option<string>,
                     creation: Creation)
    requires Tracks(mine, pending, log, owned, creation) && !Sent(log)
    requires c.cmd == Create && (c.answer == Conflict ==> !now)
    ensures owned.None? && Sent(log + [c])
    ensures Tracks(mine, now, log + [c], None,
                   if c.answer == Conflict then Creation(Outcome.Rejected, false) else Creation(Uncertain, true))
  {
    SentMatters(mine, pending, log, owned, creation);
    LogGrows(mine, log, c);
    assert !LabEngine.Rejected(log);
  }

  /** Some container was shown to be exactly this run's. */
  ghost predicate SomeConfirmed(mine: Container, log: seq<Call>) {
    exists id :: Confirms(mine, log, id)
  }

  lemma StaysConfirmed(mine: Container, before: seq<Call>, after: seq<Call>)
    requires before <= after
    ensures SomeConfirmed(mine, before) ==> SomeConfirmed(mine, after)
  {
    if id :| Confirms(mine, before, id) {
      var i :| 0 <= i < |before| && before[i].cmd == Inspect(id) && before[i].answer == Shown(mine);
      assert after[i] == before[i];
      assert Confirms(mine, after, id);
    }
  }

  class LabRun {
    const engine: Engine
    var owned: Option<string>
    var creation: Creation
    var cleanup: Option<Cleaning>
    var status: Status
    var diagnostics: bool

    constructor (engine: Engine)
      requires engine.Valid() && engine.log == [] && |engine.frames| == 1 && !engine.world.pending
      ensures Valid() && this.engine == engine && status == Aborted && !diagnostics && cleanup == None
    {
      this.engine, owned, creation, cleanup := engine, None, Creation(NeverAttempted, false), None;
      status, diagnostics := Aborted, false;
    }

    ghost predicate Valid()
      reads this, engine
    {
      && engine.Valid() && |engine.frames| == 1 && Disciplined(engine.mine, engine.log)
      && Tracks(engine.mine, engine.world.pending, engine.log, owned, creation)
    }

    /** Calls were added, none of them a cleanup call. */
    twostate predicate Onward()
      reads engine
    {
      engine.Onward() && old(engine.log) <= engine.log && Cleanups(engine.log) == Cleanups(old(engine.log))
    }

    /** At most one call was made; when it was, the world moved by it. */
    twostate predicate Asked(c: Call, raised: Raised)
      reads engine
    {
      && engine.Onward() && engine.Counted(c.phase, raised)
      && (raised != Returned ==> c.answer == Lost)
      && (raised == Interruption ==> engine.base == [Frame(None, false)] && HasSignal(engine.events))
      && (raised == Refusal ==> engine.log == old(engine.log))
      && (Sent(engine.log) <==> Sent(old(engine.log)))
      && (c.phase != Cleanup ==> Cleanups(engine.log) == Cleanups(old(engine.log)))
      && if engine.log == old(engine.log) then raised != Returned && engine.world == old(engine.world)
         else
           && engine.log == old(engine.log) + [c]
           && Cleanups(engine.log) == Cleanups(old(engine.log)) + (if c.phase == Cleanup then [c] else [])
           && Meets(engine.run, c.cmd, old(engine.world), engine.world, c.answer)
    }

    /** Admission, then one command that is neither the create nor an inspection by ID. */
    method Ask(phase: Phase, cmd: Command) returns (raised: Raised, answer: Answer)
      requires Valid() && cmd != Create && !cmd.Inspect?
      requires Allowed(engine.mine, engine.log, Call(phase, cmd, Lost)) && engine.MaySend(phase)
      modifies engine
      ensures Valid() && Asked(Call(phase, cmd, answer), raised)
    {
      hide Accounts, Disciplined, Meets, HasSignal, Cleanups, Sent, Tracks;
      answer := Lost;
      raised := engine.Remaining(phase);
      if raised == Returned {
        raised, answer := engine.Submit(phase, cmd);
        LogGrows(engine.mine, old(engine.log), Call(phase, cmd, answer));
        AnswersTell(engine.run, cmd, old(engine.world), engine.world, answer);
        TracksOn(engine.mine, old(engine.world.pending), engine.world.pending, old(engine.log),
          Call(phase, cmd, answer), owned, creation);
      }
    }

    /** One inspection by exact ID: it matches when it shows this run's name and both its labels. */
    method InspectExact(id: string, phase: Phase) returns (raised: Raised, answer: Answer)
      requires Valid() && engine.MaySend(phase)
      modifies engine
      ensures engine.Valid() && |engine.frames| == 1 && Disciplined(engine.mine, engine.log)
      ensures if ValidId(id) then Asked(Call(phase, Inspect(id), answer), raised) else
        raised == Returned && answer == Failed && engine.log == old(engine.log) && engine.Onward() &&
          engine.world == old(engine.world) && engine.faults == old(engine.faults)
      ensures answer != Shown(engine.mine) || old(Confirms(engine.mine, engine.log, id)) ==> Valid()
      ensures answer == Shown(engine.mine) ==> Confirms(engine.mine, engine.log, id) && !engine.world.pending
    {
      hide Accounts, Disciplined, Meets, HasSignal, ValidId, Cleanups, Sent, Tracks;
      if !ValidId(id) { return Returned, Failed; }
      answer := Lost;
      raised := engine.Remaining(phase);
      if raised == Returned {
        raised, answer := engine.Submit(phase, Inspect(id));
        AnswersTell(engine.run, Inspect(id), old(engine.world), engine.world, answer);
        LogGrows(engine.mine, old(engine.log), Call(phase, Inspect(id), answer));
        if answer != Shown(engine.mine) || old(Confirms(engine.mine, engine.log, id)) {
          TracksOn(engine.mine, old(engine.world.pending), engine.world.pending, old(engine.log),
                   Call(phase, Inspect(id), answer), owned, creation);
        }
      }
    }

    /** The IDs listed under the run's label; None when the listing failed or printed something else. */
    method LabelMatches(phase: Phase) returns (raised: Raised, found: Option<seq<string>>, ghost answer: Answer)
      requires Valid() && engine.MaySend(phase)
      modifies engine
      ensures Valid() && Asked(Call(phase, Ps, answer), raised)
      ensures found ==
        if answer.Listed? && (forall id :: id in answer.ids ==> ValidId(id)) then Some(answer.ids) else None
    {
      var got;
      raised, got := Ask(phase, Ps);
      answer := got;
      found := if got.Listed? && (forall id :: id in got.ids ==> ValidId(id)) then Some(got.ids) else None;
    }

    /** A confirmed container is the run's own and settles its create. */
    method Adopt(id: string)
      requires engine.Valid() && |engine.frames| == 1 && Disciplined(engine.mine, engine.log)
      requires ValidId(id) && Confirms(engine.mine, engine.log, id) && !engine.world.pending && Sent(engine.log)
      modifies this`owned, this`creation
      ensures Valid() && owned == Some(id)
    {
      owned, creation := Some(id), Creation(Confirmed, false);
    }

    /** Adopt the one container that carries the run's label, if it confirms exactly. */
    method ReconcileCreate() returns (raised: Raised)
      requires Valid() && Sent(engine.log)
      modifies this`owned, this`creation, engine
      ensures Valid() && Onward()
      ensures raised == Interruption ==> engine.base == [Frame(None, false)] && HasSignal(engine.events)
      ensures raised in {Returned, Refusal} ==> engine.faults == old(engine.faults)
      ensures engine.Calm(Reconciliation) ==> raised == Returned
      ensures engine.faults.reconciliation == old(engine.faults).reconciliation ==> raised in {Returned, Refusal}
      ensures raised == Returned ==> Reconciled(engine.mine, engine.log[|old(engine.log)|..], old(owned), owned)
    {
      hide Accounts, Cleanups, Disciplined, Tracks, Meets, Sent, Confirms, HasSignal, ValidId;
      var found, matched;
      ghost var answer;
      ghost var start := engine.log;
      raised, found, answer := LabelMatches(Reconciliation);
      ghost var listing := Call(Reconciliation, Ps, answer);
      assert raised == Returned ==> engine.log[|start|..] == [listing];
      if raised != Returned || found.None? || |found.value| != 1 { return; }
      raised, matched := InspectExact(found.value[0], Reconciliation);
      assert raised == Returned ==>
        engine.log[|start|..] == [listing, Call(Reconciliation, Inspect(found.value[0]), matched)];
      if matched == Shown(engine.mine) { Adopt(found.value[0]); }
    }

    /** One experiment command whose answer must be the wanted one. */
    method Require(cmd: Command, wanted: Answer) returns (raised: Raised, ghost answer: Answer)
      requires Valid() && engine.heard.None? && cmd in {Other, InspectName}
      modifies engine
      ensures Valid() && Onward() && (Sent(engine.log) <==> Sent(old(engine.log)))
      ensures raised == Interruption ==> engine.base == [Frame(None, false)] && HasSignal(engine.events)
      ensures raised == Returned ==> engine.faults == old(engine.faults) && answer == wanted
      ensures raised == Returned || engine.Calm(Experiment) ==>
        && engine.log == old(engine.log) + [Call(Experiment, cmd, answer)]
        && raised == if answer == wanted then Returned else Refusal
    {
      hide Accounts, Cleanups, Disciplined, Tracks, Meets, Sent, Confirms, HasSignal, ValidId, After, Sane;
      var got;
      raised, got := Ask(Experiment, cmd);
      answer := got;
      if raised == Returned && got != wanted { raised := Refusal; }
    }

    /** Nothing may carry the run's name or label yet. */
    method Preflight(valid: bool) returns (raised: Raised)
      requires Valid() && engine.log == [] && engine.heard.None?
      modifies engine
      ensures Valid() && Onward() && !Sent(engine.log)
      ensures raised == Returned ==>
        Fenced(engine.run, engine.world) && Allowed(engine.mine, engine.log, Call(Experiment, Create, Lost))
      ensures raised == Interruption ==> engine.base == [Frame(None, false)] && HasSignal(engine.events)
      ensures raised == Returned ==> engine.faults == old(engine.faults) && Preflighted(valid, engine.log, Returned)
      ensures engine.Calm(Experiment) ==> raised in {Returned, Refusal} && Preflighted(valid, engine.log, raised)
    {
      hide Accounts, Cleanups, Disciplined, Tracks, Meets, Sent, Confirms, HasSignal, ValidId;
      NothingLogged();
      ghost var answer;
      var found;
      ghost var listed;
      raised := engine.Remaining(Experiment);
      if raised != Returned { return; }
      if !valid { return Refusal; }
      raised, answer := Require(Other, Succeeded);
      if raised != Returned { return; }
      raised, answer := Require(InspectName, NoSuch);
      if raised != Returned { return; }
      ghost var was := engine.world;
      raised, found, listed := LabelMatches(Experiment);
      if raised != Returned { return; }
      if found != Some([]) { return Refusal; }
      AnswersTell(engine.run, Ps, was, engine.world, listed);
      SentMatters(engine.mine, engine.world.pending, engine.log, owned, creation);
    }

    /** The create itself: an answered conflict settles it, everything else stays an obligation. */
    method SubmitCreate() returns (raised: Raised, answer: Answer)
      requires !HasSignal(engine.events)
      requires Valid() && engine.heard.None? && !Sent(engine.log) && Fenced(engine.run, engine.world)
      requires Allowed(engine.mine, engine.log, Call(Experiment, Create, Lost))
      modifies this`owned, this`creation, engine
      ensures Valid() && Onward()
      ensures Sent(engine.log) && owned == old(owned) && engine.Counted(Experiment, raised)
      ensures engine.log == old(engine.log) + [Call(Experiment, Create, answer)]
      ensures raised != Refusal &&
        (raised == Interruption ==> engine.base == [Frame(None, false)] && HasSignal(engine.events))
    {
      hide Accounts, Disciplined, Tracks, Meets, Confirms, Sent, HasSignal, ValidId, Cleanups, LabEngine.Rejected;
      hide Settled, Allowed;
      SentMatters(engine.mine, engine.world.pending, engine.log, owned, creation);
      creation := Creation(Uncertain, true);
      raised, answer := engine.Submit(Experiment, Create);
      AnswersTell(engine.run, Create, old(engine.world), engine.world, answer);
      CleanupsGrow(old(engine.log), Call(Experiment, Create, answer));
      TracksCreate(engine.mine, old(engine.world.pending), engine.world.pending, old(engine.log),
                   Call(Experiment, Create, answer), owned, old(creation));
      if answer == Conflict { creation := Creation(Outcome.Rejected, false); }
    }

    /** Create the container and own it, or leave what is known of it on record. */
    method CreateContainer() returns (raised: Raised)
      requires Valid() && engine.heard.None? && !Sent(engine.log) && Fenced(engine.run, engine.world)
      requires Allowed(engine.mine, engine.log, Call(Experiment, Create, Lost))
      modifies this`owned, this`creation, engine
      ensures Valid() && Onward()
      ensures raised == Returned ==>
        owned.Some? && engine.faults == old(engine.faults) &&
        Creates(engine.mine, engine.log[|old(engine.log)|..], Returned)
      ensures raised == Interruption ==> engine.base == [Frame(None, false)] && HasSignal(engine.events)
      ensures engine.Calm(Experiment) && engine.Calm(Reconciliation) ==>
        Creates(engine.mine, engine.log[|old(engine.log)|..], raised)
    {
      hide Accounts, Cleanups, Disciplined, Tracks, Meets, Sent, Confirms, HasSignal, ValidId, After, Sane, Listing;
      ghost var start := engine.log;
      raised := engine.Remaining(Experiment);
      if raised != Returned { return; }
      var answer;
      raised, answer := SubmitCreate();
      if raised != Returned { return; }
      raised := ConfirmCreate(answer);
      assert engine.log[|start|..] == [Call(Experiment, Create, answer)] + engine.log[|start| + 1..];
    }

    /** What follows an answered create: confirmation of the ID it printed, or else a search by label. */
    method ConfirmCreate(answer: Answer) returns (raised: Raised)
      requires Valid() && engine.heard.None? && Sent(engine.log) && engine.log != []
      requires engine.log[|engine.log| - 1] == Call(Experiment, Create, answer)
      modifies this`owned, this`creation, engine
      ensures Valid() && Onward()
      ensures raised == Returned ==> owned.Some?
      ensures raised in {Returned, Refusal} ==> engine.faults == old(engine.faults)
      ensures answer.Created? && ValidId(answer.id) ==>
        engine.log == old(engine.log) || Is(engine.log[|old(engine.log)|], Experiment, Inspect(answer.id))
      ensures raised == Interruption ==> engine.base == [Frame(None, false)] && HasSignal(engine.events)
      ensures raised == Returned || (engine.Calm(Experiment) && engine.Calm(Reconciliation)) ==>
        Creates(engine.mine, [Call(Experiment, Create, answer)] + engine.log[|old(engine.log)|..], raised)
    {
      hide Accounts, Cleanups, Disciplined, Tracks, Meets, Sent, Confirms, HasSignal, ValidId, After, Sane, Listing;
      ghost var start := engine.log;
      if answer.Created? && ValidId(answer.id) {
        var shown;
        raised, shown := InspectExact(answer.id, Experiment);
        if raised != Returned { return; }
        if shown == Shown(engine.mine) {
          Adopt(answer.id);
          return;
        }
      }
      ghost var asked := engine.log;
      raised := ReconcileCreate();
      SearchFollows(Call(Experiment, Create, answer), start, asked, engine.log);
      if raised == Returned { raised := Refusal; }
    }

    /** So many commands on the owned container, until one raises; `done` of them were answered. */
    method Commands(phase: Phase, n: nat) returns (raised: Raised, ghost done: nat)
      requires Valid() && phase != Cleanup && engine.MaySend(phase)
      modifies engine
      ensures Valid() && Onward()
      ensures raised == Interruption ==> engine.base == [Frame(None, false)] && HasSignal(engine.events)
      ensures raised == Returned ==> done == n
      ensures raised == Refusal ==> done < n && phase in engine.exhausted
      ensures raised in {Returned, Refusal} ==>
        engine.faults == old(engine.faults) && Steps(engine.log) == Steps(old(engine.log)) + Repeat(phase, done)
      ensures FaultsOf(engine.faults, phase) == FaultsOf(old(engine.faults), phase) ==> raised in {Returned, Refusal}
    {
      hide Accounts, Cleanups, Disciplined, Tracks, Meets, Sent, Confirms, HasSignal, ValidId, After, Sane;
      raised, done := Returned, 0;
      RepeatMore(phase, 0);
      for i := 0 to n
        invariant Valid() && Onward() && raised == Returned && done == i && engine.faults == old(engine.faults)
        invariant Steps(engine.log) == Steps(old(engine.log)) + Repeat(phase, i)
      {
        var answer;
        ghost var log := engine.log;
        raised, answer := Ask(phase, Other);
        if raised != Returned { return; }
        StepsAppend(log, [Call(phase, Other, answer)]);
        RepeatMore(phase, i);
        done := i + 1;
      }
    }

    /** A stage: its commands, and then what its checks make of their answers. */
    method RunStage(phase: Phase, stage: Stage) returns (raised: Raised)
      requires Valid() && phase != Cleanup && engine.MaySend(phase)
      modifies engine
      ensures Valid() && Onward()
      ensures raised == Interruption ==> engine.base == [Frame(None, false)] && HasSignal(engine.events)
      ensures raised == Returned ==>
        && engine.faults == old(engine.faults) && stage.check.Passes?
        && Steps(engine.log) == Steps(old(engine.log)) + Repeat(phase, stage.commands)
      ensures engine.Calm(phase) ==>
        raised == RaisedBy(stage.check) && Steps(engine.log) == Steps(old(engine.log)) + Repeat(phase, stage.commands)
    {
      ghost var done;
      raised, done := Commands(phase, stage.commands);
      if raised == Returned { raised := RaisedBy(stage.check); }
    }

    /** One more inspection of the owned container. */
    method InspectOwned(phase: Phase) returns (raised: Raised, answer: Answer)
      requires Valid() && owned.Some? && engine.MaySend(phase)
      modifies engine
      ensures Valid() && Asked(Call(phase, Inspect(owned.value), answer), raised)
    {
      raised, answer := InspectExact(owned.value, phase);
    }

    /** Remove a container that was confirmed by the call just before. */
    method RemoveConfirmed(id: string) returns (raised: Raised, removed: bool)
      requires Valid() && engine.log != []
      requires engine.log[|engine.log| - 1] == Call(Cleanup, Inspect(id), Shown(engine.mine))
      requires Cleanups(engine.log) == [Call(Cleanup, Inspect(id), Shown(engine.mine))]
      modifies engine
      ensures Valid() && engine.Onward() && old(engine.log) <= engine.log
      ensures raised == Interruption ==> engine.base == [Frame(None, false)] && HasSignal(engine.events)
      ensures |Cleanups(engine.log)| <= 2
      ensures raised == Returned ==> (removed <==> RemovedTail(engine.mine, id, Cleanups(engine.log)))
      ensures engine.Calm(Cleanup) ==> raised == Returned
      ensures raised == Returned ==>
        && |Cleanups(engine.log)| == 2 && engine.log == old(engine.log) + Cleanups(engine.log)[1..]
        && Cleanups(engine.log)[0] == Call(Cleanup, Inspect(id), Shown(engine.mine))
        && Is(Cleanups(engine.log)[1], Cleanup, Remove(id))
        && (removed <==> Cleanups(engine.log)[1].answer == Succeeded)
    {
      hide Accounts, Disciplined, Meets, Sent, HasSignal, ValidId, Cleanups, Tracks, Confirms;
      var answer;
      raised, answer := Ask(Cleanup, Remove(id));
      removed := answer == Succeeded;
      if raised == Returned {
        assert Cleanups(engine.log) == [Call(Cleanup, Inspect(id), Shown(engine.mine)),
          Call(Cleanup, Remove(id), answer)];
      }
    }

    /** Confirm the owned container once more and remove exactly it. */
    method RemoveOwned(id: string) returns (raised: Raised, guard: Guard, removed: bool)
      requires Valid() && owned == Some(id) && Cleanups(engine.log) == []
      modifies engine
      ensures Valid() && engine.Onward() && old(engine.log) <= engine.log
      ensures raised == Interruption ==> engine.base == [Frame(None, false)] && HasSignal(engine.events)
      ensures |Cleanups(engine.log)| <= 2
      ensures raised == Returned ==>
        guard != NotNeeded && (guard == Passed && removed <==> RemovedTail(engine.mine, id, Cleanups(engine.log)))
      ensures engine.Calm(Cleanup) ==> raised == Returned
      ensures raised == Returned ==>
        && engine.log == old(engine.log) + Cleanups(engine.log) && RemovalTail(engine.mine, id, Cleanups(engine.log))
        && (guard, removed) == RemovalOf(engine.mine, Cleanups(engine.log))
    {
      hide Accounts, Disciplined, Meets, Sent, HasSignal, ValidId, Cleanups, Tracks, Confirms;
      var shown;
      guard, removed := OwnershipMismatch, false;
      raised, shown := InspectOwned(Cleanup);
      if raised != Returned { return; }
      ghost var asked := engine.log;
      assert Cleanups(asked) == [Call(Cleanup, Inspect(id), shown)];
      if shown == Shown(engine.mine) {
        guard := Passed;
        raised, removed := RemoveConfirmed(id);
        assert raised == Returned ==> Cleanups(engine.log) == Cleanups(asked) + Cleanups(engine.log)[1..];
      } else if shown == NoSuch {
        guard, removed := Passed, true;
      }
    }

    /** Look whether anything of the run is left: by its label, and by the owned ID. */
    method AuditCleanup() returns (raised: Raised, audit: Audit, ghost added: seq<Call>)
      requires Valid()
      modifies engine
      ensures Valid() && engine.Onward() && old(engine.log) <= engine.log
      ensures raised == Interruption ==> engine.base == [Frame(None, false)] && HasSignal(engine.events)
      ensures Cleanups(engine.log) == old(Cleanups(engine.log)) + added
      ensures raised != Returned ==> Unfinished(owned, added)
      ensures engine.Calm(Cleanup) ==> raised == Returned
      ensures raised == Returned ==>
        engine.log == old(engine.log) + added && AuditShape(owned, added) && audit == AuditOf(owned, added)
      ensures raised == Returned && audit.absent == Some(true) && owned.Some? ==>
        owned.value !in engine.world.containers
      ensures raised == Returned && audit.labelMatches == Some([]) && !creation.required ==>
        Fenced(engine.run, engine.world)
    {
      hide Accounts, Disciplined, Meets, Sent, HasSignal, ValidId, Cleanups, Tracks, Confirms, After, Sane;
      var found, shown;
      ghost var answer;
      raised, found, answer := LabelMatches(Cleanup);
      audit := Audit(found, Some(owned.None?));
      added := if engine.log == old(engine.log) then [] else [Call(Cleanup, Ps, answer)];
      if raised != Returned { return; }
      AnswersTell(engine.run, Ps, old(engine.world), engine.world, answer);
      SentMatters(engine.mine, engine.world.pending, engine.log, owned, creation);
      if owned.Some? {
        ghost var before, log := engine.world, engine.log;
        raised, shown := InspectOwned(Cleanup);
        if engine.log != log { added := added + [Call(Cleanup, Inspect(owned.value), shown)]; }
        if raised != Returned { return; }
        AnswersTell(engine.run, Inspect(owned.value), before, engine.world, shown);
        audit := Audit(found, Some(shown == NoSuch));
      }
    }

    /** Remove the owned container if it confirms, then audit what is left. */
    method CleanUp() returns (raised: Raised)
      requires Valid() && Cleanups(engine.log) == []
      modifies this`cleanup, engine
      ensures Valid() && engine.Onward() && old(engine.log) <= engine.log
      ensures raised == Interruption ==> engine.base == [Frame(None, false)] && HasSignal(engine.events)
      ensures raised != Returned ==> !CleanTail(engine.mine, owned, Cleanups(engine.log))
      ensures raised == Returned && Clean() ==> Fenced(engine.run, engine.world)
      ensures engine.Calm(Cleanup) ==> raised == Returned
      ensures raised == Returned ==>
        && engine.log == old(engine.log) + Cleanups(engine.log) && FullTail(engine.mine, owned, Cleanups(engine.log))
        && cleanup == Some(Account(engine.mine, owned, creation.required, Cleanups(engine.log)))
      ensures raised == Returned && Clean() && owned.Some? ==> owned.value !in engine.world.containers
    {
      hide Accounts, Disciplined, Tracks, Meets, Confirms, Sent, HasSignal, ValidId, Cleanups, CleanTail, RemovedTail;
      hide Unfinished, Fenced, AuditTail, FullTail, RemovalTail, AuditShape, RemovalOf, AuditOf, Account;
      ghost var start := engine.log;
      var guard, removed, audit := NotNeeded, false, Audit(None, None);
      cleanup := Some(Cleaning(guard, removed, None));
      ghost var tail := [];
      if owned.Some? {
        raised, guard, removed := RemoveOwned(owned.value);
        cleanup := Some(Cleaning(guard, removed, None));
        tail := Cleanups(engine.log);
        ShortTail(engine.mine, owned, tail);
        if raised != Returned { return; }
      }
      ghost var added;
      raised, audit, added := AuditCleanup();
      if raised != Returned {
        TailSplits(engine.mine, owned, tail, added);
        return;
      }
      TailJoins(engine.mine, owned, tail, added, creation.required);
      assert start + tail + added == start + (tail + added);
      if owned.None? {
        removed := audit.labelMatches == Some([]);
        guard := if removed then Passed else UnownedLabelMatch;
      }
      if creation.required {
        guard, removed, audit := CreateUnresolved, false, audit.(absent := None);
      }
      cleanup := Some(Cleaning(guard, removed, Some(audit)));
    }

    /** Reconcile an open create, then clean up. */
    method Teardown() returns (raised: Raised)
      requires Valid() && Cleanups(engine.log) == []
      modifies this`owned, this`creation, this`cleanup, engine
      ensures Valid() && engine.Onward() && old(engine.log) <= engine.log
      ensures raised == Interruption ==> engine.base == [Frame(None, false)] && HasSignal(engine.events)
      ensures raised != Returned ==> !CleanTail(engine.mine, owned, Cleanups(engine.log))
      ensures raised == Returned ==>
        (Clean() <==> !creation.required && CleanTail(engine.mine, owned, Cleanups(engine.log)))
      ensures raised == Returned && Clean() ==> Fenced(engine.run, engine.world)
      ensures engine.Calm(Cleanup) && engine.faults.reconciliation == old(engine.faults).reconciliation ==>
        raised == Returned
      ensures raised == Returned ==>
        && FullTail(engine.mine, owned, Cleanups(engine.log))
        && cleanup == Some(Account(engine.mine, owned, creation.required, Cleanups(engine.log)))
      ensures raised == Returned && engine.Calm(Reconciliation) ==>
        TornDown(engine.mine, old(creation.required), owned, engine.log[|old(engine.log)|..], Cleanups(engine.log))
      ensures raised == Returned && Clean() && owned.Some? ==> owned.value !in engine.world.containers
    {
      hide Accounts, Disciplined, Tracks, Meets, Confirms, Sent, HasSignal, ValidId, Cleanups, CleanTail, FullTail;
      hide Reconciled, Account;
      ghost var start := engine.log;
      RequiredUnowned(engine.mine, engine.world.pending, engine.log, owned, creation);
      if creation.required {
        SentMatters(engine.mine, engine.world.pending, engine.log, owned, creation);
        raised := ReconcileCreate();
        ShortTail(engine.mine, owned, Cleanups(engine.log));
        if raised == Interruption || raised == Fault { return; }
      }
      ShortTail(engine.mine, owned, Cleanups(engine.log));
      ghost var first := engine.log;
      raised := engine.Remaining(Cleanup);
      if raised != Returned { return; }
      raised := CleanUp();
      if raised == Returned {
        LateSplits(start, first, Cleanups(engine.log));
        AccountClean(engine.mine, owned, creation.required, Cleanups(engine.log));
      }
    }

    /** Everything that must hold for the run to be reported as cleaned up. */
    predicate Clean()
      reads this
    {
      cleanup.Some? && !creation.required && IsClean(cleanup.value)
    }

    /** No call of the experiment or its release raised, and no budget but perhaps the release's is used up. */
    twostate predicate Unhindered(plan: Plan)
      reads engine
    {
      && engine.Calm(Experiment) && engine.faults.release == old(engine.faults).release
      && (plan.join ==> Release !in engine.exhausted)
    }

    /** Diagnostics, taken once. */
    method Collect(stage: Stage) returns (raised: Raised)
      requires Valid()
      modifies this`diagnostics, engine
      ensures Valid() && Onward() && diagnostics
      ensures raised == Interruption ==> engine.base == [Frame(None, false)] && HasSignal(engine.events)
      ensures raised == Returned ==>
        && engine.faults == old(engine.faults) && stage.check.Passes?
        && Steps(engine.log) == Steps(old(engine.log)) + Repeat(Diagnostics, stage.commands)
      ensures engine.Calm(Diagnostics) ==>
        && raised == RaisedBy(stage.check)
        && Steps(engine.log) == Steps(old(engine.log)) + Repeat(Diagnostics, stage.commands)
    {
      diagnostics := true;
      raised := RunStage(Diagnostics, stage);
    }

    /** The release: a used-up budget only ends it, but then no waiting for it is admitted. */
    method ReleaseOnce(commands: nat, join: bool) returns (raised: Raised, ghost r: nat)
      requires Valid() && engine.heard.None?
      modifies engine
      ensures Valid() && Onward()
      ensures raised == Interruption ==> engine.base == [Frame(None, false)] && HasSignal(engine.events)
      ensures raised == Returned ==>
        && r <= commands && (r < commands ==> Release in engine.exhausted && !join)
        && engine.faults == old(engine.faults) && Steps(engine.log) == Steps(old(engine.log)) + Repeat(Release, r)
      ensures raised == Returned && join ==> Release !in engine.exhausted
      ensures engine.faults.release == old(engine.faults).release && (join ==> Release !in engine.exhausted) ==>
        raised == Returned
    {
      raised, r := Commands(Release, commands);
      if raised == Refusal { raised := Returned; }
      if raised == Returned && join { raised := engine.Remaining(Release); }
    }

    /**
     * The experiment on the container; the release that follows it runs even after a failure, and what it raises comes
     * first. A last observation follows when all went well.
     */
    method RunInner(plan: Plan) returns (raised: Raised, ghost r: nat)
      requires Valid() && engine.heard.None?
      modifies engine
      ensures Valid() && Onward()
      ensures raised == Interruption ==> engine.base == [Frame(None, false)] && HasSignal(engine.events)
      ensures raised == Returned ==> Failure(plan).Passes? && engine.faults == old(engine.faults)
      ensures Unhindered(plan) ==> raised == RaisedBy(Failure(plan))
      ensures raised == Returned || Unhindered(plan) ==>
        && r <= plan.release && (r < plan.release ==> Release in engine.exhausted && !plan.join)
        && Steps(engine.log) == Steps(old(engine.log)) + ExperimentScript(plan.(release := r))
    {
      hide Accounts, Disciplined, Meets, Sent, HasSignal, ValidId, Cleanups, Tracks, Confirms, Repeat, Steps;
      raised := RunStage(Experiment, plan.inner);
      ghost var earlier := engine.events;
      var late;
      late, r := ReleaseOnce(plan.release, plan.join);
      if raised == Interruption { StillHeard(earlier, engine.events); }
      if late != Returned { raised := late; }
      if raised == Returned { raised := RunStage(Experiment, plan.final); }
    }

    /** Everything before finalization. */
    method Attempt(plan: Plan) returns (raised: Raised)
      requires Valid() && engine.log == [] && engine.heard.None? && engine.faults == NO_FAULTS
      modifies this`owned, this`creation, this`diagnostics, engine
      ensures Valid() && Onward()
      ensures raised == Returned ==>
        && owned.Some? && engine.faults == NO_FAULTS
        && Completed(engine.mine, plan, engine.log, engine.exhausted)
      ensures raised == Interruption ==> engine.base == [Frame(None, false)] && HasSignal(engine.events)
      ensures engine.faults == NO_FAULTS && AllInTime(plan, engine.exhausted) ==>
        Undisturbed(engine.mine, plan, engine.log, engine.exhausted, raised == Returned)
    {
      hide Accounts, Disciplined, Meets, HasSignal, ValidId, Cleanups, Tracks, Confirms, Preflighted, Creates;
      hide Steps, Repeat;
      raised := Preflight(plan.valid);
      if raised != Returned { return; }
      ghost var cleared := engine.log;
      raised := CreateContainer();
      Begun(engine.mine, plan, cleared, engine.log, engine.exhausted, raised);
      if raised != Returned { return; }
      ghost var confirmed := engine.log;
      ghost var r;
      raised, r := RunStages(plan);
      if raised == Returned || (engine.faults == NO_FAULTS && AllInTime(plan, engine.exhausted)) {
        Followed(engine.mine, plan, r, confirmed, engine.log, engine.exhausted);
      }
    }

    /** From the confirmed container to finalization. */
    method RunStages(plan: Plan) returns (raised: Raised, ghost r: nat)
      requires Valid() && engine.heard.None? && owned.Some?
      modifies this`diagnostics, engine
      ensures Valid() && Onward()
      ensures raised == Returned ==>
        && plan.prepare.check.Passes? && Failure(plan).Passes? && plan.collect.check.Passes?
        && engine.faults == old(engine.faults)
      ensures raised == Interruption ==> engine.base == [Frame(None, false)] && HasSignal(engine.events)
      ensures raised == Returned || (Unhindered(plan) && engine.Calm(Diagnostics)) ==>
        && r <= plan.release && (r < plan.release ==> Release in engine.exhausted && !plan.join)
        && Steps(engine.log) == Steps(old(engine.log)) + Script(plan.(release := r))
        && (raised == Returned <==>
            plan.prepare.check.Passes? && Failure(plan).Passes? && plan.collect.check.Passes?)
    {
      hide Accounts, Disciplined, Meets, HasSignal, ValidId, Cleanups, Tracks, Confirms, Steps, Repeat, After, Sane;
      hide InnerScript;
      r := plan.release;
      raised := RunStage(Experiment, plan.prepare);
      if raised != Returned { return; }
      raised, r := RunRest(plan);
    }

    /** The experiment, and then diagnostics unless it broke; a refused experiment is reported after them. */
    method RunRest(plan: Plan) returns (raised: Raised, ghost r: nat)
      requires Valid() && engine.heard.None? && owned.Some?
      modifies this`diagnostics, engine
      ensures Valid() && Onward()
      ensures raised == Returned ==>
        Failure(plan).Passes? && plan.collect.check.Passes? && engine.faults == old(engine.faults)
      ensures raised == Interruption ==> engine.base == [Frame(None, false)] && HasSignal(engine.events)
      ensures raised == Returned || (Unhindered(plan) && engine.Calm(Diagnostics)) ==>
        && r <= plan.release && (r < plan.release ==> Release in engine.exhausted && !plan.join)
        && Steps(engine.log) == Steps(old(engine.log)) + InnerScript(plan.(release := r))
        && (raised == Returned <==> Failure(plan).Passes? && plan.collect.check.Passes?)
    {
      hide Accounts, Disciplined, Meets, HasSignal, ValidId, Cleanups, Tracks, Confirms, Steps, Repeat, After, Sane;
      hide ExperimentScript;
      var failure;
      failure, r := RunInner(plan);
      if failure == Interruption || failure == Fault { return failure, r; }
      raised := Collect(plan.collect);
      if raised == Returned { raised := failure; }
    }

    /** Finalization, with signals ignored: diagnostics, teardown, and the verdict on the cleanup. */
    method Finish(stage: Stage) returns (clean: bool)
      requires Valid() && Cleanups(engine.log) == [] && engine.base == [Frame(None, true)]
      modifies this`owned, this`creation, this`cleanup, this`diagnostics, engine
      ensures Valid() && engine.Onward() && old(engine.log) <= engine.log
      ensures clean <==> Settled(engine.mine, engine.log) && CleanTail(engine.mine, owned, Cleanups(engine.log))
      ensures clean ==> Fenced(engine.run, engine.world)
      ensures SomeConfirmed(engine.mine, old(engine.log)) ==> diagnostics
      ensures clean && owned.Some? ==> owned.value !in engine.world.containers
      ensures cleanup.Some?
      ensures if FullTail(engine.mine, owned, Cleanups(engine.log)) && cleanup.value.guard != CleanupUnresolved then
          cleanup.value == Account(engine.mine, owned, !Settled(engine.mine, engine.log), Cleanups(engine.log))
        else cleanup.value.guard == CleanupUnresolved && !cleanup.value.removed
      ensures engine.Calm(Cleanup) && engine.faults.reconciliation == old(engine.faults).reconciliation ==>
        FullTail(engine.mine, owned, Cleanups(engine.log)) && cleanup.value.guard != CleanupUnresolved
      ensures engine.Calm(Cleanup) && engine.Calm(Reconciliation) && engine.Calm(Diagnostics) ==>
        Finalized(engine.mine, stage.commands, !Settled(engine.mine, old(engine.log)), owned,
                  engine.log[|old(engine.log)|..], Cleanups(engine.log))
    {
      hide Accounts, Disciplined, Meets, Sent, HasSignal, ValidId, Cleanups, Tracks, Confirms, Settled, CleanTail;
      hide Fenced, SomeConfirmed, TornDown, FullTail, Account;
      ghost var start := engine.log;
      ghost var open := creation.required;
      TracksSettled(engine.mine, engine.world.pending, engine.log, owned, creation);
      RequiredUnowned(engine.mine, engine.world.pending, engine.log, owned, creation);
      if owned.Some? && !diagnostics { var ignored := Collect(stage); }
      ghost var collected := engine.log;
      var raised := Teardown();
      if raised != Returned {
        cleanup := Some(Cleaning(CleanupUnresolved, false, if cleanup.Some? then cleanup.value.audit else None));
      }
      TracksSettled(engine.mine, engine.world.pending, engine.log, owned, creation);
      clean := Clean();
      if raised == Returned { AccountResolved(engine.mine, owned, creation.required, Cleanups(engine.log)); }
      if raised == Returned && engine.Calm(Reconciliation) && engine.Calm(Diagnostics) {
        LateFinalized(engine.mine, stage.commands, open, owned, start, collected, engine.log, Cleanups(engine.log));
      }
    }

    /** The experiment is over: its status is settled, and from now on signals are ignored. */
    method Stop(raised: Raised)
      requires Valid() && engine.heard.None?
      requires raised == Interruption ==> HasSignal(engine.events)
      modifies this`status, engine`frames, engine`base, engine`events, engine`heard
      ensures Valid() && engine.base == engine.frames == [Frame(None, true)] && engine.heard.Some?
      ensures engine.heard.value.calls == engine.log && engine.heard.value.faults == engine.faults
      ensures engine.heard.value.exhausted == engine.exhausted && old(engine.events) <= engine.heard.value.events
      ensures After([Frame(None, false)], engine.heard.value.events).Some?
      ensures status == Interrupted <==> HasSignal(engine.heard.value.events)
      ensures status != Interrupted ==> status == if raised == Returned then Complete else Aborted
    {
      hide Accounts, Disciplined, HasSignal, Cleanups, Tracks, Sane, After;
      status := if raised == Returned then Complete else if raised == Interruption then Interrupted else Aborted;
      ghost var sofar := engine.events;
      engine.Arrive();
      if raised == Interruption { StillHeard(sofar, engine.events); }
      var held := engine.Shield();
      if held { status := Interrupted; }
    }

    /** Since finalization no call of this phase raised, and its budget is not used up. */
    ghost predicate CalmSince(phase: Phase)
      reads this, engine
      requires engine.heard.Some?
    {
      FaultsOf(engine.faults, phase) == FaultsOf(engine.heard.value.faults, phase) && phase !in engine.exhausted
    }

    /**
     * The whole run. It never raises; signals that arrive before finalization stop the experiment and make its status
     * Interrupted, and no later one interrupts it. A run that no signal, used-up budget or raising call disturbs makes
     * exactly the calls of its plan, and is complete exactly when all checks pass. Whatever came before, the cleanup is
     * made in full unless its own budget is used up, one of its calls raises, or a reconciliation breaks. An exit code
     * other than 3 is given exactly on the evidence of the answers, and then no container of the run exists and none is
     * pending.
     */
    method Execute(plan: Plan, verdict: Verdict) returns (code: nat)
      requires Valid() && engine.log == [] && engine.frames == [Frame(None, false)] && engine.heard.None?
      requires status == Aborted && !diagnostics && cleanup == None && engine.faults == NO_FAULTS
      modifies this, engine
      ensures Valid()
      ensures code != 3 <==> Settled(engine.mine, engine.log) && CleanTail(engine.mine, owned, Cleanups(engine.log))
      ensures code == 0 ==> verdict == Pass
      ensures code == 1 ==> verdict == Fail
      ensures code == 2 ==> verdict == Inconclusive
      ensures code <= 3
      ensures code != 3 ==> Fenced(engine.run, engine.world)
      ensures code != 3 && owned.Some? ==> owned.value !in engine.world.containers
      ensures Disciplined(engine.mine, engine.log)
      ensures status == Complete ==> SomeConfirmed(engine.mine, engine.log)
      ensures engine.heard.Some? && After([Frame(None, false)], engine.heard.value.events).Some?
      ensures old(engine.events) <= engine.heard.value.events
      ensures status == Interrupted <==> HasSignal(engine.heard.value.events)
      ensures status == Complete ==>
        && engine.heard.value.faults == NO_FAULTS
        && Completed(engine.mine, plan, engine.heard.value.calls, engine.heard.value.exhausted)
      ensures Smooth(plan, engine.heard.value) ==>
        Undisturbed(engine.mine, plan, engine.heard.value.calls, engine.heard.value.exhausted, status == Complete)
      ensures engine.heard.value.calls <= engine.log && OnlyLate(engine.log[|engine.heard.value.calls|..])
      ensures Opens(engine.heard.value.events) == |engine.heard.value.calls|
      ensures Prompt(engine.heard.value.calls, engine.heard.value.events)
      ensures engine.heard.value.exhausted <= engine.exhausted
      ensures AtMost(engine.heard.value.faults, engine.faults)
      ensures cleanup.Some?
      ensures if FullTail(engine.mine, owned, Cleanups(engine.log)) && cleanup.value.guard != CleanupUnresolved then
          cleanup.value == Account(engine.mine, owned, !Settled(engine.mine, engine.log), Cleanups(engine.log))
        else cleanup.value.guard == CleanupUnresolved && !cleanup.value.removed
      ensures CalmSince(Cleanup) && engine.faults.reconciliation == engine.heard.value.faults.reconciliation ==>
        FullTail(engine.mine, owned, Cleanups(engine.log)) && cleanup.value.guard != CleanupUnresolved
      ensures CalmSince(Cleanup) && CalmSince(Reconciliation) && CalmSince(Diagnostics) ==>
        Finalized(engine.mine, plan.collect.commands, !Settled(engine.mine, engine.heard.value.calls), owned,
                  engine.log[|engine.heard.value.calls|..], Cleanups(engine.log))
      ensures SomeConfirmed(engine.mine, engine.heard.value.calls) ==> diagnostics
      ensures engine.base == [Frame(None, true)] && !SomeCloseRaises(engine.base, engine.events)
      ensures |engine.frames| == 1 && !LeaveRaises(engine.frames)
    {
      hide Accounts, Disciplined, Meets, Sent, HasSignal, ValidId, Cleanups, Tracks, Confirms, Settled, CleanTail;
      hide Fenced, Sane, SomeConfirmed, After, OnlyLate, Prompt, Undisturbed, Finalized, Completed, Opens, FullTail;
      hide Account;
      NothingLogged();
      var raised := Attempt(plan);
      ghost var before := engine.log;
      OwnedIsConfirmed(engine.mine, engine.world.pending, engine.log, owned, creation);
      Stop(raised);
      var clean := Finish(plan.collect);
      StaysConfirmed(engine.mine, before, engine.log);
      code := if clean then ExitOf(verdict) else 3;
      IgnoredNeverRaises(engine.base, engine.events);
      engine.HeardAccounts();
    }
  }

  lemma Begun(mine: Container, plan: Plan, cleared: seq<Call>, log: seq<Call>, exhausted: set<Phase>, raised: Raised)
    requires cleared <= log
    ensures Preflighted(plan.valid, cleared, Returned) ==> |cleared| == 3 && log[..3] == cleared && plan.valid
    ensures Preflighted(plan.valid, cleared, Returned) && Creates(mine, log[|cleared|..], raised) ==>
      if raised == Returned then |log| == 5 && Opened(mine, plan, log) else Undisturbed(mine, plan, log, exhausted, false)
  {
  }

  /** No signal, no call that raised, and no budget used up, except that the release may be cut short. */
  predicate Smooth(plan: Plan, h: Heard) {
    h.faults == NO_FAULTS && AllInTime(plan, h.exhausted) && !HasSignal(h.events)
  }

  /** No budget is used up before finalization, but perhaps the release's, if nothing waits for it. */
  predicate AllInTime(plan: Plan, exhausted: set<Phase>) {
    {Experiment, Reconciliation, Diagnostics} !! exhausted && (plan.join ==> Release !in exhausted)
  }

  lemma AccountResolved(mine: Container, owned: Option<string>, open: bool, tail: seq<Call>)
    requires FullTail(mine, owned, tail)
    ensures Account(mine, owned, open, tail).guard != CleanupUnresolved
  {
  }

  lemma Followed(mine: Container, plan: Plan, r: nat, confirmed: seq<Call>, log: seq<Call>, exhausted: set<Phase>)
    requires confirmed <= log && |confirmed| == 5 && Opened(mine, plan, confirmed)
    requires r <= plan.release && (r < plan.release ==> Release in exhausted && !plan.join)
    requires Steps(log) == Steps(confirmed) + Script(plan.(release := r))
    ensures Undisturbed(mine, plan, log, exhausted, AllPass(plan))
    ensures AllPass(plan) ==> Completed(mine, plan, log, exhausted)
  {
    hide Script, Preflighted, Creates;
    assert log[..3] == confirmed[..3] && log[3..5] == confirmed[3..5];
    assert log == confirmed + log[5..];
    StepsAppend(confirmed, log[5..]);
    StepsCancel(Steps(confirmed), Steps(log[5..]), Script(plan.(release := r)));
    assert Released(plan, r, log[5..], exhausted);
  }

  lemma LateFinalized(mine: Container, commands: nat, open: bool, owned: Option<string>, start: seq<Call>,
                      collected: seq<Call>, log: seq<Call>, tail: seq<Call>)
    requires start <= collected <= log
    requires Steps(collected) == Steps(start) + Repeat(Diagnostics, |collected| - |start|)
    requires collected == start || |collected| == |start| + commands
    requires TornDown(mine, open, owned, log[|collected|..], tail)
    ensures Finalized(mine, commands, open, owned, log[|start|..], tail)
  {
    hide Steps, Repeat, TornDown;
    var late, d := log[|start|..], |collected| - |start|;
    assert collected == start + late[..d] && late[d..] == log[|collected|..];
    StepsAppend(start, late[..d]);
    StepsCancel(Steps(start), Steps(late[..d]), Repeat(Diagnostics, d));
  }

  function ExitOf(verdict: Verdict): nat {
    match verdict
    case Pass => 0
    case Fail => 1
    case Inconclusive => 2
  }

  lemma OwnedIsConfirmed(mine: Container, pending: bool, log: seq<Call>, owned: Option<string>, creation: Creation)
    requires Tracks(mine, pending, log, owned, creation)
    ensures owned.Some? ==> SomeConfirmed(mine, log)
  {
  }

  lemma TracksSettled(mine: Container, pending: bool, log: seq<Call>, owned: Option<string>, creation: Creation)
    requires Tracks(mine, pending, log, owned, creation)
    ensures creation.required <==> !Settled(mine, log)
  {
  }
}
