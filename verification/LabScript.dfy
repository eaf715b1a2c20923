/** What a lab run is to call: the plan of its stages, and the calls of a run that nothing disturbs. */
module LabScript {
  import opened Options
  import opened LabEngine

  /** What a stage's own checks make of its answers. */
  datatype Check = Passes | Fails | Breaks

  datatype Stage = Stage(commands: nat, check: Check)

  /**
   * The stages of one run. `valid`: the arm's inputs are in order; `prepare` starts the container and installs the
   * helper, `inner` is the experiment, `final` the last observation; `release` counts the release's commands, and
   * `join` says whether the runner then waits for it.
   */
  datatype Plan = Plan(valid: bool, prepare: Stage, inner: Stage, release: nat, join: bool, final: Stage, collect: Stage)

  datatype Step = Step(phase: Phase, cmd: Command)

  function Steps(calls: seq<Call>): seq<Step> {
    seq(|calls|, i requires 0 <= i < |calls| => Step(calls[i].phase, calls[i].cmd))
  }

  function Repeat(phase: Phase, n: nat): seq<Step> {
    seq(n, _ => Step(phase, Other))
  }

  predicate Is(c: Call, phase: Phase, cmd: Command) {
    c.phase == phase && c.cmd == cmd
  }

  function RaisedBy(check: Check): Raised {
    match check
    case Passes => Returned
    case Fails => Refusal
    case Breaks => Fault
  }

  /** What the experiment raises: its own failure first, and after it the last observation's. */
  function Failure(plan: Plan): Check {
    if plan.inner.check.Passes? then plan.final.check else plan.inner.check
  }

  /** The commands from a confirmed container to finalization. */
  function Script(plan: Plan): seq<Step> {
    Repeat(Experiment, plan.prepare.commands) +
    if plan.prepare.check.Passes? then InnerScript(plan) else []
  }

  function InnerScript(plan: Plan): seq<Step> {
    ExperimentScript(plan) + if Failure(plan).Breaks? then [] else Repeat(Diagnostics, plan.collect.commands)
  }

  function ExperimentScript(plan: Plan): seq<Step> {
    Repeat(Experiment, plan.inner.commands) + Repeat(Release, plan.release)
    + if plan.inner.check.Passes? then Repeat(Experiment, plan.final.commands) else []
  }

  predicate AllPass(plan: Plan) {
    && plan.valid && plan.prepare.check.Passes? && plan.inner.check.Passes? && plan.final.check.Passes?
    && plan.collect.check.Passes?
  }

  /** Both freeness checks, each only after the one before it was answered well. */
  predicate Preflighted(valid: bool, calls: seq<Call>, raised: Raised) {
    if !valid then calls == [] && raised == Refusal else
    && calls != [] && Is(calls[0], Experiment, Other)
    && if calls[0].answer != Succeeded then |calls| == 1 && raised == Refusal else
    && |calls| > 1 && Is(calls[1], Experiment, InspectName)
    && if calls[1].answer != NoSuch then |calls| == 2 && raised == Refusal else
    && |calls| == 3 && Is(calls[2], Experiment, Ps)
    && raised == if calls[2].answer == Listed([]) then Returned else Refusal
  }

  /** One listing by label, and an inspection exactly when it shows one container. */
  predicate Listing(calls: seq<Call>) {
    && calls != [] && Is(calls[0], Reconciliation, Ps)
    && var a := calls[0].answer;
       if a.Listed? && |a.ids| == 1 && ValidId(a.ids[0]) then
         |calls| == 2 && Is(calls[1], Reconciliation, Inspect(a.ids[0]))
       else
         |calls| == 1
  }

  /** One listing by label; the one listed container is adopted exactly when its inspection confirms it. */
  predicate Reconciled(mine: Container, calls: seq<Call>, before: Option<string>, owned: Option<string>) {
    && Listing(calls)
    && owned ==
       if |calls| == 2 && calls[1].answer == Shown(mine) then Some(calls[1].cmd.id) else before
  }

  /** The create and its confirmation; a create that is not confirmed is looked for by label, and given up. */
  predicate Creates(mine: Container, calls: seq<Call>, raised: Raised) {
    && calls != [] && Is(calls[0], Experiment, Create)
    && var a := calls[0].answer;
       if a.Created? && ValidId(a.id) then
         && |calls| > 1 && Is(calls[1], Experiment, Inspect(a.id))
         && if calls[1].answer == Shown(mine) then |calls| == 2 && raised == Returned
            else raised == Refusal && Listing(calls[2..])
       else
         raised == Refusal && Listing(calls[1..])
  }

  /** The container was created and confirmed right away. */
  predicate Opened(mine: Container, plan: Plan, calls: seq<Call>) {
    |calls| >= 5 && Preflighted(plan.valid, calls[..3], Returned) && Creates(mine, calls[3..5], Returned)
  }

  /** The calls up to finalization of a run that was complete: its release may have been cut short by its budget. */
  ghost predicate Completed(mine: Container, plan: Plan, calls: seq<Call>, exhausted: set<Phase>) {
    && AllPass(plan) && Opened(mine, plan, calls)
    && exists r: nat :: Released(plan, r, calls[5..], exhausted)
  }

  ghost predicate Released(plan: Plan, r: nat, calls: seq<Call>, exhausted: set<Phase>) {
    && r <= plan.release && Steps(calls) == Script(plan.(release := r))
    && (r < plan.release ==> Release in exhausted && !plan.join)
  }

  /**
   * All calls up to finalization of a run that nothing disturbs, except that its release may have been cut short, and
   * whether it is then complete.
   */
  ghost predicate Undisturbed(mine: Container, plan: Plan, calls: seq<Call>, exhausted: set<Phase>, complete: bool) {
    || (!complete && Preflighted(plan.valid, calls, Refusal))
    || (!complete && |calls| >= 3 && Preflighted(plan.valid, calls[..3], Returned) && Creates(mine, calls[3..], Refusal))
    || (&& Opened(mine, plan, calls) && complete == AllPass(plan)
        && exists r: nat :: Released(plan, r, calls[5..], exhausted))
  }

  /** The final cleanup: the owned container is confirmed and removed if it is there, and then looked for. */
  predicate FullTail(mine: Container, owned: Option<string>, tail: seq<Call>) {
    match owned
    case None => |tail| == 1 && Is(tail[0], Cleanup, Ps)
    case Some(id) =>
      && tail != [] && Is(tail[0], Cleanup, Inspect(id))
      && var k := if tail[0].answer == Shown(mine) then 2 else 1;
         && |tail| == k + 2 && (k == 2 ==> Is(tail[1], Cleanup, Remove(id)))
         && Is(tail[k], Cleanup, Ps) && Is(tail[k + 1], Cleanup, Inspect(id))
  }

  /** An open create is looked for by label, and then the cleanup is made in full. */
  predicate TornDown(mine: Container, open: bool, owned: Option<string>, late: seq<Call>, tail: seq<Call>) {
    && |tail| <= |late| && late[|late| - |tail|..] == tail && FullTail(mine, owned, tail)
    && var first := late[..|late| - |tail|];
       if open then Reconciled(mine, first, None, owned) else first == []
  }

  /** All calls since finalization of a run that nothing disturbs any more: diagnostics if due, then the teardown. */
  ghost predicate Finalized(mine: Container, commands: nat, open: bool, owned: Option<string>, late: seq<Call>,
                            tail: seq<Call>)
  {
    exists d: nat :: (
      && d <= |late| && Steps(late[..d]) == Repeat(Diagnostics, d) && (d == 0 || d == commands)
      && TornDown(mine, open, owned, late[d..], tail))
  }

  lemma StepsAppend(a: seq<Call>, b: seq<Call>)
    ensures Steps(a + b) == Steps(a) + Steps(b)
  {
  }

  lemma StepsCancel(a: seq<Step>, b: seq<Step>, c: seq<Step>)
    requires a + b == a + c
    ensures b == c
  {
    assert b == (a + b)[|a|..] && c == (a + c)[|a|..];
  }

  lemma RepeatMore(phase: Phase, n: nat)
    ensures Repeat(phase, n + 1) == Repeat(phase, n) + [Step(phase, Other)] && Repeat(phase, 0) == []
  {
  }
}
