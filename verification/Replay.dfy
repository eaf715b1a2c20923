/** Replaying a reported trace label by label. */
module Replay {
  import opened Options
  import opened Transitions

  /** The targets of the steps labelled `l`. */
  function Matches<S, L(==), K>(steps: seq<Edge<S, L, K>>, l: L): seq<S> {
    if steps == [] then [] else
    (if steps[0].act == l then [steps[0].next] else []) + Matches(steps[1..], l)
  }

  /** The state after `items` from `s`; None when a label is not enabled exactly once or a quiescence mark is wrong. */
  function ReplayFrom<S, L(==), K>(sys: System<S, L, K>, s: S, items: seq<Item<L>>): Option<S>
    decreases |items|
  {
    if items == [] then Some(s) else
    match items[0]
    case Quiescent => if |sys.succ(s)| > 0 then None else ReplayFrom(sys, s, items[1..])
    case Took(l) =>
      var m := Matches(sys.succ(s), l);
      if |m| != 1 then None else ReplayFrom(sys, m[0], items[1..])
  }

  method Replay<S, L(==), K>(sys: System<S, L, K>, items: seq<Item<L>>) returns (r: Option<S>)
    ensures r == ReplayFrom(sys, sys.start, items)
  {
    var s := sys.start;
    for i := 0 to |items|
      invariant ReplayFrom(sys, sys.start, items) == ReplayFrom(sys, s, items[i..])
    {
      assert items[i..][1..] == items[i + 1..];
      match items[i] {
        case Quiescent =>
          if |sys.succ(s)| > 0 {
            return None;
          }
        case Took(l) =>
          var m := Matches(sys.succ(s), l);
          if |m| != 1 {
            return None;
          }
          s := m[0];
      }
    }
    assert items[|items|..] == [];
    return Some(s);
  }

  /** No two enabled steps of a reachable state share a label. */
  ghost predicate UniqueLabels<S(!new), L(!new), K(!new)>(sys: System<S, L, K>) {
    forall s :: Reachable(sys, s) ==> Distinguished(sys.succ(s))
  }

  ghost predicate Distinguished<S, L, K>(steps: seq<Edge<S, L, K>>) {
    forall i, j :: 0 <= i < j < |steps| ==> steps[i].act != steps[j].act
  }

  lemma {:induction false} MatchesUnique<S, L, K>(steps: seq<Edge<S, L, K>>, e: Edge<S, L, K>)
    requires Distinguished(steps) && e in steps
    ensures Matches(steps, e.act) == [e.next]
  {
    if steps[0].act == e.act {
      assert e == steps[0];
      MatchesNone(steps[1..], e.act);
    } else {
      MatchesUnique(steps[1..], e);
    }
  }

  lemma {:induction false} MatchesNone<S, L, K>(steps: seq<Edge<S, L, K>>, l: L)
    requires forall e :: e in steps ==> e.act != l
    ensures Matches(steps, l) == []
  {
    if steps != [] {
      assert steps[0] in steps;
      MatchesNone(steps[1..], l);
    }
  }

  lemma {:induction false} MatchesSound<S, L, K>(steps: seq<Edge<S, L, K>>, l: L, s: S) returns (e: Edge<S, L, K>)
    requires s in Matches(steps, l)
    ensures e in steps && e.act == l && e.next == s
  {
    if steps[0].act == l && steps[0].next == s {
      e := steps[0];
    } else {
      e := MatchesSound(steps[1..], l, s);
    }
  }

  lemma {:induction false} LabelAt<S, L, K>(w: seq<Edge<S, L, K>>, i: nat)
    requires i < |w|
    ensures Labels(w)[i] == Took(w[i].act)
  {
    if i < |w| - 1 {
      LabelAt(w[..|w| - 1], i);
    }
  }

  /** Replaying the labels of a walk follows that walk. */
  lemma {:induction false} ReplayFollows<S(!new), L(!new), K(!new)>(sys: System<S, L, K>, w: seq<Edge<S, L, K>>,
      x: Item<L>, i: nat)
    requires UniqueLabels(sys) && IsWalk(sys, w) && i <= |w|
    ensures ReplayFrom(sys, At(sys, w, i), (Labels(w) + [x])[i..]) == ReplayFrom(sys, End(sys, w), [x])
    decreases |w| - i
  {
    var items := Labels(w) + [x];
    if i == |w| {
      assert items[i..] == [x];
    } else {
      WalkPrefix(sys, w, i);
      assert WalkTo(sys, w[..i], At(sys, w, i));
      MatchesUnique(sys.succ(At(sys, w, i)), w[i]);
      LabelAt(w, i);
      assert items[i..][1..] == items[i + 1..];
      ReplayFollows(sys, w, x, i + 1);
    }
  }

  /** Every trace that exhibits a kind replays: to the target of the violating step, or to the quiescent state. */
  lemma ReplayAccepts<S(!new), L(!new), K(!new)>(sys: System<S, L, K>, k: K, t: seq<Item<L>>) returns (s: S)
    requires UniqueLabels(sys) && Shows(sys, k, t)
    ensures ReplayFrom(sys, sys.start, t) == Some(s) && Reachable(sys, s)
    ensures t[|t| - 1].Quiescent? ==> sys.succ(s) == [] && k in sys.quiet(s)
    ensures t[|t| - 1].Took? ==> exists u, e :: Reachable(sys, u) && e in sys.succ(u) && k in e.found && e.next == s
  {
    var w :| ShownBy(sys, k, t, w);
    var x, u := t[|w|], End(sys, w);
    assert WalkTo(sys, w, u);
    assert t == Labels(w) + [x];
    ReplayFollows(sys, w, x, 0);
    assert t[0..] == t;
    assert [x][1..] == [];
    match x {
      case Quiescent =>
        s := u;
      case Took(l) =>
        var e :| e in sys.succ(u) && k in e.found && e.act == l;
        MatchesUnique(sys.succ(u), e);
        s := e.next;
        StepReaches(sys, u, e);
    }
  }

  /** Whatever a replay accepts, it ends in a reachable state, whether or not labels are unique. */
  lemma {:induction false} ReplaySound<S(!new), L(!new), K(!new)>(sys: System<S, L, K>, s: S, items: seq<Item<L>>)
    requires Reachable(sys, s) && ReplayFrom(sys, s, items).Some?
    ensures Reachable(sys, ReplayFrom(sys, s, items).value)
    decreases |items|
  {
    if items != [] {
      match items[0] {
        case Quiescent => ReplaySound(sys, s, items[1..]);
        case Took(l) =>
          var e := MatchesSound(sys.succ(s), l, Matches(sys.succ(s), l)[0]);
          StepReaches(sys, s, e);
          ReplaySound(sys, e.next, items[1..]);
      }
    }
  }

  /** Step `j` leads to `t` and is the only one that carries the label. */
  ghost predicate OnlyAt<S, L, K>(steps: seq<Edge<S, L, K>>, l: L, j: nat, t: S) {
    && j < |steps| && steps[j].act == l && steps[j].next == t
    && (forall i :: 0 <= i < |steps| && steps[i].act == l ==> i == j)
  }

  ghost predicate OnlyStep<S, L, K>(steps: seq<Edge<S, L, K>>, l: L, t: S) {
    exists j :: OnlyAt(steps, l, j, t)
  }

  ghost predicate ItemLeads<S, L, K>(sys: System<S, L, K>, s: S, x: Item<L>, t: S) {
    match x
    case Quiescent => sys.succ(s) == [] && t == s
    case Took(l) => OnlyStep(sys.succ(s), l, t)
  }

  /** The states that the items lead through. */
  ghost predicate Along<S, L, K>(sys: System<S, L, K>, states: seq<S>, items: seq<Item<L>>) {
    && |states| == |items| + 1
    && forall i :: 0 <= i < |items| ==> ItemLeads(sys, states[i], items[i], states[i + 1])
  }

  lemma {:induction false} MatchesOnly<S, L, K>(steps: seq<Edge<S, L, K>>, l: L, t: S)
    ensures Matches(steps, l) == [t] <==> OnlyStep(steps, l, t)
    ensures Matches(steps, l) == [] <==> forall i :: 0 <= i < |steps| ==> steps[i].act != l
  {
    if steps != [] {
      var rest := steps[1..];
      MatchesOnly(rest, l, t);
      assert forall i :: 0 <= i < |rest| ==> rest[i] == steps[i + 1];
      assert forall i :: 1 <= i < |steps| ==> steps[i] == rest[i - 1];
      if steps[0].act == l {
        assert Matches(steps, l) == [steps[0].next] + Matches(rest, l);
        if Matches(steps, l) == [t] {
          assert Matches(steps, l)[0] == steps[0].next && Matches(rest, l) == [];
          assert OnlyAt(steps, l, 0, t);
        }
        if j: nat :| OnlyAt(steps, l, j, t) { assert j == 0; }
      } else {
        assert Matches(steps, l) == Matches(rest, l);
        if j: nat :| OnlyAt(rest, l, j, t) { assert OnlyAt(steps, l, j + 1, t); }
        if j: nat :| OnlyAt(steps, l, j, t) { assert OnlyAt(rest, l, j - 1, t); }
      }
    }
  }

  /** A replay accepts exactly the items that lead, each by the one step with its label, to where it ends. */
  lemma {:induction false} ReplayExactly<S(!new), L(!new), K(!new)>(sys: System<S, L, K>, s: S, items: seq<Item<L>>,
      t: S)
    ensures ReplayFrom(sys, s, items) == Some(t) <==>
      exists states :: Along(sys, states, items) && states[0] == s && states[|items|] == t
    decreases |items|
  {
    if items == [] {
      assert s == t ==> Along(sys, [s], items);
    } else {
      ReplayFirst(sys, s, items);
      if ReplayFrom(sys, s, items) == Some(t) {
        var u :| ItemLeads(sys, s, items[0], u) && ReplayFrom(sys, s, items) == ReplayFrom(sys, u, items[1..]);
        ReplayExactly(sys, u, items[1..], t);
        var later :| Along(sys, later, items[1..]) && later[0] == u && later[|items| - 1] == t;
        var states := [s] + later;
        forall i | 0 <= i < |items| ensures ItemLeads(sys, states[i], items[i], states[i + 1]) {
          if i > 0 { assert ItemLeads(sys, later[i - 1], items[1..][i - 1], later[i - 1 + 1]); }
        }
        assert Along(sys, states, items);
      }
      if states :| Along(sys, states, items) && states[0] == s && states[|items|] == t {
        assert ItemLeads(sys, s, items[0], states[0 + 1]);
        var later := states[1..];
        forall i | 0 <= i < |items| - 1 ensures ItemLeads(sys, later[i], items[1..][i], later[i + 1]) {
          assert ItemLeads(sys, states[i + 1], items[i + 1], states[i + 1 + 1]);
        }
        assert Along(sys, later, items[1..]);
        ReplayExactly(sys, later[0], items[1..], t);
      }
    }
  }

  lemma ReplayFirst<S(!new), L(!new), K(!new)>(sys: System<S, L, K>, s: S, items: seq<Item<L>>)
    requires items != []
    ensures forall u :: ItemLeads(sys, s, items[0], u) ==> ReplayFrom(sys, s, items) == ReplayFrom(sys, u, items[1..])
    ensures ReplayFrom(sys, s, items).Some? ==> exists u :: (
      ItemLeads(sys, s, items[0], u) && ReplayFrom(sys, s, items) == ReplayFrom(sys, u, items[1..]))
  {
    match items[0]
    case Quiescent =>
      assert sys.succ(s) == [] ==> ItemLeads(sys, s, items[0], s);
    case Took(l) =>
      forall u ensures Matches(sys.succ(s), l) == [u] <==> OnlyStep(sys.succ(s), l, u) {
        MatchesOnly(sys.succ(s), l, u);
      }
      if |Matches(sys.succ(s), l)| == 1 {
        var u := Matches(sys.succ(s), l)[0];
        assert Matches(sys.succ(s), l) == [u] && ItemLeads(sys, s, items[0], u);
      }
  }
}
