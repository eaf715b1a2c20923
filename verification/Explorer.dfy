/** Breadth-first exploration of a transition system, and replay of the traces it reports. */
module Explorer {
  import opened Options
  import opened Transitions

  datatype Report<S, L, K, O> =
    | LimitReached
    | Explored(states: nat, quiescent: nat, violations: map<K, seq<Item<L>>>, outcomes: set<O>)

  type Tree<!S, L> = map<S, Option<(S, L)>>
  type Paths<!S, L, K> = map<S, seq<Edge<S, L, K>>>

  function Max(a: nat, b: nat): nat {
    if a < b then b else a
  }

  /** `paths` unfolds the parent table: every entry is a walk that ends in its own key. */
  ghost predicate Rooted<S(!new), L(!new), K(!new)>(sys: System<S, L, K>, parent: Tree<S, L>, paths: Paths<S, L, K>) {
    && parent.Keys == paths.Keys
    && sys.start in parent && paths[sys.start] == []
    && (forall s :: s in paths ==> WalkTo(sys, paths[s], s))
    && (forall s {:trigger Linked(parent, paths, s)} :: s in parent ==> Linked(parent, paths, s))
  }

  ghost predicate Linked<S, L, K>(parent: Tree<S, L>, paths: Paths<S, L, K>, s: S)
    requires s in parent && s in paths
  {
    match parent[s]
    case None => paths[s] == []
    case Some((p, l)) =>
      && p in paths
      && |paths[s]| == |paths[p]| + 1
      && paths[s][..|paths[p]|] == paths[p]
      && paths[s][|paths[p]|].act == l
  }

  /** The queue holds known states once each, nearest first, at depth `d` or `d + 1`. */
  ghost predicate Queued<S(!new), L(!new), K(!new)>(paths: Paths<S, L, K>, queue: seq<S>, d: nat) {
    && (forall i :: 0 <= i < |queue| ==> queue[i] in paths && d <= |paths[queue[i]]| <= d + 1)
    && (forall i, j :: 0 <= i < j < |queue| ==> queue[i] != queue[j] && |paths[queue[i]]| <= |paths[queue[j]]|)
  }

  /** The first `n` successors of `s` are known, and no farther than one step beyond `s`. */
  ghost predicate Settled<S(!new), L(!new), K(!new)>(sys: System<S, L, K>, paths: Paths<S, L, K>, s: S, n: nat) {
    s in paths && forall i :: 0 <= i < n && i < |sys.succ(s)| ==>
      var e := sys.succ(s)[i]; e.next in paths && |paths[e.next]| <= |paths[s]| + 1
  }

  ghost predicate Done<S(!new), L(!new), K(!new)>(sys: System<S, L, K>, paths: Paths<S, L, K>, s: S, d: nat) {
    s in paths && |paths[s]| <= d && Settled(sys, paths, s, |sys.succ(s)|)
  }

  /** Recorded traces are genuine, and no longer than the depth reached. */
  ghost predicate Recorded<S(!new), L(!new), K(!new)>(sys: System<S, L, K>, traces: map<K, seq<Item<L>>>, d: nat) {
    forall k :: k in traces ==> Shows(sys, k, traces[k]) && |traces[k]| <= d + 1
  }

  /** Every kind that `s` carries has a trace at least as short as one through `s`. */
  ghost predicate Covered<S(!new), L(!new), K(!new)>(sys: System<S, L, K>, paths: Paths<S, L, K>,
      traces: map<K, seq<Item<L>>>, s: S) {
    s in paths && forall k :: Carries(sys, s, k) ==> k in traces && |traces[k]| <= |paths[s]| + 1
  }

  /** Following the parent table back from `s` spells the labels of its path. */
  method Trace<S(==,!new), L(!new), K(!new)>(ghost sys: System<S, L, K>, parent: Tree<S, L>,
      ghost paths: Paths<S, L, K>, s: S, last: Item<L>)
    returns (items: seq<Item<L>>)
    requires Rooted(sys, parent, paths) && s in parent
    ensures items == Labels(paths[s]) + [last]
  {
    items := [last];
    var k := s;
    while parent[k].Some?
      invariant k in parent
      invariant Labels(paths[k]) + items == Labels(paths[s]) + [last]
      decreases |paths[k]|
    {
      assert Linked(parent, paths, k);
      var (p, l) := parent[k].value;
      assert Labels(paths[k]) == Labels(paths[p]) + [Took(l)];
      items := [Took(l)] + items;
      k := p;
    }
    assert Linked(parent, paths, k);
  }

  /** `setdefault` for each kind found, with one common trace. */
  method SetDefaults<K(==), T>(traces: map<K, T>, found: seq<K>, t: T) returns (r: map<K, T>)
    ensures r.Keys == traces.Keys + set k | k in found
    ensures forall k :: k in traces ==> r[k] == traces[k]
    ensures forall k :: k in r && k !in traces ==> r[k] == t
  {
    r := traces;
    for i := 0 to |found|
      invariant r.Keys == traces.Keys + set k | k in found[..i]
      invariant forall k :: k in traces ==> r[k] == traces[k]
      invariant forall k :: k in r && k !in traces ==> r[k] == t
    {
      if found[i] !in r {
        r := r[found[i] := t];
      }
      assert found[..i + 1] == found[..i] + [found[i]];
    }
  }

  lemma SettledAllNext<S(!new), L(!new), K(!new)>(sys: System<S, L, K>, paths: Paths<S, L, K>, s: S, e: Edge<S, L, K>)
    requires Settled(sys, paths, s, |sys.succ(s)|) && e in sys.succ(s)
    ensures e.next in paths && |paths[e.next]| <= |paths[s]| + 1
  {
  }

  /** Once every known state is settled, every walk ends in a known state, along a path no longer than it. */
  lemma {:induction false} WalksKnown<S(!new), L(!new), K(!new)>(sys: System<S, L, K>, paths: Paths<S, L, K>,
      w: seq<Edge<S, L, K>>, n: nat)
    requires sys.start in paths && paths[sys.start] == []
    requires forall s :: s in paths ==> Settled(sys, paths, s, |sys.succ(s)|)
    requires IsWalk(sys, w) && n <= |w|
    ensures At(sys, w, n) in paths && |paths[At(sys, w, n)]| <= n
  {
    if n > 0 {
      WalksKnown(sys, paths, w, n - 1);
      SettledAllNext(sys, paths, At(sys, w, n - 1), w[n - 1]);
    }
  }

  ghost predicate Extends<S, L, K>(paths: Paths<S, L, K>, more: Paths<S, L, K>) {
    forall s :: s in paths ==> s in more && more[s] == paths[s]
  }

  /** The states that joined the paths are the ones that joined the queue. */
  ghost predicate Fresh<S(!new), L, K>(paths0: Paths<S, L, K>, paths: Paths<S, L, K>, queue0: seq<S>, queue: seq<S>) {
    && (forall u :: u in queue0 ==> u in queue)
    && (forall u :: u in queue && u !in queue0 ==> u !in paths0)
    && (forall u :: u in paths && u !in paths0 ==> u in queue)
  }

  /** What holds between the processing of two edges of `s`: all states outside the queue but `s` are done. */
  ghost predicate Frontier<S(!new), L(!new), K(!new)>(sys: System<S, L, K>, parent: Tree<S, L>, paths: Paths<S, L, K>,
      queue: seq<S>, s: S) {
    && Rooted(sys, parent, paths)
    && s in paths && s !in queue
    && Queued(paths, queue, |paths[s]|)
    && (forall u {:trigger Done(sys, paths, u, |paths[s]|)} :: u in paths && u !in queue && u != s ==>
      Done(sys, paths, u, |paths[s]|))
  }

  lemma RootedGrows<S(!new), L(!new), K(!new)>(sys: System<S, L, K>, parent: Tree<S, L>, paths: Paths<S, L, K>, s: S,
      e: Edge<S, L, K>)
    requires Rooted(sys, parent, paths) && s in paths
    requires e in sys.succ(s) && e.next !in parent
    ensures Rooted(sys, parent[e.next := Some((s, e.act))], paths[e.next := paths[s] + [e]])
  {
    assert WalkTo(sys, paths[s], s);
    WalkExtends(sys, paths[s], e);
    var parent', paths' := parent[e.next := Some((s, e.act))], paths[e.next := paths[s] + [e]];
    forall u | u in parent' ensures Linked(parent', paths', u) {
      if u == e.next {
        assert paths'[u][..|paths'[s]|] == paths'[s];
      } else {
        assert Linked(parent, paths, u);
      }
    }
  }

  /** Linking a fresh successor of `s` at the back of the queue keeps the frontier. */
  lemma FrontierGrows<S(!new), L(!new), K(!new)>(sys: System<S, L, K>, parent: Tree<S, L>, paths: Paths<S, L, K>,
      queue: seq<S>, s: S, e: Edge<S, L, K>)
    requires Frontier(sys, parent, paths, queue, s)
    requires e in sys.succ(s) && e.next !in parent
    ensures Frontier(sys, parent[e.next := Some((s, e.act))], paths[e.next := paths[s] + [e]], queue + [e.next], s)
    ensures Extends(paths, paths[e.next := paths[s] + [e]])
  {
    RootedGrows(sys, parent, paths, s, e);
    var parent', paths' := parent[e.next := Some((s, e.act))], paths[e.next := paths[s] + [e]];
    forall u | u in paths' && u !in queue + [e.next] && u != s ensures Done(sys, paths', u, |paths'[s]|) {
      assert e.next in queue + [e.next];
      assert Done(sys, paths, u, |paths[s]|);
    }
  }

  /** Records a trace through `s` for each kind found there that has none yet. */
  method Note<S(==,!new), L(!new), K(==,!new)>(ghost sys: System<S, L, K>, parent: Tree<S, L>,
      ghost paths: Paths<S, L, K>, traces0: map<K, seq<Item<L>>>, s: S, found: seq<K>, x: Item<L>)
    returns (traces: map<K, seq<Item<L>>>)
    requires Rooted(sys, parent, paths) && s in paths
    requires Recorded(sys, traces0, |paths[s]|)
    requires forall k :: k in found ==> Exhibits(sys, s, k, x)
    ensures Recorded(sys, traces, |paths[s]|)
    ensures forall k :: k in traces0 ==> k in traces && traces[k] == traces0[k]
    ensures forall k :: k in found ==> k in traces
  {
    var t := Trace(sys, parent, paths, s, x);
    traces := SetDefaults(traces0, found, t);
    assert WalkTo(sys, paths[s], s);
    forall k | k in found ensures Shows(sys, k, t) {
      EvidenceShows(sys, k, paths[s], x);
    }
  }

  lemma CoveredFromNotes<S(!new), L(!new), K(!new)>(sys: System<S, L, K>, paths: Paths<S, L, K>,
      traces: map<K, seq<Item<L>>>, s: S)
    requires s in paths && Recorded(sys, traces, |paths[s]|)
    requires sys.succ(s) == [] ==> forall k :: k in sys.quiet(s) ==> k in traces
    requires forall e, k :: e in sys.succ(s) && k in e.found ==> k in traces
    ensures Covered(sys, paths, traces, s)
  {
  }

  lemma FreshRefl<S(!new), L, K>(paths: Paths<S, L, K>, queue: seq<S>)
    ensures Extends(paths, paths) && Fresh(paths, paths, queue, queue)
  {
  }

  lemma FreshTrans<S(!new), L, K>(paths0: Paths<S, L, K>, queue0: seq<S>, paths1: Paths<S, L, K>, queue1: seq<S>,
      paths2: Paths<S, L, K>, queue2: seq<S>)
    requires Extends(paths0, paths1) && Fresh(paths0, paths1, queue0, queue1)
    requires Extends(paths1, paths2) && Fresh(paths1, paths2, queue1, queue2)
    ensures Extends(paths0, paths2) && Fresh(paths0, paths2, queue0, queue2)
  {
  }

  lemma SettledGrows<S(!new), L(!new), K(!new)>(sys: System<S, L, K>, paths: Paths<S, L, K>, more: Paths<S, L, K>, s: S,
      n: nat)
    requires Settled(sys, paths, s, n) && Extends(paths, more) && n < |sys.succ(s)|
    requires var e := sys.succ(s)[n]; e.next in more && |more[e.next]| <= |more[s]| + 1
    ensures Settled(sys, more, s, n + 1) && more[s] == paths[s]
  {
  }

  lemma NoneSettled<S(!new), L(!new), K(!new)>(sys: System<S, L, K>, paths: Paths<S, L, K>, s: S)
    requires s in paths
    ensures Settled(sys, paths, s, 0)
  {
  }

  lemma EdgeExhibits<S(!new), L(!new), K(!new)>(sys: System<S, L, K>, s: S, i: nat)
    requires i < |sys.succ(s)|
    ensures forall k :: k in sys.succ(s)[i].found ==> Exhibits(sys, s, k, Took(sys.succ(s)[i].act))
  {
  }

  lemma QuietExhibits<S(!new), L(!new), K(!new)>(sys: System<S, L, K>, s: S)
    requires sys.succ(s) == []
    ensures forall k :: k in sys.quiet(s) ==> Exhibits(sys, s, k, Quiescent)
  {
  }

  lemma FrontierKnows<S(!new), L(!new), K(!new)>(sys: System<S, L, K>, parent: Tree<S, L>, paths: Paths<S, L, K>,
      queue: seq<S>, s: S)
    requires Frontier(sys, parent, paths, queue, s)
    ensures Rooted(sys, parent, paths) && s in paths
  {
  }

  lemma FrontierNear<S(!new), L(!new), K(!new)>(sys: System<S, L, K>, parent: Tree<S, L>, paths: Paths<S, L, K>,
      queue: seq<S>, s: S, u: S)
    requires Frontier(sys, parent, paths, queue, s) && u in parent
    ensures |paths[u]| <= |paths[s]| + 1
  {
    assert u == s || u in queue || Done(sys, paths, u, |paths[s]|);
  }

  lemma OverLimit<S(!new), L(!new), K(!new)>(sys: System<S, L, K>, parent: Tree<S, L>, paths: Paths<S, L, K>, s: S,
      e: Edge<S, L, K>)
    requires Rooted(sys, parent, paths) && s in paths
    requires e in sys.succ(s) && e.next !in parent
    ensures |parent.Keys + {e.next}| == |parent| + 1
    ensures forall u :: u in parent.Keys + {e.next} ==> Reachable(sys, u)
  {
    assert WalkTo(sys, paths[s], s);
    StepReaches(sys, s, e);
    forall u | u in parent ensures Reachable(sys, u) {
      assert WalkTo(sys, paths[u], u);
    }
  }

  /** Enqueues the target of one edge of `s` unless it was seen before. */
  method Visit<S(==,!new), L(!new), K(!new)>(ghost sys: System<S, L, K>, parent0: Tree<S, L>,
      ghost paths0: Paths<S, L, K>, queue0: seq<S>, s: S, e: Edge<S, L, K>, limit: nat)
    returns (ok: bool, parent: Tree<S, L>, ghost paths: Paths<S, L, K>, queue: seq<S>)
    requires Frontier(sys, parent0, paths0, queue0, s) && e in sys.succ(s)
    requires |parent0| <= Max(limit, 1)
    ensures Frontier(sys, parent, paths, queue, s) && Extends(paths0, paths) && Fresh(paths0, paths, queue0, queue)
    ensures |parent| <= Max(limit, 1)
    ensures |parent| - |parent0| == |queue| - |queue0| >= 0
    ensures ok ==> e.next in paths && |paths[e.next]| <= |paths[s]| + 1
    ensures !ok ==> parent == parent0 && paths == paths0 && |parent| == Max(limit, 1) && e.next !in parent
  {
    ok, parent, paths, queue := true, parent0, paths0, queue0;
    if e.next in parent {
      FrontierNear(sys, parent, paths, queue, s, e.next);
    } else if |parent| >= limit {
      assert |parent| >= 1 by { assert s in parent; }
      ok := false;
    } else {
      FrontierGrows(sys, parent, paths, queue, s, e);
      parent := parent[e.next := Some((s, e.act))];
      paths := paths[e.next := paths[s] + [e]];
      queue := queue + [e.next];
    }
  }

  /** Processes every edge of `s`: records the kinds found and enqueues the states not seen before. */
  method Expand<S(==,!new), L(!new), K(==,!new)>(sys: System<S, L, K>, parent0: Tree<S, L>,
      ghost paths0: Paths<S, L, K>, queue0: seq<S>, traces0: map<K, seq<Item<L>>>, s: S, limit: nat)
    returns (ok: bool, parent: Tree<S, L>, ghost paths: Paths<S, L, K>, queue: seq<S>, traces: map<K, seq<Item<L>>>,
             ghost seen: set<S>)
    requires Frontier(sys, parent0, paths0, queue0, s)
    requires Recorded(sys, traces0, |paths0[s]|)
    requires |parent0| <= Max(limit, 1)
    ensures Frontier(sys, parent, paths, queue, s) && Extends(paths0, paths) && Fresh(paths0, paths, queue0, queue)
    ensures Recorded(sys, traces, |paths[s]|)
    ensures forall k :: k in traces0 ==> k in traces && traces[k] == traces0[k]
    ensures |parent| <= Max(limit, 1)
    ensures |parent| - |parent0| == |queue| - |queue0| >= 0
    ensures ok ==> Settled(sys, paths, s, |sys.succ(s)|) && Covered(sys, paths, traces, s)
    ensures !ok ==> |seen| == Max(limit, 1) + 1 && forall u :: u in seen ==> Reachable(sys, u)
  {
    hide Frontier, Recorded, Covered, Extends, Fresh, Reachable, Rooted, Settled, Exhibits;
    ok, parent, paths, queue, traces, seen := true, parent0, paths0, queue0, traces0, {};
    FreshRefl(paths0, queue0);
    FrontierKnows(sys, parent, paths, queue, s);
    NoneSettled(sys, paths, s);
    var steps := sys.succ(s);
    if steps == [] {
      QuietExhibits(sys, s);
      traces := Note(sys, parent, paths, traces, s, sys.quiet(s), Quiescent);
    }
    for i := 0 to |steps|
      invariant s in paths && Frontier(sys, parent, paths, queue, s) && Extends(paths0, paths) &&
        Fresh(paths0, paths, queue0, queue)
      invariant Recorded(sys, traces, |paths[s]|)
      invariant forall k :: k in traces0 ==> k in traces && traces[k] == traces0[k]
      invariant |parent| <= Max(limit, 1)
      invariant |parent| - |parent0| == |queue| - |queue0| >= 0
      invariant Settled(sys, paths, s, i)
      invariant steps == [] ==> forall k :: k in sys.quiet(s) ==> k in traces
      invariant forall j, k :: 0 <= j < i && k in steps[j].found ==> k in traces
    {
      var e := steps[i];
      FrontierKnows(sys, parent, paths, queue, s);
      EdgeExhibits(sys, s, i);
      traces := Note(sys, parent, paths, traces, s, e.found, Took(e.act));
      ghost var paths1, queue1 := paths, queue;
      ok, parent, paths, queue := Visit(sys, parent, paths, queue, s, e, limit);
      FreshTrans(paths0, queue0, paths1, queue1, paths, queue);
      if !ok {
        seen := parent.Keys + {e.next};
        OverLimit(sys, parent, paths, s, e);
        return;
      }
      SettledGrows(sys, paths1, paths, s, i);
    }
    CoveredFromNotes(sys, paths, traces, s);
  }

  /** What holds between two dequeuings: every known state outside the queue is done, its kinds covered. */
  ghost predicate Sweep<S(!new), L(!new), K(!new)>(sys: System<S, L, K>, parent: Tree<S, L>, paths: Paths<S, L, K>,
      queue: seq<S>, traces: map<K, seq<Item<L>>>, d: nat) {
    && Rooted(sys, parent, paths)
    && Queued(paths, queue, d)
    && (forall u {:trigger Done(sys, paths, u, d)} :: u in paths && u !in queue ==> Done(sys, paths, u, d))
    && Recorded(sys, traces, d)
    && (forall u {:trigger Covered(sys, paths, traces, u)} :: u in paths && u !in queue ==>
      Covered(sys, paths, traces, u))
  }

  lemma Dequeued<S(!new), L(!new), K(!new)>(sys: System<S, L, K>, parent: Tree<S, L>, paths: Paths<S, L, K>,
      queue: seq<S>, traces: map<K, seq<Item<L>>>, d: nat)
    requires Sweep(sys, parent, paths, queue, traces, d) && queue != []
    ensures queue[0] in paths && d <= |paths[queue[0]]| <= d + 1
    ensures Frontier(sys, parent, paths, queue[1..], queue[0])
    ensures Recorded(sys, traces, |paths[queue[0]]|)
  {
    var s, rest := queue[0], queue[1..];
    assert forall u :: u in queue <==> u == s || u in rest;
    forall u | u in paths && u !in rest && u != s ensures Done(sys, paths, u, |paths[s]|) {
      assert Done(sys, paths, u, d);
    }
  }

  lemma Swept<S(!new), L(!new), K(!new)>(sys: System<S, L, K>, parent0: Tree<S, L>, paths0: Paths<S, L, K>,
      queue0: seq<S>, traces0: map<K, seq<Item<L>>>, d: nat, parent: Tree<S, L>, paths: Paths<S, L, K>, queue: seq<S>,
      traces: map<K, seq<Item<L>>>)
    requires Sweep(sys, parent0, paths0, queue0, traces0, d) && queue0 != []
    requires Frontier(sys, parent, paths, queue, queue0[0])
    requires Extends(paths0, paths) && Fresh(paths0, paths, queue0[1..], queue)
    requires Recorded(sys, traces, |paths[queue0[0]]|)
    requires forall k :: k in traces0 ==> k in traces && traces[k] == traces0[k]
    requires Settled(sys, paths, queue0[0], |sys.succ(queue0[0])|) && Covered(sys, paths, traces, queue0[0])
    ensures queue0[0] in paths0 && Sweep(sys, parent, paths, queue, traces, |paths0[queue0[0]]|)
    ensures forall u :: u in paths && u !in queue <==> u in paths0 && (u !in queue0 || u == queue0[0])
  {
    var s := queue0[0];
    assert forall u :: u in queue0 <==> u == s || u in queue0[1..];
    forall u | u in paths && u !in queue && u != s
      ensures Done(sys, paths, u, |paths[s]|) && Covered(sys, paths, traces, u)
    {
      assert Done(sys, paths, u, |paths[s]|);
      assert Covered(sys, paths0, traces0, u);
    }
  }

  /** With nothing left to process, the tables answer for every reachable state. */
  lemma Exhausted<S(!new), L(!new), K(!new)>(sys: System<S, L, K>, parent: Tree<S, L>, paths: Paths<S, L, K>,
      traces: map<K, seq<Item<L>>>, d: nat)
    requires Sweep(sys, parent, paths, [], traces, d)
    ensures parent.Keys == paths.Keys
    ensures forall s :: s in paths <==> Reachable(sys, s)
    ensures forall k :: k in traces <==> Violates(sys, k)
    ensures forall k :: k in traces ==> Shows(sys, k, traces[k]) && forall t :: Shows(sys, k, t) ==> |traces[k]| <= |t|
  {
    assert forall u :: u in paths ==> Done(sys, paths, u, d);
    forall s ensures s in paths <==> Reachable(sys, s) {
      if s in paths { assert WalkTo(sys, paths[s], s); }
      if w :| WalkTo(sys, w, s) { WalksKnown(sys, paths, w, |w|); }
    }
    forall k, t | Shows(sys, k, t) ensures k in traces && |traces[k]| <= |t| {
      var w :| ShownBy(sys, k, t, w);
      WalksKnown(sys, paths, w, |w|);
      assert Covered(sys, paths, traces, End(sys, w));
      assert Carries(sys, End(sys, w), k);
    }
  }

  /** The quiescent states processed so far, and their outcomes. */
  ghost function Idle<S(!new), L, K>(sys: System<S, L, K>, paths: Paths<S, L, K>, queue: seq<S>): set<S> {
    set u | u in paths && u !in queue && sys.succ(u) == []
  }

  function Image<S, O>(outcome: S -> O, states: set<S>): set<O> {
    set u | u in states :: outcome(u)
  }

  lemma IdleGrows<S(!new), L(!new), K(!new), O>(sys: System<S, L, K>, outcome: S -> O, paths0: Paths<S, L, K>,
      queue0: seq<S>, paths: Paths<S, L, K>, queue: seq<S>)
    requires queue0 != []
    requires forall u :: u in paths && u !in queue <==> u in paths0 && (u !in queue0 || u == queue0[0])
    ensures sys.succ(queue0[0]) != [] ==> Idle(sys, paths, queue) == Idle(sys, paths0, queue0)
    ensures sys.succ(queue0[0]) == [] && queue0[0] in paths0 ==>
      && |Idle(sys, paths, queue)| == |Idle(sys, paths0, queue0)| + 1
      && Image(outcome, Idle(sys, paths, queue)) == Image(outcome, Idle(sys, paths0, queue0)) + {outcome(queue0[0])}
  {
    var s := queue0[0];
    if sys.succ(s) == [] && s in paths0 {
      assert Idle(sys, paths, queue) == Idle(sys, paths0, queue0) + {s};
    } else if sys.succ(s) != [] {
      assert Idle(sys, paths, queue) == Idle(sys, paths0, queue0);
    }
  }

  lemma Begun<S(!new), L(!new), K(!new), O>(sys: System<S, L, K>, outcome: S -> O)
    ensures Sweep(sys, map[sys.start := None], map[sys.start := []], [sys.start], map[], 0)
    ensures |Idle(sys, map[sys.start := []], [sys.start])| == 0
    ensures Image(outcome, Idle(sys, map[sys.start := []], [sys.start])) == {}
  {
    assert sys.start in [sys.start];
    assert Idle(sys, map[sys.start := []], [sys.start]) == {};
  }

  lemma AllIdle<S(!new), L(!new), K(!new)>(sys: System<S, L, K>, paths: Paths<S, L, K>)
    ensures Idle(sys, paths, []) == IdleStates(sys, paths.Keys)
  {
  }

  /** The states of `seen` that enable no step. */
  ghost function IdleStates<S(!new), L, K>(sys: System<S, L, K>, seen: set<S>): set<S> {
    set s | s in seen && sys.succ(s) == []
  }

  /** Breadth-first exploration from the start state, giving up when more than `limit` states are known. */
  method Explore<S(==,!new), L(!new), K(==,!new), O(==)>(sys: System<S, L, K>, outcome: S -> O, limit: nat)
    returns (r: Report<S, L, K, O>, ghost seen: set<S>)
    ensures r.LimitReached? ==> |seen| == Max(limit, 1) + 1 && forall s :: s in seen ==> Reachable(sys, s)
    ensures r.Explored? ==> |seen| == r.states <= Max(limit, 1)
    ensures r.Explored? ==> forall s :: s in seen <==> Reachable(sys, s)
    ensures r.Explored? ==> r.quiescent == |IdleStates(sys, seen)|
    ensures r.Explored? ==> r.outcomes == Image(outcome, IdleStates(sys, seen))
    ensures r.Explored? ==> forall k :: k in r.violations <==> Violates(sys, k)
    ensures r.Explored? ==> forall k :: k in r.violations ==>
      Shows(sys, k, r.violations[k]) && forall t :: Shows(sys, k, t) ==> |r.violations[k]| <= |t|
  {
    hide Sweep, Frontier, Recorded, Covered, Settled, Extends, Fresh, Idle;
    var parent: Tree<S, L> := map[sys.start := None];
    ghost var paths: Paths<S, L, K> := map[sys.start := []];
    var queue := [sys.start];
    var traces: map<K, seq<Item<L>>> := map[];
    var quiescent := 0;
    var outcomes: set<O> := {};
    ghost var d: nat := 0;
    Begun(sys, outcome);
    while queue != []
      invariant Sweep(sys, parent, paths, queue, traces, d)
      invariant |parent| <= Max(limit, 1)
      invariant quiescent == |Idle(sys, paths, queue)| && outcomes == Image(outcome, Idle(sys, paths, queue))
      decreases Max(limit, 1) - |parent|, |queue|
    {
      Dequeued(sys, parent, paths, queue, traces, d);
      ghost var parent0, paths0, queue0, traces0, d0 := parent, paths, queue, traces, d;
      var s := queue[0];
      d := |paths[s]|;
      queue := queue[1..];
      if sys.succ(s) == [] {
        quiescent := quiescent + 1;
        outcomes := outcomes + {outcome(s)};
      }
      var ok;
      ok, parent, paths, queue, traces, seen := Expand(sys, parent, paths, queue, traces, s, limit);
      if !ok {
        return LimitReached, seen;
      }
      Swept(sys, parent0, paths0, queue0, traces0, d0, parent, paths, queue, traces);
      IdleGrows(sys, outcome, paths0, queue0, paths, queue);
    }
    Exhausted(sys, parent, paths, traces, d);
    seen := paths.Keys;
    AllIdle(sys, paths);
    r := Explored(|parent|, quiescent, traces, outcomes);
  }
}
