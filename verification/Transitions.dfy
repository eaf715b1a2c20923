/** Labelled transition systems: walks, reachability, and what counts as evidence of a violation. */
module Transitions {
  /** One enabled step: its label, the state it leads to, the violation kinds it exhibits. */
  datatype Edge<S, L, K> = Edge(act: L, next: S, found: seq<K>)

  /** `succ` lists the enabled steps; `quiet` lists the violations of a state with none. */
  datatype System<!S, !L, !K> = System(start: S, succ: S -> seq<Edge<S, L, K>>, quiet: S -> seq<K>)

  /** A trace ends in the label of the violating step, or in the marker of a quiescent state. */
  datatype Item<L> = Took(act: L) | Quiescent

  /** The state before step `i` of the walk `w`. */
  function At<S, L, K>(sys: System<S, L, K>, w: seq<Edge<S, L, K>>, i: nat): S
    requires i <= |w|
  {
    if i == 0 then sys.start else w[i - 1].next
  }

  function End<S, L, K>(sys: System<S, L, K>, w: seq<Edge<S, L, K>>): S {
    At(sys, w, |w|)
  }

  ghost predicate IsWalk<S, L, K>(sys: System<S, L, K>, w: seq<Edge<S, L, K>>) {
    forall i {:trigger At(sys, w, i)} :: 0 <= i < |w| ==> w[i] in sys.succ(At(sys, w, i))
  }

  ghost predicate WalkTo<S, L, K>(sys: System<S, L, K>, w: seq<Edge<S, L, K>>, s: S) {
    IsWalk(sys, w) && End(sys, w) == s
  }

  ghost predicate Reachable<S(!new), L(!new), K(!new)>(sys: System<S, L, K>, s: S) {
    exists w :: WalkTo(sys, w, s)
  }

  function Labels<S, L, K>(w: seq<Edge<S, L, K>>): (t: seq<Item<L>>)
    ensures |t| == |w|
  {
    if w == [] then [] else Labels(w[..|w| - 1]) + [Took(w[|w| - 1].act)]
  }

  /** State `s` exhibits kind `k`, on one of its steps or by being quiescent. */
  ghost predicate Carries<S(!new), L(!new), K(!new)>(sys: System<S, L, K>, s: S, k: K) {
    || (exists e :: e in sys.succ(s) && k in e.found)
    || (sys.succ(s) == [] && k in sys.quiet(s))
  }

  /** After the walk `w`, the last item `x` of a trace exhibits kind `k`. */
  ghost predicate Exhibits<S(!new), L(!new), K(!new)>(sys: System<S, L, K>, s: S, k: K, x: Item<L>) {
    match x
    case Took(l) => exists e :: e in sys.succ(s) && k in e.found && e.act == l
    case Quiescent => sys.succ(s) == [] && k in sys.quiet(s)
  }

  ghost predicate ShownBy<S(!new), L(!new), K(!new)>(sys: System<S, L, K>, k: K, t: seq<Item<L>>,
      w: seq<Edge<S, L, K>>) {
    && IsWalk(sys, w)
    && |t| == |w| + 1
    && t[..|w|] == Labels(w)
    && Exhibits(sys, End(sys, w), k, t[|w|])
  }

  /** `t` is a trace from the start state that exhibits kind `k` at its end. */
  ghost predicate Shows<S(!new), L(!new), K(!new)>(sys: System<S, L, K>, k: K, t: seq<Item<L>>) {
    exists w :: ShownBy(sys, k, t, w)
  }

  ghost predicate Violates<S(!new), L(!new), K(!new)>(sys: System<S, L, K>, k: K) {
    exists t :: Shows(sys, k, t)
  }

  lemma WalkExtends<S, L, K>(sys: System<S, L, K>, w: seq<Edge<S, L, K>>, e: Edge<S, L, K>)
    requires IsWalk(sys, w) && e in sys.succ(End(sys, w))
    ensures IsWalk(sys, w + [e]) && End(sys, w + [e]) == e.next
    ensures Labels(w + [e]) == Labels(w) + [Took(e.act)]
  {
    var v := w + [e];
    assert v[..|w|] == w;
    forall i | 0 <= i < |v| ensures v[i] in sys.succ(At(sys, v, i)) {
      assert At(sys, v, i) == At(sys, w, i);
    }
  }

  lemma WalkPrefix<S, L, K>(sys: System<S, L, K>, w: seq<Edge<S, L, K>>, n: nat)
    requires IsWalk(sys, w) && n <= |w|
    ensures IsWalk(sys, w[..n]) && End(sys, w[..n]) == At(sys, w, n)
  {
    forall i | 0 <= i < n ensures w[..n][i] in sys.succ(At(sys, w[..n], i)) {
      assert At(sys, w[..n], i) == At(sys, w, i);
    }
  }

  lemma StepReaches<S(!new), L(!new), K(!new)>(sys: System<S, L, K>, s: S, e: Edge<S, L, K>)
    requires Reachable(sys, s) && e in sys.succ(s)
    ensures Reachable(sys, e.next)
  {
    var w :| WalkTo(sys, w, s);
    WalkExtends(sys, w, e);
    assert WalkTo(sys, w + [e], e.next);
  }

  lemma WalkReaches<S(!new), L(!new), K(!new)>(sys: System<S, L, K>, w: seq<Edge<S, L, K>>)
    requires IsWalk(sys, w)
    ensures Reachable(sys, End(sys, w))
  {
    assert WalkTo(sys, w, End(sys, w));
  }

  /** A kind that some step of a walk exhibits is violated. */
  lemma WalkViolates<S(!new), L(!new), K(!new)>(sys: System<S, L, K>, w: seq<Edge<S, L, K>>, i: nat, k: K)
    requires IsWalk(sys, w) && i < |w| && k in w[i].found
    ensures Violates(sys, k)
  {
    WalkPrefix(sys, w, i);
    assert w[i] in sys.succ(At(sys, w, i));
    EvidenceShows(sys, k, w[..i], Took(w[i].act));
  }

  lemma StartReachable<S(!new), L(!new), K(!new)>(sys: System<S, L, K>)
    ensures Reachable(sys, sys.start)
  {
    var w: seq<Edge<S, L, K>> := [];
    assert WalkTo(sys, w, sys.start);
  }

  /** An invariant that holds at the start and across every step holds in every reachable state. */
  lemma Invariant<S(!new), L(!new), K(!new)>(sys: System<S, L, K>, inv: S -> bool)
    requires inv(sys.start)
    requires forall s, e :: inv(s) && e in sys.succ(s) ==> inv(e.next)
    ensures forall s :: Reachable(sys, s) ==> inv(s)
  {
    forall s | Reachable(sys, s) ensures inv(s) {
      var w :| WalkTo(sys, w, s);
      InvariantAlong(sys, inv, w, |w|);
    }
  }

  lemma {:induction false} InvariantAlong<S(!new), L(!new), K(!new)>(sys: System<S, L, K>, inv: S -> bool,
      w: seq<Edge<S, L, K>>, i: nat)
    requires inv(sys.start) && IsWalk(sys, w) && i <= |w|
    requires forall s, e :: inv(s) && e in sys.succ(s) ==> inv(e.next)
    ensures inv(At(sys, w, i))
  {
    if i > 0 {
      InvariantAlong(sys, inv, w, i - 1);
      assert w[i - 1] in sys.succ(At(sys, w, i - 1));
    }
  }

  lemma EvidenceShows<S(!new), L(!new), K(!new)>(sys: System<S, L, K>, k: K, w: seq<Edge<S, L, K>>, x: Item<L>)
    requires IsWalk(sys, w) && Exhibits(sys, End(sys, w), k, x)
    ensures Shows(sys, k, Labels(w) + [x])
  {
    var t := Labels(w) + [x];
    assert t[..|w|] == Labels(w);
    assert ShownBy(sys, k, t, w);
  }

  /** A kind is violated exactly when some reachable state carries it. */
  lemma ViolatesIffCarried<S(!new), L(!new), K(!new)>(sys: System<S, L, K>, k: K)
    ensures Violates(sys, k) <==> exists s :: Reachable(sys, s) && Carries(sys, s, k)
  {
    if Violates(sys, k) {
      var t :| Shows(sys, k, t);
      var w :| ShownBy(sys, k, t, w);
      assert WalkTo(sys, w, End(sys, w)) && Reachable(sys, End(sys, w)) && Carries(sys, End(sys, w), k);
    }
    if s :| Reachable(sys, s) && Carries(sys, s, k) {
      var w :| WalkTo(sys, w, s);
      if e :| e in sys.succ(s) && k in e.found {
        EvidenceShows(sys, k, w, Took(e.act));
      } else {
        EvidenceShows(sys, k, w, Quiescent);
      }
    }
  }
}
