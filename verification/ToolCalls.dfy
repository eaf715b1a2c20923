/** Streamed tool calls: fragments of several calls arrive interleaved and are put together by index. */
module ToolCalls {
  import opened Options

  datatype Call = Call(id: string, name: string, arguments: string)

  /** A fragment; a missing index counts as zero, and `Other` stands for an entry that is not a record. */
  datatype Delta = Delta(index: Option<int>, id: Option<string>, name: Option<string>,
                         arguments: Option<string>) | Other

  /** A choice without a list of tool calls, and an event without a list of choices, contribute nothing. */
  datatype Choice = NoCalls | Calls(deltas: seq<Delta>)

  datatype Event = NoChoices | Choices(choices: seq<Choice>)

  const EMPTY := Call("", "", "")

  function Index(d: Delta): int
    requires d.Delta?
  {
    if d.index.Some? then d.index.value else 0
  }

  function Text(fragment: Option<string>): string {
    if fragment.Some? then fragment.value else ""
  }

  function Extend(c: Call, d: Delta): Call
    requires d.Delta?
  {
    Call(c.id + Text(d.id), c.name + Text(d.name), c.arguments + Text(d.arguments))
  }

  function ChoiceDeltas(c: Choice): seq<Delta> {
    if c.Calls? then c.deltas else []
  }

  /** The fragments of a list of choices, in order. */
  function ChoicesDeltas(choices: seq<Choice>): seq<Delta> {
    if choices == [] then [] else ChoicesDeltas(choices[..|choices| - 1]) + ChoiceDeltas(choices[|choices| - 1])
  }

  /** The fragments of a stream, in order. */
  function Stream(events: seq<Event>): seq<Delta> {
    if events == [] then [] else
    Stream(events[..|events| - 1]) +
    match events[|events| - 1] case NoChoices => [] case Choices(choices) => ChoicesDeltas(choices)
  }

  function Absorb(calls: map<int, Call>, d: Delta): map<int, Call> {
    if d.Other? then calls else
    calls[Index(d) := Extend(if Index(d) in calls then calls[Index(d)] else EMPTY, d)]
  }

  function AbsorbAll(deltas: seq<Delta>): map<int, Call> {
    if deltas == [] then map[] else Absorb(AbsorbAll(deltas[..|deltas| - 1]), deltas[|deltas| - 1])
  }

  predicate IsLeast(keys: set<int>, k: int) {
    k in keys && forall j :: j in keys ==> k <= j
  }

  lemma NonEmpty(keys: set<int>)
    requires keys != {}
    ensures exists k :: k in keys
  {
    if forall k :: k !in keys {
      assert false;
    }
  }

  lemma {:induction false} LeastExists(keys: set<int>) returns (k: int)
    requires keys != {}
    ensures IsLeast(keys, k)
    decreases keys
  {
    NonEmpty(keys);
    k :| k in keys;
    var rest := keys - {k};
    if rest != {} {
      var other := LeastExists(rest);
      assert forall j :: j in keys ==> j == k || j in rest;
      if other < k { k := other; }
    } else {
      assert forall j :: j in keys && j != k ==> j in rest;
    }
  }

  /** The calls in index order. */
  ghost function InOrder(calls: map<int, Call>): seq<Call> {
    if calls == map[] then [] else
    var least := LeastKey(calls.Keys);
    [calls[least]] + InOrder(calls - {least})
  }

  ghost function LeastKey(keys: set<int>): (k: int)
    requires keys != {}
    ensures IsLeast(keys, k)
  {
    assert exists k :: IsLeast(keys, k) by { var k := LeastExists(keys); }
    var k :| IsLeast(keys, k);
    k
  }

  method Sorted(calls: map<int, Call>) returns (list: seq<Call>)
    ensures list == InOrder(calls)
  {
    var rest := calls;
    list := [];
    while rest != map[]
      invariant rest.Keys <= calls.Keys && forall k :: k in rest ==> rest[k] == calls[k]
      invariant InOrder(calls) == list + InOrder(rest)
      decreases rest.Keys
    {
      var least := Least(rest.Keys);
      list, rest := list + [rest[least]], rest - {least};
    }
  }

  method Least(keys: set<int>) returns (least: int)
    requires keys != {}
    ensures least == LeastKey(keys)
  {
    NonEmpty(keys);
    least :| least in keys;
    var rest := keys - {least};
    while rest != {}
      invariant rest <= keys && least in keys
      invariant forall k :: k in keys && k !in rest ==> least <= k
    {
      NonEmpty(rest);
      var k :| k in rest;
      if k < least { least := k; }
      rest := rest - {k};
    }
  }

  /** The accumulated calls come back, in particular any calls numbered from zero, whole and in order. */
  method Accumulate(events: seq<Event>) returns (list: seq<Call>)
    ensures list == InOrder(AbsorbAll(Stream(events)))
    ensures forall parts: seq<seq<Fragment>> :: Carries(Stream(events), Numbered(parts)) ==> list == GlueEach(parts)
  {
    var calls: map<int, Call> := map[];
    for e := 0 to |events|
      invariant calls == AbsorbAll(Stream(events[..e]))
    {
      assert events[..e + 1][..e] == events[..e];
      if events[e].Choices? {
        calls := AddChoices(calls, events[e].choices, Stream(events[..e]));
      } else {
        assert Stream(events[..e + 1]) == Stream(events[..e]);
      }
    }
    assert events[..|events|] == events;
    list := Sorted(calls);
    forall parts: seq<seq<Fragment>> | Carries(Stream(events), Numbered(parts)) ensures list == GlueEach(parts) {
      OriginalsInOrder(Stream(events), parts);
    }
  }

  method AddChoices(before: map<int, Call>, choices: seq<Choice>, ghost stream: seq<Delta>)
    returns (calls: map<int, Call>)
    requires before == AbsorbAll(stream)
    ensures calls == AbsorbAll(stream + ChoicesDeltas(choices))
  {
    hide AbsorbAll;
    calls := before;
    assert stream + [] == stream;
    for c := 0 to |choices|
      invariant calls == AbsorbAll(stream + ChoicesDeltas(choices[..c]))
    {
      calls := AddDeltas(calls, ChoiceDeltas(choices[c]), stream + ChoicesDeltas(choices[..c]));
      assert choices[..c + 1][..c] == choices[..c];
      assert stream + ChoicesDeltas(choices[..c + 1])
        == stream + ChoicesDeltas(choices[..c]) + ChoiceDeltas(choices[c]);
    }
    assert choices[..|choices|] == choices;
  }

  method AddDeltas(before: map<int, Call>, deltas: seq<Delta>, ghost stream: seq<Delta>) returns (calls: map<int, Call>)
    requires before == AbsorbAll(stream)
    ensures calls == AbsorbAll(stream + deltas)
  {
    hide Absorb;
    calls := before;
    assert stream + [] == stream;
    for d := 0 to |deltas|
      invariant calls == AbsorbAll(stream + deltas[..d])
    {
      assert (stream + deltas[..d + 1])[..|stream| + d] == stream + deltas[..d];
      calls := Absorb(calls, deltas[d]);
    }
    assert deltas[..|deltas|] == deltas;
  }

  /** One piece of one call. */
  datatype Fragment = Fragment(id: Option<string>, name: Option<string>, arguments: Option<string>)

  /** A call cut into pieces, put together again. */
  function Glued(parts: seq<Fragment>): Call {
    if parts == [] then EMPTY else
    var rest := Glued(parts[1..]);
    Call(Text(parts[0].id) + rest.id, Text(parts[0].name) + rest.name, Text(parts[0].arguments) + rest.arguments)
  }

  predicate Names(d: Delta, index: int) {
    d.Delta? && Index(d) == index
  }

  /** The pieces that name an index, in stream order. */
  function PiecesOf(deltas: seq<Delta>, index: int): seq<Fragment> {
    if deltas == [] then [] else
    var last := deltas[|deltas| - 1];
    PiecesOf(deltas[..|deltas| - 1], index)
    + if Names(last, index) then [Fragment(last.id, last.name, last.arguments)] else []
  }

  /**
   * The stream is an interleaving of these calls' pieces: each call has some, they come in their own order, and nothing
   * else comes. Pieces may be cut anywhere.
   */
  ghost predicate Carries(deltas: seq<Delta>, calls: map<int, seq<Fragment>>) {
    && (forall k :: k in calls ==> calls[k] != [] && PiecesOf(deltas, k) == calls[k])
    && (forall i :: 0 <= i < |deltas| && deltas[i].Delta? ==> Index(deltas[i]) in calls)
  }

  lemma {:induction false} GluedAppends(parts: seq<Fragment>, d: Delta)
    requires d.Delta?
    ensures Glued(parts + [Fragment(d.id, d.name, d.arguments)]) == Extend(Glued(parts), d)
  {
    var f := Fragment(d.id, d.name, d.arguments);
    if parts == [] {
      assert [f][1..] == [] && parts + [f] == [f];
    } else {
      assert (parts + [f])[1..] == parts[1..] + [f];
      GluedAppends(parts[1..], d);
    }
  }

  /** Each index gets exactly the pieces that name it, put together in their order. */
  lemma {:induction false} AbsorbedGlued(deltas: seq<Delta>, index: int)
    ensures index in AbsorbAll(deltas) <==> PiecesOf(deltas, index) != []
    ensures index in AbsorbAll(deltas) ==> AbsorbAll(deltas)[index] == Glued(PiecesOf(deltas, index))
  {
    if deltas != [] {
      var so, last := deltas[..|deltas| - 1], deltas[|deltas| - 1];
      AbsorbedGlued(so, index);
      if Names(last, index) {
        GluedAppends(PiecesOf(so, index), last);
      } else {
        assert PiecesOf(deltas, index) == PiecesOf(so, index);
      }
    }
  }

  lemma {:induction false} PiecesNamed(deltas: seq<Delta>, index: int)
    requires PiecesOf(deltas, index) != []
    ensures exists i :: 0 <= i < |deltas| && Names(deltas[i], index)
  {
    var so := deltas[..|deltas| - 1];
    if !Names(deltas[|deltas| - 1], index) {
      PiecesNamed(so, index);
      var i :| 0 <= i < |so| && Names(so[i], index);
      assert Names(deltas[i], index);
    }
  }

  /** A text cut into pieces. */
  function Joined(pieces: seq<string>): string {
    if pieces == [] then "" else pieces[0] + Joined(pieces[1..])
  }

  /** How calls are streamed: the ID and the name come first, and then the arguments piece by piece. */
  function Cut(id: string, name: string, pieces: seq<string>): seq<Fragment> {
    [Fragment(Some(id), Some(name), None)] + Arguments(pieces)
  }

  function Arguments(pieces: seq<string>): seq<Fragment> {
    seq(|pieces|, i requires 0 <= i < |pieces| => Fragment(None, None, Some(pieces[i])))
  }

  lemma {:induction false} ArgumentsGlued(pieces: seq<string>)
    ensures Glued(Arguments(pieces)) == Call("", "", Joined(pieces))
  {
    if pieces != [] {
      assert Arguments(pieces)[1..] == Arguments(pieces[1..]);
      ArgumentsGlued(pieces[1..]);
    }
  }

  /** A call streamed in this way is put together to its ID, its name and its arguments. */
  lemma CutGlued(id: string, name: string, pieces: seq<string>)
    ensures Glued(Cut(id, name, pieces)) == Call(id, name, Joined(pieces))
  {
    ArgumentsGlued(pieces);
    assert Cut(id, name, pieces)[1..] == Arguments(pieces);
  }

  /** Accumulation undoes streaming, however the calls were cut and interleaved. */
  lemma StreamUndone(deltas: seq<Delta>, calls: map<int, seq<Fragment>>)
    requires Carries(deltas, calls)
    ensures AbsorbAll(deltas) == map k | k in calls :: Glued(calls[k])
  {
    forall k ensures k in AbsorbAll(deltas) <==> k in calls {
      AbsorbedGlued(deltas, k);
      if PiecesOf(deltas, k) != [] { PiecesNamed(deltas, k); }
    }
    forall k | k in calls ensures AbsorbAll(deltas)[k] == Glued(calls[k]) { AbsorbedGlued(deltas, k); }
  }

  /** Calls numbered from zero. */
  function Numbered<T>(items: seq<T>): map<int, T> {
    map i | 0 <= i < |items| :: items[i]
  }

  function GlueEach(parts: seq<seq<Fragment>>): (calls: seq<Call>)
    ensures |calls| == |parts| && forall i :: 0 <= i < |parts| ==> calls[i] == Glued(parts[i])
  {
    seq(|parts|, i requires 0 <= i < |parts| => Glued(parts[i]))
  }

  function NumberedFrom(calls: seq<Call>, lo: nat): map<int, Call> {
    map i | lo <= i < |calls| :: calls[i]
  }

  lemma {:induction false} NumberedInOrder(calls: seq<Call>, lo: nat)
    requires lo <= |calls|
    ensures InOrder(NumberedFrom(calls, lo)) == calls[lo..]
    decreases |calls| - lo
  {
    var numbered := NumberedFrom(calls, lo);
    if lo < |calls| {
      assert lo in numbered.Keys;
      assert LeastKey(numbered.Keys) == lo;
      assert numbered - {lo} == NumberedFrom(calls, lo + 1);
      NumberedInOrder(calls, lo + 1);
    }
  }

  /** So a stream of calls numbered from zero accumulates to those calls, in order. */
  lemma OriginalsInOrder(deltas: seq<Delta>, parts: seq<seq<Fragment>>)
    requires Carries(deltas, Numbered(parts))
    ensures InOrder(AbsorbAll(deltas)) == GlueEach(parts)
  {
    StreamUndone(deltas, Numbered(parts));
    NumberedInOrder(GlueEach(parts), 0);
    assert AbsorbAll(deltas) == NumberedFrom(GlueEach(parts), 0);
  }

  /** A fragment without an index is one of call zero. */
  lemma MissingIndexIsZero(calls: map<int, Call>, id: Option<string>, name: Option<string>, arguments: Option<string>)
    ensures Absorb(calls, Delta(None, id, name, arguments)) == Absorb(calls, Delta(Some(0), id, name, arguments))
  {
  }

  /** Two neighbouring fragments of different calls may change places. */
  lemma Exchange(before: seq<Delta>, d: Delta, e: Delta, after: seq<Delta>)
    requires d.Delta? && e.Delta? ==> Index(d) != Index(e)
    ensures AbsorbAll(before + [d, e] + after) == AbsorbAll(before + [e, d] + after)
    decreases |after|
  {
    var x, y := before + [d, e] + after, before + [e, d] + after;
    if after == [] {
      assert x[..|x| - 1] == before + [d] && x[..|x| - 1][..|before|] == before;
      assert y[..|y| - 1] == before + [e] && y[..|y| - 1][..|before|] == before;
    } else {
      assert x[..|x| - 1] == before + [d, e] + after[..|after| - 1];
      assert y[..|y| - 1] == before + [e, d] + after[..|after| - 1];
      Exchange(before, d, e, after[..|after| - 1]);
    }
  }
}
