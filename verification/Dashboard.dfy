/** Dashboard layouts: a tree of panels on a grid of twenty-four columns. */
module Dashboard {
  datatype Panel = Panel(id: int, x: int, y: int, w: int, h: int, panels: seq<Panel>)

  datatype Verdict = Accepted | DuplicateIds | StartsOutside | ExceedsGrid | EmptyArea | Overlapping

  const COLUMNS := 24

  /** Every panel of the tree, each before its children. */
  function AllPanels(panels: seq<Panel>): seq<Panel> {
    if panels == [] then [] else [panels[0]] + AllPanels(panels[0].panels) + AllPanels(panels[1..])
  }

  predicate Overlaps(l: Panel, r: Panel) {
    l.x < r.x + r.w && r.x < l.x + l.w && l.y < r.y + r.h && r.y < l.y + l.h
  }

  predicate DistinctIds(panels: seq<Panel>) {
    forall i, j :: 0 <= i < j < |panels| ==> panels[i].id != panels[j].id
  }

  /** The first fault of one panel's place on the grid. */
  function Place(p: Panel): Verdict {
    if p.x < 0 || p.y < 0 then StartsOutside
    else if p.x + p.w > COLUMNS then ExceedsGrid
    else if !(p.x < p.x + p.w && p.y < p.y + p.h) then EmptyArea
    else Accepted
  }

  function Places(panels: seq<Panel>): Verdict {
    if panels == [] then Accepted else if Place(panels[0]) != Accepted then Place(panels[0]) else Places(panels[1..])
  }

  predicate OverlapsAny(p: Panel, others: seq<Panel>) {
    exists j :: 0 <= j < |others| && Overlaps(p, others[j])
  }

  /** No two siblings overlap, at any depth. */
  predicate Clear(siblings: seq<Panel>) {
    siblings == [] || (!OverlapsAny(siblings[0], siblings[1..]) && Clear(siblings[0].panels) && Clear(siblings[1..]))
  }

  function Check(panels: seq<Panel>): Verdict {
    var all := AllPanels(panels);
    if !DistinctIds(all) then DuplicateIds
    else if Places(all) != Accepted then Places(all)
    else if !Clear(panels) then Overlapping
    else Accepted
  }

  /** The unit cells of a panel. */
  function Cells(p: Panel): set<(int, int)> {
    Block(p.x, p.y, p.w, p.h)
  }

  function Block(x: int, y: int, w: int, h: int): set<(int, int)> {
    set i, j | x <= i < x + w && y <= j < y + h :: (i, j)
  }

  /** Panels that are not empty overlap exactly when they share a cell. */
  lemma OverlapsIffShared(l: Panel, r: Panel)
    requires l.w > 0 && l.h > 0 && r.w > 0 && r.h > 0
    ensures Overlaps(l, r) <==> Cells(l) * Cells(r) != {}
  {
    var i := if l.x < r.x then r.x else l.x;
    var j := if l.y < r.y then r.y else l.y;
    if Overlaps(l, r) { assert (i, j) in Cells(l) * Cells(r); }
  }

  lemma {:induction false} RowSize(x: int, y: int, w: nat)
    ensures |Block(x, y, w, 1)| == w
  {
    if w == 0 {
      assert Block(x, y, 0, 1) == {};
    } else {
      RowSize(x, y, w - 1);
      assert Block(x, y, w, 1) == Block(x, y, w - 1, 1) + {(x + w - 1, y)};
    }
  }

  lemma BlockGrows(x: int, y: int, w: nat, h: nat)
    requires h > 0
    ensures Block(x, y, w, h) == Block(x, y, w, h - 1) + Block(x, y + h - 1, w, 1)
    ensures Block(x, y, w, h - 1) !! Block(x, y + h - 1, w, 1)
  {
  }

  lemma BlockEmpty(x: int, y: int, w: nat)
    ensures Block(x, y, w, 0) == {}
  {
  }

  /** A block has as many cells as its area. */
  lemma {:induction false} BlockSize(x: int, y: int, w: nat, h: nat)
    ensures |Block(x, y, w, h)| == w * h
  {
    hide Block;
    if h == 0 {
      BlockEmpty(x, y, w);
    } else {
      BlockSize(x, y, w, h - 1);
      RowSize(x, y + h - 1, w);
      BlockGrows(x, y, w, h);
      assert w * h == w * (h - 1) + w;
    }
  }

  lemma {:induction false} SubsetSize<T>(a: set<T>, b: set<T>)
    requires a <= b
    ensures |a| <= |b|
  {
    if a != {} {
      var x :| x in a;
      SubsetSize(a - {x}, b - {x});
    }
  }

  function Area(panels: seq<Panel>): int {
    if panels == [] then 0 else panels[0].w * panels[0].h + Area(panels[1..])
  }

  /** The greatest bottom edge. */
  function Bottom(panels: seq<Panel>): int {
    if panels == [] then 0 else
    var rest := Bottom(panels[1..]);
    if panels[0].y + panels[0].h > rest then panels[0].y + panels[0].h else rest
  }

  /** No panel reaches below it, and the lowest reaches it, if any does. */
  lemma {:induction false} BottomIsLowest(panels: seq<Panel>)
    ensures forall p :: p in panels ==> p.y + p.h <= Bottom(panels)
    ensures Bottom(panels) == 0 || exists p :: p in panels && p.y + p.h == Bottom(panels)
  {
    if panels != [] { BottomIsLowest(panels[1..]); }
  }

  function Covered(panels: seq<Panel>): set<(int, int)> {
    if panels == [] then {} else Cells(panels[0]) + Covered(panels[1..])
  }

  predicate OnGrid(panels: seq<Panel>) {
    forall i :: 0 <= i < |panels| ==> InGrid(panels[i])
  }

  /** Not empty, at no negative place, and within twenty-four columns. */
  predicate InGrid(p: Panel) {
    0 <= p.x && 0 <= p.y && 0 < p.w && 0 < p.h && p.x + p.w <= 24
  }

  /** What is wrong with a panel's place: a negative place comes first, then the right edge, then an empty area. */
  lemma PlaceExactly(p: Panel)
    ensures Place(p) == Accepted <==> InGrid(p)
    ensures Place(p) == StartsOutside <==> p.x < 0 || p.y < 0
    ensures Place(p) == ExceedsGrid <==> 0 <= p.x && 0 <= p.y && p.x + p.w > 24
    ensures Place(p) == EmptyArea <==> 0 <= p.x && 0 <= p.y && p.x + p.w <= 24 && (p.w <= 0 || p.h <= 0)
  {
  }

  lemma OnGridRest(panels: seq<Panel>)
    requires OnGrid(panels) && panels != []
    ensures Place(panels[0]) == Accepted && OnGrid(panels[1..])
  {
    assert forall i :: 0 <= i < |panels[1..]| ==> panels[1..][i] == panels[i + 1];
  }

  lemma {:induction false} CoveredApart(p: Panel, others: seq<Panel>)
    requires Place(p) == Accepted && OnGrid(others) && !OverlapsAny(p, others)
    ensures Cells(p) !! Covered(others)
  {
    hide Cells, Overlaps;
    if others != [] {
      OnGridRest(others);
      OverlapsIffShared(p, others[0]);
      assert forall j :: 0 <= j < |others[1..]| ==> others[1..][j] == others[j + 1];
      assert !Overlaps(p, others[0]) && !OverlapsAny(p, others[1..]);
      CoveredApart(p, others[1..]);
      forall c | c in Cells(p) ensures c !in Covered(others) {
        assert c in Cells(others[0]) ==> c in Cells(p) * Cells(others[0]);
      }
    }
  }

  /** Siblings that do not overlap cover exactly as many cells as their areas add up to. */
  lemma {:induction false} CoveredSize(panels: seq<Panel>)
    requires OnGrid(panels) && Clear(panels)
    ensures |Covered(panels)| == Area(panels)
  {
    if panels != [] {
      var p, rest := panels[0], panels[1..];
      OnGridRest(panels);
      CoveredSize(rest);
      BlockSize(p.x, p.y, p.w, p.h);
      CoveredApart(p, rest);
    }
  }

  lemma {:induction false} CoveredWithin(panels: seq<Panel>)
    requires OnGrid(panels)
    ensures Bottom(panels) >= 0 && Covered(panels) <= Block(0, 0, COLUMNS, Bottom(panels))
  {
    if panels != [] {
      var p, rest := panels[0], panels[1..];
      OnGridRest(panels);
      CoveredWithin(rest);
    }
  }

  /** Every list of siblings is packed: together they cover no more than the columns down to the lowest edge. */
  predicate Packed(siblings: seq<Panel>) {
    Area(siblings) <= COLUMNS * Bottom(siblings) && forall p :: p in siblings ==> Packed(p.panels)
  }

  lemma {:induction false} PlacesAll(panels: seq<Panel>)
    ensures Places(panels) == Accepted <==> OnGrid(panels)
  {
    if panels != [] {
      PlacesAll(panels[1..]);
      assert OnGrid(panels) <==> Place(panels[0]) == Accepted && OnGrid(panels[1..]) by {
        assert forall i :: 0 < i < |panels| ==> panels[i] == panels[1..][i - 1];
        assert forall i :: 0 <= i < |panels[1..]| ==> panels[1..][i] == panels[i + 1];
      }
    }
  }

  /** The tree's panels are on the grid at every depth. */
  predicate TreeOnGrid(panels: seq<Panel>) {
    OnGrid(panels) && forall p :: p in panels ==> TreeOnGrid(p.panels)
  }

  lemma {:induction false} AllOnGrid(panels: seq<Panel>)
    requires OnGrid(AllPanels(panels))
    ensures TreeOnGrid(panels)
  {
    if panels != [] {
      var all, p, below, rest := AllPanels(panels), panels[0], AllPanels(panels[0].panels), AllPanels(panels[1..]);
      assert all[0] == p;
      assert OnGrid(below) by { assert forall i :: 0 <= i < |below| ==> below[i] == all[1 + i]; }
      assert OnGrid(rest) by { assert forall i :: 0 <= i < |rest| ==> rest[i] == all[1 + |below| + i]; }
      AllOnGrid(p.panels);
      AllOnGrid(panels[1..]);
      assert panels == [p] + panels[1..];
    }
  }

  lemma {:induction false} ClearBelow(panels: seq<Panel>)
    requires Clear(panels)
    ensures forall p :: p in panels ==> Clear(p.panels)
  {
    if panels != [] { ClearBelow(panels[1..]); }
  }

  lemma {:induction false} ClearPacks(panels: seq<Panel>)
    requires TreeOnGrid(panels) && Clear(panels)
    ensures Packed(panels)
  {
    CoveredSize(panels);
    CoveredWithin(panels);
    SubsetSize(Covered(panels), Block(0, 0, COLUMNS, Bottom(panels)));
    BlockSize(0, 0, COLUMNS, Bottom(panels));
    ClearBelow(panels);
    forall p | p in panels ensures Packed(p.panels) { ClearPacks(p.panels); }
  }

  /** An accepted dashboard is packed at every depth. */
  lemma AcceptedPacks(panels: seq<Panel>)
    requires Check(panels) == Accepted
    ensures Packed(panels)
  {
    PlacesAll(AllPanels(panels));
    AllOnGrid(panels);
    ClearPacks(panels);
  }

  /** No unit cell lies in two siblings, at any depth. */
  predicate Disjoint(siblings: seq<Panel>) {
    && (forall i, j :: 0 <= i < j < |siblings| ==> Cells(siblings[i]) * Cells(siblings[j]) == {})
    && forall p :: p in siblings ==> Disjoint(p.panels)
  }

  predicate NoPair(siblings: seq<Panel>) {
    forall i, j :: 0 <= i < j < |siblings| ==> !Overlaps(siblings[i], siblings[j])
  }

  lemma PairsSplit(siblings: seq<Panel>)
    requires siblings != []
    ensures NoPair(siblings) <==> !OverlapsAny(siblings[0], siblings[1..]) && NoPair(siblings[1..])
  {
    hide Overlaps;
    var rest := siblings[1..];
    assert forall i :: 0 <= i < |rest| ==> rest[i] == siblings[i + 1];
    if !OverlapsAny(siblings[0], rest) && NoPair(rest) {
      forall i, j | 0 <= i < j < |siblings| ensures !Overlaps(siblings[i], siblings[j]) {
        assert siblings[j] == rest[j - 1] && (i > 0 ==> siblings[i] == rest[i - 1]);
      }
    }
  }

  lemma {:induction false} ClearPairs(siblings: seq<Panel>)
    ensures Clear(siblings) <==> NoPair(siblings) && forall p :: p in siblings ==> Clear(p.panels)
  {
    hide OverlapsAny;
    if siblings != [] {
      ClearPairs(siblings[1..]);
      PairsSplit(siblings);
      hide NoPair;
      assert siblings == [siblings[0]] + siblings[1..];
    }
  }

  /** The check for overlaps is exact: it accepts just when no cell lies in two siblings. */
  lemma {:induction false} ClearIffDisjoint(siblings: seq<Panel>)
    requires TreeOnGrid(siblings)
    ensures Clear(siblings) <==> Disjoint(siblings)
  {
    ClearPairs(siblings);
    hide Overlaps, Cells, Clear;
    forall i, j | 0 <= i < j < |siblings|
      ensures Overlaps(siblings[i], siblings[j]) <==> Cells(siblings[i]) * Cells(siblings[j]) != {}
    {
      OverlapsIffShared(siblings[i], siblings[j]);
    }
    forall p | p in siblings ensures Clear(p.panels) <==> Disjoint(p.panels) { ClearIffDisjoint(p.panels); }
  }

  /** So of the dashboards whose IDs and places pass, those without a cell in two siblings are accepted. */
  lemma AcceptedIff(panels: seq<Panel>)
    ensures Check(panels) == Accepted <==>
      DistinctIds(AllPanels(panels)) && OnGrid(AllPanels(panels)) && Disjoint(panels)
  {
    PlacesAll(AllPanels(panels));
    if OnGrid(AllPanels(panels)) {
      AllOnGrid(panels);
      ClearIffDisjoint(panels);
    }
  }

  lemma {:induction false} FirstFault(panels: seq<Panel>) returns (i: nat)
    requires Places(panels) != Accepted
    ensures i < |panels| && Place(panels[i]) == Places(panels) && OnGrid(panels[..i])
  {
    if Place(panels[0]) != Accepted {
      i := 0;
    } else {
      var k := FirstFault(panels[1..]);
      i := k + 1;
      PlaceExactly(panels[0]);
      forall j | 0 <= j < i ensures InGrid(panels[j]) {
        if j > 0 { assert panels[j] == panels[1..][..k][j - 1]; }
      }
    }
  }

  /** Why a dashboard is rejected: repeated ids first, then the first panel off the grid, then overlapping siblings. */
  lemma RejectedIff(panels: seq<Panel>) returns (i: nat)
    ensures Check(panels) == DuplicateIds <==> !DistinctIds(AllPanels(panels))
    ensures Check(panels) == Overlapping <==>
      DistinctIds(AllPanels(panels)) && OnGrid(AllPanels(panels)) && !Disjoint(panels)
    ensures Check(panels) in {StartsOutside, ExceedsGrid, EmptyArea} ==>
      i < |AllPanels(panels)| && Place(AllPanels(panels)[i]) == Check(panels) && OnGrid(AllPanels(panels)[..i])
  {
    AcceptedIff(panels);
    var all := AllPanels(panels);
    PlacesAll(all);
    i := 0;
    if Places(all) != Accepted {
      i := FirstFault(all);
      PlaceExactly(all[i]);
    }
  }
}
