/** The bech32 checksum: a remainder over 30-bit states, and what it detects. */
module Bech32 {
  type Symbol = bv5

  const GENERATOR: seq<bv30> := [0x3B6A57B2, 0x26508E6D, 0x1EA119FA, 0x3D4233DD, 0x2A1462B3]

  function Xor(a: bv30, b: bv30): bv30 {
    a ^ b
  }

  function Bit(top: bv30, k: nat): bv30
    requires k < 5
  {
    if k == 0 then top & 1 else if k == 1 then (top >> 1) & 1 else if k == 2 then (top >> 2) & 1
    else if k == 3 then (top >> 3) & 1 else (top >> 4) & 1
  }

  function Chosen(b: bool, g: bv30): bv30 {
    if b then g else 0
  }

  function Pick(top: bv30, k: nat): bv30
    requires k < 5
  {
    Chosen(Bit(top, k) == 1, GENERATOR[k])
  }

  /** The generators that the first `n` bits of `top` pick, added up. */
  function Mask(top: bv30, n: nat): bv30
    requires n <= 5
  {
    if n == 0 then 0 else Xor(Mask(top, n - 1), Pick(top, n - 1))
  }

  function Low(c: bv30): bv30 {
    (c & 0x1FFFFFF) << 5
  }

  function Top(c: bv30): bv30 {
    c >> 25
  }

  function Shift(p: bv30): bv30 {
    p << 5
  }

  function Wide(s: Symbol): bv30 {
    s as bv30
  }

  /** One symbol: shift the state by five bits and reduce what falls out at the top. */
  function Step(c: bv30, v: bv30): bv30 {
    Xor(Xor(Low(c), v), Mask(Top(c), 5))
  }

  function Polymod(c: bv30, values: seq<Symbol>): bv30 {
    if values == [] then c else Step(Polymod(c, values[..|values| - 1]), Wide(values[|values| - 1]))
  }

  method ComputePolymod(values: seq<Symbol>) returns (checksum: bv30)
    ensures checksum == Polymod(1, values)
  {
    checksum := 1;
    for i := 0 to |values|
      invariant checksum == Polymod(1, values[..i])
    {
      var top := checksum >> 25;
      ghost var state := checksum;
      checksum := ((checksum & 0x1FFFFFF) << 5) ^ (values[i] as bv30);
      ghost var shifted := checksum;
      XorZero(shifted);
      for index := 0 to 5
        invariant checksum == Xor(shifted, Mask(top, index))
      {
        XorAssoc(shifted, Mask(top, index), Pick(top, index));
        checksum := Xor(checksum, if Bit(top, index) == 1 then GENERATOR[index] else 0);
      }
      assert values[..i + 1][..i] == values[..i];
    }
    assert values[..|values|] == values;
  }

  lemma XorAssoc(a: bv30, b: bv30, c: bv30)
    ensures Xor(Xor(a, b), c) == Xor(a, Xor(b, c))
  {
  }

  lemma XorComm(a: bv30, b: bv30)
    ensures Xor(a, b) == Xor(b, a)
  {
  }

  lemma XorZero(a: bv30)
    ensures Xor(a, 0) == a && Xor(0, a) == a && Xor(a, a) == 0
  {
  }

  lemma XorEqual(a: bv30, b: bv30)
    ensures Xor(a, b) == 0 ==> a == b
  {
  }

  lemma Swap(a: bv30, b: bv30, c: bv30, d: bv30)
    ensures Xor(Xor(a, b), Xor(c, d)) == Xor(Xor(a, c), Xor(b, d))
  {
    hide Xor;
    XorAssoc(a, b, Xor(c, d));
    XorAssoc(b, c, d);
    XorComm(b, c);
    XorAssoc(c, b, d);
    XorAssoc(a, c, Xor(b, d));
  }

  lemma Bit0Linear(s: bv30, t: bv30)
    ensures Xor(s, t) & 1 == Xor(s & 1, t & 1)
  {
  }

  lemma Bit1Linear(s: bv30, t: bv30)
    ensures (Xor(s, t) >> 1) & 1 == Xor((s >> 1) & 1, (t >> 1) & 1)
  {
  }

  lemma Bit2Linear(s: bv30, t: bv30)
    ensures (Xor(s, t) >> 2) & 1 == Xor((s >> 2) & 1, (t >> 2) & 1)
  {
  }

  lemma Bit3Linear(s: bv30, t: bv30)
    ensures (Xor(s, t) >> 3) & 1 == Xor((s >> 3) & 1, (t >> 3) & 1)
  {
  }

  lemma Bit4Linear(s: bv30, t: bv30)
    ensures (Xor(s, t) >> 4) & 1 == Xor((s >> 4) & 1, (t >> 4) & 1)
  {
  }

  lemma BitLinear(s: bv30, t: bv30, k: nat)
    requires k < 5
    ensures Bit(Xor(s, t), k) == Xor(Bit(s, k), Bit(t, k))
  {
    Bit0Linear(s, t);
    Bit1Linear(s, t);
    Bit2Linear(s, t);
    Bit3Linear(s, t);
    Bit4Linear(s, t);
    hide Xor;
  }

  lemma BitIsBit(s: bv30, k: nat)
    requires k < 5
    ensures Bit(s, k) == 0 || Bit(s, k) == 1
  {
  }

  lemma PickLinear(s: bv30, t: bv30, k: nat)
    requires k < 5
    ensures Pick(Xor(s, t), k) == Xor(Pick(s, k), Pick(t, k))
  {
    BitLinear(s, t, k);
    BitIsBit(s, k);
    BitIsBit(t, k);
    XorZero(GENERATOR[k]);
    XorZero(0);
    XorZero(1);
    hide Bit, Xor;
  }

  lemma {:induction false} MaskLinear(s: bv30, t: bv30, n: nat)
    requires n <= 5
    ensures Mask(Xor(s, t), n) == Xor(Mask(s, n), Mask(t, n))
  {
    XorZero(0);
    hide Pick, Xor;
    if n > 0 {
      MaskLinear(s, t, n - 1);
      PickLinear(s, t, n - 1);
      Swap(Mask(s, n - 1), Mask(t, n - 1), Pick(s, n - 1), Pick(t, n - 1));
    }
  }

  lemma ShiftLinear(a: bv30, b: bv30)
    ensures Low(Xor(a, b)) == Xor(Low(a), Low(b))
    ensures Top(Xor(a, b)) == Xor(Top(a), Top(b))
  {
  }

  /** A step is linear in state and symbol together. */
  lemma StepLinear(a: bv30, b: bv30, v: bv30, w: bv30)
    ensures Step(Xor(a, b), Xor(v, w)) == Xor(Step(a, v), Step(b, w))
  {
    hide Mask, Low, Top, Xor;
    ShiftLinear(a, b);
    MaskLinear(Top(a), Top(b), 5);
    Swap(Low(a), Low(b), v, w);
    Swap(Xor(Low(a), v), Xor(Low(b), w), Mask(Top(a), 5), Mask(Top(b), 5));
  }

  function Sum(b0: bool, b1: bool, b2: bool, b3: bool, b4: bool): bv30 {
    Xor(Xor(Xor(Xor(Xor(0, Chosen(b0, GENERATOR[0])), Chosen(b1, GENERATOR[1])), Chosen(b2, GENERATOR[2])),
            Chosen(b3, GENERATOR[3])), Chosen(b4, GENERATOR[4]))
  }

  function Tail(z: bv30): bv30 {
    z & 31
  }

  /** The generators are independent in their last five bits, where a shifted state is zero. */
  lemma Independent(b0: bool, b1: bool, b2: bool, b3: bool, b4: bool)
    requires Tail(Sum(b0, b1, b2, b3, b4)) == 0
    ensures !b0 && !b1 && !b2 && !b3 && !b4
  {
  }

  predicate Unpicked(top: bv30) {
    Bit(top, 0) != 1 && Bit(top, 1) != 1 && Bit(top, 2) != 1 && Bit(top, 3) != 1 && Bit(top, 4) != 1
  }

  function SumFor(top: bv30): bv30 {
    Sum(Bit(top, 0) == 1, Bit(top, 1) == 1, Bit(top, 2) == 1, Bit(top, 3) == 1, Bit(top, 4) == 1)
  }

  lemma MaskNext(top: bv30, n: nat)
    requires n <= 5
    ensures Mask(top, n) == if n == 0 then 0 else Xor(Mask(top, n - 1), Pick(top, n - 1))
  {
  }

  lemma MaskIsSum(top: bv30)
    ensures Mask(top, 5) == SumFor(top)
  {
    hide Xor, Bit, Mask, Chosen;
    MaskNext(top, 0);
    MaskNext(top, 1);
    MaskNext(top, 2);
    MaskNext(top, 3);
    MaskNext(top, 4);
    MaskNext(top, 5);
  }

  lemma TailPicks(top: bv30)
    requires Tail(SumFor(top)) == 0
    ensures Unpicked(top) && SumFor(top) == 0
  {
    hide Bit, Sum, Tail;
    Independent(Bit(top, 0) == 1, Bit(top, 1) == 1, Bit(top, 2) == 1, Bit(top, 3) == 1, Bit(top, 4) == 1);
    SumOfNone();
  }

  lemma SumOfNone()
    ensures Sum(false, false, false, false, false) == 0
  {
  }

  lemma LowEndsInZeros(a: bv30)
    ensures Tail(Low(a)) == 0
  {
  }

  lemma NoBits(a: bv30)
    requires Unpicked(Top(a)) && Low(a) == 0
    ensures a == 0
  {
  }

  lemma StepZero(a: bv30)
    requires Step(a, 0) == 0
    ensures Low(a) == Mask(Top(a), 5)
  {
    hide Low, Top, Mask;
    XorZero(Low(a));
    XorEqual(Low(a), Mask(Top(a), 5));
  }

  /** Shifting in a zero symbol takes no state but zero to zero. */
  lemma StepKernel(a: bv30)
    requires Step(a, 0) == 0
    ensures a == 0
  {
    hide Step, Low, Top, Mask, SumFor, Tail, Unpicked;
    StepZero(a);
    MaskIsSum(Top(a));
    LowEndsInZeros(a);
    TailPicks(Top(a));
    NoBits(a);
  }

  /** The state map is injective for every symbol. */
  lemma StepInjective(a: bv30, b: bv30, v: bv30)
    ensures Step(a, v) == Step(b, v) ==> a == b
  {
    StepLinear(a, b, v, v);
    XorZero(v);
    XorZero(Step(a, v));
    XorEqual(a, b);
    hide Step, Xor;
    if Step(a, v) == Step(b, v) { StepKernel(Xor(a, b)); }
  }

  lemma {:induction false} PolymodConcat(c: bv30, before: seq<Symbol>, after: seq<Symbol>)
    ensures Polymod(c, before + after) == Polymod(Polymod(c, before), after)
    decreases |after|
  {
    hide Step;
    if after == [] {
      assert before + after == before;
    } else {
      assert (before + after)[..|before + after| - 1] == before + after[..|after| - 1];
      PolymodConcat(c, before, after[..|after| - 1]);
    }
  }

  /** Two states that differ stay different over any symbols. */
  lemma {:induction false} PolymodInjective(a: bv30, b: bv30, values: seq<Symbol>)
    ensures Polymod(a, values) == Polymod(b, values) ==> a == b
    decreases |values|
  {
    hide Step;
    if values != [] {
      var rest := values[..|values| - 1];
      StepInjective(Polymod(a, rest), Polymod(b, rest), Wide(values[|values| - 1]));
      PolymodInjective(a, b, rest);
    }
  }

  /** At most six symbols, packed into one state. */
  function Pack(ts: seq<Symbol>): bv30 {
    if ts == [] then 0 else Xor(Shift(Pack(ts[..|ts| - 1])), Wide(ts[|ts| - 1]))
  }

  /** The first value that does not fit into `n` symbols. */
  function Bound(n: nat): bv30
    requires n <= 5
  {
    if n == 0 then 1 else if n == 1 then 0x20 else if n == 2 then 0x400 else if n == 3 then 0x8000
    else if n == 4 then 0x100000 else 0x2000000
  }

  predicate Below(p: bv30, n: nat) {
    n <= 5 ==> Less(p, Bound(n))
  }

  predicate Less(p: bv30, q: bv30) {
    p < q
  }

  lemma ShiftBelow(p: bv30, b: bv30, v: bv30)
    requires Less(p, b) && Less(b, 0x100001) && Less(v, 32)
    ensures Less(Xor(Shift(p), v), Shift(b))
  {
  }

  lemma Bounds(n: nat)
    requires n < 5
    ensures Less(Bound(n), 0x100001) && Shift(Bound(n)) == Bound(n + 1)
  {
  }

  lemma BelowGrows(p: bv30, n: nat, v: bv30)
    requires n <= 5 && Below(p, n) && Less(v, 32)
    ensures Below(Xor(Shift(p), v), n + 1)
  {
    hide Xor, Shift, Bound, Less;
    if n < 5 {
      Bounds(n);
      ShiftBelow(p, Bound(n), v);
    }
  }

  lemma StepShifts(p: bv30, n: nat, v: bv30)
    requires n <= 5 && Below(p, n)
    ensures Step(p, v) == Xor(Shift(p), v)
  {
    BoundsAll(p, n);
    BelowTop(p);
    MaskZero();
    XorZero(Xor(Shift(p), v));
    hide Xor, Mask, Top, Low, Shift, Bound;
  }

  lemma BoundsAll(p: bv30, n: nat)
    requires n <= 5 && Below(p, n)
    ensures p < 0x2000000
  {
  }

  lemma MaskZero()
    ensures Mask(0, 5) == 0
  {
    assert Bit(0, 0) == 0;
    assert Bit(0, 1) == 0;
    assert Bit(0, 2) == 0;
    assert Bit(0, 3) == 0;
    assert Bit(0, 4) == 0;
    XorZero(0);
    hide Xor, Bit;
    assert Mask(0, 2) == 0;
    assert Mask(0, 4) == 0;
  }

  lemma BelowTop(p: bv30)
    requires p < 0x2000000
    ensures Top(p) == 0 && Low(p) == Shift(p)
  {
  }

  lemma WideZero()
    ensures Wide(0) == 0
  {
  }

  lemma SymbolSmall(s: Symbol)
    ensures Less(Wide(s), 32)
  {
  }

  lemma {:induction false} PackBelow(ts: seq<Symbol>)
    requires |ts| <= 6
    ensures Below(Pack(ts), |ts|)
  {
    PackNone();
    hide Xor, Step, Shift, Wide, Below, Less;
    if ts != [] {
      PackBelow(ts[..|ts| - 1]);
      SymbolSmall(ts[|ts| - 1]);
      BelowGrows(Pack(ts[..|ts| - 1]), |ts| - 1, Wide(ts[|ts| - 1]));
    }
  }

  lemma PackNone()
    ensures Pack([]) == 0 && Below(Pack([]), 0)
  {
  }

  lemma PackAppends(ts: seq<Symbol>, t: Symbol)
    ensures Pack(ts + [t]) == Xor(Shift(Pack(ts)), Wide(t))
  {
    assert (ts + [t])[..|ts|] == ts;
  }

  function Zeros(n: nat): seq<Symbol> {
    seq(n, _ => 0)
  }

  /** Up to six symbols add their packed value to what zeros would leave. */
  lemma {:induction false} PolymodPacks(c: bv30, ts: seq<Symbol>)
    requires |ts| <= 6
    ensures Polymod(c, ts) == Xor(Polymod(c, Zeros(|ts|)), Pack(ts))
  {
    hide Step, Xor, Shift, Below, Wide, Less;
    if ts == [] {
      XorZero(c);
    } else {
      var rest, t := ts[..|ts| - 1], Wide(ts[|ts| - 1]);
      assert Zeros(|ts|)[..|ts| - 1] == Zeros(|rest|);
      PolymodPacks(c, rest);
      PackBelow(rest);
      SymbolSmall(ts[|ts| - 1]);
      StepShifts(Pack(rest), |rest|, t);
      WideZero();
      StepLinear(Polymod(c, Zeros(|rest|)), Pack(rest), 0, t);
      XorZero(t);
    }
  }

  lemma UnpackLast(p: bv30, q: bv30, s: Symbol, t: Symbol)
    requires p < 0x2000000 && q < 0x2000000
    requires Xor(Shift(p), Wide(s)) == Xor(Shift(q), Wide(t))
    ensures p == q && s == t
  {
  }

  lemma {:induction false} PackInjective(ss: seq<Symbol>, ts: seq<Symbol>)
    requires |ss| == |ts| <= 6 && Pack(ss) == Pack(ts)
    ensures ss == ts
  {
    hide Xor, Below, Shift, Wide;
    if ss != [] {
      var s, t := ss[..|ss| - 1], ts[..|ts| - 1];
      PackBelow(s);
      PackBelow(t);
      BoundsAll(Pack(s), |s|);
      BoundsAll(Pack(t), |t|);
      UnpackLast(Pack(s), Pack(t), ss[|ss| - 1], ts[|ts| - 1]);
      PackInjective(s, t);
      assert ss == s + [ss[|ss| - 1]] && ts == t + [ts[|ts| - 1]];
    }
  }

  /** A change confined to any six neighbouring symbols always changes the checksum, whatever stands around it. */
  lemma BurstDetected(c: bv30, before: seq<Symbol>, ss: seq<Symbol>, ts: seq<Symbol>, after: seq<Symbol>)
    requires |ss| == |ts| <= 6 && ss != ts
    ensures Polymod(c, before + ss + after) != Polymod(c, before + ts + after)
  {
    hide Polymod, Pack, Xor;
    var state, zeros := Polymod(c, before), Polymod(Polymod(c, before), Zeros(|ss|));
    PolymodConcat(c, before, ss);
    PolymodConcat(c, before, ts);
    PolymodConcat(c, before + ss, after);
    PolymodConcat(c, before + ts, after);
    PolymodPacks(state, ss);
    PolymodPacks(state, ts);
    XorCancel(zeros, Pack(ss), Pack(ts));
    if Pack(ss) == Pack(ts) { PackInjective(ss, ts); }
    PolymodInjective(Polymod(c, before + ss), Polymod(c, before + ts), after);
  }

  lemma XorCancel(z: bv30, a: bv30, b: bv30)
    ensures Xor(z, a) == Xor(z, b) ==> a == b
  {
  }

  function High(z: bv30): bv30 {
    z >> 5
  }

  function Last(z: bv30): Symbol {
    (z & 31) as bv5
  }

  /** The lowest `n` symbols of a state, most significant first. */
  function Unpack(z: bv30, n: nat): (ts: seq<Symbol>)
    ensures |ts| == n
  {
    if n == 0 then [] else Unpack(High(z), n - 1) + [Last(z)]
  }

  lemma Digit(z: bv30)
    ensures Xor(Shift(High(z)), Wide(Last(z))) == z
  {
  }

  lemma HighBelow(z: bv30, n: nat)
    requires 0 < n <= 6 && Below(z, n)
    ensures Below(High(z), n - 1)
  {
  }

  lemma UnpackNone(z: bv30)
    requires Below(z, 0)
    ensures Pack(Unpack(z, 0)) == z
  {
  }

  lemma UnpackMore(z: bv30, n: nat)
    requires n > 0
    ensures Pack(Unpack(z, n)) == Xor(Shift(Pack(Unpack(High(z), n - 1))), Wide(Last(z)))
  {
    hide Xor, Shift, Wide, High, Last, Pack;
    PackAppends(Unpack(High(z), n - 1), Last(z));
  }

  lemma {:induction false} PackUnpack(z: bv30, n: nat)
    requires n <= 6 && Below(z, n)
    ensures Pack(Unpack(z, n)) == z
    decreases n
  {
    hide Xor, Below, Shift, Wide, High, Last, Less, Pack, Unpack;
    if n == 0 {
      UnpackNone(z);
    } else {
      HighBelow(z, n);
      PackUnpack(High(z), n - 1);
      UnpackMore(z, n);
      Digit(z);
    }
  }

  /** The checksum symbols that bring a state to one. */
  function Checksum(state: bv30): (ts: seq<Symbol>)
    ensures |ts| == 6
  {
    Unpack(Xor(Polymod(state, Zeros(6)), 1), 6)
  }

  /** Every state has exactly one checksum. */
  lemma ChecksumUnique(state: bv30, ts: seq<Symbol>)
    requires |ts| == 6
    ensures Polymod(state, ts) == 1 <==> ts == Checksum(state)
  {
    hide Polymod, Pack, Xor, Unpack;
    var z := Polymod(state, Zeros(6));
    PolymodPacks(state, ts);
    PackUnpack(Xor(z, 1), 6);
    PolymodPacks(state, Checksum(state));
    XorTwice(z, 1);
    if Polymod(state, ts) == 1 {
      XorCancel(z, Pack(ts), Xor(z, 1));
      PackInjective(ts, Checksum(state));
    }
  }

  lemma XorTwice(z: bv30, a: bv30)
    ensures Xor(z, Xor(z, a)) == a
  {
  }
}
