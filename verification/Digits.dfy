/** Numbers written as groups of five or eight bits, most significant first. */
module Digits {
  datatype Width = Five | Eight

  function Size(w: Width): nat {
    match w case Five => 32 case Eight => 256
  }

  function Times(w: Width, x: nat): nat {
    match w case Five => 32 * x case Eight => 256 * x
  }

  function Quotient(w: Width, x: nat): nat {
    match w case Five => x / 32 case Eight => x / 256
  }

  function Remainder(w: Width, x: nat): nat {
    match w case Five => x % 32 case Eight => x % 256
  }

  function Pow(w: Width, n: nat): nat {
    if n == 0 then 1 else Times(w, Pow(w, n - 1))
  }

  predicate AreDigits(w: Width, ds: seq<nat>) {
    forall i :: 0 <= i < |ds| ==> ds[i] < Size(w)
  }

  function Value(w: Width, ds: seq<nat>): nat {
    if ds == [] then 0 else Times(w, Value(w, ds[..|ds| - 1])) + ds[|ds| - 1]
  }

  /** The last `n` digits of a number. */
  function Write(w: Width, value: nat, n: nat): (ds: seq<nat>)
    ensures |ds| == n && AreDigits(w, ds)
  {
    if n == 0 then [] else Write(w, Quotient(w, value), n - 1) + [Remainder(w, value)]
  }

  lemma Split(w: Width, x: nat, d: nat)
    requires d < Size(w)
    ensures Quotient(w, Times(w, x) + d) == x && Remainder(w, Times(w, x) + d) == d
  {
  }

  lemma Join(w: Width, x: nat)
    ensures Times(w, Quotient(w, x)) + Remainder(w, x) == x
  {
  }

  lemma Grows(w: Width, x: nat, y: nat, d: nat)
    requires d < Size(w)
    ensures x < y <==> Times(w, x) + d < Times(w, y)
  {
  }

  lemma ValueAppends(w: Width, ds: seq<nat>, d: nat)
    ensures Value(w, ds + [d]) == Times(w, Value(w, ds)) + d
  {
    assert (ds + [d])[..|ds|] == ds;
  }

  /** Digits give a number below the matching power. */
  lemma {:induction false} ValueBelow(w: Width, ds: seq<nat>)
    requires AreDigits(w, ds)
    ensures Value(w, ds) < Pow(w, |ds|)
  {
    hide Times, Size;
    if ds != [] {
      var rest := ds[..|ds| - 1];
      ValueBelow(w, rest);
      Grows(w, Value(w, rest), Pow(w, |rest|), ds[|ds| - 1]);
    }
  }

  /** Writing what was read gives the same digits. */
  lemma {:induction false} WriteValue(w: Width, ds: seq<nat>)
    requires AreDigits(w, ds)
    ensures Write(w, Value(w, ds), |ds|) == ds
  {
    hide Times, Size, Quotient, Remainder;
    if ds != [] {
      var rest, last := ds[..|ds| - 1], ds[|ds| - 1];
      Split(w, Value(w, rest), last);
      WriteValue(w, rest);
      assert ds == rest + [last];
    }
  }

  /** Reading what was written gives the number back, if its digits suffice. */
  lemma {:induction false} ValueWrite(w: Width, value: nat, n: nat)
    requires value < Pow(w, n)
    ensures Value(w, Write(w, value, n)) == value
    decreases n
  {
    if n > 0 {
      Join(w, value);
      Grows(w, Quotient(w, value), Pow(w, n - 1), Remainder(w, value));
      ValueWrite(w, Quotient(w, value), n - 1);
      ValueAppends(w, Write(w, Quotient(w, value), n - 1), Remainder(w, value));
    }
  }

  /** Eight groups of five bits and five groups of eight hold the same range. */
  lemma {:induction false} PowsMeet(k: nat)
    ensures Pow(Five, 8 * k) == Pow(Eight, 5 * k)
  {
    if k > 0 {
      PowsMeet(k - 1);
      FiveEight(8 * k - 8);
      EightFive(5 * k - 5);
    }
  }

  lemma FiveEight(n: nat)
    ensures Pow(Five, n + 8) == 0x100_0000_0000 * Pow(Five, n)
  {
    assert Pow(Five, n + 2) == 1024 * Pow(Five, n);
    assert Pow(Five, n + 4) == 1024 * Pow(Five, n + 2);
    assert Pow(Five, n + 6) == 1024 * Pow(Five, n + 4);
    assert Pow(Five, n + 8) == 1024 * Pow(Five, n + 6);
  }

  lemma EightFive(n: nat)
    ensures Pow(Eight, n + 5) == 0x100_0000_0000 * Pow(Eight, n)
  {
    assert Pow(Eight, n + 2) == 0x1_0000 * Pow(Eight, n);
    assert Pow(Eight, n + 4) == 0x1_0000 * Pow(Eight, n + 2);
  }

  /** Fifty-two groups of five bits hold thirty-two of eight and four bits more. */
  lemma Ranges()
    ensures Pow(Five, 52) == 16 * Pow(Eight, 32)
  {
    PowsMeet(6);
    assert Pow(Five, 50) == 1024 * Pow(Five, 48);
    assert Pow(Five, 52) == 1024 * Pow(Five, 50);
    assert Pow(Eight, 32) == 0x1_0000 * Pow(Eight, 30);
  }

  /** A number without its last `bits` bits. */
  function Drop(x: nat, bits: nat): nat {
    if bits == 0 then x else Drop(x / 2, bits - 1)
  }

  lemma {:induction false} DropTwice(x: nat, m: nat, n: nat)
    ensures Drop(Drop(x, m), n) == Drop(x, m + n)
    decreases m
  {
    if m > 0 { DropTwice(x / 2, m - 1, n); }
  }

  lemma DropThree(x: nat)
    ensures Drop(x, 1) == x / 2 && Drop(x, 2) == x / 4 && Drop(x, 3) == x / 8
  {
    assert Drop(x / 2, 1) == Drop(x / 2 / 2, 0);
    assert Drop(x / 2, 2) == Drop(x / 2 / 2, 1) == Drop(x / 2 / 2 / 2, 0);
  }

  lemma DropFive(x: nat)
    ensures Drop(x, 4) == x / 16 && Drop(x, 5) == x / 32
  {
    DropTwice(x, 3, 1);
    DropTwice(x, 3, 2);
    DropThree(x);
    DropThree(x / 8);
  }

  lemma DropEight(x: nat)
    ensures Drop(x, 8) == x / 256
  {
    DropTwice(x, 5, 3);
    DropFive(x);
    DropThree(x / 32);
  }

  /** Appending five bits and dropping five more cancels. */
  lemma DropAppended(x: nat, item: nat, bits: nat)
    requires item < 32
    ensures Drop(32 * x + item, bits + 5) == Drop(x, bits)
  {
    DropFive(32 * x + item);
    DropTwice(32 * x + item, 5, bits);
  }

  /** Dropping eight bits more is dividing by 256. */
  lemma DropByte(x: nat, bits: nat)
    ensures Drop(x, bits + 8) == Drop(x, bits) / 256
  {
    DropTwice(x, bits, 8);
    DropEight(Drop(x, bits));
  }

  /** The last `bits` bits of a number. */
  function LastBits(x: nat, bits: nat): nat {
    if bits == 0 then 0 else x % 2 + 2 * LastBits(x / 2, bits - 1)
  }

  lemma LastFour(x: nat)
    ensures LastBits(x, 4) == x % 16
  {
    assert LastBits(x / 2 / 2 / 2, 1) == x / 2 / 2 / 2 % 2;
    assert LastBits(x / 2 / 2, 2) == x / 2 / 2 % 2 + 2 * LastBits(x / 2 / 2 / 2, 1);
    assert LastBits(x / 2, 3) == x / 2 % 2 + 2 * LastBits(x / 2 / 2, 2);
  }
}
