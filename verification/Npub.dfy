/** Canonical public keys: `npub` strings and the 32-byte payloads they stand for. */
module Npub {
  import opened Options
  import opened Bech32
  import opened Digits

  function Prefix(): (p: string)
    ensures |p| == 5
  {
    "npub1"
  }

  /** The human-readable part, spread into symbols as the checksum takes it. */
  function Expanded(): seq<Symbol> {
    [3, 3, 3, 3, 0, 14, 16, 21, 2]
  }

  function Letter(n: nat): char {
    match n
    case 0 => 'q' case 1 => 'p' case 2 => 'z' case 3 => 'r' case 4 => 'y' case 5 => '9' case 6 => 'x' case 7 => '8'
    case 8 => 'g' case 9 => 'f' case 10 => '2' case 11 => 't'
    case 12 => 'v' case 13 => 'd' case 14 => 'w' case 15 => '0'
    case 16 => 's' case 17 => '3' case 18 => 'j' case 19 => 'n'
    case 20 => '5' case 21 => '4' case 22 => 'k' case 23 => 'h'
    case 24 => 'c' case 25 => 'e' case 26 => '6' case 27 => 'm'
    case 28 => 'u' case 29 => 'a' case 30 => '7' case _ => 'l'
  }

  /** The position of a character in the bech32 alphabet, or 32. */
  function Place(c: char): (n: nat)
    ensures n <= 32
  {
    match c
    case 'q' => 0 case 'p' => 1 case 'z' => 2 case 'r' => 3 case 'y' => 4 case '9' => 5 case 'x' => 6 case '8' => 7
    case 'g' => 8 case 'f' => 9 case '2' => 10 case 't' => 11
    case 'v' => 12 case 'd' => 13 case 'w' => 14 case '0' => 15
    case 's' => 16 case '3' => 17 case 'j' => 18 case 'n' => 19
    case '5' => 20 case '4' => 21 case 'k' => 22 case 'h' => 23
    case 'c' => 24 case 'e' => 25 case '6' => 26 case 'm' => 27
    case 'u' => 28 case 'a' => 29 case '7' => 30 case 'l' => 31
    case _ => 32
  }

  lemma Alphabet(n: nat, c: char)
    ensures n < 32 ==> Place(Letter(n)) == n
    ensures Place(c) < 32 ==> Letter(Place(c)) == c
  {
  }

  /** The letters in the order of BIP-173, section "Bech32". */
  lemma AlphabetSpelled(n: nat)
    requires n < 32
    ensures Letter(n) == if n < 16 then "qpzry9x8gf2tvdw0"[n] else "s3jn54khce6mua7l"[n - 16]
  {
    if n < 16 { LowerHalf(n); } else { UpperHalf(n); }
  }

  lemma LowerHalf(n: nat)
    requires n < 16
    ensures Letter(n) == "qpzry9x8gf2tvdw0"[n]
  {
  }

  lemma UpperHalf(n: nat)
    requires 16 <= n < 32
    ensures Letter(n) == "s3jn54khce6mua7l"[n - 16]
  {
  }

  function ToSymbol(n: nat): Symbol
    requires n < 32
  {
    n as bv5
  }

  function ToNumber(s: Symbol): (n: nat)
    ensures n < 32
  {
    SymbolNumber(s);
    s as int
  }

  lemma SymbolNumber(s: Symbol)
    ensures 0 <= s as int < 32
  {
  }

  lemma SymbolsAreNumbers(n: nat, s: Symbol)
    ensures n < 32 ==> ToNumber(ToSymbol(n)) == n
    ensures ToSymbol(ToNumber(s)) == s
  {
  }

  function Numbers(ss: seq<Symbol>): (ns: seq<nat>)
    ensures |ns| == |ss| && AreDigits(Five, ns) && forall i :: 0 <= i < |ss| ==> ns[i] == ToNumber(ss[i])
  {
    seq(|ss|, i requires 0 <= i < |ss| => ToNumber(ss[i]))
  }

  function Symbols(ns: seq<nat>): (ss: seq<Symbol>)
    requires AreDigits(Five, ns)
    ensures |ss| == |ns| && forall i :: 0 <= i < |ns| ==> ss[i] == ToSymbol(ns[i])
  {
    seq(|ns|, i requires 0 <= i < |ns| => ToSymbol(ns[i]))
  }

  predicate InAlphabet(text: string) {
    forall i :: 0 <= i < |text| ==> Place(text[i]) < 32
  }

  function Read(text: string): (ss: seq<Symbol>)
    requires InAlphabet(text)
    ensures |ss| == |text| && forall i :: 0 <= i < |text| ==> ss[i] == ToSymbol(Place(text[i]))
  {
    seq(|text|, i requires 0 <= i < |text| => ToSymbol(Place(text[i])))
  }

  function Spell(ss: seq<Symbol>): (text: string)
    ensures |text| == |ss| && forall i :: 0 <= i < |ss| ==> text[i] == Letter(ToNumber(ss[i]))
  {
    seq(|ss|, i requires 0 <= i < |ss| => Letter(ToNumber(ss[i])))
  }

  lemma ReadSpell(ss: seq<Symbol>)
    ensures InAlphabet(Spell(ss)) && Read(Spell(ss)) == ss
  {
    hide Letter, Place, ToSymbol, ToNumber;
    forall i | 0 <= i < |ss| ensures Place(Spell(ss)[i]) < 32 && ToSymbol(Place(Spell(ss)[i])) == ss[i] {
      Alphabet(ToNumber(ss[i]), 'q');
      SymbolsAreNumbers(0, ss[i]);
    }
  }

  lemma SpellRead(text: string)
    requires InAlphabet(text)
    ensures Spell(Read(text)) == text
  {
    hide Letter, Place, ToSymbol, ToNumber;
    forall i | 0 <= i < |text| ensures Letter(ToNumber(Read(text)[i])) == text[i] {
      Alphabet(0, text[i]);
      SymbolsAreNumbers(Place(text[i]), 0);
    }
  }

  /** The strings that pass every check but the padding: length, prefix, alphabet and checksum. */
  predicate Checked(s: string) {
    && |s| == 63 && s[..5] == Prefix() && InAlphabet(s[5..])
    && Polymod(1, Expanded() + Read(s[5..])) == 1
  }

  /** What 52 data symbols stand for. */
  function PayloadOf(data: seq<Symbol>): (r: Option<seq<nat>>)
    ensures r.Some? ==> IsPayload(r.value)
  {
    var value := Value(Five, Numbers(data));
    if value % 16 != 0 then None else Some(Write(Eight, value / 16, 32))
  }

  /** The payload that a string stands for, if it is canonical. */
  function Decode(s: string): (r: Option<seq<nat>>)
    ensures r.Some? ==> IsPayload(r.value)
  {
    if !Checked(s) then None else
    PayloadOf(Read(s[5..])[..52])
  }

  predicate IsPayload(bytes: seq<nat>) {
    |bytes| == 32 && AreDigits(Eight, bytes)
  }

  /** The payload and four zero bits as 52 symbols. */
  function DataOf(bytes: seq<nat>): (data: seq<Symbol>)
    ensures |data| == 52
  {
    Symbols(Write(Five, 16 * Value(Eight, bytes), 52))
  }

  /** The encoding of a payload. */
  function Encode(bytes: seq<nat>): string {
    Prefix() + Spell(DataOf(bytes) + Checksum(Polymod(1, Expanded() + DataOf(bytes))))
  }

  lemma NumbersSymbols(ns: seq<nat>)
    requires AreDigits(Five, ns)
    ensures Numbers(Symbols(ns)) == ns
  {
    hide ToSymbol, ToNumber;
    forall i | 0 <= i < |ns| ensures Numbers(Symbols(ns))[i] == ns[i] { SymbolsAreNumbers(ns[i], 0); }
  }

  lemma SymbolsNumbers(ss: seq<Symbol>)
    ensures Symbols(Numbers(ss)) == ss
  {
    hide ToSymbol, ToNumber;
    forall i | 0 <= i < |ss| ensures Symbols(Numbers(ss))[i] == ss[i] { SymbolsAreNumbers(0, ss[i]); }
  }

  /** The number behind the data symbols of a payload is the payload's, four bits up. */
  lemma DataValue(bytes: seq<nat>)
    requires IsPayload(bytes)
    ensures Value(Five, Numbers(DataOf(bytes))) == 16 * Value(Eight, bytes)
  {
    ValueBelow(Eight, bytes);
    Ranges();
    hide Pow, Value, Write;
    ValueWrite(Five, 16 * Value(Eight, bytes), 52);
    NumbersSymbols(Write(Five, 16 * Value(Eight, bytes), 52));
  }

  /** The checksum symbols of a string are the only ones that its data symbols admit. */
  lemma ChecksumFits(data: seq<Symbol>, sum: seq<Symbol>)
    requires |sum| == 6
    ensures Polymod(1, Expanded() + (data + sum)) == 1 <==> sum == Checksum(Polymod(1, Expanded() + data))
  {
    hide Polymod, Checksum, Expanded;
    assert Expanded() + (data + sum) == (Expanded() + data) + sum;
    PolymodConcat(1, Expanded() + data, sum);
    ChecksumUnique(Polymod(1, Expanded() + data), sum);
  }

  lemma Behind(text: string)
    ensures (Prefix() + text)[..5] == Prefix() && (Prefix() + text)[5..] == text
  {
    hide Prefix;
  }

  lemma Whole(s: string)
    requires |s| >= 5 && s[..5] == Prefix()
    ensures s == Prefix() + s[5..]
  {
    hide Prefix;
  }

  lemma Parts<T>(all: seq<T>, n: nat)
    requires n <= |all|
    ensures all == all[..n] + all[n..]
  {
  }

  /** Every payload's encoding is accepted and decodes to it. */
  lemma DecodeEncode(bytes: seq<nat>)
    requires IsPayload(bytes)
    ensures Decode(Encode(bytes)) == Some(bytes)
  {
    hide Polymod, Checksum, Value, Write, DataOf, Expanded, Prefix;
    var data := DataOf(bytes);
    var sum := Checksum(Polymod(1, Expanded() + data));
    Behind(Spell(data + sum));
    ReadSpell(data + sum);
    ChecksumFits(data, sum);
    assert (data + sum)[..52] == data;
    DataValue(bytes);
    WriteValue(Eight, bytes);
  }

  /** Data symbols with four zero bits at the end are those of the payload read from them. */
  lemma DataOfPayload(data: seq<Symbol>)
    requires |data| == 52 && PayloadOf(data).Some?
    ensures DataOf(PayloadOf(data).value) == data
  {
    ValueBelow(Five, Numbers(data));
    Ranges();
    hide Value, Write, DataOf, Pow, Numbers;
    ValueWrite(Eight, Value(Five, Numbers(data)) / 16, 32);
    DataOfValue(data, Write(Eight, Value(Five, Numbers(data)) / 16, 32));
  }

  /** Every accepted string is the encoding of the payload it decodes to. */
  lemma EncodeDecode(s: string)
    requires Decode(s).Some?
    ensures IsPayload(Decode(s).value) && Encode(Decode(s).value) == s
  {
    var all := Read(s[5..]);
    hide Polymod, Checksum, DataOf, PayloadOf, Read, Spell, Expanded, Prefix, InAlphabet, IsPayload;
    DataOfPayload(all[..52]);
    Parts(all, 52);
    ChecksumFits(all[..52], all[52..]);
    SpellRead(s[5..]);
    Whole(s);
  }

  lemma DataOfValue(data: seq<Symbol>, bytes: seq<nat>)
    requires |data| == 52 && Value(Five, Numbers(data)) == 16 * Value(Eight, bytes)
    ensures DataOf(bytes) == data
  {
    hide Value, Write;
    WriteValue(Five, Numbers(data));
    SymbolsNumbers(data);
  }

  /** Changing up to six neighbouring characters after the prefix of an accepted string to others makes it rejected. */
  lemma BurstRejected(s: string, t: string, at: nat)
    requires Decode(s).Some? && |t| == |s| && 5 <= at <= 57
    requires t != s && forall i :: 0 <= i < |s| && (i < at || i >= at + 6) ==> t[i] == s[i]
    ensures Decode(t).None?
  {
    hide Polymod, PayloadOf, Read, Spell, Expanded, Prefix, InAlphabet;
    Whole(s);
    if Checked(t) {
      Whole(t);
      Apart(s[5..], t[5..], at - 5);
      ChecksumsApart(Read(s[5..]), Read(t[5..]), at - 5);
    }
  }

  lemma ChecksumsApart(was: seq<Symbol>, now: seq<Symbol>, k: nat)
    requires |was| == |now| && k + 6 <= |was| && was[k..k + 6] != now[k..k + 6]
    requires was[..k] == now[..k] && was[k + 6..] == now[k + 6..]
    ensures Polymod(1, Expanded() + was) != Polymod(1, Expanded() + now)
  {
    hide Polymod, Expanded;
    BurstDetected(1, Expanded() + was[..k], was[k..k + 6], now[k..k + 6], was[k + 6..]);
    Spans(Expanded(), was, k);
    Spans(Expanded(), now, k);
  }

  lemma Spans<T>(head: seq<T>, all: seq<T>, k: nat)
    requires k + 6 <= |all|
    ensures head + all[..k] + all[k..k + 6] + all[k + 6..] == head + all
  {
  }

  lemma Apart(s: string, t: string, k: nat)
    requires InAlphabet(s) && InAlphabet(t) && |s| == |t| && s != t && k + 6 <= |s|
    requires forall i :: 0 <= i < |s| && (i < k || i >= k + 6) ==> t[i] == s[i]
    ensures Read(s)[k..k + 6] != Read(t)[k..k + 6]
    ensures Read(s)[..k] == Read(t)[..k] && Read(s)[k + 6..] == Read(t)[k + 6..]
  {
    hide Place, ToSymbol, Letter, ToNumber;
    SpellRead(s);
    SpellRead(t);
    hide Spell;
    forall i | 0 <= i < |s| && (i < k || i >= k + 6) ensures Read(s)[i] == Read(t)[i] {}
    MiddleDiffers(Read(s), Read(t), k);
  }

  lemma MiddleDiffers<T>(a: seq<T>, b: seq<T>, k: nat)
    requires |a| == |b| && k + 6 <= |a| && a != b
    requires forall i :: 0 <= i < |a| && (i < k || i >= k + 6) ==> a[i] == b[i]
    ensures a[k..k + 6] != b[k..k + 6] && a[..k] == b[..k] && a[k + 6..] == b[k + 6..]
  {
    if a[k..k + 6] == b[k..k + 6] {
      forall i | 0 <= i < |a| ensures a[i] == b[i] {
        if k <= i < k + 6 { assert a[k..k + 6][i - k] == b[k..k + 6][i - k]; }
      }
      assert false;
    }
  }

  /** So does changing any single character. */
  lemma ChangeRejected(s: string, i: nat, c: char)
    requires Decode(s).Some? && 5 <= i < |s| && c != s[i]
    ensures Decode(s[i := c]).None?
  {
    BurstRejected(s, s[i := c], if i <= 57 then i else 57);
  }

  function Nibble(n: nat): char
    requires n < 16
  {
    if n < 10 then '0' + n as char else 'a' + (n - 10) as char
  }

  /** Lower-case hexadecimal, two characters a byte. */
  function Hex(bytes: seq<nat>): string
    requires AreDigits(Eight, bytes)
  {
    if bytes == [] then "" else
    Hex(bytes[..|bytes| - 1]) + [Nibble(bytes[|bytes| - 1] / 16), Nibble(bytes[|bytes| - 1] % 16)]
  }

  lemma NibbleSpelled(n: nat)
    requires n < 16
    ensures Nibble(n) == "0123456789abcdef"[n]
  {
  }

  /** Each byte is spelled by the digits of its upper and its lower half. */
  lemma {:induction false} HexSpells(bytes: seq<nat>, i: nat)
    requires AreDigits(Eight, bytes) && i < |bytes|
    ensures |Hex(bytes)| == 2 * |bytes|
    ensures Hex(bytes)[2 * i] == "0123456789abcdef"[bytes[i] / 16]
    ensures Hex(bytes)[2 * i + 1] == "0123456789abcdef"[bytes[i] % 16]
  {
    hide Nibble;
    HexLength(bytes);
    HexLength(bytes[..|bytes| - 1]);
    if i < |bytes| - 1 {
      HexSpells(bytes[..|bytes| - 1], i);
    } else {
      NibbleSpelled(bytes[i] / 16);
      NibbleSpelled(bytes[i] % 16);
    }
  }

  lemma {:induction false} HexLength(bytes: seq<nat>)
    requires AreDigits(Eight, bytes)
    ensures |Hex(bytes)| == 2 * |bytes|
  {
    hide Nibble;
    if bytes != [] { HexLength(bytes[..|bytes| - 1]); }
  }

  lemma NibblesInjective(a: nat, b: nat)
    requires a < 256 && b < 256 && Nibble(a / 16) == Nibble(b / 16) && Nibble(a % 16) == Nibble(b % 16)
    ensures a == b
  {
    NibbleInjective(a / 16, b / 16);
    NibbleInjective(a % 16, b % 16);
  }

  lemma NibbleInjective(m: nat, n: nat)
    requires m < 16 && n < 16 && Nibble(m) == Nibble(n)
    ensures m == n
  {
    assert Nibble(m) as int == (if m < 10 then 48 + m else 87 + m);
    assert Nibble(n) as int == (if n < 10 then 48 + n else 87 + n);
  }

  lemma {:induction false} HexInjective(a: seq<nat>, b: seq<nat>)
    requires AreDigits(Eight, a) && AreDigits(Eight, b) && |a| == |b| && Hex(a) == Hex(b)
    ensures a == b
  {
    hide Nibble;
    if a != [] {
      var n := |Hex(a)|;
      assert Hex(a)[n - 2] == Hex(b)[n - 2] && Hex(a)[n - 1] == Hex(b)[n - 1];
      NibblesInjective(a[|a| - 1], b[|b| - 1]);
      assert Hex(a)[..n - 2] == Hex(a[..|a| - 1]) && Hex(b)[..n - 2] == Hex(b[..|b| - 1]);
      HexInjective(a[..|a| - 1], b[..|b| - 1]);
      assert a == a[..|a| - 1] + [a[|a| - 1]] && b == b[..|b| - 1] + [b[|b| - 1]];
    }
  }

  lemma NextSymbol(values: seq<Symbol>, i: nat)
    requires i < |values|
    ensures Value(Five, Numbers(values[..i + 1])) == 32 * Value(Five, Numbers(values[..i])) + ToNumber(values[i])
  {
    ValueAppends(Five, Numbers(values[..i]), ToNumber(values[i]));
    assert Numbers(values[..i + 1]) == Numbers(values[..i]) + [ToNumber(values[i])];
  }

  /** Five bits in, eight bits out, as soon as there are eight. */
  method Regroup(values: seq<Symbol>) returns (payload: Option<seq<nat>>)
    requires |values| == 52
    ensures payload == PayloadOf(values)
  {
    var accumulator: nat, bits: nat, output: seq<nat> := 0, 0, [];
    for i := 0 to |values|
      invariant accumulator == Value(Five, Numbers(values[..i]))
      invariant bits < 8 && 8 * |output| + bits == 5 * i
      invariant output == Write(Eight, Drop(accumulator, bits), |output|)
    {
      hide Numbers, Value;
      NextSymbol(values, i);
      DropAppended(accumulator, ToNumber(values[i]), bits);
      accumulator, bits := 32 * accumulator + ToNumber(values[i]), bits + 5;
      while bits >= 8
        invariant bits <= 12 && 8 * |output| + bits == 5 * (i + 1)
        invariant output == Write(Eight, Drop(accumulator, bits), |output|)
      {
        bits := bits - 8;
        DropByte(accumulator, bits);
        output := output + [Drop(accumulator, bits) % 256];
      }
    }
    assert values[..52] == values;
    LastFour(accumulator);
    DropFive(accumulator);
    if bits >= 5 || LastBits(accumulator, bits) != 0 || |output| != 32 { return None; }
    return Some(output);
  }

  /** The public key in hexadecimal, or None for anything but its canonical string. */
  method NpubToHex(s: string) returns (hex: Option<string>)
    ensures hex == match Decode(s) case Some(bytes) => Some(Hex(bytes)) case None => None
  {
    if |s| != 63 || s[..5] != Prefix() { return None; }
    var data := s[5..];
    if exists i :: 0 <= i < |data| && Place(data[i]) == 32 { return None; }
    var values := Read(data);
    var checksum := ComputePolymod(Expanded() + values);
    if checksum != 1 { return None; }
    var payload := Regroup(values[..52]);
    if payload.None? { return None; }
    return Some(Hex(payload.value));
  }
}
