/** The example of NIP-19, section "Examples": one public key and its `npub`, step by step. */
module NpubExample {
  import opened Options
  import opened Bech32
  import opened Digits
  import opened Npub

  function Text(): string {
    "npub1" + "0elfcs4f" + "r0l0r8af" + "98jlmgdh" + "9c8tcxjv" + "z9qkw038" + "js35mp4d" + "ma8qzvjp" + "tg"
  }

  /** The bytes of the key. */
  function KeyAt(i: nat): nat {
    match i
    case 0 => 0x7E case 1 => 0x7E case 2 => 0x9C case 3 => 0x42 case 4 => 0xA9 case 5 => 0x1B case 6 => 0xFE
    case 7 => 0xF1 case 8 => 0x9F case 9 => 0xA9 case 10 => 0x29 case 11 => 0xE5 case 12 => 0xFD case 13 => 0xA1
    case 14 => 0xB7 case 15 => 0x2E case 16 => 0xE case 17 => 0xBC case 18 => 0x1A case 19 => 0x4C case 20 => 0x11
    case 21 => 0x41 case 22 => 0x67 case 23 => 0x3E case 24 => 0x27 case 25 => 0x94 case 26 => 0x23 case 27 => 0x4D
    case 28 => 0x86 case 29 => 0xAD case 30 => 0xDF case _ => 0x4E
  }

  function Key(): seq<nat> {
    seq(32, i requires 0 <= i < 32 => KeyAt(i))
  }

  function SymbolsFrom(a: nat, n: nat): seq<Symbol> {
    seq(n, i requires 0 <= i < n => SymbolAt(a + i))
  }

  function Spelled(a: nat, n: nat): string {
    Spell(SymbolsFrom(a, n))
  }

  lemma SpelledJoins(a: nat, m: nat, n: nat)
    ensures Spelled(a, m + n) == Spelled(a, m) + Spelled(a + m, n)
    ensures Prefix() + Spelled(a, m + n) == (Prefix() + Spelled(a, m)) + Spelled(a + m, n)
  {
    hide SymbolAt, Prefix;
  }

  /** The symbols that the checksum runs over, one after another. */
  function SymbolAt(i: nat): bv5 {
    match i
    case 0 => 3 case 1 => 3 case 2 => 3 case 3 => 3 case 4 => 0 case 5 => 14 case 6 => 16 case 7 => 21 case 8 => 2
    case 9 => 15 case 10 => 25 case 11 => 31 case 12 => 9 case 13 => 24 case 14 => 16 case 15 => 21 case 16 => 9
    case 17 => 3 case 18 => 15 case 19 => 31 case 20 => 15 case 21 => 3 case 22 => 7 case 23 => 29 case 24 => 9
    case 25 => 5 case 26 => 7 case 27 => 18 case 28 => 31 case 29 => 27 case 30 => 8 case 31 => 13 case 32 => 23
    case 33 => 5 case 34 => 24 case 35 => 7 case 36 => 11 case 37 => 24 case 38 => 6 case 39 => 18 case 40 => 12
    case 41 => 2 case 42 => 5 case 43 => 0 case 44 => 22 case 45 => 14 case 46 => 15 case 47 => 17 case 48 => 7
    case 49 => 18 case 50 => 16 case 51 => 17 case 52 => 20 case 53 => 27 case 54 => 1 case 55 => 21 case 56 => 13
    case 57 => 27 case 58 => 29 case 59 => 7 case 60 => 0 case 61 => 2 case 62 => 12 case 63 => 18 case 64 => 1
    case 65 => 11 case _ => 8
  }

  /** The checksum's state before symbol `i`. */
  function State(i: nat): bv30 {
    match i
    case 0 => 0x1 case 1 => 0x23 case 2 => 0x463 case 3 => 0x8C63 case 4 => 0x118C63 case 5 => 0x2318C60
    case 6 => 0x3D5BDBBC case 7 => 0x4DCB169 case 8 => 0x3DC6A358 case 9 => 0x1773ADFB case 10 => 0xE0D556D
    case 11 => 0x2316D9C case 12 => 0x3D47E42D case 13 => 0x75B4350 case 14 => 0x3652B3C7 case 15 => 0x3AF041
    case 16 => 0x75E0835 case 17 => 0x36FBDF76 case 18 => 0x15176672 case 19 => 0x39FE73FF case 20 => 0x3639376B
    case 21 => 0xD4A65DE case 22 => 0x11BD2C54 case 23 => 0xAE7B95A case 24 => 0x393C6515 case 25 => 0x2E7BEA3D
    case 26 => 0x26F2E533 case 27 => 0x29721D0B case 28 => 0x1AF6DA3B case 29 => 0x6523AEA case 30 => 0x177D8484
    case 31 => 0xFC87A8A case 32 => 0x3A949168 case 33 => 0x200F3231 case 34 => 0x2BF22496 case 35 => 0x319BBE23
    case 36 => 0x24219509 case 37 => 0x8764DF5 case 38 => 0x1068A742 case 39 => 0x3056DB9B case 40 => 0x1D8D221C
    case 41 => 0x3417E7C6 case 42 => 0x33FA27C1 case 43 => 0x1378FEF9 case 44 => 0x2937BB4F case 45 => 0x124212BF
    case 46 => 0xE6A3381 case 47 => 0xEDDB00A case 48 => 0x182DC174 case 49 => 0x265B04A0 case 50 => 0x3C4E2F7E
    case 51 => 0x26622929 case 52 => 0x3B6B9E5D case 53 => 0x1FEED492 case 54 => 0x30361A3 case 55 => 0x1B0663D3
    case 56 => 0x384507E0 case 57 => 0x157B499 case 58 => 0x2AF6933B case 59 => 0x110D4B86 case 60 => 0x1CEB431A
    case 61 => 0x18DBC70A case 62 => 0x389BCB65 case 63 => 0x1A8E2438 case 64 => 0x94DFA87 case 65 => 0x371E491B
    case 66 => 0x29A5ABDA case _ => 0x1
  }

  /** The number that the first `i` data symbols spell. */
  function NumberTo(i: nat): nat {
    match i
    case 0 => 0x0 case 1 => 0xF case 2 => 0x1F9 case 3 => 0x3F3F case 4 => 0x7E7E9 case 5 => 0xFCFD38
    case 6 => 0x1F9FA710 case 7 => 0x3F3F4E215 case 8 => 0x7E7E9C42A9 case 9 => 0xFCFD3885523
    case 10 => 0x1F9FA710AA46F case 11 => 0x3F3F4E21548DFF case 12 => 0x7E7E9C42A91BFEF case 13 => 0xFCFD38855237FDE3
    case 14 => 0x1F9FA710AA46FFBC67 case 15 => 0x3F3F4E21548DFF78CFD case 16 => 0x7E7E9C42A91BFEF19FA9
    case 17 => 0xFCFD38855237FDE33F525 case 18 => 0x1F9FA710AA46FFBC67EA4A7 case 19 => 0x3F3F4E21548DFF78CFD494F2
    case 20 => 0x7E7E9C42A91BFEF19FA929E5F case 21 => 0xFCFD38855237FDE33F5253CBFB
    case 22 => 0x1F9FA710AA46FFBC67EA4A797F68 case 23 => 0x3F3F4E21548DFF78CFD494F2FED0D
    case 24 => 0x7E7E9C42A91BFEF19FA929E5FDA1B7 case 25 => 0xFCFD38855237FDE33F5253CBFB436E5
    case 26 => 0x1F9FA710AA46FFBC67EA4A797F686DCB8 case 27 => 0x3F3F4E21548DFF78CFD494F2FED0DB9707
    case 28 => 0x7E7E9C42A91BFEF19FA929E5FDA1B72E0EB case 29 => 0xFCFD38855237FDE33F5253CBFB436E5C1D78
    case 30 => 0x1F9FA710AA46FFBC67EA4A797F686DCB83AF06 case 31 => 0x3F3F4E21548DFF78CFD494F2FED0DB97075E0D2
    case 32 => 0x7E7E9C42A91BFEF19FA929E5FDA1B72E0EBC1A4C case 33 => 0xFCFD38855237FDE33F5253CBFB436E5C1D7834982
    case 34 => 0x1F9FA710AA46FFBC67EA4A797F686DCB83AF0693045 case 35 => 0x3F3F4E21548DFF78CFD494F2FED0DB97075E0D2608A0
    case 36 => 0x7E7E9C42A91BFEF19FA929E5FDA1B72E0EBC1A4C11416
    case 37 => 0xFCFD38855237FDE33F5253CBFB436E5C1D7834982282CE
    case 38 => 0x1F9FA710AA46FFBC67EA4A797F686DCB83AF0693045059CF
    case 39 => 0x3F3F4E21548DFF78CFD494F2FED0DB97075E0D2608A0B39F1
    case 40 => 0x7E7E9C42A91BFEF19FA929E5FDA1B72E0EBC1A4C1141673E27
    case 41 => 0xFCFD38855237FDE33F5253CBFB436E5C1D7834982282CE7C4F2
    case 42 => 0x1F9FA710AA46FFBC67EA4A797F686DCB83AF0693045059CF89E50
    case 43 => 0x3F3F4E21548DFF78CFD494F2FED0DB97075E0D2608A0B39F13CA11
    case 44 => 0x7E7E9C42A91BFEF19FA929E5FDA1B72E0EBC1A4C1141673E2794234
    case 45 => 0xFCFD38855237FDE33F5253CBFB436E5C1D7834982282CE7C4F28469B
    case 46 => 0x1F9FA710AA46FFBC67EA4A797F686DCB83AF0693045059CF89E508D361
    case 47 => 0x3F3F4E21548DFF78CFD494F2FED0DB97075E0D2608A0B39F13CA11A6C35
    case 48 => 0x7E7E9C42A91BFEF19FA929E5FDA1B72E0EBC1A4C1141673E2794234D86AD
    case 49 => 0xFCFD38855237FDE33F5253CBFB436E5C1D7834982282CE7C4F28469B0D5BB
    case 50 => 0x1F9FA710AA46FFBC67EA4A797F686DCB83AF0693045059CF89E508D361AB77D
    case 51 => 0x3F3F4E21548DFF78CFD494F2FED0DB97075E0D2608A0B39F13CA11A6C356EFA7
    case _ => 0x7E7E9C42A91BFEF19FA929E5FDA1B72E0EBC1A4C1141673E2794234D86ADDF4E0
  }

  /** The number that the first `i` bytes spell. */
  function ByteNumberTo(i: nat): nat {
    match i
    case 0 => 0x0 case 1 => 0x7E case 2 => 0x7E7E case 3 => 0x7E7E9C case 4 => 0x7E7E9C42 case 5 => 0x7E7E9C42A9
    case 6 => 0x7E7E9C42A91B case 7 => 0x7E7E9C42A91BFE case 8 => 0x7E7E9C42A91BFEF1 case 9 => 0x7E7E9C42A91BFEF19F
    case 10 => 0x7E7E9C42A91BFEF19FA9 case 11 => 0x7E7E9C42A91BFEF19FA929 case 12 => 0x7E7E9C42A91BFEF19FA929E5
    case 13 => 0x7E7E9C42A91BFEF19FA929E5FD case 14 => 0x7E7E9C42A91BFEF19FA929E5FDA1
    case 15 => 0x7E7E9C42A91BFEF19FA929E5FDA1B7 case 16 => 0x7E7E9C42A91BFEF19FA929E5FDA1B72E
    case 17 => 0x7E7E9C42A91BFEF19FA929E5FDA1B72E0E case 18 => 0x7E7E9C42A91BFEF19FA929E5FDA1B72E0EBC
    case 19 => 0x7E7E9C42A91BFEF19FA929E5FDA1B72E0EBC1A case 20 => 0x7E7E9C42A91BFEF19FA929E5FDA1B72E0EBC1A4C
    case 21 => 0x7E7E9C42A91BFEF19FA929E5FDA1B72E0EBC1A4C11 case 22 => 0x7E7E9C42A91BFEF19FA929E5FDA1B72E0EBC1A4C1141
    case 23 => 0x7E7E9C42A91BFEF19FA929E5FDA1B72E0EBC1A4C114167
    case 24 => 0x7E7E9C42A91BFEF19FA929E5FDA1B72E0EBC1A4C1141673E
    case 25 => 0x7E7E9C42A91BFEF19FA929E5FDA1B72E0EBC1A4C1141673E27
    case 26 => 0x7E7E9C42A91BFEF19FA929E5FDA1B72E0EBC1A4C1141673E2794
    case 27 => 0x7E7E9C42A91BFEF19FA929E5FDA1B72E0EBC1A4C1141673E279423
    case 28 => 0x7E7E9C42A91BFEF19FA929E5FDA1B72E0EBC1A4C1141673E2794234D
    case 29 => 0x7E7E9C42A91BFEF19FA929E5FDA1B72E0EBC1A4C1141673E2794234D86
    case 30 => 0x7E7E9C42A91BFEF19FA929E5FDA1B72E0EBC1A4C1141673E2794234D86AD
    case 31 => 0x7E7E9C42A91BFEF19FA929E5FDA1B72E0EBC1A4C1141673E2794234D86ADDF
    case _ => 0x7E7E9C42A91BFEF19FA929E5FDA1B72E0EBC1A4C1141673E2794234D86ADDF4E
  }

  /** The generator that bit `k` of a state's top five picks. */
  function Picked(c: bv30, bit: bv30, g: bv30): bv30 {
    if c & bit != 0 then g else 0
  }

  lemma MaskNext(top: bv30, n: nat)
    requires 1 <= n <= 5
    ensures Mask(top, n) == if n == 1 then Pick(top, 0) else Mask(top, n - 1) ^ Pick(top, n - 1)
  {
    hide Pick;
    XorZero(Pick(top, 0));
  }

  lemma MaskOpen(top: bv30)
    ensures Mask(top, 5) == Pick(top, 0) ^ Pick(top, 1) ^ Pick(top, 2) ^ Pick(top, 3) ^ Pick(top, 4)
  {
    hide Pick, Mask, Xor;
    MaskNext(top, 1);
    MaskNext(top, 2);
    MaskNext(top, 3);
    MaskNext(top, 4);
    MaskNext(top, 5);
  }

  lemma TopBits(c: bv30)
    ensures (c >> 25) & 1 == 1 <==> c & 0x2000000 != 0
    ensures ((c >> 25) >> 1) & 1 == 1 <==> c & 0x4000000 != 0
    ensures ((c >> 25) >> 2) & 1 == 1 <==> c & 0x8000000 != 0
    ensures ((c >> 25) >> 3) & 1 == 1 <==> c & 0x10000000 != 0
    ensures ((c >> 25) >> 4) & 1 == 1 <==> c & 0x20000000 != 0
  {
  }

  lemma StepOpen(c: bv30, v: bv30)
    ensures Step(c, v) == ((c & 0x1FFFFFF) << 5) ^ v ^ (Picked(c, 0x2000000, 0x3B6A57B2)
      ^ Picked(c, 0x4000000, 0x26508E6D) ^ Picked(c, 0x8000000, 0x1EA119FA) ^ Picked(c, 0x10000000, 0x3D4233DD)
      ^ Picked(c, 0x20000000, 0x2A1462B3))
  {
    hide Mask;
    MaskOpen(Top(c));
    TopBits(c);
    assert Pick(Top(c), 0) == Picked(c, 0x2000000, 0x3B6A57B2) && Pick(Top(c), 1) == Picked(c, 0x4000000, 0x26508E6D);
    assert Pick(Top(c), 2) == Picked(c, 0x8000000, 0x1EA119FA) && Pick(Top(c), 3) == Picked(c, 0x10000000, 0x3D4233DD);
    assert Pick(Top(c), 4) == Picked(c, 0x20000000, 0x2A1462B3);
  }

  lemma States0(i: nat)
    requires 0 <= i < 8
    ensures Step(State(i), Wide(SymbolAt(i))) == State(i + 1)
  {
    hide Step;
    StepOpen(State(i), Wide(SymbolAt(i)));
  }

  lemma States8(i: nat)
    requires 8 <= i < 16
    ensures Step(State(i), Wide(SymbolAt(i))) == State(i + 1)
  {
    hide Step;
    StepOpen(State(i), Wide(SymbolAt(i)));
  }

  lemma States16(i: nat)
    requires 16 <= i < 24
    ensures Step(State(i), Wide(SymbolAt(i))) == State(i + 1)
  {
    hide Step;
    StepOpen(State(i), Wide(SymbolAt(i)));
  }

  lemma States24(i: nat)
    requires 24 <= i < 32
    ensures Step(State(i), Wide(SymbolAt(i))) == State(i + 1)
  {
    hide Step;
    StepOpen(State(i), Wide(SymbolAt(i)));
  }

  lemma States32(i: nat)
    requires 32 <= i < 40
    ensures Step(State(i), Wide(SymbolAt(i))) == State(i + 1)
  {
    hide Step;
    StepOpen(State(i), Wide(SymbolAt(i)));
  }

  lemma States40(i: nat)
    requires 40 <= i < 48
    ensures Step(State(i), Wide(SymbolAt(i))) == State(i + 1)
  {
    hide Step;
    StepOpen(State(i), Wide(SymbolAt(i)));
  }

  lemma States48(i: nat)
    requires 48 <= i < 56
    ensures Step(State(i), Wide(SymbolAt(i))) == State(i + 1)
  {
    hide Step;
    StepOpen(State(i), Wide(SymbolAt(i)));
  }

  lemma States56(i: nat)
    requires 56 <= i < 64
    ensures Step(State(i), Wide(SymbolAt(i))) == State(i + 1)
  {
    hide Step;
    StepOpen(State(i), Wide(SymbolAt(i)));
  }

  lemma States64(i: nat)
    requires 64 <= i < 67
    ensures Step(State(i), Wide(SymbolAt(i))) == State(i + 1)
  {
    hide Step;
    StepOpen(State(i), Wide(SymbolAt(i)));
  }

  lemma StateStep(i: nat)
    requires i < 67
    ensures Step(State(i), Wide(SymbolAt(i))) == State(i + 1)
  {
    hide Step, State, SymbolAt;
    if i < 8 {
      States0(i);
    } else if i < 16 {
      States8(i);
    } else if i < 24 {
      States16(i);
    } else if i < 32 {
      States24(i);
    } else if i < 40 {
      States32(i);
    } else if i < 48 {
      States40(i);
    } else if i < 56 {
      States48(i);
    } else if i < 64 {
      States56(i);
    } else if i < 67 {
      States64(i);
    }
  }

  lemma Piece0()
    ensures Spelled(9, 8) == "0elfcs4f"
  {
    var t := Spelled(9, 8);
    assert t[0] == '0' && t[1] == 'e' && t[2] == 'l' && t[3] == 'f' && t[4] == 'c'
      && t[5] == 's' && t[6] == '4' && t[7] == 'f';
  }

  lemma Piece1()
    ensures Spelled(17, 8) == "r0l0r8af"
  {
    var t := Spelled(17, 8);
    assert t[0] == 'r' && t[1] == '0' && t[2] == 'l' && t[3] == '0' && t[4] == 'r'
      && t[5] == '8' && t[6] == 'a' && t[7] == 'f';
  }

  lemma Piece2()
    ensures Spelled(25, 8) == "98jlmgdh"
  {
    var t := Spelled(25, 8);
    assert t[0] == '9' && t[1] == '8' && t[2] == 'j' && t[3] == 'l' && t[4] == 'm'
      && t[5] == 'g' && t[6] == 'd' && t[7] == 'h';
  }

  lemma Piece3()
    ensures Spelled(33, 8) == "9c8tcxjv"
  {
    var t := Spelled(33, 8);
    assert t[0] == '9' && t[1] == 'c' && t[2] == '8' && t[3] == 't' && t[4] == 'c'
      && t[5] == 'x' && t[6] == 'j' && t[7] == 'v';
  }

  lemma Piece4()
    ensures Spelled(41, 8) == "z9qkw038"
  {
    var t := Spelled(41, 8);
    assert t[0] == 'z' && t[1] == '9' && t[2] == 'q' && t[3] == 'k' && t[4] == 'w'
      && t[5] == '0' && t[6] == '3' && t[7] == '8';
  }

  lemma Piece5()
    ensures Spelled(49, 8) == "js35mp4d"
  {
    var t := Spelled(49, 8);
    assert t[0] == 'j' && t[1] == 's' && t[2] == '3' && t[3] == '5' && t[4] == 'm'
      && t[5] == 'p' && t[6] == '4' && t[7] == 'd';
  }

  lemma Piece6()
    ensures Spelled(57, 8) == "ma8qzvjp"
  {
    var t := Spelled(57, 8);
    assert t[0] == 'm' && t[1] == 'a' && t[2] == '8' && t[3] == 'q' && t[4] == 'z'
      && t[5] == 'v' && t[6] == 'j' && t[7] == 'p';
  }

  lemma Piece7()
    ensures Spelled(65, 2) == "tg"
  {
    var t := Spelled(65, 2);
    assert t[0] == 't' && t[1] == 'g';
  }

  lemma TextSpelled()
    ensures Text() == Prefix() + Spelled(9, 58)
  {
    hide Spelled;
    Piece0();
    Piece1();
    Piece2();
    Piece3();
    Piece4();
    Piece5();
    Piece6();
    Piece7();
    SpelledJoins(9, 8, 8);
    SpelledJoins(9, 16, 8);
    SpelledJoins(9, 24, 8);
    SpelledJoins(9, 32, 8);
    SpelledJoins(9, 40, 8);
    SpelledJoins(9, 48, 8);
    SpelledJoins(9, 56, 2);
  }

  lemma NumberStep0(i: nat)
    requires 0 <= i < 13
    ensures NumberTo(i + 1) == 32 * NumberTo(i) + ToNumber(SymbolAt(9 + i))
  {
  }

  lemma NumberStep13(i: nat)
    requires 13 <= i < 26
    ensures NumberTo(i + 1) == 32 * NumberTo(i) + ToNumber(SymbolAt(9 + i))
  {
  }

  lemma NumberStep26(i: nat)
    requires 26 <= i < 39
    ensures NumberTo(i + 1) == 32 * NumberTo(i) + ToNumber(SymbolAt(9 + i))
  {
  }

  lemma NumberStep39(i: nat)
    requires 39 <= i < 52
    ensures NumberTo(i + 1) == 32 * NumberTo(i) + ToNumber(SymbolAt(9 + i))
  {
  }

  lemma NumberStep(i: nat)
    requires i < 52
    ensures NumberTo(i + 1) == 32 * NumberTo(i) + ToNumber(SymbolAt(9 + i))
  {
    hide NumberTo, ToNumber, SymbolAt;
    if i < 13 {
      NumberStep0(i);
    } else if i < 26 {
      NumberStep13(i);
    } else if i < 39 {
      NumberStep26(i);
    } else if i < 52 {
      NumberStep39(i);
    }
  }

  lemma ByteStep0(i: nat)
    requires 0 <= i < 16
    ensures ByteNumberTo(i + 1) == 256 * ByteNumberTo(i) + KeyAt(i) && KeyAt(i) < 256
  {
  }

  lemma ByteStep16(i: nat)
    requires 16 <= i < 32
    ensures ByteNumberTo(i + 1) == 256 * ByteNumberTo(i) + KeyAt(i) && KeyAt(i) < 256
  {
  }

  lemma ByteStep(i: nat)
    requires i < 32
    ensures ByteNumberTo(i + 1) == 256 * ByteNumberTo(i) + KeyAt(i) && KeyAt(i) < 256
  {
    hide ByteNumberTo, KeyAt;
    if i < 16 {
      ByteStep0(i);
    } else if i < 32 {
      ByteStep16(i);
    }
  }

  lemma StatesFollow(n: nat)
    requires n <= 67
    ensures Polymod(1, SymbolsFrom(0, n)) == State(n)
  {
    hide Step, Wide, SymbolAt, State;
    if n == 0 {
      StateStart();
    } else {
      StatesFollow(n - 1);
      StateStep(n - 1);
      assert SymbolsFrom(0, n)[..n - 1] == SymbolsFrom(0, n - 1);
    }
  }

  lemma StateStart()
    ensures State(0) == 1 && State(67) == 1 && SymbolsFrom(0, 9) == Expanded()
  {
    forall k | 0 <= k < 9 ensures SymbolsFrom(0, 9)[k] == Expanded()[k] {
      Starts(k);
      assert SymbolsFrom(0, 9)[k] == SymbolAt(0 + k);
    }
  }

  lemma Starts(k: nat)
    requires k < 9
    ensures SymbolAt(k) == Expanded()[k]
  {
  }

  lemma NumbersFollow(n: nat)
    requires n <= 52
    ensures Value(Five, Numbers(SymbolsFrom(9, n))) == NumberTo(n)
  {
    hide ToNumber, SymbolAt, NumberTo, Value;
    if n == 0 {
      NumberStart();
    } else {
      NumbersFollow(n - 1);
      NumberStep(n - 1);
      NextSymbol(SymbolsFrom(9, n), n - 1);
      assert SymbolsFrom(9, n)[..n - 1] == SymbolsFrom(9, n - 1) && SymbolsFrom(9, n)[..n] == SymbolsFrom(9, n);
    }
  }

  lemma NumberStart()
    ensures Value(Five, Numbers(SymbolsFrom(9, 0))) == NumberTo(0) && Value(Eight, Key()[..0]) == ByteNumberTo(0)
    ensures NumberTo(52) == 16 * ByteNumberTo(32)
  {
  }

  lemma BytesFollow(n: nat)
    requires n <= 32
    ensures AreDigits(Eight, Key()[..n]) && Value(Eight, Key()[..n]) == ByteNumberTo(n)
  {
    hide KeyAt, ByteNumberTo, Value;
    if n == 0 {
      NumberStart();
    } else {
      BytesFollow(n - 1);
      ByteStep(n - 1);
      ValueAppends(Eight, Key()[..n - 1], KeyAt(n - 1));
      assert Key()[..n] == Key()[..n - 1] + [KeyAt(n - 1)];
    }
  }

  lemma KeyDecoded()
    ensures IsPayload(Key()) && PayloadOf(SymbolsFrom(9, 52)) == Some(Key())
  {
    hide KeyAt, SymbolAt, NumberTo, ByteNumberTo, Value, Write, Numbers;
    NumbersFollow(52);
    BytesFollow(32);
    NumberStart();
    assert Key()[..32] == Key();
    WriteValue(Eight, Key());
  }

  lemma ExampleReads()
    ensures |Text()| == 63 && Text()[..5] == Prefix() && Text()[5..] == Spelled(9, 58)
    ensures InAlphabet(Text()[5..]) && Read(Text()[5..]) == SymbolsFrom(9, 58)
  {
    hide Text, SymbolAt, Prefix, InAlphabet, Read, SymbolsFrom;
    TextSpelled();
    ReadSpell(SymbolsFrom(9, 58));
    Behind(Spelled(9, 58));
    assert |SymbolsFrom(9, 58)| == 58 by { SymbolCount(9, 58); }
  }

  lemma SymbolCount(a: nat, n: nat)
    ensures |SymbolsFrom(a, n)| == n
  {
    hide SymbolAt;
  }

  lemma SymbolsSplit()
    ensures SymbolsFrom(0, 67) == Expanded() + SymbolsFrom(9, 58)
    ensures SymbolsFrom(9, 58)[..52] == SymbolsFrom(9, 52)
  {
    hide SymbolAt, State, Expanded;
    StateStart();
    assert SymbolsFrom(0, 67) == SymbolsFrom(0, 9) + SymbolsFrom(9, 58);
  }

  /** The example's `npub` is accepted and stands for the example's key. */
  lemma ExampleDecodes()
    ensures Decode(Text()) == Some(Key())
  {
    hide Text, KeyAt, SymbolAt, State, SymbolsFrom, Spelled, Polymod, PayloadOf, Expanded, Prefix, InAlphabet, Read;
    ExampleReads();
    SymbolsSplit();
    StatesFollow(67);
    StateStart();
    KeyDecoded();
  }
}
