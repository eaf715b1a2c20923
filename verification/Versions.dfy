/** Versions of a component: their order, how they are written, and how a release's tag is read. */
module Versions {
  import opened Options
  import opened DeliveryNames

  datatype Key = Key(major: nat, minor: nat, patch: nat)

  predicate Less(a: Key, b: Key) {
    || a.major < b.major
    || (a.major == b.major && a.minor < b.minor)
    || (a.major == b.major && a.minor == b.minor && a.patch < b.patch)
  }

  function Weight(k: Key, base: nat): nat {
    (k.major * base + k.minor) * base + k.patch
  }

  lemma DigitsOrder(a: nat, b: nat, c: nat, d: nat, base: nat)
    requires b < base && d < base
    ensures a * base + b < c * base + d <==> a < c || (a == c && b < d)
  {
    if a < c {
      assert (a + 1) * base <= c * base;
    } else if c < a {
      assert (c + 1) * base <= a * base;
    }
  }

  /** Versions are ordered as the numbers they spell in any base that their smaller parts stay below. */
  lemma LessIsNumeric(a: Key, b: Key, base: nat)
    requires a.minor < base && a.patch < base && b.minor < base && b.patch < base
    ensures Less(a, b) <==> Weight(a, base) < Weight(b, base)
  {
    DigitsOrder(a.major, a.minor, b.major, b.minor, base);
    DigitsOrder(b.major, b.minor, a.major, a.minor, base);
    DigitsOrder(a.major * base + a.minor, a.patch, b.major * base + b.minor, b.patch, base);
  }

  function Decimal(n: nat): string {
    if n < 10 then [('0' as int + n) as char] else Decimal(n / 10) + [('0' as int + n % 10) as char]
  }

  function ShowVersion(k: Key): string {
    Decimal(k.major) + "." + Decimal(k.minor) + "." + Decimal(k.patch)
  }

  /** The number that digits spell, leading zeros or not. */
  function Number(s: string): nat
    requires AllDigits(s)
  {
    if s == [] then 0 else 10 * Number(s[..|s| - 1]) + (s[|s| - 1] as int - '0' as int)
  }

  predicate Dotted(s: string) {
    s != [] && s[0] == '.'
  }

  /** Three numbers with dots between them. */
  function ReadVersion(s: string): Option<Key> {
    var a := SkipDigits(s);
    if Leading(s) == [] || !Dotted(a) then None else
    var b := SkipDigits(a[1..]);
    if Leading(a[1..]) == [] || !Dotted(b) then None else
    if Leading(b[1..]) == [] || SkipDigits(b[1..]) != [] then None else
    Some(Key(Number(Leading(s)), Number(Leading(a[1..])), Number(Leading(b[1..]))))
  }

  /** The component and version of a release's tag, if it is a component version. */
  function ReleaseFacts(tag: string): Option<(string, Key)> {
    if "finitechat/v" <= tag then WithComponent("finitechat", ReadVersion(tag[12..]))
    else if "fbrain/v" <= tag then WithComponent("fbrain", ReadVersion(tag[8..]))
    else if "fsite/v" <= tag then WithComponent("fsite", ReadVersion(tag[7..]))
    else None
  }

  function WithComponent(component: string, key: Option<Key>): Option<(string, Key)> {
    if key.Some? then Some((component, key.value)) else None
  }

  lemma {:induction false} DecimalSpells(n: nat)
    ensures Decimal(n) != [] && AllDigits(Decimal(n)) && Number(Decimal(n)) == n
  {
    if n >= 10 {
      DecimalSpells(n / 10);
      assert Decimal(n)[..|Decimal(n)| - 1] == Decimal(n / 10);
    } else {
      assert Decimal(n)[..0] == [];
    }
  }

  /** One part of a written version, and what follows it. */
  lemma PartStops(n: nat, t: string)
    requires t == "" || Dotted(t)
    ensures Leading(Decimal(n) + t) == Decimal(n) && SkipDigits(Decimal(n) + t) == t
    ensures Decimal(n) != [] && AllDigits(Decimal(n)) && Number(Decimal(n)) == n
  {
    hide Decimal, Leading, SkipDigits, Number;
    DecimalSpells(n);
    LeadingStops(Decimal(n), t);
  }

  lemma ShownParts(k: Key)
    ensures var s := ShowVersion(k);
      var a := SkipDigits(s);
      Leading(s) == Decimal(k.major) && Dotted(a) &&
      var b := SkipDigits(a[1..]);
      && Leading(a[1..]) == Decimal(k.minor) && Dotted(b)
      && Leading(b[1..]) == Decimal(k.patch) && SkipDigits(b[1..]) == []
      && |SkipDigits(s)| < |s| && |SkipDigits(a[1..])| < |a[1..]| && |SkipDigits(b[1..])| < |b[1..]|
  {
    hide Decimal, Leading, SkipDigits, Number;
    var c := Decimal(k.patch);
    var b := "." + c;
    var a := "." + (Decimal(k.minor) + b);
    assert ShowVersion(k) == Decimal(k.major) + a;
    PartStops(k.major, a);
    assert a[1..] == Decimal(k.minor) + b;
    PartStops(k.minor, b);
    assert b[1..] == c && c == c + "";
    PartStops(k.patch, "");
  }

  /** What is written is read back. */
  lemma ReadShown(k: Key)
    ensures ReadVersion(ShowVersion(k)) == Some(k)
  {
    hide Decimal, Leading, SkipDigits, Number, ShowVersion;
    ShownParts(k);
    PartStops(k.major, "");
    PartStops(k.minor, "");
    PartStops(k.patch, "");
  }

  /** Different versions are written differently. */
  lemma ShowVersionInjective(a: Key, b: Key)
    requires ShowVersion(a) == ShowVersion(b)
    ensures a == b
  {
    ReadShown(a);
    ReadShown(b);
  }

  /** The tag that a version is published under tells its component and version. */
  lemma TagTells(component: string, k: Key)
    requires component in COMPONENTS
    ensures ReleaseFacts(VersionTag(component, ShowVersion(k))) == Some((component, k))
  {
    hide ShowVersion, ReadVersion;
    ReadShown(k);
    ComponentHeads(component);
    var tag := VersionTag(component, ShowVersion(k));
    assert tag[|component| + 2..] == ShowVersion(k);
    assert tag[1] == component[1];
    assert "finitechat/v"[1] == 'i' && "fbrain/v"[1] == 'b' && "fsite/v"[1] == 's';
  }

  /** `s` spells the three numbers of `k`, with dots between them. */
  predicate Spells(s: string, k: Key, x: string, y: string, z: string) {
    IsVersionOf(s, x, y, z, "") && k == Key(Number(x), Number(y), Number(z))
  }

  /** A version is read from exactly the strings that spell it. */
  lemma ReadExactly(s: string, k: Key)
    ensures ReadVersion(s) == Some(k) <==> exists x, y, z :: Spells(s, k, x, y, z)
  {
    hide Leading, SkipDigits, AllDigits, Number;
    if ReadVersion(s) == Some(k) {
      var a := SkipDigits(s);
      var b := SkipDigits(a[1..]);
      var x, y, z := Leading(s), Leading(a[1..]), Leading(b[1..]);
      assert x + a == s && y + b == a[1..] && z + "" == b[1..];
      assert a == "." + a[1..] && b == "." + b[1..];
      assert s == x + ("." + (y + ("." + z)));
      assert s == x + "." + y + "." + z + "";
      assert Spells(s, k, x, y, z);
    }
    if x, y, z :| Spells(s, k, x, y, z) { SpelledIsRead(s, k, x, y, z); }
  }

  lemma SpelledIsRead(s: string, k: Key, x: string, y: string, z: string)
    requires Spells(s, k, x, y, z)
    ensures ReadVersion(s) == Some(k)
  {
    hide Leading, SkipDigits, AllDigits, Number;
    var b := "." + z;
    var a := "." + (y + b);
    assert s == x + a && a[1..] == y + b && b[1..] == z + "";
    LeadingStops(x, a);
    LeadingStops(y, b);
    LeadingStops(z, "");
  }

  /** A release is a component's version exactly when its tag is the component, "/v", and a string that spells it. */
  lemma FactsExactly(tag: string, component: string, k: Key)
    ensures ReleaseFacts(tag) == Some((component, k)) <==>
      component in COMPONENTS && exists s :: tag == component + "/v" + s && ReadVersion(s) == Some(k)
  {
    hide ReadVersion;
    if ReleaseFacts(tag) == Some((component, k)) {
      var s := tag[|component| + 2..];
      assert tag == component + "/v" + s;
    }
    if s :| component in COMPONENTS && tag == component + "/v" + s && ReadVersion(s) == Some(k) {
      ComponentHeads(component);
      assert tag[|component| + 2..] == s && tag[1] == component[1];
      assert "finitechat/v"[1] == 'i' && "fbrain/v"[1] == 'b' && "fsite/v"[1] == 's';
    }
  }

  /** What is written is a version that can be published. */
  lemma ShownIsValid(k: Key)
    ensures ValidVersion(ShowVersion(k))
  {
    hide Decimal, Leading, SkipDigits, Number, ShowVersion;
    ShownParts(k);
  }

  /** Three parts in the order they are written, whose leading zeros do not count. */
  lemma VersionExample()
    ensures ReleaseFacts("fsite/v01.20.3") == Some(("fsite", Key(1, 20, 3))) && ShowVersion(Key(1, 20, 3)) == "1.20.3"
  {
    hide ReadVersion;
    ReadExample();
    assert "fsite/v01.20.3"[7..] == "01.20.3";
    assert "fsite/v01.20.3"[1] == 's' && "finitechat/v"[1] == 'i' && "fbrain/v"[1] == 'b';
    assert Decimal(20) == Decimal(2) + "0";
  }

  lemma ReadExample()
    ensures ReadVersion("01.20.3") == Some(Key(1, 20, 3))
  {
    hide Leading, SkipDigits;
    assert "01.20.3" == "01" + ".20.3" && ".20.3"[1..] == "20" + ".3" && ".3"[1..] == "3" + "";
    LeadingStops("01", ".20.3");
    LeadingStops("20", ".3");
    LeadingStops("3", "");
    assert "01"[..1] == "0" && "20"[..1] == "2" && "0"[..0] == "" && "2"[..0] == "" && "3"[..0] == "";
    assert Number("0") == 0 && Number("2") == 2 && Number("3") == 3 && Number("01") == 1 && Number("20") == 20;
  }
}
