/** Release names: components, versions, tags and metadata paths. */
module DeliveryNames {
  const COMPONENTS: set<string> := {"finitechat", "fbrain", "fsite"}
  const METADATA := "release.json"
  const SCHEMA := "finite-release/v1"

  function VersionTag(component: string, version: string): string {
    component + "/v" + version
  }

  function AliasTag(component: string): string {
    component + "-latest"
  }

  function MetadataPath(component: string, version: string): string {
    "releases/" + VersionTag(component, version) + ".json"
  }

  predicate IsDigit(c: char) { '0' <= c <= '9' }

  predicate IsVersionChar(c: char) {
    IsDigit(c) || 'A' <= c <= 'Z' || 'a' <= c <= 'z' || c == '.' || c == '-'
  }

  /** Drops the leading digits. */
  function SkipDigits(s: string): (r: string)
    ensures |r| <= |s|
  {
    if s != [] && IsDigit(s[0]) then SkipDigits(s[1..]) else s
  }

  /** Three dot-separated digit runs, then an optional suffix after '-' or '+'. */
  predicate ValidVersion(v: string) {
    var a := SkipDigits(v);
    |a| < |v| && a != [] && a[0] == '.' &&
    var b := SkipDigits(a[1..]);
    |b| < |a[1..]| && b != [] && b[0] == '.' &&
    var c := SkipDigits(b[1..]);
    |c| < |b[1..]| &&
    (c == [] || (c[0] in {'-', '+'} && |c| > 1 && forall i :: 1 <= i < |c| ==> IsVersionChar(c[i])))
  }

  predicate ValidSourceSha(s: string) {
    |s| == 40 && forall i :: 0 <= i < |s| ==> IsDigit(s[i]) || 'a' <= s[i] <= 'f'
  }

  /** What `str.strip` removes. */
  predicate IsSpace(c: char) {
    var n := c as int;
    || 9 <= n <= 13 || 28 <= n <= 32 || n == 0x85 || n == 0xA0 || n == 0x1680
    || 0x2000 <= n <= 0x200A || n == 0x2028 || n == 0x2029 || n == 0x202F || n == 0x205F || n == 0x3000
  }

  predicate NonBlank(s: string) {
    exists i :: 0 <= i < |s| && !IsSpace(s[i])
  }

  predicate EndsWith(s: string, suffix: string) {
    |s| >= |suffix| && s[|s| - |suffix|..] == suffix
  }

  predicate IsChecksumName(name: string) {
    EndsWith(name, ".sha256")
  }

  /** The name without its ".sha256" suffix. */
  function ArchiveName(name: string): string
    requires IsChecksumName(name)
  {
    name[..|name| - 7]
  }

  /** The names of one version of one component. */
  lemma NamesExample()
    ensures VersionTag("fsite", "1.20.3") == "fsite/v1.20.3" && AliasTag("fsite") == "fsite-latest"
    ensures MetadataPath("fsite", "1.20.3") == "releases/fsite/v1.20.3.json"
    ensures METADATA == "release.json" && SCHEMA == "finite-release/v1"
  {
  }

  predicate AllDigits(s: string) {
    forall i :: 0 <= i < |s| ==> IsDigit(s[i])
  }

  /** The leading digits. */
  function Leading(s: string): (r: string)
    ensures AllDigits(r) && r + SkipDigits(s) == s
  {
    if s != [] && IsDigit(s[0]) then [s[0]] + Leading(s[1..]) else []
  }

  lemma {:induction false} LeadingStops(s: string, t: string)
    requires AllDigits(s) && (t == [] || !IsDigit(t[0]))
    ensures Leading(s + t) == s && SkipDigits(s + t) == t
  {
    if s == [] {
      assert s + t == t;
    } else {
      assert (s + t)[1..] == s[1..] + t;
      LeadingStops(s[1..], t);
    }
  }

  /** What may follow the three numbers of a version. */
  predicate IsSuffix(c: string) {
    c == "" || (|c| >= 2 && (c[0] == '-' || c[0] == '+') && forall i :: 1 <= i < |c| ==> IsVersionChar(c[i]))
  }

  /** The parts of a version: three numbers with dots between them, and perhaps a suffix. */
  predicate IsVersionOf(v: string, x: string, y: string, z: string, c: string) {
    && v == x + "." + y + "." + z + c
    && x != "" && y != "" && z != "" && AllDigits(x) && AllDigits(y) && AllDigits(z) && IsSuffix(c)
  }

  /** A version is exactly what has such parts. */
  lemma ValidVersionExactly(v: string)
    ensures ValidVersion(v) <==> exists x, y, z, c :: IsVersionOf(v, x, y, z, c)
  {
    if ValidVersion(v) { ValidParts(v); }
    if x, y, z, c :| IsVersionOf(v, x, y, z, c) { PartsValid(v, x, y, z, c); }
  }

  lemma ValidParts(v: string)
    requires ValidVersion(v)
    ensures exists x, y, z, c :: IsVersionOf(v, x, y, z, c)
  {
    hide SkipDigits, Leading, AllDigits;
    var a := SkipDigits(v);
    var b := SkipDigits(a[1..]);
    var c := SkipDigits(b[1..]);
    var x, y, z := Leading(v), Leading(a[1..]), Leading(b[1..]);
    assert x + a == v && y + b == a[1..] && z + c == b[1..];
    assert a == "." + a[1..] && b == "." + b[1..];
    assert v == x + ("." + (y + ("." + (z + c))));
    assert v == x + "." + y + "." + z + c;
    assert IsVersionOf(v, x, y, z, c);
  }

  lemma PartsValid(v: string, x: string, y: string, z: string, c: string)
    requires IsVersionOf(v, x, y, z, c)
    ensures ValidVersion(v)
  {
    hide SkipDigits, Leading, AllDigits;
    var b := "." + (z + c);
    var a := "." + (y + b);
    assert v == x + a && a[1..] == y + b && b[1..] == z + c;
    LeadingStops(x, a);
    LeadingStops(y, b);
    LeadingStops(z, c);
  }

  /** The characters of a version's suffix. */
  lemma VersionCharacters(c: char)
    ensures IsVersionChar(c) <==>
      || c in {'A', 'B', 'C', 'D', 'E', 'F', 'G', 'H', 'I', 'J', 'K', 'L', 'M', 'N', 'O', 'P', 'Q', 'R', 'S', 'T', 'U'}
      || c in {'V', 'W', 'X', 'Y', 'Z', 'a', 'b', 'c', 'd', 'e', 'f', 'g', 'h', 'i', 'j', 'k', 'l', 'm', 'n', 'o', 'p'}
      || c in {'q', 'r', 's', 't', 'u', 'v', 'w', 'x', 'y', 'z', '0', '1', '2', '3', '4', '5', '6', '7', '8', '9'}
      || c in {'.', '-'}
  {
  }

  /** A source is named by forty lower-case hexadecimal digits. */
  lemma ValidSourceShaExactly(s: string)
    ensures ValidSourceSha(s) <==>
      && |s| == 40
      && forall i :: 0 <= i < |s| ==>
           s[i] in {'0', '1', '2', '3', '4', '5', '6', '7', '8', '9', 'a', 'b', 'c', 'd', 'e', 'f'}
  {
  }

  /** The 29 characters that stripping removes. */
  lemma Spaces(c: char)
    ensures IsSpace(c) <==> c as int in {0x09, 0x0A, 0x0B, 0x0C, 0x0D, 0x1C, 0x1D, 0x1E, 0x1F, 0x20, 0x85, 0xA0, 0x1680,
      0x2000, 0x2001, 0x2002, 0x2003, 0x2004, 0x2005, 0x2006, 0x2007, 0x2008, 0x2009, 0x200A, 0x2028, 0x2029, 0x202F,
      0x205F, 0x3000}
  {
  }

  lemma ComponentHeads(c: string)
    requires c in COMPONENTS
    ensures c == "finitechat" || c == "fbrain" || c == "fsite"
    ensures |c| >= 5 && c[0] == 'f' && c[1] in {'i', 'b', 's'}
    ensures '/' !in c && '-' !in c
  {
  }

  lemma SameHead(c: string, d: string)
    requires c in COMPONENTS && d in COMPONENTS && c[1] == d[1]
    ensures c == d
  {
  }

  /** No version tag is an alias tag, whatever the components and the version. */
  lemma VersionTagIsNoAlias(c: string, v: string, d: string)
    requires c in COMPONENTS && d in COMPONENTS
    ensures VersionTag(c, v) != AliasTag(d)
  {
    ComponentHeads(c);
    ComponentHeads(d);
    assert VersionTag(c, v)[1] == c[1] && AliasTag(d)[1] == d[1];
    assert VersionTag(c, v)[|c|] == '/' && AliasTag(d)[|d|] == '-';
    if c[1] == d[1] {
      SameHead(c, d);
    }
  }

  /** Different releases have different tags. */
  lemma VersionTagInjective(c: string, v: string, d: string, w: string)
    requires c in COMPONENTS && d in COMPONENTS && VersionTag(c, v) == VersionTag(d, w)
    ensures c == d && v == w
  {
    ComponentHeads(c);
    ComponentHeads(d);
    assert VersionTag(c, v)[1] == c[1] && VersionTag(d, w)[1] == d[1];
    SameHead(c, d);
    assert VersionTag(c, v)[|c| + 2..] == v && VersionTag(c, w)[|c| + 2..] == w;
  }

  lemma AliasTagInjective(c: string, d: string)
    requires c in COMPONENTS && d in COMPONENTS && AliasTag(c) == AliasTag(d)
    ensures c == d
  {
    ComponentHeads(c);
    ComponentHeads(d);
    assert AliasTag(c)[1] == c[1] && AliasTag(d)[1] == d[1];
    SameHead(c, d);
  }

  lemma MetadataPathInjective(c: string, v: string, d: string, w: string)
    requires c in COMPONENTS && d in COMPONENTS && MetadataPath(c, v) == MetadataPath(d, w)
    ensures c == d && v == w
  {
    var s, t := VersionTag(c, v), VersionTag(d, w);
    assert MetadataPath(c, v)[9..|MetadataPath(c, v)| - 5] == s;
    assert MetadataPath(d, w)[9..|MetadataPath(d, w)| - 5] == t;
    VersionTagInjective(c, v, d, w);
  }
}
