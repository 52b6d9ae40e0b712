/**
 * The version-file tool (scripts/versioning.js): the check that a version
 * string follows Semantic Versioning 2.0.0, the construction of a pre-release
 * suffix, and the bump of a stored version by one of its blocks.
 *
 * A version is also given as a value, `SemVer`, with its textual form
 * `Format`; `ValidateVersion` accepts exactly the formatted well-formed
 * values, and `Parse` reads them back.
 */
module Versioning {
  import opened Wrappers
  import Strs

  // ---------------------------------------------------------------------
  // The grammar of `validateVersion`
  // ---------------------------------------------------------------------

  /** A character of an identifier: an ASCII letter, a digit or `-`. */
  predicate IdChar(ch: char) {
    Strs.IsAsciiAlnum(ch) || ch == '-'
  }

  /** `0|[1-9]\d*`: decimal digits without a leading zero. */
  predicate NumericId(s: string) {
    |s| > 0 && Strs.AllDigits(s) && (s[0] == '0' ==> s == "0")
  }

  /** `\d*[a-zA-Z-][0-9a-zA-Z-]*`: identifier characters, at least one of them not a digit. */
  predicate AlphanumericId(s: string) {
    (forall k :: 0 <= k < |s| ==> IdChar(s[k])) && exists k :: 0 <= k < |s| && !Strs.IsDigit(s[k])
  }

  /** A pre-release identifier. */
  predicate PreReleaseId(s: string) {
    NumericId(s) || AlphanumericId(s)
  }

  /** A build identifier: `[0-9a-zA-Z-]+`. */
  predicate BuildId(s: string) {
    |s| > 0 && forall k :: 0 <= k < |s| ==> IdChar(s[k])
  }

  predicate PreReleaseIds(ids: seq<string>) {
    forall k :: 0 <= k < |ids| ==> PreReleaseId(ids[k])
  }

  predicate BuildIds(ids: seq<string>) {
    forall k :: 0 <= k < |ids| ==> BuildId(ids[k])
  }

  /** `s` cut at its first `c`: what comes before it, and what follows it when it occurs. */
  function CutAt(s: string, c: char): (r: (string, Option<string>))
    ensures r.1.None? ==> r.0 == s && c !in s
    ensures r.1.Some? ==> s == r.0 + [c] + r.1.value && c !in r.0
    decreases |s|
  {
    if s == [] then (s, None)
    else if s[0] == c then
      assert s == [] + [c] + s[1..];
      ([], Some(s[1..]))
    else
      var t := CutAt(s[1..], c);
      assert t.1.Some? ==> s == ([s[0]] + t.0) + [c] + t.1.value;
      assert t.1.None? ==> s == [s[0]] + t.0;
      ([s[0]] + t.0, t.1)
  }

  /** The cut is determined by the first occurrence of `c`. */
  lemma CutAtJoined(a: string, c: char, b: string)
    requires c !in a
    ensures CutAt(a + [c] + b, c) == (a, Some(b))
  {
    var s := a + [c] + b;
    var r := CutAt(s, c);
    assert s[|a|] == c;
    assert r.1.Some?;
    assert s[|r.0|] == c;
    assert forall k :: 0 <= k < |a| ==> s[k] == a[k];
    assert |r.0| >= |a|;
    assert forall k :: 0 <= k < |r.0| ==> s[k] == r.0[k];
    assert |r.0| <= |a|;
    assert r.0 == s[..|a|] == a;
    assert r.1.value == s[|a| + 1..] == b;
  }

  lemma CutAtAbsent(s: string, c: char)
    requires c !in s
    ensures CutAt(s, c) == (s, None)
  {
  }

  /**
   * `validateVersion`: three numeric identifiers separated by dots, then
   * optionally `-` and dot-separated pre-release identifiers, then optionally
   * `+` and dot-separated build identifiers, and nothing else. A `+` can only
   * start the build part and a `-` before it can only start the pre-release
   * part, so the version is cut at the first of each.
   */
  predicate ValidateVersion(ver: string) {
    var main := CutAt(ver, '+');
    var core := CutAt(main.0, '-');
    var nums := Strs.Split(core.0, '.');
    |nums| == 3 && NumericId(nums[0]) && NumericId(nums[1]) && NumericId(nums[2])
    && (core.1.Some? ==> PreReleaseIds(Strs.Split(core.1.value, '.')))
    && (main.1.Some? ==> BuildIds(Strs.Split(main.1.value, '.')))
  }

  // ---------------------------------------------------------------------
  // Versions as values
  // ---------------------------------------------------------------------

  /** A semantic version: three numbers, pre-release identifiers and build identifiers. */
  datatype SemVer = SemVer(major: nat, minor: nat, patch: nat, pre: seq<string>, build: seq<string>)

  predicate WellFormed(v: SemVer) {
    PreReleaseIds(v.pre) && BuildIds(v.build)
  }

  function Core(v: SemVer): string {
    Strs.Join([Strs.NatToString(v.major), Strs.NatToString(v.minor), Strs.NatToString(v.patch)], '.')
  }

  function PreSuffix(pre: seq<string>): string {
    if pre == [] then "" else "-" + Strs.Join(pre, '.')
  }

  function BuildSuffix(build: seq<string>): string {
    if build == [] then "" else "+" + Strs.Join(build, '.')
  }

  /** The textual form of a version. */
  function Format(v: SemVer): string {
    Core(v) + PreSuffix(v.pre) + BuildSuffix(v.build)
  }

  /** The version a valid string denotes. */
  function Parse(ver: string): SemVer
    requires ValidateVersion(ver)
  {
    var main := CutAt(ver, '+');
    var core := CutAt(main.0, '-');
    var nums := Strs.Split(core.0, '.');
    SemVer(Strs.DigitsValue(nums[0]), Strs.DigitsValue(nums[1]), Strs.DigitsValue(nums[2]),
      IdsOf(core.1), IdsOf(main.1))
  }

  /** The dot-separated identifiers of an optional part, none when it is absent. */
  function IdsOf(part: Option<string>): seq<string> {
    if part.Some? then Strs.Split(part.value, '.') else []
  }

  lemma NumericIdOfNat(n: nat)
    ensures NumericId(Strs.NatToString(n))
  {
  }

  /** A numeric identifier is the decimal rendering of its value. */
  lemma {:induction false} NumericIdCanonical(s: string)
    requires NumericId(s)
    ensures Strs.NatToString(Strs.DigitsValue(s)) == s
    decreases |s|
  {
    if |s| == 1 {
      assert Strs.DigitsValue(s) == 10 * Strs.DigitsValue(s[..0]) + (s[0] as int - '0' as int);
    } else {
      var init := s[..|s| - 1];
      assert init[0] == s[0];
      assert forall k :: 0 <= k < |init| ==> init[k] == s[k];
      NumericIdCanonical(init);
      var m := Strs.DigitsValue(init);
      var n := Strs.DigitsValue(s);
      assert n == 10 * m + (s[|s| - 1] as int - '0' as int);
      assert m != 0 by {
        assert Strs.NatToString(0) == "0";
      }
      assert n / 10 == m && n % 10 == s[|s| - 1] as int - '0' as int;
      assert s == init + [s[|s| - 1]];
    }
  }

  /** No identifier of a list holds `c`. */
  predicate Avoids(ids: seq<string>, c: char) {
    forall k :: 0 <= k < |ids| ==> c !in ids[k]
  }

  lemma {:induction false} JoinAvoids(ids: seq<string>, sep: char, c: char)
    requires Avoids(ids, c) && sep != c
    ensures c !in Strs.Join(ids, sep)
    decreases |ids|
  {
    if |ids| > 1 {
      JoinAvoids(ids[1..], sep, c);
    }
  }

  lemma {:induction false} JoinNonEmpty(ids: seq<string>, sep: char)
    requires ids != [] && ids[0] != ""
    ensures Strs.Join(ids, sep) != ""
  {
  }

  lemma DigitsAvoid(n: nat, c: char)
    requires !Strs.IsDigit(c)
    ensures c !in Strs.NatToString(n)
  {
    var s := Strs.NatToString(n);
    assert forall k :: 0 <= k < |s| ==> s[k] != c;
  }

  /** The core of a formatted version splits back into its three numbers. */
  lemma CoreSplits(v: SemVer)
    ensures Strs.Split(Core(v), '.') ==
      [Strs.NatToString(v.major), Strs.NatToString(v.minor), Strs.NatToString(v.patch)]
    ensures '-' !in Core(v) && '+' !in Core(v)
  {
    var parts := [Strs.NatToString(v.major), Strs.NatToString(v.minor), Strs.NatToString(v.patch)];
    DigitsAvoid(v.major, '.');
    DigitsAvoid(v.minor, '.');
    DigitsAvoid(v.patch, '.');
    Strs.SplitJoin(parts, '.');
    DigitsAvoid(v.major, '-');
    DigitsAvoid(v.minor, '-');
    DigitsAvoid(v.patch, '-');
    DigitsAvoid(v.major, '+');
    DigitsAvoid(v.minor, '+');
    DigitsAvoid(v.patch, '+');
    JoinAvoids(parts, '.', '-');
    JoinAvoids(parts, '.', '+');
  }

  lemma PreIdsAvoid(ids: seq<string>)
    requires PreReleaseIds(ids)
    ensures Avoids(ids, '.') && Avoids(ids, '+')
  {
    forall k, j | 0 <= k < |ids| && 0 <= j < |ids[k]|
      ensures ids[k][j] != '.' && ids[k][j] != '+'
    {
      assert PreReleaseId(ids[k]);
    }
  }

  lemma BuildIdsAvoid(ids: seq<string>)
    requires BuildIds(ids)
    ensures Avoids(ids, '.') && Avoids(ids, '+')
  {
    forall k, j | 0 <= k < |ids| && 0 <= j < |ids[k]|
      ensures ids[k][j] != '.' && ids[k][j] != '+'
    {
      assert BuildId(ids[k]);
    }
  }

  /** How a formatted version cuts: at `+` into the build part, then at `-` into the pre-release part. */
  lemma FormatCuts(v: SemVer)
    requires WellFormed(v)
    ensures CutAt(Format(v), '+') ==
      (Core(v) + PreSuffix(v.pre), if v.build == [] then None else Some(Strs.Join(v.build, '.')))
    ensures CutAt(Core(v) + PreSuffix(v.pre), '-') ==
      (Core(v), if v.pre == [] then None else Some(Strs.Join(v.pre, '.')))
  {
    CoreSplits(v);
    PreIdsAvoid(v.pre);
    var main := Core(v) + PreSuffix(v.pre);
    assert '+' !in main by {
      if v.pre != [] {
        JoinAvoids(v.pre, '.', '+');
        assert main == Core(v) + ['-'] + Strs.Join(v.pre, '.');
      }
    }
    if v.build == [] {
      assert Format(v) == main;
      CutAtAbsent(main, '+');
    } else {
      assert Format(v) == main + ['+'] + Strs.Join(v.build, '.');
      CutAtJoined(main, '+', Strs.Join(v.build, '.'));
    }
    if v.pre == [] {
      assert main == Core(v);
      CutAtAbsent(main, '-');
    } else {
      assert main == Core(v) + ['-'] + Strs.Join(v.pre, '.');
      CutAtJoined(Core(v), '-', Strs.Join(v.pre, '.'));
    }
  }

  /** Every well-formed version formats to a valid version string, and parsing gives it back. */
  lemma {:induction false} FormatValid(v: SemVer)
    requires WellFormed(v)
    ensures ValidateVersion(Format(v))
    ensures Parse(Format(v)) == v
  {
    FormatCuts(v);
    CoreSplits(v);
    NumericIdOfNat(v.major);
    NumericIdOfNat(v.minor);
    NumericIdOfNat(v.patch);
    PreIdsAvoid(v.pre);
    BuildIdsAvoid(v.build);
    if v.pre != [] {
      Strs.SplitJoin(v.pre, '.');
    }
    if v.build != [] {
      Strs.SplitJoin(v.build, '.');
    }
  }

  /** Three valid numbers read back from the core of a version format to that core. */
  lemma CoreReads(core: string)
    requires |Strs.Split(core, '.')| == 3
    requires NumericId(Strs.Split(core, '.')[0]) && NumericId(Strs.Split(core, '.')[1])
      && NumericId(Strs.Split(core, '.')[2])
    ensures Core(SemVer(Strs.DigitsValue(Strs.Split(core, '.')[0]), Strs.DigitsValue(Strs.Split(core, '.')[1]),
      Strs.DigitsValue(Strs.Split(core, '.')[2]), [], [])) == core
  {
    var nums := Strs.Split(core, '.');
    NumericIdCanonical(nums[0]);
    NumericIdCanonical(nums[1]);
    NumericIdCanonical(nums[2]);
    Strs.JoinSplit(core, '.');
    assert nums == [nums[0], nums[1], nums[2]];
  }

  /** A string cut at `-` reads back from its head and its pre-release identifiers. */
  lemma PreSuffixReads(s: string)
    ensures CutAt(s, '-').0 + PreSuffix(IdsOf(CutAt(s, '-').1)) == s
  {
    var r := CutAt(s, '-');
    if r.1.Some? {
      Strs.JoinSplit(r.1.value, '.');
      assert PreSuffix(IdsOf(r.1)) == "-" + r.1.value;
    }
  }

  /** A string cut at `+` reads back from its head and its build identifiers. */
  lemma BuildSuffixReads(s: string)
    ensures CutAt(s, '+').0 + BuildSuffix(IdsOf(CutAt(s, '+').1)) == s
  {
    var r := CutAt(s, '+');
    if r.1.Some? {
      Strs.JoinSplit(r.1.value, '.');
      assert BuildSuffix(IdsOf(r.1)) == "+" + r.1.value;
    }
  }

  /** Every valid version string is the form of the well-formed version it parses to. */
  lemma ParseFormats(ver: string)
    requires ValidateVersion(ver)
    ensures WellFormed(Parse(ver))
    ensures Format(Parse(ver)) == ver
  {
    var main := CutAt(ver, '+');
    var core := CutAt(main.0, '-');
    var v := Parse(ver);
    CoreReads(core.0);
    PreSuffixReads(main.0);
    BuildSuffixReads(ver);
    assert Core(v) == core.0;
    assert Core(v) + PreSuffix(v.pre) == main.0;
  }

  /** `validateVersion` accepts exactly the formatted well-formed versions. */
  lemma ValidateVersionExact(ver: string)
    ensures ValidateVersion(ver) <==> exists v :: WellFormed(v) && Format(v) == ver
  {
    if ValidateVersion(ver) {
      ParseFormats(ver);
    }
    if exists v :: WellFormed(v) && Format(v) == ver {
      var v :| WellFormed(v) && Format(v) == ver;
      FormatValid(v);
    }
  }

  // ---------------------------------------------------------------------
  // `injectPreReleaseVersion`
  // ---------------------------------------------------------------------

  /** `PRERELEASE_TYPE`. */
  const PreReleaseTypes: map<string, string> := map["ALPHA" := "alpha", "BETA" := "beta", "RELEASE_CANDIDATE" := "rc"]

  /**
   * `injectPreReleaseVersion(type, ver = 1)`: the empty string for a type
   * that is not a pre-release type; otherwise the type's name and the number,
   * as two pre-release identifiers.
   */
  function InjectPreReleaseVersion(preType: string, ver: Option<nat>): (r: string)
    ensures preType !in PreReleaseTypes <==> r == ""
    ensures preType in PreReleaseTypes ==>
      Strs.Split(r, '.') == [PreReleaseTypes[preType], Strs.NatToString(ver.GetOr(1))]
      && PreReleaseIds(Strs.Split(r, '.'))
  {
    if preType !in PreReleaseTypes then ""
    else
      var name := PreReleaseTypes[preType];
      var n := Strs.NatToString(ver.GetOr(1));
      assert AlphanumericId(name) by {
        assert !Strs.IsDigit(name[0]);
      }
      DigitsAvoid(ver.GetOr(1), '.');
      assert '.' !in name;
      Strs.SplitJoin([name, n], '.');
      name + "." + n
  }

  /** The suffix appended to a release version gives a valid pre-release version. */
  lemma InjectedVersionValid(v: SemVer, preType: string, ver: Option<nat>)
    requires WellFormed(v) && v.pre == [] && v.build == []
    requires preType in PreReleaseTypes
    ensures ValidateVersion(Format(v) + "-" + InjectPreReleaseVersion(preType, ver))
  {
    var r := InjectPreReleaseVersion(preType, ver);
    var w := v.(pre := Strs.Split(r, '.'));
    Strs.JoinSplit(r, '.');
    assert Format(w) == Format(v) + "-" + r;
    FormatValid(w);
  }

  // ---------------------------------------------------------------------
  // The bump of `setVersion`
  // ---------------------------------------------------------------------

  /** `verBlocks`. */
  const VerBlocks: seq<string> := ["major", "minor", "patch", "meta"]

  /** The blocks a version can be bumped by. */
  datatype Block = Major | Minor | Patch | Meta

  /** The name an update gives a block. */
  function Name(b: Block): (r: string)
    ensures r in VerBlocks
  {
    match b
    case Major => "major"
    case Minor => "minor"
    case Patch => "patch"
    case Meta => "meta"
  }

  /** A truthy string argument: present and not empty. */
  predicate Truthy(x: Option<string>) {
    x.Some? && x.value != ""
  }

  /** A JavaScript number, as `Number()` makes it of the blocks a bump meets. */
  datatype JsNumber = NaN | Infinity | Finite(value: nat)

  /** The value of a digit in bases up to 16 (`0`-`9`, then `a`-`f` in either case); 16 for any other character. */
  function DigitValue(ch: char): (d: nat)
    ensures d <= 16
    ensures Strs.IsDigit(ch) <==> d < 10
  {
    if '0' <= ch <= '9' then ch as int - '0' as int
    else if 'a' <= ch <= 'f' then ch as int - 'a' as int + 10
    else if 'A' <= ch <= 'F' then ch as int - 'A' as int + 10
    else 16
  }

  /** At least one digit, each of base `radix`. */
  predicate RadixDigits(s: string, radix: nat) {
    |s| > 0 && forall k :: 0 <= k < |s| ==> DigitValue(s[k]) < radix
  }

  /** The value of digits of base `radix`, the most significant first. */
  function RadixValue(s: string, radix: nat): nat
    decreases |s|
  {
    if s == [] then 0 else RadixValue(s[..|s| - 1], radix) * radix + DigitValue(s[|s| - 1])
  }

  function Pow(b: nat, e: nat): nat {
    if e == 0 then 1 else b * Pow(b, e - 1)
  }

  /** The radix a `0x`/`0X`, `0o`/`0O` or `0b`/`0B` prefix announces; 0 without one. */
  function PrefixRadix(s: string): nat {
    if |s| < 2 || s[0] != '0' then 0
    else if s[1] == 'x' || s[1] == 'X' then 16
    else if s[1] == 'o' || s[1] == 'O' then 8
    else if s[1] == 'b' || s[1] == 'B' then 2
    else 0
  }

  /** The length of the run of decimal digits `s` starts with. */
  function DigitRun(s: string): (i: nat)
    ensures i <= |s| && Strs.AllDigits(s[..i]) && (i < |s| ==> !Strs.IsDigit(s[i]))
    decreases |s|
  {
    if s == [] || !Strs.IsDigit(s[0]) then 0
    else
      var i := 1 + DigitRun(s[1..]);
      assert s[..i] == [s[0]] + s[1..][..i - 1];
      i
  }

  /**
   * `Number()` of a string without a sign: `Infinity`; a binary, octal or
   * hexadecimal integer after its prefix; decimal digits, optionally followed
   * by `e` or `E`, an optional `+` and the digits of a power of ten. Anything
   * else is NaN.
   */
  function UnsignedNumber(s: string): JsNumber {
    var i := DigitRun(s);
    var radix := PrefixRadix(s);
    if s == "Infinity" then Infinity
    else if radix != 0 then
      if RadixDigits(s[2..], radix) then Finite(RadixValue(s[2..], radix)) else NaN
    else if i == 0 then NaN
    else if i == |s| then Finite(Strs.DigitsValue(s))
    else if s[i] != 'e' && s[i] != 'E' then NaN
    else
      var e := if Strs.StartsWith(s[i + 1..], "+") then s[i + 2..] else s[i + 1..];
      if |e| > 0 && Strs.AllDigits(e) then Finite(Strs.DigitsValue(s[..i]) * Pow(10, Strs.DigitsValue(e))) else NaN
  }

  /**
   * JavaScript `Number(x)` on an array element the bump meets: a missing
   * element is NaN, the empty string is 0, and a leading `+` may precede a
   * decimal literal or `Infinity` but not a prefixed integer.
   */
  function ToNumber(x: Option<string>): (r: JsNumber)
    ensures x.None? ==> r == NaN
    ensures x == Some("") ==> r == Finite(0)
    ensures x.Some? && |x.value| > 0 && Strs.AllDigits(x.value) ==> r == Finite(Strs.DigitsValue(x.value))
    ensures x.Some? && NumericId(x.value) ==> r == Finite(Strs.DigitsValue(x.value))
  {
    if x.None? then NaN
    else if x.value == "" then Finite(0)
    else if x.value[0] == '+' then
      if PrefixRadix(x.value[1..]) != 0 then NaN else UnsignedNumber(x.value[1..])
    else UnsignedNumber(x.value)
  }

  /** The hexadecimal forms `Number()` reads, and those it refuses. */
  lemma HexLiterals()
    ensures ToNumber(Some("0x1")) == Finite(1) && ToNumber(Some("0X1f")) == Finite(31)
    ensures ToNumber(Some("0x")) == NaN && ToNumber(Some("+0x1")) == NaN
  {
    assert "0X1f"[2..] == "1f" && "1f"[..1] == "1";
    assert RadixValue("1f", 16) == 31;
    assert "0x1"[2..] == "1" && "+0x1"[1..] == "0x1";
  }

  /** The octal and binary forms `Number()` reads. */
  lemma OctalBinaryLiterals()
    ensures ToNumber(Some("0o17")) == Finite(15) && ToNumber(Some("0b101")) == Finite(5)
  {
    assert "0o17"[2..] == "17" && "17"[..1] == "1";
    assert RadixValue("17", 8) == 15;
    assert "0b101"[2..] == "101" && "101"[..2] == "10" && "10"[..1] == "1";
    assert RadixValue("101", 2) == 5;
  }

  /** The decimal forms with an exponent, and one whose exponent is missing. */
  lemma ExponentLiterals()
    ensures ToNumber(Some("1e3")) == Finite(1000) && ToNumber(Some("2E+2")) == Finite(200)
    ensures ToNumber(Some("1e")) == NaN
  {
    assert DigitRun("1e3") == 1 && "1e3"[..1] == "1" && "1e3"[2..] == "3";
    assert Strs.DigitsValue("3") == 3 && Pow(10, 3) == 1000;
    assert DigitRun("2E+2") == 1 && "2E+2"[..1] == "2" && "2E+2"[2..] == "+2" && "2E+2"[3..] == "2";
    assert Strs.DigitsValue("2") == 2 && Pow(10, 2) == 100;
    assert DigitRun("1e") == 1 && "1e"[2..] == "";
  }

  /** `Infinity`, a decimal after a `+` sign, and a word that is not a number. */
  lemma SignedLiterals()
    ensures ToNumber(Some("Infinity")) == Infinity && ToNumber(Some("+7")) == Finite(7)
    ensures ToNumber(Some("alpha")) == NaN
  {
    assert DigitRun("alpha") == 0;
    assert "+7"[1..] == "7";
  }

  /** `x++` on an element, as the element is then joined: the successor of its number, `Infinity`, or `NaN`. */
  function Incremented(x: Option<string>): (r: string)
    ensures r == "NaN" <==> ToNumber(x).NaN?
    ensures r == "Infinity" <==> ToNumber(x).Infinity?
    ensures ToNumber(x).Finite? ==> Strs.AllDigits(r) && Strs.DigitsValue(r) == ToNumber(x).value + 1
    ensures x.Some? && NumericId(x.value) ==> r == Strs.NatToString(Strs.DigitsValue(x.value) + 1)
  {
    match ToNumber(x)
    case NaN => "NaN"
    case Infinity => "Infinity"
    case Finite(n) =>
      var r := Strs.NatToString(n + 1);
      assert !Strs.IsDigit("NaN"[0]) && !Strs.IsDigit("Infinity"[0]);
      r
  }

  /** `arr[k]`, `None` past the end. */
  function At(arr: seq<string>, k: nat): Option<string> {
    if k < |arr| then Some(arr[k]) else None
  }

  /** `arr[k] = x`: past the end the array grows, its holes joining as empty strings. */
  function SetAt(arr: seq<string>, k: nat, x: string): (r: seq<string>)
    ensures |r| == if k < |arr| then |arr| else k + 1
    ensures r[k] == x
    ensures forall j :: 0 <= j < |arr| && j != k ==> r[j] == arr[j]
  {
    if k < |arr| then arr[k := x] else arr + seq(k - |arr|, _ => "") + [x]
  }

  /** The main blocks of a stored version: its text before the first `-`, split at every `.`. */
  function MainBlocks(verStr: string): seq<string> {
    Strs.Split(Strs.Split(verStr, '-')[0], '.')
  }

  /** The meta blocks of a stored version: its text between the first and the second `-`, when not empty, split at every `.`. */
  function MetaBlocks(verStr: string): Option<seq<string>> {
    var verArr := Strs.Split(verStr, '-');
    if |verArr| > 1 && verArr[1] != "" then Some(Strs.Split(verArr[1], '.')) else None
  }

  /** The output version: the main blocks joined by dots, then `-` and the meta blocks when there are any. */
  function OutputVersion(mainVerArr: seq<string>, metaVer: Option<seq<string>>): string {
    Strs.Join(mainVerArr, '.') + (if metaVer.Some? then "-" + Strs.Join(metaVer.value, '.') else "")
  }

  /**
   * The version the bump writes, as the source computes it: the stored
   * version is split at every `-`, the part before the first one at every
   * `.` into the main blocks, and the part after the first one (when not
   * empty) at every `.` into the meta blocks; a falsy update writes the empty
   * string. `None` when the bump throws (a meta bump without meta blocks).
   */
  function Bumped(verStr: string, update: Option<string>): (r: Option<string>)
    ensures !Truthy(update) ==> r == Some("")
    ensures r.None? <==> Truthy(update) && update.value == "meta" && MetaBlocks(verStr).None?
    ensures Truthy(update) && update.value !in VerBlocks ==> r == Some(OutputVersion(MainBlocks(verStr), MetaBlocks(verStr)))
  {
    var main := MainBlocks(verStr);
    var meta := MetaBlocks(verStr);
    if !Truthy(update) then Some("")
    else if update.value == "major" then
      Some(OutputVersion(SetAt(SetAt(SetAt(main, 0, Incremented(At(main, 0))), 1, "0"), 2, "0"), meta))
    else if update.value == "minor" then
      Some(OutputVersion(SetAt(SetAt(main, 1, Incremented(At(main, 1))), 2, "0"), meta))
    else if update.value == "patch" then
      Some(OutputVersion(SetAt(main, 2, Incremented(At(main, 2))), meta))
    else if update.value == "meta" then
      if meta.None? then None
      else Some(OutputVersion(main, Some(SetAt(meta.value, 1, Incremented(At(meta.value, 1))))))
    else Some(OutputVersion(main, meta))
  }

  /** What `setVersion` does: what it writes to the `ver` file and what it returns (`None`: nothing / `undefined`). */
  datatype Outcome = Outcome(written: Option<string>, returned: Option<string>) | ThrowsTypeError

  /** A direct value given but not a valid version. */
  predicate RefusedDirect(directValue: Option<string>) {
    Truthy(directValue) && !ValidateVersion(directValue.value)
  }

  /** The direct value is written as is: it is given, or there is no `ver` file. */
  predicate WritesDirect(verFile: Option<string>, directValue: Option<string>) {
    !RefusedDirect(directValue) && (verFile.None? || Truthy(directValue))
  }

  /** The stored version is read: there is a `ver` file and no direct value. */
  predicate Reads(verFile: Option<string>, directValue: Option<string>) {
    verFile.Some? && !Truthy(directValue)
  }

  /** An update that is not one of the version blocks. */
  predicate Unsupported(update: Option<string>) {
    Truthy(update) && update.value !in VerBlocks
  }

  /** `${directValue}`. */
  function DirectText(directValue: Option<string>): string {
    if directValue.None? then "undefined" else directValue.value
  }

  /**
   * `setVersion` on a directory whose `ver` file holds `verFile` (`None`
   * when there is no such file), with the `update` and `directValue`
   * options: an invalid direct value is refused; a direct value, or a
   * missing file, is written as is; an unsupported update and an invalid
   * stored version are refused; otherwise the bumped version is written and
   * returned.
   */
  method SetVersion(verFile: Option<string>, update: Option<string>, directValue: Option<string>) returns (o: Outcome)
    ensures RefusedDirect(directValue) ==> o == Outcome(None, None)
    ensures WritesDirect(verFile, directValue) ==> o == Outcome(Some(DirectText(directValue)), None)
    ensures Reads(verFile, directValue) && Unsupported(update) ==> o == Outcome(None, None)
    ensures Reads(verFile, directValue) && !Unsupported(update) && !ValidateVersion(verFile.value)
      ==> o == Outcome(None, None)
    ensures Reads(verFile, directValue) && !Unsupported(update) && ValidateVersion(verFile.value)
      ==> o == (if Bumped(verFile.value, update).None? then ThrowsTypeError
                else Outcome(Bumped(verFile.value, update), Bumped(verFile.value, update)))
  {
    if Truthy(directValue) && !ValidateVersion(directValue.value) {
      return Outcome(None, None);
    }
    if verFile.None? || Truthy(directValue) {
      return Outcome(Some(DirectText(directValue)), None);
    }
    if Truthy(update) && update.value !in VerBlocks {
      return Outcome(None, None);
    }
    var verStr := verFile.value;
    if !ValidateVersion(verStr) {
      return Outcome(None, None);
    }
    var verArr := Strs.Split(verStr, '-');
    var mainVerArr := Strs.Split(verArr[0], '.');
    // The source also removes a `-` from the meta part; a part of a split at `-` holds none.
    var metaVer: Option<seq<string>> := None;
    if |verArr| > 1 && verArr[1] != "" {
      metaVer := Some(Strs.Split(verArr[1], '.'));
    }
    var outputVer := "";
    if Truthy(update) {
      if update.value == "major" {
        mainVerArr := SetAt(mainVerArr, 0, Incremented(At(mainVerArr, 0)));
        mainVerArr := SetAt(mainVerArr, 1, "0");
        mainVerArr := SetAt(mainVerArr, 2, "0");
      } else if update.value == "minor" {
        mainVerArr := SetAt(mainVerArr, 1, Incremented(At(mainVerArr, 1)));
        mainVerArr := SetAt(mainVerArr, 2, "0");
      } else if update.value == "patch" {
        mainVerArr := SetAt(mainVerArr, 2, Incremented(At(mainVerArr, 2)));
      } else if update.value == "meta" {
        if metaVer.None? {
          return ThrowsTypeError;
        }
        metaVer := Some(SetAt(metaVer.value, 1, Incremented(At(metaVer.value, 1))));
      }
      outputVer := OutputVersion(mainVerArr, metaVer);
    }
    o := Outcome(Some(outputVer), Some(outputVer));
  }

  // ---------------------------------------------------------------------
  // What a bump means on versions
  // ---------------------------------------------------------------------

  /**
   * The bump of a version by a block: a major bump resets minor and patch, a
   * minor bump resets patch, a patch bump only increments the patch, and a
   * meta bump increments the second pre-release identifier, which must be
   * numeric. The pre-release identifiers are kept and build metadata is
   * dropped. `None` when a meta bump has no numeric second identifier.
   */
  function Bump(v: SemVer, block: Block): (r: Option<SemVer>)
    ensures r.Some? ==> r.value.build == []
    ensures block != Meta ==> r.Some? && r.value.pre == v.pre
    ensures block == Meta && r.Some? ==>
      |v.pre| >= 2 && |r.value.pre| == |v.pre| && r.value.pre[0] == v.pre[0] && r.value.pre[2..] == v.pre[2..]
      && (r.value.major, r.value.minor, r.value.patch) == (v.major, v.minor, v.patch)
  {
    match block
    case Major => Some(SemVer(v.major + 1, 0, 0, v.pre, []))
    case Minor => Some(SemVer(v.major, v.minor + 1, 0, v.pre, []))
    case Patch => Some(SemVer(v.major, v.minor, v.patch + 1, v.pre, []))
    case Meta =>
      if |v.pre| >= 2 && NumericId(v.pre[1]) then
        Some(v.(pre := v.pre[1 := Strs.NatToString(Strs.DigitsValue(v.pre[1]) + 1)], build := []))
      else None
  }

  /** A bumped well-formed version is well formed, and the meta bump increments the identifier's value. */
  lemma BumpWellFormed(v: SemVer, block: Block)
    requires WellFormed(v) && Bump(v, block).Some?
    ensures WellFormed(Bump(v, block).value)
    ensures block == Meta ==>
      Strs.DigitsValue(v.pre[1]) + 1 == Strs.DigitsValue(Bump(v, block).value.pre[1])
      && NumericId(Bump(v, block).value.pre[1])
  {
  }

  /** The stored version splits at `-` into its core and, with pre-release identifiers, their joined text. */
  lemma SplitAtHyphen(v: SemVer)
    requires WellFormed(v) && v.build == [] && Avoids(v.pre, '-')
    ensures Strs.Split(Format(v), '-') ==
      if v.pre == [] then [Core(v)] else [Core(v), Strs.Join(v.pre, '.')]
    ensures v.pre != [] ==> Strs.Join(v.pre, '.') != "" && Strs.Split(Strs.Join(v.pre, '.'), '.') == v.pre
  {
    CoreSplits(v);
    if v.pre == [] {
      assert Format(v) == Core(v);
      Strs.SplitWithoutSeparator(Core(v), '-');
    } else {
      var j := Strs.Join(v.pre, '.');
      assert Format(v) == Core(v) + ['-'] + j;
      Strs.SplitAfterPart(Core(v), '-', j);
      JoinAvoids(v.pre, '.', '-');
      Strs.SplitWithoutSeparator(j, '-');
      assert PreReleaseId(v.pre[0]);
      JoinNonEmpty(v.pre, '.');
      PreIdsAvoid(v.pre);
      Strs.SplitJoin(v.pre, '.');
    }
  }

  lemma ZeroText()
    ensures Strs.NatToString(0) == "0"
  {
  }

  /**
   * For a stored version without build metadata and without `-` inside its
   * pre-release identifiers, the bump as the source computes it writes the
   * formatted bumped version: M+1.0.0, M.m+1.0, M.m.p+1, or the second
   * pre-release identifier incremented, the pre-release suffix kept.
   */
  lemma {:induction false} BumpedFormats(v: SemVer, block: Block)
    requires WellFormed(v) && v.build == [] && Avoids(v.pre, '-')
    requires Bump(v, block).Some?
    ensures Bumped(Format(v), Some(Name(block))) == Some(Format(Bump(v, block).value))
  {
    BlocksOfFormat(v);
    match block
    case Major => MajorBumpFormats(v);
    case Minor => MinorBumpFormats(v);
    case Patch => PatchBumpFormats(v);
    case Meta => MetaBumpFormats(v);
  }

  lemma MajorBumpFormats(v: SemVer)
    requires WellFormed(v) && v.build == [] && Avoids(v.pre, '-')
    requires MainBlocks(Format(v)) == [Strs.NatToString(v.major), Strs.NatToString(v.minor), Strs.NatToString(v.patch)]
    ensures Bumped(Format(v), Some("major")) == Some(Format(Bump(v, Major).value))
  {
    var w := Bump(v, Major).value;
    var main := MainBlocks(Format(v));
    ZeroText();
    NumericIdOfNat(v.major);
    FormatAsOutput(v, w);
    MajorBranch(Format(v));
    assert SetAt(SetAt(SetAt(main, 0, Incremented(At(main, 0))), 1, "0"), 2, "0") ==
      [Strs.NatToString(w.major), Strs.NatToString(w.minor), Strs.NatToString(w.patch)];
  }

  lemma MinorBumpFormats(v: SemVer)
    requires WellFormed(v) && v.build == [] && Avoids(v.pre, '-')
    requires MainBlocks(Format(v)) == [Strs.NatToString(v.major), Strs.NatToString(v.minor), Strs.NatToString(v.patch)]
    ensures Bumped(Format(v), Some("minor")) == Some(Format(Bump(v, Minor).value))
  {
    var w := Bump(v, Minor).value;
    var main := MainBlocks(Format(v));
    ZeroText();
    NumericIdOfNat(v.minor);
    FormatAsOutput(v, w);
    MinorBranch(Format(v));
    assert SetAt(SetAt(main, 1, Incremented(At(main, 1))), 2, "0") ==
      [Strs.NatToString(w.major), Strs.NatToString(w.minor), Strs.NatToString(w.patch)];
  }

  lemma PatchBumpFormats(v: SemVer)
    requires WellFormed(v) && v.build == [] && Avoids(v.pre, '-')
    requires MainBlocks(Format(v)) == [Strs.NatToString(v.major), Strs.NatToString(v.minor), Strs.NatToString(v.patch)]
    ensures Bumped(Format(v), Some("patch")) == Some(Format(Bump(v, Patch).value))
  {
    var w := Bump(v, Patch).value;
    var main := MainBlocks(Format(v));
    NumericIdOfNat(v.patch);
    FormatAsOutput(v, w);
    PatchBranch(Format(v));
    assert SetAt(main, 2, Incremented(At(main, 2))) ==
      [Strs.NatToString(w.major), Strs.NatToString(w.minor), Strs.NatToString(w.patch)];
  }

  /** The blocks of a formatted version without build metadata or `-` inside identifiers. */
  lemma BlocksOfFormat(v: SemVer)
    requires WellFormed(v) && v.build == [] && Avoids(v.pre, '-')
    ensures MainBlocks(Format(v)) == [Strs.NatToString(v.major), Strs.NatToString(v.minor), Strs.NatToString(v.patch)]
    ensures MetaBlocks(Format(v)) == if v.pre == [] then None else Some(v.pre)
  {
    SplitAtHyphen(v);
    CoreSplits(v);
  }

  /** A version with the same pre-release identifiers formats as the source outputs its blocks. */
  lemma FormatAsOutput(v: SemVer, w: SemVer)
    requires WellFormed(v) && v.build == [] && Avoids(v.pre, '-')
    requires w.build == [] && w.pre == v.pre
    ensures Format(w) == OutputVersion([Strs.NatToString(w.major), Strs.NatToString(w.minor), Strs.NatToString(w.patch)],
      MetaBlocks(Format(v)))
  {
    BlocksOfFormat(v);
  }

  /** The major bump increments the first main block and resets the two after it. */
  lemma MajorBranch(verStr: string)
    ensures Bumped(verStr, Some("major")) ==
      Some(OutputVersion(SetAt(SetAt(SetAt(MainBlocks(verStr), 0, Incremented(At(MainBlocks(verStr), 0))), 1, "0"), 2, "0"),
        MetaBlocks(verStr)))
  {
  }

  /** The minor bump increments the second main block and resets the third. */
  lemma MinorBranch(verStr: string)
    ensures Bumped(verStr, Some("minor")) ==
      Some(OutputVersion(SetAt(SetAt(MainBlocks(verStr), 1, Incremented(At(MainBlocks(verStr), 1))), 2, "0"),
        MetaBlocks(verStr)))
  {
    assert "minor" != "major";
  }

  /** The meta bump throws without meta blocks, and otherwise increments the second of them. */
  lemma MetaBranch(verStr: string)
    ensures Bumped(verStr, Some("meta")) ==
      if MetaBlocks(verStr).None? then None
      else Some(OutputVersion(MainBlocks(verStr),
        Some(SetAt(MetaBlocks(verStr).value, 1, Incremented(At(MetaBlocks(verStr).value, 1))))))
  {
    assert "meta" != "major" && "meta" != "minor" && "meta" != "patch";
  }

  lemma MetaBumpFormats(v: SemVer)
    requires WellFormed(v) && v.build == [] && Avoids(v.pre, '-')
    requires Bump(v, Meta).Some?
    requires MainBlocks(Format(v)) == [Strs.NatToString(v.major), Strs.NatToString(v.minor), Strs.NatToString(v.patch)]
    requires MetaBlocks(Format(v)) == Some(v.pre)
    ensures Bumped(Format(v), Some("meta")) == Some(Format(Bump(v, Meta).value))
  {
    var w := Bump(v, Meta).value;
    var main := MainBlocks(Format(v));
    MetaBranch(Format(v));
    assert PreReleaseId(v.pre[1]);
    assert SetAt(v.pre, 1, Incremented(At(v.pre, 1))) == w.pre;
    assert Core(w) == Core(v) == Strs.Join(main, '.');
    assert Format(w) == Core(v) + ("-" + Strs.Join(w.pre, '.')) == OutputVersion(main, Some(w.pre));
  }

  /**
   * A meta bump reads the second pre-release identifier with `Number()`: an
   * alphanumeric identifier spelling a prefixed integer or an exponent is
   * bumped as that number, where the bump of versions leaves it undefined.
   */
  lemma MetaBumpReadsLiterals(v: SemVer)
    requires WellFormed(v) && v.build == [] && Avoids(v.pre, '-') && |v.pre| >= 2
    requires ToNumber(Some(v.pre[1])).Finite?
    ensures Bumped(Format(v), Some("meta")) ==
      Some(Format(v.(pre := v.pre[1 := Strs.NatToString(ToNumber(Some(v.pre[1])).value + 1)])))
    ensures !NumericId(v.pre[1]) ==> Bump(v, Meta).None?
  {
    var w := v.(pre := v.pre[1 := Strs.NatToString(ToNumber(Some(v.pre[1])).value + 1)]);
    BlocksOfFormat(v);
    var main := MainBlocks(Format(v));
    MetaBranch(Format(v));
    assert SetAt(v.pre, 1, Incremented(At(v.pre, 1))) == w.pre;
    CoreSplits(v);
    Strs.JoinSplit(Core(v), '.');
    assert Core(w) == Core(v) == Strs.Join(main, '.');
    assert Format(w) == Core(v) + ("-" + Strs.Join(w.pre, '.')) == OutputVersion(main, Some(w.pre));
  }

  /** `1.0.0-alpha.0x1` is valid, and its meta bump writes `1.0.0-alpha.2`. */
  lemma HexMetaBump(ver: string, id: string)
    requires id == "0x1" && ver == "1.0.0-alpha." + id
    ensures ValidateVersion(ver) && Bumped(ver, Some("meta")) == Some("1.0.0-alpha." + "2")
  {
    HexIdentifier(id);
    LiteralVersion(id, 1);
    assert Strs.NatToString(2) == "2";
  }

  lemma HexIdentifier(id: string)
    requires id == "0x1"
    ensures '-' !in id && '.' !in id && AlphanumericId(id) && ToNumber(Some(id)) == Finite(1)
  {
    assert ToNumber(Some(id)) == Finite(1) by {
      HexLiterals();
    }
    assert |id| == 3 && id[1] == 'x' && !Strs.IsDigit(id[1]);
  }

  /** `1.0.0-alpha.1e3` is valid, and its meta bump writes `1.0.0-alpha.1001`. */
  lemma ExponentMetaBump(ver: string, id: string)
    requires id == "1e3" && ver == "1.0.0-alpha." + id
    ensures ValidateVersion(ver) && Bumped(ver, Some("meta")) == Some("1.0.0-alpha." + "1001")
  {
    ExponentIdentifier(id);
    LiteralVersion(id, 1000);
    ThousandAndOne();
  }

  lemma ExponentIdentifier(id: string)
    requires id == "1e3"
    ensures '-' !in id && '.' !in id && AlphanumericId(id) && ToNumber(Some(id)) == Finite(1000)
  {
    assert ToNumber(Some(id)) == Finite(1000) by {
      ExponentLiterals();
    }
    assert |id| == 3 && id[1] == 'e' && !Strs.IsDigit(id[1]);
  }

  lemma ThousandAndOne()
    ensures Strs.NatToString(1001) == "1001"
  {
    assert Strs.NatToString(100) == "100";
  }

  /** The version `1.0.0-alpha.<id>` for an alphanumeric `id` whose number is `n`: valid, and its meta bump writes `n + 1`. */
  lemma LiteralVersion(id: string, n: nat)
    requires '-' !in id && '.' !in id && AlphanumericId(id)
    requires ToNumber(Some(id)) == Finite(n)
    ensures ValidateVersion("1.0.0-alpha." + id)
    ensures Bumped("1.0.0-alpha." + id, Some("meta")) == Some("1.0.0-alpha." + Strs.NatToString(n + 1))
  {
    var v := SemVer(1, 0, 0, ["alpha", id], []);
    AlphaVersionText(id);
    AlphaWellFormed(id);
    FormatValid(v);
    assert Avoids(v.pre, '-') by {
      assert '-' !in "alpha";
    }
    LiteralVersionBump(v, n);
    AlphaVersionText(Strs.NatToString(n + 1));
  }

  lemma AlphaWellFormed(id: string)
    requires AlphanumericId(id)
    ensures WellFormed(SemVer(1, 0, 0, ["alpha", id], []))
  {
    assert AlphanumericId("alpha") by {
      assert !Strs.IsDigit("alpha"[0]);
    }
  }

  /** The meta bump of a well-formed two-identifier pre-release whose second identifier reads as `n`. */
  lemma LiteralVersionBump(v: SemVer, n: nat)
    requires WellFormed(v) && v.build == [] && |v.pre| == 2 && Avoids(v.pre, '-')
    requires ToNumber(Some(v.pre[1])) == Finite(n)
    ensures Bumped(Format(v), Some("meta")) ==
      Some(Format(SemVer(v.major, v.minor, v.patch, [v.pre[0], Strs.NatToString(n + 1)], [])))
  {
    MetaBumpReadsLiterals(v);
    assert v.(pre := v.pre[1 := Strs.NatToString(n + 1)]) ==
      SemVer(v.major, v.minor, v.patch, [v.pre[0], Strs.NatToString(n + 1)], []);
  }

  lemma AlphaVersionText(id: string)
    ensures Format(SemVer(1, 0, 0, ["alpha", id], [])) == "1.0.0-alpha." + id
  {
    assert Strs.NatToString(1) == "1" && Strs.NatToString(0) == "0";
    JoinThree("1", "0", "0");
    assert ["alpha", id][1..] == [id];
    assert Strs.Join(["alpha", id], '.') == "alpha." + id;
  }

  /**
   * The bump as intended: a valid stored version is parsed, bumped and
   * formatted again; `None` when the bump is undefined. The result is valid
   * and denotes the bumped version.
   */
  function BumpVersion(verStr: string, block: Block): (r: Option<string>)
    requires ValidateVersion(verStr)
    ensures r.Some? ==> ValidateVersion(r.value) && Bump(Parse(verStr), block).Some?
    ensures r.Some? ==> Parse(r.value) == Bump(Parse(verStr), block).value
    ensures block != Meta ==> r.Some?
  {
    ParseFormats(verStr);
    match Bump(Parse(verStr), block)
    case None => None
    case Some(w) =>
      BumpWellFormed(Parse(verStr), block);
      FormatValid(w);
      Some(Format(w))
  }

  /** Where the source's bump is defined on well-formed input it agrees with the intended one. */
  lemma BumpedAgrees(verStr: string, block: Block)
    requires ValidateVersion(verStr)
    requires Parse(verStr).build == [] && Avoids(Parse(verStr).pre, '-')
    requires BumpVersion(verStr, block).Some?
    ensures Bumped(verStr, Some(Name(block))) == BumpVersion(verStr, block)
  {
    ParseFormats(verStr);
    BumpedFormats(Parse(verStr), block);
  }

  /**
   * With build metadata, the patch block the source increments is the patch
   * number followed by the metadata, which is not a number: the patch bump
   * writes `NaN` where the incremented patch number is meant.
   */
  lemma {:induction false} BuildMetadataPatchedAsWritten(v: SemVer)
    requires WellFormed(v) && v.pre == [] && |v.build| == 1 && '-' !in v.build[0]
    ensures Bumped(Format(v), Some("patch"))
      == Some(Strs.NatToString(v.major) + "." + Strs.NatToString(v.minor) + ".NaN")
  {
    BuildMetadataBlocks(v);
    NotANumber(Strs.NatToString(v.patch), v.build[0]);
    PatchedAsWritten(Format(v), Strs.NatToString(v.major), Strs.NatToString(v.minor),
      Strs.NatToString(v.patch) + "+" + v.build[0]);
  }

  /** The patch bump increments the third main block and keeps the meta blocks. */
  lemma PatchBranch(verStr: string)
    ensures Bumped(verStr, Some("patch")) ==
      Some(OutputVersion(SetAt(MainBlocks(verStr), 2, Incremented(At(MainBlocks(verStr), 2))), MetaBlocks(verStr)))
  {
    assert "patch" != "major" && "patch" != "minor";
  }

  /** A patch bump of stored blocks `a.b.last` whose last block is not a number writes `a.b.NaN`. */
  lemma PatchedAsWritten(verStr: string, a: string, b: string, last: string)
    requires MainBlocks(verStr) == [a, b, last] && MetaBlocks(verStr) == None
    requires Incremented(Some(last)) == "NaN"
    ensures Bumped(verStr, Some("patch")) == Some(a + "." + b + ".NaN")
  {
    assert At([a, b, last], 2) == Some(last);
    assert SetAt([a, b, last], 2, "NaN") == [a, b, "NaN"];
    JoinThree(a, b, "NaN");
    assert a + "." + b + "." + "NaN" == a + "." + b + ".NaN";
    assert OutputVersion([a, b, "NaN"], None) == a + "." + b + ".NaN";
    PatchBranch(verStr);
  }

  /** Digits followed by `+` and more are not a number. */
  lemma NotANumber(digits: string, rest: string)
    requires |digits| > 0 && Strs.AllDigits(digits)
    ensures Incremented(Some(digits + "+" + rest)) == "NaN"
  {
    var s := digits + "+" + rest;
    assert !Strs.IsDigit(s[|digits|]);
    assert s[0] == digits[0] && s[1] != 'x' && s[1] != 'X' && s[1] != 'o' && s[1] != 'O' && s[1] != 'b' && s[1] != 'B';
    assert PrefixRadix(s) == 0;
    var i := DigitRun(s);
    assert i == |digits| by {
      assert forall k :: 0 <= k < |digits| ==> s[k] == digits[k];
    }
    assert UnsignedNumber(s) == NaN;
  }

  /** The source's blocks of a version with one build identifier: the last main block carries the metadata. */
  lemma {:induction false} BuildMetadataBlocks(v: SemVer)
    requires WellFormed(v) && v.pre == [] && |v.build| == 1 && '-' !in v.build[0]
    ensures MainBlocks(Format(v)) ==
      [Strs.NatToString(v.major), Strs.NatToString(v.minor), Strs.NatToString(v.patch) + "+" + v.build[0]]
    ensures MetaBlocks(Format(v)) == None
  {
    CoreSplits(v);
    BuildIdsAvoid(v.build);
    var b := v.build[0];
    var last := Strs.NatToString(v.patch) + "+" + b;
    assert Strs.Join(v.build, '.') == b;
    assert Format(v) == Core(v) + "+" + b;
    JoinThree(Strs.NatToString(v.major), Strs.NatToString(v.minor), Strs.NatToString(v.patch));
    JoinThree(Strs.NatToString(v.major), Strs.NatToString(v.minor), last);
    assert Format(v) == Strs.Join([Strs.NatToString(v.major), Strs.NatToString(v.minor), last], '.');
    assert '-' !in Format(v);
    Strs.SplitWithoutSeparator(Format(v), '-');
    DigitsAvoid(v.major, '.');
    DigitsAvoid(v.minor, '.');
    DigitsAvoid(v.patch, '.');
    assert '.' !in last;
    Strs.SplitJoin([Strs.NatToString(v.major), Strs.NatToString(v.minor), last], '.');
  }

  /** The intended patch bump of a formatted version is the formatted version with the next patch number. */
  lemma PatchedVersionOfFormat(v: SemVer)
    requires WellFormed(v)
    ensures ValidateVersion(Format(v))
    ensures BumpVersion(Format(v), Patch) == Some(Format(SemVer(v.major, v.minor, v.patch + 1, v.pre, [])))
  {
    BumpVersionOfFormat(v, Patch);
  }

  /** The intended bump of a formatted version is the formatted bumped version. */
  lemma BumpVersionOfFormat(v: SemVer, block: Block)
    requires WellFormed(v)
    ensures ValidateVersion(Format(v))
    ensures BumpVersion(Format(v), block) == if Bump(v, block).None? then None else Some(Format(Bump(v, block).value))
  {
    FormatValid(v);
  }

  /** The example `1.2.3+build`: its patch bump writes `1.2.NaN`, where `1.2.4` is meant. */
  lemma BuildMetadataBreaksPatch()
    ensures ValidateVersion("1.2.3+build")
    ensures Bumped("1.2.3+build", Some("patch")) == Some("1.2.NaN")
    ensures BumpVersion("1.2.3+build", Patch) == Some("1.2.4")
  {
    BuildVersionFormat();
    BuildMetadataPatchedAsWritten(SemVer(1, 2, 3, [], ["build"]));
    PatchedVersionOfFormat(SemVer(1, 2, 3, [], ["build"]));
    BuildVersionTexts();
  }

  lemma BuildVersionTexts()
    ensures Strs.NatToString(1) + "." + Strs.NatToString(2) + ".NaN" == "1.2.NaN"
    ensures Format(SemVer(1, 2, 4, [], [])) == "1.2.4"
  {
    assert Strs.NatToString(1) == "1" && Strs.NatToString(2) == "2" && Strs.NatToString(4) == "4";
    JoinThree("1", "2", "4");
  }

  lemma JoinThree(a: string, b: string, c: string)
    ensures Strs.Join([a, b, c], '.') == a + "." + b + "." + c
  {
    assert [a, b, c][1..] == [b, c];
    assert [b, c][1..] == [c];
    assert Strs.Join([b, c], '.') == b + "." + c;
    assert a + ['.'] + (b + "." + c) == a + "." + b + "." + c;
  }

  lemma BuildVersionFormat()
    ensures Format(SemVer(1, 2, 3, [], ["build"])) == "1.2.3+build"
    ensures WellFormed(SemVer(1, 2, 3, [], ["build"]))
  {
    assert Strs.NatToString(1) == "1" && Strs.NatToString(2) == "2" && Strs.NatToString(3) == "3";
    assert BuildId("build");
  }

  /**
   * A `-` inside the pre-release part ends the meta blocks the source keeps:
   * the patch bump of `M.m.p-x-y` writes `M.m.p+1-x`, where the whole
   * pre-release part `x-y` is meant to be kept.
   */
  lemma {:induction false} HyphenatedPreReleaseAsWritten(v: SemVer, x: string, y: string)
    requires WellFormed(v) && v.build == [] && v.pre == [x + "-" + y]
    requires x != "" && '-' !in x && '-' !in y
    ensures Bumped(Format(v), Some("patch"))
      == Some(Strs.Join([Strs.NatToString(v.major), Strs.NatToString(v.minor), Strs.NatToString(v.patch + 1)], '.') + "-" + x)
  {
    HyphenatedBlocks(v, x, y);
    NumericIdOfNat(v.patch);
    PatchedNumberAsWritten(Format(v), Strs.NatToString(v.major), Strs.NatToString(v.minor), Strs.NatToString(v.patch), x);
  }

  /** The source's blocks of `M.m.p-x-y`: the three numbers, and `x` alone as the meta block. */
  lemma {:induction false} HyphenatedBlocks(v: SemVer, x: string, y: string)
    requires WellFormed(v) && v.build == [] && v.pre == [x + "-" + y]
    requires x != "" && '-' !in x && '-' !in y
    ensures MainBlocks(Format(v)) == [Strs.NatToString(v.major), Strs.NatToString(v.minor), Strs.NatToString(v.patch)]
    ensures MetaBlocks(Format(v)) == Some([x])
  {
    CoreSplits(v);
    PreIdsAvoid(v.pre);
    assert Strs.Join(v.pre, '.') == x + "-" + y;
    assert Format(v) == Core(v) + ['-'] + (x + ['-'] + y);
    Strs.SplitAfterPart(Core(v), '-', x + ['-'] + y);
    Strs.SplitAfterPart(x, '-', y);
    Strs.SplitWithoutSeparator(y, '-');
    assert Strs.Split(Format(v), '-') == [Core(v), x, y];
    assert '.' !in x by {
      assert forall k :: 0 <= k < |x| ==> x[k] == v.pre[0][k];
    }
    Strs.SplitWithoutSeparator(x, '.');
  }

  /** A patch bump of stored blocks `a.b.c` and meta block `x`, with `c` a number, writes `a.b.c+1-x`. */
  lemma PatchedNumberAsWritten(verStr: string, a: string, b: string, c: string, x: string)
    requires MainBlocks(verStr) == [a, b, c] && MetaBlocks(verStr) == Some([x])
    requires NumericId(c)
    ensures Bumped(verStr, Some("patch"))
      == Some(Strs.Join([a, b, Strs.NatToString(Strs.DigitsValue(c) + 1)], '.') + "-" + x)
  {
    var c' := Strs.NatToString(Strs.DigitsValue(c) + 1);
    assert At([a, b, c], 2) == Some(c);
    assert SetAt([a, b, c], 2, Incremented(Some(c))) == [a, b, c'];
    assert Strs.Join([x], '.') == x;
    assert OutputVersion([a, b, c'], Some([x])) == Strs.Join([a, b, c'], '.') + ("-" + x)
      == Strs.Join([a, b, c'], '.') + "-" + x;
    PatchBranch(verStr);
  }

  /** The example `1.0.0-alpha-1`: its patch bump writes `1.0.1-alpha`, where `1.0.1-alpha-1` is meant. */
  lemma HyphenatedPreReleaseTruncated(ver: string)
    requires ver == "1.0.0-alpha-1"
    ensures ValidateVersion(ver)
    ensures Bumped(ver, Some("patch")) == Some("1.0.1-alpha")
    ensures BumpVersion(ver, Patch) == Some("1.0.1-alpha-1")
  {
    var v := SemVer(1, 0, 0, ["alpha-1"], []);
    HyphenVersionTexts();
    assert ver == Format(v);
    LiteralsAvoid();
    HyphenatedPreReleaseAsWritten(v, "alpha", "1");
    PatchedVersionOfFormat(v);
  }

  lemma HyphenVersionTexts()
    ensures "alpha" + "-" + "1" == "alpha-1"
    ensures WellFormed(SemVer(1, 0, 0, ["alpha-1"], []))
    ensures Format(SemVer(1, 0, 0, ["alpha-1"], [])) == "1.0.0-alpha-1"
    ensures Strs.Join([Strs.NatToString(1), Strs.NatToString(0), Strs.NatToString(1)], '.') + "-" + "alpha" == "1.0.1-alpha"
    ensures Format(SemVer(1, 0, 1, ["alpha-1"], [])) == "1.0.1-alpha-1"
  {
    AlphaIdentifier();
    CoreTexts();
    HyphenFormats();
  }

  lemma AlphaIdentifier()
    ensures "alpha" + "-" + "1" == "alpha-1"
    ensures PreReleaseId("alpha-1")
  {
    assert AlphanumericId("alpha-1") by {
      assert !Strs.IsDigit("alpha-1"[0]);
    }
  }

  lemma HyphenFormats()
    ensures Format(SemVer(1, 0, 0, ["alpha-1"], [])) == Core(SemVer(1, 0, 0, ["alpha-1"], [])) + "-alpha-1"
    ensures Format(SemVer(1, 0, 1, ["alpha-1"], [])) == Core(SemVer(1, 0, 1, ["alpha-1"], [])) + "-alpha-1"
  {
    assert PreSuffix(["alpha-1"]) == "-alpha-1";
  }

  lemma CoreTexts()
    ensures Core(SemVer(1, 0, 0, ["alpha-1"], [])) == "1.0.0"
    ensures Core(SemVer(1, 0, 1, ["alpha-1"], [])) == "1.0.1"
    ensures Strs.Join([Strs.NatToString(1), Strs.NatToString(0), Strs.NatToString(1)], '.') + "-" + "alpha" == "1.0.1-alpha"
  {
    assert Strs.NatToString(1) == "1" && Strs.NatToString(0) == "0";
    JoinThree("1", "0", "0");
    JoinThree("1", "0", "1");
  }

  /** Separators absent from the literals of the examples above. */
  lemma LiteralsAvoid()
    ensures '-' !in "alpha" && '-' !in "1"
  {
  }
}
