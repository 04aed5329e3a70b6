/** The agent's own SemVer 2.0.0 parser and precedence, which decide what counts as an upgrade. */
module SemVer {
  import opened Text

  datatype Version = Version(major: nat, minor: nat, patch: nat, prerelease: seq<string>, build: string)

  predicate AllDigits(s: string) { forall i | 0 <= i < |s| :: IsDigit(s[i]) }

  predicate IsNumericIdent(id: string) { id != "" && AllDigits(id) }

  function Digit(c: char): nat
    requires IsDigit(c)
  {
    c as int - '0' as int
  }

  function Value(s: string): nat
    requires AllDigits(s)
  {
    if s == "" then 0 else Value(s[..|s| - 1]) * 10 + Digit(s[|s| - 1])
  }

  // Parsing.

  predicate ValidNumericCore(p: string) {
    IsNumericIdent(p) && (|p| == 1 || p[0] != '0')
  }

  predicate IsIdentChar(c: char) {
    IsDigit(c) || 'a' <= c <= 'z' || 'A' <= c <= 'Z' || c == '-'
  }

  predicate ValidIdent(id: string, build: bool) {
    && id != "" && (forall i | 0 <= i < |id| :: IsIdentChar(id[i]))
    && (!build && AllDigits(id) && |id| > 1 ==> id[0] != '0')
  }

  predicate ValidDotSeparated(s: string, build: bool) {
    s != "" && forall id | id in Split(s, '.') :: ValidIdent(id, build)
  }

  function IndexOf(s: string, c: char): (i: int)
    ensures -1 <= i < |s|
    ensures i >= 0 ==> s[i] == c && c !in s[..i]
    ensures i < 0 ==> c !in s
  {
    if s == "" then -1
    else if s[0] == c then 0
    else var i := IndexOf(s[1..], c); if i < 0 then -1 else i + 1
  }

  const UINT64_LIMIT: nat := 0x1_0000_0000_0000_0000

  function ParseCore(s: string, prerelease: seq<string>, build: string): Option<Version> {
    var parts := Split(s, '.');
    if |parts| != 3 || !ValidNumericCore(parts[0]) || !ValidNumericCore(parts[1])
       || !ValidNumericCore(parts[2]) then None
    else
      var a, b, c := Value(parts[0]), Value(parts[1]), Value(parts[2]);
      if a >= UINT64_LIMIT || b >= UINT64_LIMIT || c >= UINT64_LIMIT then None
      else Some(Version(a, b, c, prerelease, build))
  }

  function ParsePrerelease(s: string, build: string): Option<Version> {
    var i := IndexOf(s, '-');
    if i < 0 then ParseCore(s, [], build)
    else if !ValidDotSeparated(s[i + 1..], false) then None
    else ParseCore(s[..i], Split(s[i + 1..], '.'), build)
  }

  function ParseVersion(text: string): Option<Version> {
    var t := TrimSpace(text);
    if t == "" then None
    else
      var s := if t[0] == 'v' || t[0] == 'V' then t[1..] else t;
      var i := IndexOf(s, '+');
      if i < 0 then ParsePrerelease(s, "")
      else if !ValidDotSeparated(s[i + 1..], true) then None
      else ParsePrerelease(s[..i], s[i + 1..])
  }

  // Precedence.

  function CompareInt(a: int, b: int): int {
    if a < b then -1 else if a > b then 1 else 0
  }

  function CompareNumericIdent(a: string, b: string): int {
    if |a| != |b| then CompareInt(|a|, |b|) else StringCompare(a, b)
  }

  function CompareIdent(a: string, b: string): int {
    if IsNumericIdent(a) && IsNumericIdent(b) then CompareNumericIdent(a, b)
    else if IsNumericIdent(a) then -1
    else if IsNumericIdent(b) then 1
    else StringCompare(a, b)
  }

  function CompareIdents(a: seq<string>, b: seq<string>): int {
    if a == [] || b == [] then CompareInt(|a|, |b|)
    else if CompareIdent(a[0], b[0]) != 0 then CompareIdent(a[0], b[0])
    else CompareIdents(a[1..], b[1..])
  }

  function ComparePrerelease(a: seq<string>, b: seq<string>): int {
    if a == [] && b == [] then 0
    else if a == [] then 1
    else if b == [] then -1
    else CompareIdents(a, b)
  }

  function Compare(a: Version, b: Version): int {
    if CompareInt(a.major, b.major) != 0 then CompareInt(a.major, b.major)
    else if CompareInt(a.minor, b.minor) != 0 then CompareInt(a.minor, b.minor)
    else if CompareInt(a.patch, b.patch) != 0 then CompareInt(a.patch, b.patch)
    else ComparePrerelease(a.prerelease, b.prerelease)
  }

  // The precedence is a total order up to build metadata.

  lemma IdentFlip(a: string, b: string)
    ensures CompareIdent(b, a) == -CompareIdent(a, b)
    ensures -1 <= CompareIdent(a, b) <= 1
    ensures CompareIdent(a, b) == 0 <==> a == b
  {
    StringCompareFlip(a, b);
  }

  lemma IdentTransitive(a: string, b: string, c: string)
    requires CompareIdent(a, b) <= 0 && CompareIdent(b, c) <= 0
    ensures CompareIdent(a, c) <= 0
    ensures CompareIdent(a, b) < 0 || CompareIdent(b, c) < 0 ==> CompareIdent(a, c) < 0
  {
    if StringCompare(a, b) <= 0 && StringCompare(b, c) <= 0 {
      StringCompareTransitive(a, b, c);
    }
  }

  lemma {:induction false} IdentsFlip(a: seq<string>, b: seq<string>)
    ensures CompareIdents(b, a) == -CompareIdents(a, b)
    ensures -1 <= CompareIdents(a, b) <= 1
    ensures CompareIdents(a, b) == 0 <==> a == b
  {
    if a != [] && b != [] {
      IdentFlip(a[0], b[0]);
      IdentsFlip(a[1..], b[1..]);
      if a[0] == b[0] {
        assert a == [a[0]] + a[1..] && b == [b[0]] + b[1..];
      }
    }
  }

  lemma {:induction false} IdentsTransitive(a: seq<string>, b: seq<string>, c: seq<string>)
    requires CompareIdents(a, b) <= 0 && CompareIdents(b, c) <= 0
    ensures CompareIdents(a, c) <= 0
    ensures CompareIdents(a, b) < 0 || CompareIdents(b, c) < 0 ==> CompareIdents(a, c) < 0
  {
    if a != [] && b != [] && c != [] {
      IdentFlip(a[0], b[0]);
      IdentFlip(b[0], c[0]);
      IdentFlip(a[0], c[0]);
      IdentTransitive(a[0], b[0], c[0]);
      if a[0] == b[0] == c[0] {
        IdentsTransitive(a[1..], b[1..], c[1..]);
      }
    }
  }

  /** Comparing the other way round flips the sign, and versions tie only when they differ in build metadata alone. */
  lemma CompareFlip(a: Version, b: Version)
    ensures Compare(b, a) == -Compare(a, b)
    ensures Compare(a, b) == 0 <==> a.(build := b.build) == b
  {
    IdentsFlip(a.prerelease, b.prerelease);
  }

  lemma CompareTransitive(a: Version, b: Version, c: Version)
    requires Compare(a, b) <= 0 && Compare(b, c) <= 0
    ensures Compare(a, c) <= 0
    ensures Compare(a, b) < 0 || Compare(b, c) < 0 ==> Compare(a, c) < 0
  {
    var x, y, z := a.prerelease, b.prerelease, c.prerelease;
    IdentsFlip(x, y);
    IdentsFlip(y, z);
    IdentsFlip(x, z);
    if CompareIdents(x, y) <= 0 && CompareIdents(y, z) <= 0 {
      IdentsTransitive(x, y, z);
    }
  }

  // Length-then-text comparison of digit strings is comparison of their values.

  function Pow10(n: nat): nat {
    if n == 0 then 1 else 10 * Pow10(n - 1)
  }

  lemma ShiftDigit(d: nat, p: nat, v: nat, e: nat)
    ensures (d * p + v) * 10 + e == d * (10 * p) + (v * 10 + e)
  {
    assert d * (10 * p) == 10 * (d * p);
  }

  lemma {:induction false} ValueSplit(s: string)
    requires s != "" && AllDigits(s)
    ensures AllDigits(s[1..]) && Value(s) == Digit(s[0]) * Pow10(|s| - 1) + Value(s[1..])
  {
    if |s| > 1 {
      var init := s[..|s| - 1];
      ValueSplit(init);
      assert init[1..] == s[1..][..|s| - 2];
      assert s[1..][|s| - 2] == s[|s| - 1];
      assert Value(s[1..]) == Value(init[1..]) * 10 + Digit(s[|s| - 1]);
      ShiftDigit(Digit(s[0]), Pow10(|s| - 2), Value(init[1..]), Digit(s[|s| - 1]));
    }
  }

  /** Below the leading digit everything stays under one unit of its place. */
  lemma PlaceValue(x: nat, y: nat, p: nat, u: nat, v: nat)
    requires u < p && v < p
    ensures x * p + u < (x + 1) * p
    ensures x < y ==> x * p + u < y * p + v
    ensures x == y ==> CompareInt(x * p + u, y * p + v) == CompareInt(u, v)
  {
    assert (x + 1) * p == x * p + p;
    if x < y {
      assert (x + 1) * p <= y * p;
    }
  }

  lemma {:induction false} ValueBound(s: string)
    requires AllDigits(s)
    ensures Value(s) < Pow10(|s|)
    ensures s != "" && s[0] != '0' ==> Pow10(|s| - 1) <= Value(s)
  {
    if s != "" {
      ValueSplit(s);
      ValueBound(s[1..]);
      DigitBound(Digit(s[0]), Pow10(|s| - 1), Value(s[1..]));
    }
  }

  lemma DigitBound(d: nat, p: nat, rest: nat)
    requires d <= 9 && rest < p
    ensures d * p + rest < 10 * p
    ensures d >= 1 ==> p <= d * p + rest
  {
    PlaceValue(d, 10, p, rest, 0);
    if d >= 1 {
      assert d * p == (d - 1) * p + p;
    }
  }

  lemma {:induction false} Pow10Monotone(m: nat, n: nat)
    requires m <= n
    ensures Pow10(m) <= Pow10(n)
  {
    if m < n {
      Pow10Monotone(m, n - 1);
    }
  }

  lemma {:induction false} SameLengthIsNumeric(a: string, b: string)
    requires |a| == |b| && AllDigits(a) && AllDigits(b)
    ensures StringCompare(a, b) == CompareInt(Value(a), Value(b))
  {
    if a != "" {
      ValueSplit(a);
      ValueSplit(b);
      ValueBound(a[1..]);
      ValueBound(b[1..]);
      SameLengthIsNumeric(a[1..], b[1..]);
      PlaceValue(Digit(a[0]), Digit(b[0]), Pow10(|a| - 1), Value(a[1..]), Value(b[1..]));
      PlaceValue(Digit(b[0]), Digit(a[0]), Pow10(|a| - 1), Value(b[1..]), Value(a[1..]));
    }
  }

  /**
   * Numeric identifiers of any length compare as the numbers they write, which the parser's no-leading-zero rule makes
   * sound.
   */
  lemma NumericIdentsCompareAsNumbers(a: string, b: string)
    requires ValidIdent(a, false) && ValidIdent(b, false) && AllDigits(a) && AllDigits(b)
    ensures CompareIdent(a, b) == CompareInt(Value(a), Value(b))
  {
    if |a| == |b| {
      SameLengthIsNumeric(a, b);
    } else {
      LongerIsLarger(if |a| < |b| then a else b, if |a| < |b| then b else a);
    }
  }

  lemma LongerIsLarger(a: string, b: string)
    requires |a| < |b| && AllDigits(a) && AllDigits(b) && b[0] != '0'
    ensures Value(a) < Value(b)
  {
    ValueBound(a);
    ValueBound(b);
    Pow10Monotone(|a|, |b| - 1);
  }

  /** What the parser lets through: bounded core numbers and well-formed prerelease identifiers. */
  predicate WellFormed(v: Version) {
    && v.major < UINT64_LIMIT && v.minor < UINT64_LIMIT && v.patch < UINT64_LIMIT
    && forall id | id in v.prerelease :: ValidIdent(id, false)
  }

  lemma CoreIsWellFormed(s: string, prerelease: seq<string>, build: string)
    requires ParseCore(s, prerelease, build).Some? && forall id | id in prerelease :: ValidIdent(id, false)
    ensures WellFormed(ParseCore(s, prerelease, build).value)
  {
    var parts := Split(s, '.');
    assert ParseCore(s, prerelease, build).value
           == Version(Value(parts[0]), Value(parts[1]), Value(parts[2]), prerelease, build);
  }

  lemma PrereleaseIsWellFormed(s: string, build: string)
    requires ParsePrerelease(s, build).Some?
    ensures WellFormed(ParsePrerelease(s, build).value)
  {
    var i := IndexOf(s, '-');
    if i < 0 {
      CoreIsWellFormed(s, [], build);
    } else {
      CoreIsWellFormed(s[..i], Split(s[i + 1..], '.'), build);
    }
  }

  lemma ParsedIsWellFormed(text: string)
    requires ParseVersion(text).Some?
    ensures WellFormed(ParseVersion(text).value)
  {
    var t := TrimSpace(text);
    var s := if t[0] == 'v' || t[0] == 'V' then t[1..] else t;
    var i := IndexOf(s, '+');
    if i < 0 {
      PrereleaseIsWellFormed(s, "");
    } else {
      PrereleaseIsWellFormed(s[..i], s[i + 1..]);
    }
  }
}
