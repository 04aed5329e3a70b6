/**
 * Parsing the `winget upgrade` table into package triples, by columns where the header resolves, by tokens otherwise.
 */
module UpgradeTable {
  import opened Text

  datatype Package = Package(id: string, installed: string, available: string)

  const MAX_OUTDATED_PACKAGES: nat := 512

  // Shapes.

  predicate IsIdChar(c: char) {
    'a' <= c <= 'z' || 'A' <= c <= 'Z' || IsDigit(c) || c == '.' || c == '-' || c == '+' || c == '_'
  }

  predicate IsWinGetPackageId(s: string) {
    (forall i | 0 <= i < |s| :: IsIdChar(s[i])) && ('.' in s || '-' in s)
  }

  function DigitRun(p: string): (n: nat)
    ensures n <= |p|
  {
    if p != "" && IsDigit(p[0]) then 1 + DigitRun(p[1..]) else 0
  }

  predicate VersionSegment(p: string) {
    var n := DigitRun(p);
    n > 0 && (n == |p| || p[n] == '-' || p[n] == '+')
  }

  predicate LooksLikeVersion(t: string) {
    && t != ""
    && var u := if t[0] == 'v' || t[0] == 'V' then t[1..] else t;
       u != "" && |Split(u, '.')| >= 2 && forall p | p in Split(u, '.') :: p == "" || VersionSegment(p)
  }

  // Tokens.

  /** The length of the leading run without white space. */
  function WordLength(s: string): (n: nat)
    ensures n <= |s|
    ensures s != "" && !IsSpace(s[0]) ==> n > 0
  {
    if s != "" && !IsSpace(s[0]) then 1 + WordLength(s[1..]) else 0
  }

  /** `strings.Fields`. */
  function Fields(s: string): seq<string>
    decreases |s|
  {
    var t := TrimLeft(s);
    if t == "" then [] else [t[..WordLength(t)]] + Fields(t[WordLength(t)..])
  }

  // Columns.

  datatype Columns = Unresolved | Columns(idStart: nat, versionStart: nat, availStart: nat)

  predicate IsGap(c: char) { c == ' ' || c == '\t' }

  /** A header word at this offset, delimited on both sides. */
  predicate TokenAt(header: string, word: string, i: int) {
    && OccursAt(header, word, i)
    && (i == 0 || IsGap(header[i - 1]))
    && (i + |word| == |header| || IsGap(header[i + |word|]))
  }

  /** Where a word first stands as a token at or after an offset, or -1. */
  function FirstToken(header: string, word: string, from: nat): (pos: int)
    requires from <= |header| + 1
    ensures pos == -1 || (from <= pos && TokenAt(header, word, pos))
    ensures forall i: int | from <= i && (pos == -1 || i < pos) :: !TokenAt(header, word, i)
    decreases |header| + 1 - from
  {
    if from == |header| + 1 then -1
    else if TokenAt(header, word, from) then from
    else FirstToken(header, word, from + 1)
  }

  /** The first of the candidate words that stands in the header, at its first place. */
  function HeaderOffset(header: string, words: seq<string>): int {
    if words == [] then -1
    else
      var pos := FirstToken(header, words[0], 0);
      if pos >= 0 then pos else HeaderOffset(header, words[1..])
  }

  const ID_WORDS := ["Id"]
  const VERSION_WORDS := ["Version"]
  const AVAILABLE_WORDS := ["Available", "Disponible", "Disponibile"]

  function ColumnsOf(header: string): Columns {
    if TrimSpace(header) == "" then Unresolved
    else
      var i, v, a := HeaderOffset(
        header, ID_WORDS), HeaderOffset(header, VERSION_WORDS), HeaderOffset(header, AVAILABLE_WORDS);
      if 0 <= i < v < a then Columns(i, v, a) else Unresolved
  }

  /** No proper end of the word is a beginning of it, so occurrences never overlap. */
  predicate Unbordered(word: string) {
    word != "" && forall n | 0 < n < |word| :: word[n..] != word[..|word| - n]
  }

  /** `strings.Index` from an offset on. */
  method Index(s: string, word: string, from: nat) returns (pos: int)
    requires from <= |s|
    ensures pos == -1 || (from <= pos && OccursAt(s, word, pos))
    ensures forall i: int | from <= i && (pos == -1 || i < pos) :: !OccursAt(s, word, i)
  {
    pos := from;
    while pos + |word| <= |s|
      invariant from <= pos && forall i: int | from <= i < pos :: !OccursAt(s, word, i)
    {
      if s[pos..pos + |word|] == word {
        return;
      }
      pos := pos + 1;
    }
    pos := -1;
  }

  /** The scan for one word: a rejected occurrence is skipped whole, which loses nothing for an unbordered word. */
  method WordOffset(header: string, word: string) returns (pos: int)
    requires Unbordered(word)
    ensures pos == FirstToken(header, word, 0)
  {
    var idx := 0;
    while idx < |header|
      invariant 0 <= idx <= |header| && forall i: int | i < idx :: !TokenAt(header, word, i)
    {
      pos := Index(header, word, idx);
      if pos < 0 {
        return;
      }
      var after := pos + |word|;
      if (pos == 0 || IsGap(header[pos - 1])) && (after >= |header| || IsGap(header[after])) {
        assert TokenAt(header, word, pos);
        return;
      }
      forall i: int | pos < i < after
        ensures !OccursAt(header, word, i)
      {
        NoOverlap(header, word, pos, i);
      }
      idx := after;
    }
    pos := -1;
  }

  lemma NoOverlap(s: string, word: string, i: int, j: int)
    requires Unbordered(word) && OccursAt(s, word, i) && i < j < i + |word|
    ensures !OccursAt(s, word, j)
  {
    var n := j - i;
    assert s[i..i + |word|][n..] == s[j..i + |word|];
    assert j + |word| <= |s| ==> s[j..j + |word|][..|word| - n] == s[j..i + |word|];
  }

  method HeaderTokenOffset(header: string, words: seq<string>) returns (pos: int)
    requires forall w | w in words :: Unbordered(w)
    ensures pos == HeaderOffset(header, words)
  {
    for k := 0 to |words|
      invariant HeaderOffset(header, words[k..]) == HeaderOffset(header, words)
    {
      pos := WordOffset(header, words[k]);
      assert words[k..][0] == words[k] && words[k..][1..] == words[k + 1..];
      if pos >= 0 {
        return;
      }
    }
    pos := -1;
  }

  method DeriveColumns(header: string) returns (cols: Columns)
    ensures cols == ColumnsOf(header)
  {
    if TrimSpace(header) == "" {
      return Unresolved;
    }
    WordsUnbordered();
    var i := HeaderTokenOffset(header, ID_WORDS);
    var v := HeaderTokenOffset(header, VERSION_WORDS);
    var a := HeaderTokenOffset(header, AVAILABLE_WORDS);
    cols := if i < 0 || v < 0 || a < 0 || !(i < v < a) then Unresolved else Columns(i, v, a);
  }

  lemma WordsUnbordered()
    ensures forall w | w in ID_WORDS + VERSION_WORDS + AVAILABLE_WORDS :: Unbordered(w)
  {
    forall w | w in ID_WORDS + VERSION_WORDS + AVAILABLE_WORDS
      ensures Unbordered(w)
    {
      assert w[0] !in w[1..];
      forall n | 0 < n < |w|
        ensures w[n..] != w[..|w| - n]
      {
        assert w[n..][0] == w[1..][n - 1];
      }
    }
  }

  // Rows.

  function ColumnSlice(line: string, from: nat, to: nat): string {
    if from > |line| then ""
    else
      var end := if to > |line| then |line| else to;
      TrimSpace(line[from..if end < from then from else end])
  }

  /** The first field of a column that may carry the next column's text too. */
  function FirstField(column: string): string {
    if Fields(column) != [] then Fields(column)[0] else column
  }

  function Assemble(id: string, installed: string, available: string): Option<Package> {
    if id == "" || installed == "" || available == "" then None
    else if !IsWinGetPackageId(id) || !LooksLikeVersion(installed) || !LooksLikeVersion(available) then None
    else Some(Package(id, installed, available))
  }

  function RowByColumns(line: string, cols: Columns): Option<Package>
    requires cols.Columns?
  {
    if |line| <= cols.idStart then None
    else
      Assemble(ColumnSlice(line, cols.idStart, cols.versionStart),
               ColumnSlice(line, cols.versionStart, cols.availStart),
               FirstField(ColumnSlice(line, cols.availStart, |line|)))
  }

  /** The first place at or after `i` where two adjacent tokens pass the test, or -1. */
  function FirstPair(tokens: seq<string>, isVersion: string -> bool, i: nat): (p: int)
    requires i <= |tokens|
    ensures p == -1 || (i <= p < |tokens| - 1 && isVersion(tokens[p]) && isVersion(tokens[p + 1]))
    ensures forall j | i <= j < |tokens| - 1 && (p == -1 || j < p) ::
              !(isVersion(tokens[j]) && isVersion(tokens[j + 1]))
    decreases |tokens| - i
  {
    if i + 1 >= |tokens| then -1
    else if isVersion(tokens[i]) && isVersion(tokens[i + 1]) then i
    else FirstPair(tokens, isVersion, i + 1)
  }

  /** The first token of those before `limit`, at or after `i`, that passes the test, or -1. */
  function FirstId(tokens: seq<string>, isId: string -> bool, i: nat, limit: nat): (p: int)
    requires i <= limit <= |tokens|
    ensures p == -1 || (i <= p < limit && isId(tokens[p]))
    ensures forall j | i <= j < limit && (p == -1 || j < p) :: !isId(tokens[j])
    decreases limit - i
  {
    if i == limit then -1 else if isId(tokens[i]) then i else FirstId(tokens, isId, i + 1, limit)
  }

  /** What the tokens of a line say: the first version pair, and the id before it or else the first one. */
  function TokenPackage(tokens: seq<string>, isVersion: string -> bool, isId: string -> bool): Option<Package> {
    var pair := FirstPair(tokens, isVersion, 0);
    if |tokens| < 4 || pair < 0 then None
    else
      var id := if pair > 0 && isId(tokens[pair - 1]) then pair - 1 else FirstId(tokens, isId, 0, pair);
      if id < 0 then None else Some(Package(tokens[id], tokens[pair], tokens[pair + 1]))
  }

  method ScanVersions(tokens: seq<string>, isVersion: string -> bool) returns (at: int)
    ensures at == FirstPair(tokens, isVersion, 0)
  {
    var i := 0;
    while i + 1 < |tokens|
      invariant i <= |tokens|
      invariant FirstPair(tokens, isVersion, i) == FirstPair(tokens, isVersion, 0)
    {
      if isVersion(tokens[i]) && isVersion(tokens[i + 1]) {
        return i;
      }
      i := i + 1;
    }
    return -1;
  }

  method ScanIds(tokens: seq<string>, isId: string -> bool, limit: nat) returns (at: int)
    requires limit <= |tokens|
    ensures at == FirstId(tokens, isId, 0, limit)
  {
    var i := 0;
    while i < limit
      invariant i <= limit
      invariant FirstId(tokens, isId, i, limit) == FirstId(tokens, isId, 0, limit)
    {
      if isId(tokens[i]) {
        return i;
      }
      i := i + 1;
    }
    return -1;
  }

  /**
   * The token fallback, loop by loop.  Its last-ditch positional branch asks for versions at positions 2 and 3 after
   * the scan has found no adjacent pair, so it never yields a package.
   */
  method ScanTokens(tokens: seq<string>, isVersion: string -> bool, isId: string -> bool) returns (pkg: Option<Package>)
    ensures pkg == TokenPackage(tokens, isVersion, isId)
  {
    if |tokens| < 4 {
      return None;
    }
    var installedIdx := ScanVersions(tokens, isVersion);
    var idIdx := -1;
    if installedIdx > 0 && isId(tokens[installedIdx - 1]) {
      idIdx := installedIdx - 1;
    }
    if idIdx < 0 {
      idIdx := ScanIds(tokens, isId, if installedIdx >= 0 then installedIdx else |tokens|);
    }
    if installedIdx < 0 {
      if isId(tokens[1]) && isVersion(tokens[2]) && isVersion(tokens[3]) {
        assert false;
      }
      return None;
    }
    pkg := if idIdx < 0 then None else Some(Package(tokens[idIdx], tokens[installedIdx], tokens[installedIdx + 1]));
  }

  function LinePackage(line: string): Option<Package> {
    TokenPackage(Fields(line), LooksLikeVersion, IsWinGetPackageId)
  }

  method ParseUpgradeLine(line: string) returns (pkg: Option<Package>)
    ensures pkg == LinePackage(line)
  {
    pkg := ScanTokens(Fields(line), LooksLikeVersion, IsWinGetPackageId);
  }

  predicate Skipped(line: string) {
    TrimSpace(line) == "" || line[0] == ' ' || line[0] == '\t'
  }

  /** What a data row contributes: nothing, or one package. */
  function RowPackage(line: string, cols: Columns): Option<Package> {
    if Skipped(line) then None
    else if cols.Columns? && RowByColumns(line, cols).Some? then RowByColumns(line, cols)
    else LinePackage(TrimSpace(line))
  }

  function RowParser(cols: Columns): string -> Option<Package> {
    line => RowPackage(line, cols)
  }

  // The table.

  function CountDashes(s: string): nat {
    if s == "" then 0 else (if s[0] == '-' then 1 else 0) + CountDashes(s[1..])
  }

  predicate IsSeparator(line: string) {
    |TrimSpace(line)| > 20 && CountDashes(TrimSpace(line)) > 10
  }

  function FirstLine(lines: seq<string>, test: string -> bool, i: nat): (k: int)
    requires i <= |lines|
    ensures k == -1 || (i <= k < |lines| && test(lines[k]))
    ensures forall j | i <= j < |lines| && (k == -1 || j < k) :: !test(lines[j])
    decreases |lines| - i
  {
    if i == |lines| then -1 else if test(lines[i]) then i else FirstLine(lines, test, i + 1)
  }

  function HeaderAbove(lines: seq<string>, k: nat): string
    requires k < |lines|
  {
    if k >= 1 then lines[k - 1] else ""
  }

  /** All the packages of a run of rows, in order. */
  function Packages(rows: seq<string>, row: string -> Option<Package>): seq<Package> {
    if rows == [] then []
    else
      var p := row(rows[|rows| - 1]);
      Packages(rows[..|rows| - 1], row) + if p.Some? then [p.value] else []
  }

  datatype Parsed = Unparseable | Table(packages: seq<Package>, truncated: bool)

  function Capped(all: seq<Package>): Parsed {
    if |all| > MAX_OUTDATED_PACKAGES then Table(all[..MAX_OUTDATED_PACKAGES], true) else Table(all, false)
  }

  /** The meaning of a whole output: all packages below the first separator, cut at the cap. */
  function ParseLines(lines: seq<string>): Parsed {
    var k := FirstLine(lines, IsSeparator, 0);
    if k < 0 then Unparseable
    else Capped(Packages(lines[k + 1..], RowParser(ColumnsOf(HeaderAbove(lines, k)))))
  }

  method FindLine(lines: seq<string>, test: string -> bool) returns (k: int)
    ensures k == FirstLine(lines, test, 0)
  {
    for i := 0 to |lines|
      invariant FirstLine(lines, test, i) == FirstLine(lines, test, 0)
    {
      if test(lines[i]) {
        return i;
      }
    }
    k := -1;
  }

  /** The capped scan of the data rows: it stops at the first package beyond the cap. */
  method ParseRows(rows: seq<string>, row: string -> Option<Package>) returns (r: Parsed)
    ensures r == Capped(Packages(rows, row))
  {
    var classified: seq<Package> := [];
    for i := 0 to |rows|
      invariant classified == Packages(rows[..i], row) && |classified| <= MAX_OUTDATED_PACKAGES
    {
      var pkg := row(rows[i]);
      assert rows[..i + 1][..i] == rows[..i];
      if pkg.Some? {
        if |classified| >= MAX_OUTDATED_PACKAGES {
          PackagesGrow(rows, row, i + 1);
          assert Packages(rows[..i + 1], row)[..MAX_OUTDATED_PACKAGES] == classified;
          return Table(classified, true);
        }
        classified := classified + [pkg.value];
      }
    }
    assert rows[..|rows|] == rows;
    r := Table(classified, false);
  }

  lemma {:induction false} PackagesGrow(rows: seq<string>, row: string -> Option<Package>, i: nat)
    requires i <= |rows|
    ensures Packages(rows[..i], row) <= Packages(rows, row)
    decreases |rows|
  {
    if i == |rows| {
      assert rows[..i] == rows;
    } else {
      PackagesGrow(rows[..|rows| - 1], row, i);
      assert rows[..|rows| - 1][..i] == rows[..i];
    }
  }

  method ParseUpgradeOutput(output: string) returns (r: Parsed)
    ensures r == ParseLines(Split(output, '\n'))
  {
    var lines := Split(output, '\n');
    var k := FindLine(lines, IsSeparator);
    if k < 0 {
      return Unparseable;
    }
    var cols := DeriveColumns(HeaderAbove(lines, k));
    r := ParseRows(lines[k + 1..], RowParser(cols));
  }

  // Validity of the output, for every input text.

  predicate WellFormed(p: Package) {
    IsWinGetPackageId(p.id) && LooksLikeVersion(p.installed) && LooksLikeVersion(p.available)
  }

  lemma RowIsWellFormed(line: string, cols: Columns)
    ensures RowPackage(line, cols).Some? ==> WellFormed(RowPackage(line, cols).value)
  {
  }

  lemma {:induction false} PackagesSatisfy(rows: seq<string>, row: string -> Option<Package>, good: Package -> bool)
    requires forall line :: row(line).Some? ==> good(row(line).value)
    ensures forall i | 0 <= i < |Packages(rows, row)| :: good(Packages(rows, row)[i])
  {
    if rows != [] {
      PackagesSatisfy(rows[..|rows| - 1], row, good);
    }
  }

  lemma RowsAreWellFormed(rows: seq<string>, cols: Columns)
    ensures forall i | 0 <= i < |Packages(rows, RowParser(cols))| :: WellFormed(Packages(rows, RowParser(cols))[i])
  {
    forall line
      ensures RowParser(cols)(line).Some? ==> WellFormed(RowParser(cols)(line).value)
    {
      RowIsWellFormed(line, cols);
    }
    PackagesSatisfy(rows, RowParser(cols), WellFormed);
  }

  lemma CappedIsBounded(all: seq<Package>, good: Package -> bool)
    requires forall i | 0 <= i < |all| :: good(all[i])
    ensures var t := Capped(all);
            && |t.packages| <= MAX_OUTDATED_PACKAGES && (t.truncated ==> |t.packages| == MAX_OUTDATED_PACKAGES)
            && forall i | 0 <= i < |t.packages| :: good(t.packages[i])
  {
  }

  /**
   * Whatever the text, at most the cap comes out, a truncated table is full, and every triple has the promised shape.
   */
  lemma OutputIsValid(lines: seq<string>)
    requires ParseLines(lines).Table?
    ensures var t := ParseLines(lines);
            && |t.packages| <= MAX_OUTDATED_PACKAGES && (t.truncated ==> |t.packages| == MAX_OUTDATED_PACKAGES)
            && forall i | 0 <= i < |t.packages| :: WellFormed(t.packages[i])
  {
    var k := FirstLine(lines, IsSeparator, 0);
    var cols := ColumnsOf(HeaderAbove(lines, k));
    RowsAreWellFormed(lines[k + 1..], cols);
    CappedIsBounded(Packages(lines[k + 1..], RowParser(cols)), WellFormed);
  }
}
