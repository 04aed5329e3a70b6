/** Printing a fixed-width upgrade table and parsing it back. */
module UpgradeRoundTrip {
  import opened Text
  import opened UpgradeTable

  datatype Row = Row(name: string, id: string, installed: string, available: string, source: string)
  datatype Widths = Widths(name: nat, id: nat, version: nat, available: nat)

  function Spaces(n: nat): (s: string)
    ensures |s| == n && forall i | 0 <= i < n :: s[i] == ' '
  {
    seq(n, i => ' ')
  }

  function Pad(s: string, w: nat): (p: string)
    requires |s| <= w
    ensures |p| == w && s <= p
  {
    s + Spaces(w - |s|)
  }

  /** Each header word is followed by at least one space. */
  predicate WideEnough(w: Widths) {
    w.name > 4 && w.id > 2 && w.version > 7 && w.available > 9
  }

  function PrintHeader(w: Widths): string
    requires WideEnough(w)
  {
    Pad("Name", w.name) + Pad("Id", w.id) + Pad("Version", w.version) + Pad("Available", w.available) + "Source"
  }

  predicate Word(s: string) {
    s != "" && forall i | 0 <= i < |s| :: !IsSpace(s[i])
  }

  /**
   * The texts of a row have the lengths and the blanks the columns can hold; a name may contain anything but line
   * breaks.
   */
  predicate Sized(r: Row, w: Widths) {
    && r.name != "" && !IsGap(r.name[0]) && '\n' !in r.name && |r.name| <= w.name
    && Word(r.id) && |r.id| <= w.id
    && Word(r.installed) && |r.installed| <= w.version
    && Word(r.available) && |r.available| < w.available
    && '\n' !in r.source
  }

  predicate Shaped(r: Row) {
    IsWinGetPackageId(r.id) && LooksLikeVersion(r.installed) && LooksLikeVersion(r.available)
  }

  function PrintRow(r: Row, w: Widths): string
    requires Sized(r, w)
  {
    Pad(r.name, w.name) + Pad(r.id, w.id) + Pad(r.installed, w.version) + (Pad(r.available, w.available) + r.source)
  }

  // Trimming and splitting padded text.

  lemma {:induction false} TrimLeftOfWord(s: string)
    requires s != "" && !IsSpace(s[0])
    ensures TrimLeft(s) == s
  {
  }

  lemma {:induction false} TrimRightKeeps(a: string, b: string)
    requires a != "" && !IsSpace(a[|a| - 1])
    ensures a <= TrimRight(a + b)
    ensures (forall i | 0 <= i < |b| :: IsSpace(b[i])) ==> TrimRight(a + b) == a
    decreases |b|
  {
    if b != "" {
      var b' := b[..|b| - 1];
      assert (a + b)[..|a + b| - 1] == a + b';
      if IsSpace(b[|b| - 1]) {
        TrimRightKeeps(a, b');
      }
    } else {
      assert a + b == a;
    }
  }

  lemma TrimPadded(s: string, n: nat)
    requires Word(s)
    ensures TrimSpace(s + Spaces(n)) == s
  {
    TrimLeftOfWord(s + Spaces(n));
    TrimRightKeeps(s, Spaces(n));
  }

  lemma {:induction false} WordLengthOf(s: string, rest: string)
    requires forall i | 0 <= i < |s| :: !IsSpace(s[i])
    requires rest == "" || IsSpace(rest[0])
    ensures WordLength(s + rest) == |s|
  {
    if s == "" {
      assert s + rest == rest;
    } else {
      assert (s + rest)[1..] == s[1..] + rest;
      WordLengthOf(s[1..], rest);
    }
  }

  lemma FieldsOfWord(s: string, rest: string)
    requires Word(s) && (rest == "" || IsSpace(rest[0]))
    ensures Fields(s + rest) != [] && Fields(s + rest)[0] == s
  {
    TrimLeftOfWord(s + rest);
    WordLengthOf(s, rest);
    assert (s + rest)[..|s|] == s;
  }

  lemma TrimmedWordAndTail(s: string, tail: string) returns (rest: string)
    requires Word(s) && tail != "" && tail[0] == ' '
    ensures TrimSpace(s + tail) == s + rest && (rest == "" || rest[0] == ' ')
  {
    var all := s + tail;
    TrimLeftOfWord(all);
    TrimRightKeeps(s, tail);
    TrimRightKeepsPrefix(all);
    rest := TrimRight(all)[|s|..];
    assert rest != "" ==> rest[0] == all[|s|];
  }

  /** The first field of a trimmed column is the word it starts with. */
  lemma FirstFieldOf(s: string, n: nat, tail: string)
    requires Word(s) && n > 0
    ensures FirstField(TrimSpace(s + Spaces(n) + tail)) == s
  {
    assert s + Spaces(n) + tail == s + (Spaces(n) + tail);
    var rest := TrimmedWordAndTail(s, Spaces(n) + tail);
    FieldsOfWord(s, rest);
  }

  // One row.

  /** The column offsets the printed header stands for. */
  function PrintedColumns(w: Widths): Columns {
    Columns(w.name, w.name + w.id, w.name + w.id + w.version)
  }

  /** A line cut at its column starts yields the trimmed columns. */
  lemma PartsSlices(a: string, b: string, c: string, d: string)
    ensures ColumnSlice(a + b + c + d, |a|, |a| + |b|) == TrimSpace(b)
    ensures ColumnSlice(a + b + c + d, |a| + |b|, |a| + |b| + |c|) == TrimSpace(c)
    ensures ColumnSlice(a + b + c + d, |a| + |b| + |c|, |a + b + c + d|) == TrimSpace(d)
  {
    var line := a + b + c + d;
    assert line[|a|..|a| + |b|] == b;
    assert line[|a| + |b|..|a| + |b| + |c|] == c;
    assert line[|a| + |b| + |c|..|line|] == d;
  }

  lemma AssembledFrom(line: string, c: Columns, id: string, installed: string, available: string)
    requires c.Columns? && |line| > c.idStart
    requires ColumnSlice(line, c.idStart, c.versionStart) == id
    requires ColumnSlice(line, c.versionStart, c.availStart) == installed
    requires FirstField(ColumnSlice(line, c.availStart, |line|)) == available
    ensures RowByColumns(line, c) == Assemble(id, installed, available)
  {
  }

  lemma PartTexts(a: string, b: string, c: string, d: string, r: Row, w: Widths)
    requires Sized(r, w) && b == Pad(r.id, w.id) && c == Pad(r.installed, w.version)
    requires d == Pad(r.available, w.available) + r.source
    ensures ColumnSlice(a + b + c + d, |a|, |a| + |b|) == r.id
    ensures ColumnSlice(a + b + c + d, |a| + |b|, |a| + |b| + |c|) == r.installed
    ensures FirstField(ColumnSlice(a + b + c + d, |a| + |b| + |c|, |a + b + c + d|)) == r.available
  {
    PartsSlices(a, b, c, d);
    TrimPadded(r.id, w.id - |r.id|);
    TrimPadded(r.installed, w.version - |r.installed|);
    FirstFieldOf(r.available, w.available - |r.available|, r.source);
  }

  lemma ShapedAssembles(r: Row)
    requires Shaped(r)
    ensures Assemble(r.id, r.installed, r.available) == Some(Package(r.id, r.installed, r.available))
  {
  }

  lemma PrintedByColumns(r: Row, w: Widths)
    requires Sized(r, w)
    ensures RowByColumns(PrintRow(r, w), PrintedColumns(w)) == Assemble(r.id, r.installed, r.available)
  {
    var a, b, c, d := Pad(r.name, w.name), Pad(r.id, w.id), Pad(r.installed, w.version),
                      Pad(r.available, w.available) + r.source;
    PartTexts(a, b, c, d, r, w);
    assert PrintRow(r, w) == a + b + c + d;
    assert PrintedColumns(w) == Columns(|a|, |a| + |b|, |a| + |b| + |c|);
    CutAtParts(PrintRow(r, w), PrintedColumns(w), a, b, c, d, r.id, r.installed, r.available);
  }

  /** The columns at the part boundaries assemble what the parts say. */
  lemma CutAtParts(line: string, cols: Columns, a: string, b: string, c: string, d: string, id: string,
                   installed: string, available: string)
    requires line == a + b + c + d && cols == Columns(|a|, |a| + |b|, |a| + |b| + |c|) && b != ""
    requires ColumnSlice(a + b + c + d, |a|, |a| + |b|) == id
    requires ColumnSlice(a + b + c + d, |a| + |b|, |a| + |b| + |c|) == installed
    requires FirstField(ColumnSlice(a + b + c + d, |a| + |b| + |c|, |a + b + c + d|)) == available
    ensures RowByColumns(line, cols) == Assemble(id, installed, available)
  {
    AssembledFrom(line, cols, id, installed, available);
  }

  lemma ColumnsDecide(line: string, cols: Columns, p: Package)
    requires !Skipped(line) && cols.Columns? && RowByColumns(line, cols) == Some(p)
    ensures RowPackage(line, cols) == Some(p)
  {
  }

  lemma RowRoundTrip(r: Row, w: Widths)
    requires Sized(r, w) && Shaped(r)
    ensures RowPackage(PrintRow(r, w), PrintedColumns(w)) == Some(Package(r.id, r.installed, r.available))
  {
    PrintedByColumns(r, w);
    ShapedAssembles(r);
    NotSkipped(r, w);
    ColumnsDecide(PrintRow(r, w), PrintedColumns(w), Package(r.id, r.installed, r.available));
  }

  lemma NotSkipped(r: Row, w: Widths)
    requires Sized(r, w)
    ensures !Skipped(PrintRow(r, w))
  {
    var line, a := PrintRow(r, w), Pad(r.name, w.name);
    assert line == a + (Pad(r.id, w.id) + Pad(r.installed, w.version) + (Pad(r.available, w.available) + r.source));
    assert line[0] == r.name[0] && line[|a|] == r.id[0];
    NotBlank(line, |a|);
  }

  lemma NotBlank(s: string, i: nat)
    requires i < |s| && !IsSpace(s[i])
    ensures TrimSpace(s) != ""
  {
    var t := TrimLeft(s);
    TrimLeftDrops(s);
    TrimRightKeepsPrefix(t);
    assert t[i - (|s| - |t|)] == s[i];
  }

  // The header.

  /** A word cannot start before its first letter occurs. */
  lemma NoEarlierToken(header: string, word: string, pos: nat)
    requires word != "" && TokenAt(header, word, pos) && word[0] !in header[..pos]
    ensures FirstToken(header, word, 0) == pos
  {
    forall i: int | 0 <= i < pos
      ensures !TokenAt(header, word, i)
    {
      assert header[..pos][i] == header[i];
    }
  }

  lemma TokenInside(a: string, word: string, n: nat, tail: string)
    requires word != "" && n > 0 && (a == "" || a[|a| - 1] == ' ')
    ensures TokenAt(a + word + Spaces(n) + tail, word, |a|)
  {
    var h := a + word + Spaces(n) + tail;
    assert h[|a|..|a| + |word|] == word;
    assert h[|a| + |word|] == ' ';
    assert a != "" ==> h[|a| - 1] == a[|a| - 1];
  }

  /** The header's text before, at and after one of its words. */
  lemma WordStands(a: string, word: string, n: nat, tail: string)
    requires word != "" && n > 0 && (a == "" || a[|a| - 1] == ' ') && word[0] !in a
    ensures FirstToken(a + word + Spaces(n) + tail, word, 0) == |a|
  {
    var h := a + word + Spaces(n) + tail;
    TokenInside(a, word, n, tail);
    assert h[..|a|] == a;
    NoEarlierToken(h, word, |a|);
  }

  lemma HeaderOffsets(w: Widths)
    requires WideEnough(w)
    ensures var h, c := PrintHeader(w), PrintedColumns(w);
            && FirstToken(h, "Id", 0) == c.idStart && FirstToken(h, "Version", 0) == c.versionStart
            && FirstToken(h, "Available", 0) == c.availStart
  {
    var h := PrintHeader(w);
    var a := Pad("Name", w.name);
    var b := a + Pad("Id", w.id);
    var c := b + Pad("Version", w.version);
    HeaderLetters(w, a, b, c);
    var afterId := Pad("Version", w.version) + Pad("Available", w.available) + "Source";
    var afterVersion := Pad("Available", w.available) + "Source";
    assert h == a + "Id" + Spaces(w.id - 2) + afterId;
    assert h == b + "Version" + Spaces(w.version - 7) + afterVersion;
    assert h == c + "Available" + Spaces(w.available - 9) + "Source";
    WordStands(a, "Id", w.id - 2, afterId);
    WordStands(b, "Version", w.version - 7, afterVersion);
    WordStands(c, "Available", w.available - 9, "Source");
  }

  lemma HeaderColumns(w: Widths)
    requires WideEnough(w)
    ensures ColumnsOf(PrintHeader(w)) == PrintedColumns(w)
  {
    HeaderOffsets(w);
    NotBlank(PrintHeader(w), 0);
  }

  lemma HeaderLetters(w: Widths, a: string, b: string, c: string)
    requires WideEnough(w) && a == Pad("Name", w.name) && b == a + Pad("Id", w.id) && c == b + Pad("Version", w.version)
    ensures 'I' !in a && 'V' !in b && 'A' !in c
  {
  }

  lemma {:induction false} NoDashes(s: string)
    requires '-' !in s
    ensures CountDashes(s) == 0
  {
    if s != "" {
      NoDashes(s[1..]);
    }
  }

  lemma TrimKeepsOnlyItsOwn(s: string, c: char)
    requires c !in s
    ensures c !in TrimSpace(s)
  {
    TrimLeftDrops(s);
    TrimRightKeepsPrefix(TrimLeft(s));
  }

  lemma HeaderIsNoSeparator(w: Widths)
    requires WideEnough(w)
    ensures !IsSeparator(PrintHeader(w))
  {
    HeaderHasNo(w, '-');
    TrimKeepsOnlyItsOwn(PrintHeader(w), '-');
    NoDashes(TrimSpace(PrintHeader(w)));
  }

  lemma HeaderHasNo(w: Widths, c: char)
    requires WideEnough(w) && c != ' '
    requires c !in "Name" && c !in "Id" && c !in "Version" && c !in "Available" && c !in "Source"
    ensures c !in PrintHeader(w)
  {
    assert c !in Pad("Name", w.name) && c !in Pad("Id", w.id)
           && c !in Pad("Version", w.version) && c !in Pad("Available", w.available);
  }

  function Dashes(n: nat): (s: string)
    ensures |s| == n && forall i | 0 <= i < n :: s[i] == '-'
  {
    seq(n, i => '-')
  }

  lemma {:induction false} CountAllDashes(s: string)
    requires forall i | 0 <= i < |s| :: s[i] == '-'
    ensures CountDashes(s) == |s|
  {
    if s != "" {
      CountAllDashes(s[1..]);
    }
  }

  /** A solid line of dashes is a separator. */
  lemma DashesSeparate(n: nat)
    requires n > 20
    ensures IsSeparator(Dashes(n))
  {
    var s := Dashes(n);
    TrimLeftOfWord(s);
    TrimRightKeeps(s, "");
    assert s + "" == s;
    CountAllDashes(s);
  }

  // The whole table.

  function PrintRows(rows: seq<Row>, w: Widths): (lines: seq<string>)
    requires forall i | 0 <= i < |rows| :: Sized(rows[i], w)
    ensures |lines| == |rows| && forall i | 0 <= i < |rows| :: lines[i] == PrintRow(rows[i], w)
  {
    seq(|rows|, i requires 0 <= i < |rows| => PrintRow(rows[i], w))
  }

  function Triples(rows: seq<Row>): (r: seq<Package>)
    ensures |r| == |rows|
    ensures forall i | 0 <= i < |rows| :: r[i] == Package(rows[i].id, rows[i].installed, rows[i].available)
  {
    seq(|rows|, i requires 0 <= i < |rows| => Package(rows[i].id, rows[i].installed, rows[i].available))
  }

  /** Lines joined by line breaks. */
  function Joined(lines: seq<string>): string
    requires lines != []
  {
    if |lines| == 1 then lines[0] else lines[0] + "\n" + Joined(lines[1..])
  }

  lemma {:induction false} SplitJoined(lines: seq<string>)
    requires lines != [] && forall i | 0 <= i < |lines| :: '\n' !in lines[i]
    ensures Split(Joined(lines), '\n') == lines
  {
    SplitPlain(lines[0], '\n');
    if |lines| > 1 {
      SplitJoined(lines[1..]);
      SplitJoin(lines[0], Joined(lines[1..]), '\n');
      assert lines[0] + "\n" + Joined(lines[1..]) == lines[0] + ['\n'] + Joined(lines[1..]);
      assert lines == [lines[0]] + lines[1..];
    }
  }

  lemma {:induction false} PackagesOf(rows: seq<string>, row: string -> Option<Package>, pkgs: seq<Package>)
    requires |rows| == |pkgs| && forall i | 0 <= i < |rows| :: row(rows[i]) == Some(pkgs[i])
    ensures Packages(rows, row) == pkgs
  {
    if rows != [] {
      var n := |rows| - 1;
      PackagesOf(rows[..n], row, pkgs[..n]);
      assert pkgs == pkgs[..n] + [pkgs[n]];
    }
  }

  lemma PrintedRowsParse(rows: seq<Row>, w: Widths)
    requires forall i | 0 <= i < |rows| :: Sized(rows[i], w) && Shaped(rows[i])
    ensures Packages(PrintRows(rows, w), RowParser(PrintedColumns(w))) == Triples(rows)
  {
    var lines, parser := PrintRows(rows, w), RowParser(PrintedColumns(w));
    forall i | 0 <= i < |lines|
      ensures parser(lines[i]) == Some(Triples(rows)[i])
    {
      RowRoundTrip(rows[i], w);
    }
    PackagesOf(lines, parser, Triples(rows));
  }

  lemma PrintedHasNoBreaks(r: Row, w: Widths)
    requires Sized(r, w)
    ensures '\n' !in PrintRow(r, w)
  {
  }

  function PrintTable(preamble: seq<string>, w: Widths, rule: string, rows: seq<Row>): seq<string>
    requires WideEnough(w) && forall i | 0 <= i < |rows| :: Sized(rows[i], w)
  {
    preamble + [PrintHeader(w), rule] + PrintRows(rows, w)
  }

  /**
   * Any table printed from rows that fit their columns, under the header and any separator line, below any preamble
   * without a dashed line of its own, parses back to exactly its first 512 rows, and is marked truncated exactly when
   * there were more.
   */
  lemma TableRoundTrip(preamble: seq<string>, w: Widths, rule: string, rows: seq<Row>)
    requires WideEnough(w) && IsSeparator(rule)
    requires forall i | 0 <= i < |rows| :: Sized(rows[i], w) && Shaped(rows[i])
    requires '\n' !in rule && forall i | 0 <= i < |preamble| :: !IsSeparator(preamble[i]) && '\n' !in preamble[i]
    ensures ParseLines(Split(Joined(PrintTable(preamble, w, rule, rows)), '\n')) == Capped(Triples(rows))
  {
    var lines := PrintTable(preamble, w, rule, rows);
    TableHasNoBreaks(preamble, w, rule, rows);
    SplitJoined(lines);
    TableParses(preamble, w, rule, rows);
  }

  lemma RowsHaveNoBreaks(rows: seq<Row>, w: Widths)
    requires forall i | 0 <= i < |rows| :: Sized(rows[i], w)
    ensures forall i | 0 <= i < |rows| :: '\n' !in PrintRows(rows, w)[i]
  {
    forall i | 0 <= i < |rows|
      ensures '\n' !in PrintRows(rows, w)[i]
    {
      PrintedHasNoBreaks(rows[i], w);
    }
  }

  lemma ConcatHasNoBreaks(a: seq<string>, b: seq<string>)
    requires forall i | 0 <= i < |a| :: '\n' !in a[i]
    requires forall i | 0 <= i < |b| :: '\n' !in b[i]
    ensures forall i | 0 <= i < |a + b| :: '\n' !in (a + b)[i]
  {
  }

  lemma TableHasNoBreaks(preamble: seq<string>, w: Widths, rule: string, rows: seq<Row>)
    requires WideEnough(w) && forall i | 0 <= i < |rows| :: Sized(rows[i], w)
    requires '\n' !in rule && forall i | 0 <= i < |preamble| :: '\n' !in preamble[i]
    ensures var lines := PrintTable(preamble, w, rule, rows);
            forall i | 0 <= i < |lines| :: '\n' !in lines[i]
  {
    var top := [PrintHeader(w), rule];
    HeaderHasNo(w, '\n');
    RowsHaveNoBreaks(rows, w);
    ConcatHasNoBreaks(preamble, top);
    ConcatHasNoBreaks(preamble + top, PrintRows(rows, w));
  }

  /** With no separator in the preamble or the header, the dashed line is the first separator. */
  lemma SeparatorPlace(preamble: seq<string>, header: string, dashed: string, rest: seq<string>, test: string -> bool)
    requires !test(header) && test(dashed) && forall i | 0 <= i < |preamble| :: !test(preamble[i])
    ensures var lines := preamble + [header, dashed] + rest;
            var k := |preamble| + 1;
            FirstLine(lines, test, 0) == k && HeaderAbove(lines, k) == header && lines[k + 1..] == rest
  {
    var lines := preamble + [header, dashed] + rest;
    var k := |preamble| + 1;
    assert lines[k] == dashed && lines[k - 1] == header && lines[k + 1..] == rest;
    assert forall j | 0 <= j < |preamble| :: lines[j] == preamble[j];
    assert forall j | 0 <= j < k :: !test(lines[j]);
  }

  lemma TableParses(preamble: seq<string>, w: Widths, rule: string, rows: seq<Row>)
    requires WideEnough(w) && IsSeparator(rule)
    requires forall i | 0 <= i < |rows| :: Sized(rows[i], w) && Shaped(rows[i])
    requires forall i | 0 <= i < |preamble| :: !IsSeparator(preamble[i])
    ensures ParseLines(PrintTable(preamble, w, rule, rows)) == Capped(Triples(rows))
  {
    HeaderIsNoSeparator(w);
    SeparatorPlace(preamble, PrintHeader(w), rule, PrintRows(rows, w), IsSeparator);
    HeaderColumns(w);
    PrintedRowsParse(rows, w);
  }
}
