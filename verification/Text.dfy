/** The part of Go's `strings` package the agent relies on, over ASCII text. */
module Text {

  datatype Option<+T> = None | Some(value: T)

  predicate IsSpace(c: char) {
    c == ' ' || '\t' <= c <= '\r'
  }

  predicate IsDigit(c: char) { '0' <= c <= '9' }

  function TrimLeft(s: string): (r: string)
    ensures |r| <= |s| && (r == "" || !IsSpace(r[0]))
  {
    if s != "" && IsSpace(s[0]) then TrimLeft(s[1..]) else s
  }

  function TrimRight(s: string): (r: string)
    ensures |r| <= |s|
  {
    if s != "" && IsSpace(s[|s| - 1]) then TrimRight(s[..|s| - 1]) else s
  }

  /** Trimming on the left drops blanks only. */
  lemma {:induction false} TrimLeftDrops(s: string)
    ensures var n := |s| - |TrimLeft(s)|;
            TrimLeft(s) == s[n..] && forall i | 0 <= i < n :: IsSpace(s[i])
  {
    if s != "" && IsSpace(s[0]) {
      TrimLeftDrops(s[1..]);
      var n := |s| - |TrimLeft(s)|;
      assert s[n..] == s[1..][n - 1..];
      forall i | 0 <= i < n
        ensures IsSpace(s[i])
      {
        if i > 0 {
          assert IsSpace(s[1..][i - 1]);
        }
      }
    }
  }

  /** Trimming on the right keeps a prefix. */
  lemma {:induction false} TrimRightKeepsPrefix(s: string)
    ensures TrimRight(s) <= s
    ensures forall i | |TrimRight(s)| <= i < |s| :: IsSpace(s[i])
  {
    if s != "" && IsSpace(s[|s| - 1]) {
      TrimRightKeepsPrefix(s[..|s| - 1]);
    }
  }

  function TrimSpace(s: string): string {
    TrimRight(TrimLeft(s))
  }

  function LowerChar(c: char): char {
    if 'A' <= c <= 'Z' then ((c as int) + 32) as char else c
  }

  function ToLower(s: string): (r: string)
    ensures |r| == |s|
    ensures forall i | 0 <= i < |s| :: r[i] == LowerChar(s[i])
  {
    seq(|s|, i requires 0 <= i < |s| => LowerChar(s[i]))
  }

  lemma ToLowerConcat(a: string, b: string)
    ensures ToLower(a + b) == ToLower(a) + ToLower(b)
  {
  }

  predicate HasSuffix(s: string, t: string) {
    |t| <= |s| && s[|s| - |t|..] == t
  }

  predicate OccursAt(s: string, t: string, i: int) {
    0 <= i <= |s| - |t| && s[i..i + |t|] == t
  }

  predicate Contains(s: string, t: string) {
    exists i: int | 0 <= i <= |s| - |t| :: OccursAt(s, t, i)
  }

  /** `strings.Split` on a one-character separator: always at least one piece. */
  function Split(s: string, sep: char): (parts: seq<string>)
    ensures |parts| >= 1
  {
    if s == "" then [""] else Attach(s[0], Split(s[1..], sep), sep)
  }

  /** A character in front of split text: a new empty piece, or one more letter of the first piece. */
  function Attach(c: char, parts: seq<string>, sep: char): (r: seq<string>)
    requires parts != []
    ensures r != []
  {
    if c == sep then [""] + parts else [[c] + parts[0]] + parts[1..]
  }

  lemma AttachConcat(c: char, a: seq<string>, b: seq<string>, sep: char)
    requires a != []
    ensures Attach(c, a + b, sep) == Attach(c, a, sep) + b
  {
    assert (a + b)[1..] == a[1..] + b;
  }

  /** No piece contains the separator. */
  lemma {:induction false} SplitPieces(s: string, sep: char)
    ensures forall i | 0 <= i < |Split(s, sep)| :: sep !in Split(s, sep)[i]
  {
    if s != "" {
      SplitPieces(s[1..], sep);
    }
  }

  lemma {:induction false} SplitPlain(s: string, sep: char)
    requires sep !in s
    ensures Split(s, sep) == [s]
  {
    if s != "" {
      SplitPlain(s[1..], sep);
      assert s == [s[0]] + s[1..];
    }
  }

  /** Splitting distributes over a separator. */
  lemma {:induction false} SplitJoin(a: string, b: string, sep: char)
    ensures Split(a + [sep] + b, sep) == Split(a, sep) + Split(b, sep)
  {
    var s := a + [sep] + b;
    if a == "" {
      assert s[0] == sep && s[1..] == b;
    } else {
      SplitJoin(a[1..], b, sep);
      assert s[0] == a[0] && s[1..] == a[1..] + [sep] + b;
      AttachConcat(a[0], Split(a[1..], sep), Split(b, sep), sep);
    }
  }

  /** Text appended without a separator extends the last piece only. */
  lemma {:induction false} SplitExtend(a: string, b: string, sep: char)
    requires sep !in b
    ensures Split(a + b, sep) == ExtendLast(Split(a, sep), b)
  {
    if a == "" {
      assert a + b == b;
      SplitPlain(b, sep);
    } else {
      SplitExtend(a[1..], b, sep);
      assert (a + b)[1..] == a[1..] + b && (a + b)[0] == a[0];
      AttachExtend(a[0], Split(a[1..], sep), b, sep);
    }
  }

  function ExtendLast(parts: seq<string>, b: string): (r: seq<string>)
    requires parts != []
    ensures |r| == |parts|
  {
    parts[..|parts| - 1] + [parts[|parts| - 1] + b]
  }

  lemma AttachExtend(c: char, parts: seq<string>, b: string, sep: char)
    requires parts != []
    ensures Attach(c, ExtendLast(parts, b), sep) == ExtendLast(Attach(c, parts, sep), b)
  {
    if |parts| == 1 {
      assert [c] + (parts[0] + b) == ([c] + parts[0]) + b;
    }
  }

  /** Byte-wise order of `strings.Compare`. */
  function StringCompare(a: string, b: string): int {
    if a == "" && b == "" then 0
    else if a == "" then -1
    else if b == "" then 1
    else if a[0] < b[0] then -1
    else if a[0] > b[0] then 1
    else StringCompare(a[1..], b[1..])
  }

  predicate StringLess(a: string, b: string) {
    StringCompare(a, b) < 0
  }

  /** The order is total: comparing the other way round flips the sign, and only equal strings tie. */
  lemma {:induction false} StringCompareFlip(a: string, b: string)
    ensures StringCompare(b, a) == -StringCompare(a, b)
    ensures -1 <= StringCompare(a, b) <= 1
    ensures StringCompare(a, b) == 0 <==> a == b
  {
    if a != "" && b != "" {
      StringCompareFlip(a[1..], b[1..]);
      if a[0] == b[0] {
        assert a == [a[0]] + a[1..] && b == [b[0]] + b[1..];
      }
    }
  }

  lemma {:induction false} StringCompareTransitive(a: string, b: string, c: string)
    requires StringCompare(a, b) <= 0 && StringCompare(b, c) <= 0
    ensures StringCompare(a, c) <= 0
    ensures StringCompare(a, b) < 0 || StringCompare(b, c) < 0 ==> StringCompare(a, c) < 0
  {
    if a != "" && b != "" && c != "" && a[0] == b[0] == c[0] {
      StringCompareTransitive(a[1..], b[1..], c[1..]);
    }
  }
}
