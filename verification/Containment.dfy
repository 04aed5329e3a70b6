/** The two path-containment checks, and the segment relation both decide. */
module Containment {
  import opened Text
  import opened Paths

  // Splitting and joining.

  function Unsplit(parts: seq<string>): string
    requires parts != []
  {
    if |parts| == 1 then parts[0] else parts[0] + "/" + Unsplit(parts[1..])
  }

  lemma {:induction false} UnsplitSplit(s: string)
    ensures Unsplit(Split(s, '/')) == s
  {
    if s != "" {
      UnsplitSplit(s[1..]);
      var rest := Split(s[1..], '/');
      if s[0] == '/' {
        assert ([""] + rest)[1..] == rest;
        assert "" + "/" + s[1..] == s;
      } else {
        assert ([[s[0]] + rest[0]] + rest[1..])[1..] == rest[1..];
        assert s == [s[0]] + s[1..];
      }
    }
  }

  lemma {:induction false} UnsplitConcat(a: seq<string>, b: seq<string>)
    requires a != [] && b != []
    ensures Unsplit(a + b) == Unsplit(a) + "/" + Unsplit(b)
  {
    assert (a + b)[1..] == a[1..] + b;
    if |a| == 1 {
      assert a[1..] + b == b;
    } else {
      UnsplitConcat(a[1..], b);
    }
  }

  /** Prefixing with a separator boundary is being a prefix element by element. */
  lemma BoundaryPrefix(p: string, r: string)
    ensures (p == r || r + "/" <= p) <==> Split(r, '/') <= Split(p, '/')
  {
    if r + "/" <= p {
      BoundaryThenPieces(p, r);
    }
    if Split(r, '/') <= Split(p, '/') {
      PiecesThenBoundary(p, r);
    }
  }

  lemma BoundaryThenPieces(p: string, r: string)
    requires r + "/" <= p
    ensures Split(r, '/') <= Split(p, '/')
  {
    var rest := p[|r| + 1..];
    assert p == r + ['/'] + rest;
    SplitJoin(r, rest, '/');
  }

  lemma PiecesThenBoundary(p: string, r: string)
    requires Split(r, '/') <= Split(p, '/')
    ensures p == r || r + "/" <= p
  {
    UnsplitSplit(p);
    UnsplitSplit(r);
    UnsplitPrefix(Split(p, '/'), Split(r, '/'));
  }

  lemma UnsplitPrefix(a: seq<string>, b: seq<string>)
    requires a != [] && b != [] && b <= a
    ensures Unsplit(a) == Unsplit(b) || Unsplit(b) + "/" <= Unsplit(a)
  {
    if |b| == |a| {
      assert b == a;
    } else {
      assert a == b + a[|b|..];
      UnsplitConcat(b, a[|b|..]);
    }
  }

  // The walker's check.

  /** A cleaned path as text. */
  function Render(p: CleanPath): string {
    if p.segs == [] then (if p.rooted then "/" else ".")
    else (if p.rooted then "/" else "") + Unsplit(p.segs)
  }

  predicate EndsInSlash(s: string) { s != "" && s[|s| - 1] == '/' }

  predicate WithinRoot(canon: string, root: string) {
    var c, r := ToLower(Render(Clean(canon))), ToLower(Render(Clean(root)));
    c == r || (if EndsInSlash(r) then r else r + "/") <= c
  }

  function LowerAll(segs: seq<string>): (r: seq<string>)
    ensures |r| == |segs| && forall i | 0 <= i < |segs| :: r[i] == ToLower(segs[i])
  {
    seq(|segs|, i requires 0 <= i < |segs| => ToLower(segs[i]))
  }

  predicate WholeSegments(segs: seq<string>) {
    forall i | 0 <= i < |segs| :: segs[i] != "" && '/' !in segs[i]
  }

  lemma {:induction false} ReducedAreWhole(rooted: bool, segs: seq<string>)
    requires forall i | 0 <= i < |segs| :: '/' !in segs[i]
    ensures WholeSegments(Reduce(rooted, segs))
  {
    if segs != [] {
      ReducedAreWhole(rooted, segs[..|segs| - 1]);
    }
  }

  lemma {:induction false} LowerUnsplit(segs: seq<string>)
    requires segs != []
    ensures ToLower(Unsplit(segs)) == Unsplit(LowerAll(segs))
  {
    if |segs| > 1 {
      LowerUnsplit(segs[1..]);
      assert LowerAll(segs)[1..] == LowerAll(segs[1..]);
      ToLowerConcat(segs[0] + "/", Unsplit(segs[1..]));
      ToLowerConcat(segs[0], "/");
      assert ToLower("/") == "/";
    } else {
      assert LowerAll(segs) == [ToLower(segs[0])];
    }
  }

  lemma {:induction false} SplitUnsplit(segs: seq<string>)
    requires segs != [] && forall i | 0 <= i < |segs| :: '/' !in segs[i]
    ensures Split(Unsplit(segs), '/') == segs
  {
    if |segs| == 1 {
      SplitPlain(segs[0], '/');
    } else {
      SplitUnsplit(segs[1..]);
      SplitPlain(segs[0], '/');
      SplitJoin(segs[0], Unsplit(segs[1..]), '/');
      assert segs[0] + "/" + Unsplit(segs[1..]) == segs[0] + ['/'] + Unsplit(segs[1..]);
      assert segs == [segs[0]] + segs[1..];
    }
  }

  lemma LowerKeepsWhole(segs: seq<string>)
    requires WholeSegments(segs)
    ensures WholeSegments(LowerAll(segs))
  {
    forall i | 0 <= i < |segs|
      ensures '/' !in LowerAll(segs)[i]
    {
      forall j | 0 <= j < |segs[i]|
        ensures ToLower(segs[i])[j] != '/'
      {
        assert segs[i][j] in segs[i];
      }
    }
  }

  /** The lower-cased text of an absolute cleaned path splits into an empty piece and its lower-cased segments. */
  lemma RenderedPieces(p: CleanPath)
    requires p.rooted && p.segs != [] && WholeSegments(p.segs)
    ensures Split(ToLower(Render(p)), '/') == [""] + LowerAll(p.segs)
    ensures !EndsInSlash(ToLower(Render(p)))
    ensures |ToLower(Render(p))| > 1
  {
    var low := LowerAll(p.segs);
    LowerKeepsWhole(p.segs);
    LowerUnsplit(p.segs);
    ToLowerConcat("/", Unsplit(p.segs));
    assert ToLower("/") == "/";
    var t := ToLower(Render(p));
    assert t == "" + ['/'] + Unsplit(low);
    SplitUnsplit(low);
    SplitPlain("", '/');
    SplitJoin("", Unsplit(low), '/');
    EndOfUnsplit(low);
  }

  lemma {:induction false} EndOfUnsplit(segs: seq<string>)
    requires segs != [] && WholeSegments(segs)
    ensures Unsplit(segs) != "" && !EndsInSlash(Unsplit(segs))
  {
    if |segs| > 1 {
      EndOfUnsplit(segs[1..]);
    } else {
      assert segs[0][|segs[0]| - 1] in segs[0];
    }
  }

  /** On absolute paths the walker's check is exactly: the root's segments are a prefix of the path's, ignoring case. */
  lemma WithinRootIsSegmentPrefix(canon: string, root: string)
    requires Clean(canon).rooted && Clean(root).rooted
    ensures WithinRoot(canon, root) <==> LowerAll(Clean(root).segs) <= LowerAll(Clean(canon).segs)
  {
    var p, q := Clean(canon), Clean(root);
    SplitPieces(canon, '/');
    ReducedAreWhole(true, Split(canon, '/'));
    SplitPieces(root, '/');
    ReducedAreWhole(true, Split(root, '/'));
    var c, r := ToLower(Render(p)), ToLower(Render(q));
    assert ToLower("/") == "/";
    if p.segs != [] {
      RenderedPieces(p);
      assert c[0] == '/';
    }
    if q.segs == [] {
      assert "/" <= c;
    } else {
      RenderedPieces(q);
      BoundaryPrefix(c, r);
      var a, b := LowerAll(p.segs), LowerAll(q.segs);
      if p.segs == [] {
        assert Split("/", '/') == ["", ""] by { SplitJoin("", "", '/'); }
        assert |b| >= 1 && b[0] != "";
        assert ([""] + b)[1] == b[0];
      } else {
        ConsPrefix("", a, b);
      }
    }
  }

  /** Whatever the check lets through has the root's segments as a prefix, and is absolute exactly when the root is. */
  lemma WithinRootIsInside(canon: string, root: string)
    requires WithinRoot(canon, root)
    ensures Clean(canon).rooted == Clean(root).rooted && LowerAll(Clean(root).segs) <= LowerAll(Clean(canon).segs)
  {
    FirstRendered(canon);
    FirstRendered(root);
    assert Clean(canon).rooted == Clean(root).rooted;
    if Clean(root).rooted {
      WithinRootIsSegmentPrefix(canon, root);
    } else if Clean(root).segs != [] {
      RelativePieces(root);
      BoundaryPrefix(ToLower(Render(Clean(canon))), ToLower(Render(Clean(root))));
      SplitPlain(".", '/');
      ReducedHasNoDot(false, Split(root, '/'));
      OnlyDotLowersToDot(Clean(root).segs[0]);
      assert Clean(root).segs[0] in Clean(root).segs && LowerAll(Clean(root).segs)[0] != ".";
      if Clean(canon).segs != [] {
        RelativePieces(canon);
      }
    }
  }

  lemma OnlyDotLowersToDot(s: string)
    ensures ToLower(s) == "." <==> s == "."
  {
    if |s| == 1 {
      assert s == [s[0]] && ToLower(s)[0] == LowerChar(s[0]);
    }
  }

  /** An absolute cleaned path, and no other, starts with a slash, also in lower case. */
  lemma FirstRendered(s: string)
    ensures var t := ToLower(Render(Clean(s))); t != "" && (t[0] == '/' <==> Clean(s).rooted)
  {
    var p := Clean(s);
    if !p.rooted && p.segs != [] {
      SplitPieces(s, '/');
      ReducedAreWhole(false, Split(s, '/'));
      FirstOfUnsplit(p.segs);
      assert Render(p)[0] in p.segs[0];
    }
  }

  lemma RelativePieces(s: string)
    requires !Clean(s).rooted && Clean(s).segs != []
    ensures Split(ToLower(Render(Clean(s))), '/') == LowerAll(Clean(s).segs) && !EndsInSlash(ToLower(Render(Clean(s))))
  {
    var p := Clean(s);
    SplitPieces(s, '/');
    ReducedAreWhole(false, Split(s, '/'));
    LowerKeepsWhole(p.segs);
    LowerUnsplit(p.segs);
    SplitUnsplit(LowerAll(p.segs));
    EndOfUnsplit(LowerAll(p.segs));
    assert Render(p) == Unsplit(p.segs);
  }

  lemma {:induction false} ReducedHasNoDot(rooted: bool, segs: seq<string>)
    ensures "." !in Reduce(rooted, segs)
  {
    if segs != [] {
      ReducedHasNoDot(rooted, segs[..|segs| - 1]);
    }
  }

  lemma FirstOfUnsplit(segs: seq<string>)
    requires segs != [] && segs[0] != ""
    ensures Unsplit(segs) != "" && Unsplit(segs)[0] == segs[0][0]
  {
  }

  lemma ConsPrefix(x: string, a: seq<string>, b: seq<string>)
    ensures [x] + b <= [x] + a <==> b <= a
  {
    if [x] + b <= [x] + a {
      assert ([x] + a)[..|[x] + b|] == [x] + b;
      assert a[..|b|] == ([x] + a)[1..|b| + 1] == b;
    }
  }

  // The allow-list check.

  function Slashed(s: string): (r: string)
    ensures |r| == |s| && forall i | 0 <= i < |s| :: r[i] == if s[i] == '\\' then '/' else s[i]
  {
    seq(|s|, i requires 0 <= i < |s| => if s[i] == '\\' then '/' else s[i])
  }

  /** `strings.ReplaceAll(s, "//", "/")`: one pass over non-overlapping pairs. */
  function Collapse(s: string): string {
    if |s| >= 2 && s[0] == '/' && s[1] == '/' then "/" + Collapse(s[2..])
    else if s == "" then ""
    else [s[0]] + Collapse(s[1..])
  }

  predicate DoubledAt(s: string, i: nat) { i + 1 < |s| && s[i] == '/' && s[i + 1] == '/' }

  predicate Doubled(s: string) { exists i: nat | i < |s| :: DoubledAt(s, i) }

  /** Every run of slashes squeezed into one. */
  function Squeeze(s: string): string {
    if s == "" then ""
    else if |s| >= 2 && s[0] == '/' && s[1] == '/' then Squeeze(s[1..])
    else [s[0]] + Squeeze(s[1..])
  }

  lemma {:induction false} CollapseSqueezes(s: string)
    ensures Squeeze(Collapse(s)) == Squeeze(s)
    ensures |Collapse(s)| <= |s| && (Doubled(s) ==> |Collapse(s)| < |s|)
    ensures s != "" ==> Collapse(s) != "" && Collapse(s)[0] == s[0]
    ensures !Doubled(s) ==> Squeeze(s) == s
  {
    if |s| >= 2 && s[0] == '/' && s[1] == '/' {
      CollapseSqueezes(s[2..]);
      assert DoubledAt(s, 0);
      var t := Collapse(s[2..]);
      assert ("/" + t)[1..] == t;
      if s[2..] != "" {
        assert s[1..][1..] == s[2..];
        if s[2] == '/' {
          assert Squeeze(s[1..]) == Squeeze(s[2..]);
        } else {
          assert Squeeze(s[1..]) == ['/'] + Squeeze(s[2..]);
        }
      }
    } else if s != "" {
      CollapseSqueezes(s[1..]);
      var t := Collapse(s[1..]);
      assert ([s[0]] + t)[1..] == t;
      if i: nat :| i < |s| && DoubledAt(s, i) {
        assert DoubledAt(s[1..], i - 1);
      } else {
        forall i: nat | i < |s[1..]|
          ensures !DoubledAt(s[1..], i)
        {
          assert !DoubledAt(s, i + 1);
        }
        assert s == [s[0]] + s[1..];
      }
      if |s| == 1 {
        assert t == "";
      }
    }
  }

  function TrimSlashes(s: string): string {
    if s != "" && s[|s| - 1] == '/' then TrimSlashes(s[..|s| - 1]) else s
  }

  function CanonicalOf(input: string): string {
    var s := Squeeze(Slashed(TrimSpace(input)));
    if |s| > 1 then TrimSlashes(s) else s
  }

  /** The collapse loop ends, because each pass shortens the text, and squeezes every run of slashes. */
  method CanonicalPath(input: string) returns (normalized: string)
    ensures normalized == CanonicalOf(input)
  {
    normalized := Slashed(TrimSpace(input));
    while Doubled(normalized)
      invariant Squeeze(normalized) == Squeeze(Slashed(TrimSpace(input)))
      decreases |normalized|
    {
      CollapseSqueezes(normalized);
      normalized := Collapse(normalized);
    }
    CollapseSqueezes(normalized);
    if |normalized| > 1 {
      normalized := TrimSlashes(normalized);
    }
  }

  lemma {:induction false} SqueezeLeavesNoDouble(s: string)
    ensures !Doubled(Squeeze(s))
    ensures s != "" ==> Squeeze(s) != "" && Squeeze(s)[0] == s[0]
  {
    if s != "" {
      SqueezeLeavesNoDouble(s[1..]);
      if !(|s| >= 2 && s[0] == '/' && s[1] == '/') {
        var t := Squeeze(s[1..]);
        assert Squeeze(s) == [s[0]] + t;
        forall i: nat | i < |[s[0]] + t|
          ensures !DoubledAt([s[0]] + t, i)
        {
          if i > 0 && i - 1 < |t| {
            assert !DoubledAt(t, i - 1);
          }
        }
      }
    }
  }

  predicate IsWithinAllowedRoot(root: string, resolved: string, caseInsensitive: bool) {
    var r, p := CanonicalOf(root), CanonicalOf(resolved);
    var r', p' := if caseInsensitive then ToLower(r) else r, if caseInsensitive then ToLower(p) else p;
    p' == r' || r' + "/" <= p'
  }

  /** The pieces the allow-list check compares. */
  function Pieces(s: string, caseInsensitive: bool): seq<string> {
    Split(if caseInsensitive then ToLower(CanonicalOf(s)) else CanonicalOf(s), '/')
  }

  /** The allow-list check is the prefix relation on pieces, hence reflexive and transitive. */
  lemma AllowedIsPiecePrefix(root: string, resolved: string, ci: bool)
    ensures IsWithinAllowedRoot(root, resolved, ci) <==> Pieces(root, ci) <= Pieces(resolved, ci)
  {
    var r, p := CanonicalOf(root), CanonicalOf(resolved);
    BoundaryPrefix(if ci then ToLower(p) else p, if ci then ToLower(r) else r);
  }

  lemma AllowedIsPreorder(a: string, b: string, c: string, ci: bool)
    ensures IsWithinAllowedRoot(a, a, ci)
    ensures IsWithinAllowedRoot(a, b, ci) && IsWithinAllowedRoot(b, c, ci) ==> IsWithinAllowedRoot(a, c, ci)
  {
    AllowedIsPiecePrefix(a, b, ci);
    AllowedIsPiecePrefix(b, c, ci);
    AllowedIsPiecePrefix(a, c, ci);
    var x, y, z := Pieces(a, ci), Pieces(b, ci), Pieces(c, ci);
    if x <= y && y <= z {
      assert z[..|x|] == y[..|x|] == x;
    }
  }

  /** No canonical path has a doubled slash. */
  lemma CanonicalIsSqueezed(input: string)
    ensures !Doubled(CanonicalOf(input))
  {
    var s := Squeeze(Slashed(TrimSpace(input)));
    SqueezeLeavesNoDouble(Slashed(TrimSpace(input)));
    TrimmedIsPrefix(s);
    forall i: nat | i < |CanonicalOf(input)|
      ensures !DoubledAt(CanonicalOf(input), i)
    {
      assert !DoubledAt(s, i);
    }
  }

  lemma OnlySlashLowersToSlash(p: string)
    ensures ToLower(p) == "/" <==> p == "/"
    ensures "//" <= ToLower(p) <==> "//" <= p
  {
    if |p| == 1 {
      assert p == [p[0]];
    }
    if |p| >= 2 {
      assert LowerChar(p[0]) == '/' <==> p[0] == '/';
      assert LowerChar(p[1]) == '/' <==> p[1] == '/';
    }
  }

  lemma SlashBoundary(p: string)
    requires !Doubled(p)
    ensures p == "/" || "/" + "/" <= p <==> p == "/"
  {
    assert "/" + "/" == "//";
    if "//" <= p {
      assert DoubledAt(p, 0);
    }
  }

  /** Nothing but the file-system root itself is ever inside an allowed root that comes down to "/". */
  lemma SlashAllowsOnlyItself(root: string, resolved: string, ci: bool)
    requires CanonicalOf(root) == "/"
    ensures IsWithinAllowedRoot(root, resolved, ci) <==> CanonicalOf(resolved) == "/"
  {
    var p := CanonicalOf(resolved);
    CanonicalIsSqueezed(resolved);
    SlashBoundary(p);
    OnlySlashLowersToSlash(p);
    assert "/" + "/" == "//" && ToLower("/") == "/";
  }

  lemma {:induction false} TrimmedIsPrefix(s: string)
    ensures TrimSlashes(s) <= s
  {
    if s != "" && s[|s| - 1] == '/' {
      TrimmedIsPrefix(s[..|s| - 1]);
    }
  }

  /** An absolute path that both checks take as it is. */
  predicate Settled(p: string) {
    Clean(p).rooted && CanonicalOf(p) == p == Render(Clean(p))
  }

  lemma BelowSlashAgree(p: string, r: string)
    requires Settled(p) && Settled(r) && Clean(p).segs != [] && Clean(r).segs != []
    ensures IsWithinAllowedRoot(r, p, true) <==> WithinRoot(p, r)
  {
    BoundaryPrefix(ToLower(p), ToLower(r));
    SplitPieces(r, '/');
    ReducedAreWhole(true, Split(r, '/'));
    RenderedPieces(Clean(r));
  }

  lemma NothingAboveSlash(r: string)
    requires Settled(r) && Clean(r).segs != []
    ensures r != "/" && !IsWithinAllowedRoot(r, "/", true) && !WithinRoot("/", r)
  {
    SplitPieces(r, '/');
    ReducedAreWhole(true, Split(r, '/'));
    RenderedPieces(Clean(r));
    assert Split("/", '/') == ["", ""] by { SplitJoin("", "", '/'); }
    assert Clean("/").segs == [] && CanonicalOf("/") == "/" by {
      assert TrimLeft("/") == "/" && TrimRight("/") == "/" && Slashed("/") == "/" && Squeeze("/") == "/";
    }
  }

  /** On absolute canonical paths the two checks agree on everything except what lies below an allowed root of "/". */
  lemma ChecksAgree(p: string, r: string)
    requires Settled(p) && Settled(r)
    ensures (IsWithinAllowedRoot(r, p, true) <==> WithinRoot(p, r)) <==> !(r == "/" && p != "/")
  {
    WithinRootIsSegmentPrefix(p, r);
    if Clean(r).segs == [] {
      SlashAllowsOnlyItself(r, p, true);
    } else if Clean(p).segs == [] {
      NothingAboveSlash(r);
    } else {
      BelowSlashAgree(p, r);
      SplitPieces(r, '/');
      ReducedAreWhole(true, Split(r, '/'));
      RenderedPieces(Clean(r));
    }
  }
}
