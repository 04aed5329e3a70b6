/**
 * The lexical path operations of Go's `path/filepath` with '/' as the separator.  A file is named by
 * its cleaned path: `Clean` resolves empty, "." and ".." elements, and `Join` cleans its result.
 */
module Paths {
  import opened Text

  datatype CleanPath = CleanPath(rooted: bool, segs: seq<string>)

  /** A file-name element: one path segment that cleaning leaves alone. */
  predicate Plain(name: string) {
    name != "" && name != "." && name != ".." && '/' !in name
  }

  /** What cleaning does with the next element of a path. */
  function Push(rooted: bool, acc: seq<string>, seg: string): seq<string> {
    if seg == "" || seg == "." then acc
    else if seg == ".." then
      if acc != [] && acc[|acc| - 1] != ".." then acc[..|acc| - 1]
      else if rooted then acc
      else acc + [".."]
    else acc + [seg]
  }

  function Reduce(rooted: bool, segs: seq<string>): seq<string> {
    if segs == [] then []
    else Push(rooted, Reduce(rooted, segs[..|segs| - 1]), segs[|segs| - 1])
  }

  function Clean(s: string): CleanPath {
    var rooted := s != "" && s[0] == '/';
    CleanPath(rooted, Reduce(rooted, Split(s, '/')))
  }

  function Join(dir: string, name: string): CleanPath {
    Clean(if dir == "" then name else dir + "/" + name)
  }

  /** The text up to and including the last separator; `filepath.Dir` is the cleaning of it. */
  function DirPrefix(s: string): (d: string)
    ensures d <= s
  {
    if s == "" || s[|s| - 1] == '/' then s else DirPrefix(s[..|s| - 1])
  }

  /** The final element of a path, as text. */
  function LastElement(s: string): string {
    var parts := Split(s, '/');
    parts[|parts| - 1]
  }

  /** Joining a plain name appends exactly that segment to the cleaned directory. */
  lemma JoinAppends(dir: string, name: string)
    requires Plain(name)
    ensures Join(dir, name) == CleanPath(Clean(dir).rooted, Clean(dir).segs + [name])
  {
    SplitPlain(name, '/');
    if dir == "" {
      assert Split(dir, '/') == [""];
      assert Reduce(false, [""]) == [];
      assert Reduce(false, [name]) == Push(false, Reduce(false, []), name);
    } else {
      SplitJoin(dir, name, '/');
      assert dir + "/" + name == dir + ['/'] + name;
      var all := Split(dir, '/') + [name];
      assert all[..|all| - 1] == Split(dir, '/');
    }
  }

  /** Two joins name the same file exactly when the directories clean alike and the names are equal. */
  lemma JoinInjective(d1: string, n1: string, d2: string, n2: string)
    requires Plain(n1) && Plain(n2)
    ensures Join(d1, n1) == Join(d2, n2) <==> Clean(d1) == Clean(d2) && n1 == n2
  {
    JoinAppends(d1, n1);
    JoinAppends(d2, n2);
    var s1, s2 := Clean(d1).segs + [n1], Clean(d2).segs + [n2];
    if s1 == s2 {
      assert s1[..|s1| - 1] == Clean(d1).segs && s2[..|s2| - 1] == Clean(d2).segs;
      assert s1[|s1| - 1] == n1 && s2[|s2| - 1] == n2;
    }
  }

  /** A suffix without a separator changes only the file name, when there is one. */
  lemma SuffixRenames(s: string, suffix: string)
    requires Plain(LastElement(s)) && suffix != "" && '/' !in suffix
    requires Plain(LastElement(s) + suffix)
    ensures exists dir: seq<string> ::
      && Clean(s) == CleanPath(Clean(s).rooted, dir + [LastElement(s)])
      && Clean(s + suffix) == CleanPath(Clean(s).rooted, dir + [LastElement(s) + suffix])
  {
    SplitExtend(s, suffix, '/');
    var parts := Split(s, '/');
    var parts' := Split(s + suffix, '/');
    assert s == "" ==> parts == [""];
    var rooted := Clean(s).rooted;
    assert (s + suffix)[0] == s[0];
    assert parts'[..|parts'| - 1] == parts[..|parts| - 1];
    var dir := Reduce(rooted, parts[..|parts| - 1]);
    assert Clean(s).segs == dir + [LastElement(s)];
    assert Clean(s + suffix).segs == dir + [LastElement(s) + suffix];
  }
}
