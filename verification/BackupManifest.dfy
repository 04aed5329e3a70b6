/** The generator that walks the managed roots and keeps the manifest's running aggregates. */
module BackupManifest {
  import opened Text
  import opened BackupClassify
  import opened BackupWalk
  import opened BackupCensus

  const DEFAULT_MAX_DEPTH: nat := 64

  const PATH_CLASSES: set<string> := {
    "managed/onedrive-business", "managed/sharepoint", "managed/unc-corp", "managed/it-folder", "mdm-gpo-root"}

  predicate IsRefChar(c: char) {
    'a' <= c <= 'z' || 'A' <= c <= 'Z' || '0' <= c <= '9' || c == '.' || c == '_' || c == '-'
  }

  /** The opaque reference shape: a fixed prefix and a non-empty token without separators, colons or blanks. */
  predicate ValidRootRef(s: string) {
    "managed_root:" <= s && |s| > 13 && forall i | 13 <= i < |s| :: IsRefChar(s[i])
  }

  predicate Admitted(root: Root) {
    ValidRootRef(root.rootRef) && root.pathClass in PATH_CLASSES
  }

  datatype Error = NoCanonicalizer | NoManagedRoots

  datatype Manifest = Manifest(
    rootRefs: seq<string>,
    entries: seq<Entry>,
    eligibleCount: nat,
    eligibleBytes: nat,
    deniedCount: nat,
    deniedClasses: seq<Class>,
    containerCount: nat,
    unresolvedCount: nat)

  datatype Result = Ok(manifest: Manifest) | Err(error: Error)

  /** The matcher files archives, and only archives, under the archive class or with the archive mark. */
  ghost predicate WellClassed(env: Env) {
    forall p, n ::
      env.classify(p, n).Denied? && env.classify(p, n).kind == ArchiveContainer ==> env.classify(p, n).archive
  }

  // What the manifest should list.

  function EntriesOf(hits: seq<Hit>): (r: seq<Entry>)
    ensures |r| == |hits| && forall k | 0 <= k < |hits| :: r[k] == hits[k].entry
  {
    seq(|hits|, k requires 0 <= k < |hits| => hits[k].entry)
  }

  function TotalSize(entries: seq<Entry>): nat {
    if entries == [] then 0 else TotalSize(entries[..|entries| - 1]) + entries[|entries| - 1].size
  }

  /** What the generator makes of a requested root. */
  function LookAtRoot(env: Env, root: Root): Sight {
    if !Admitted(root) then Lost
    else
      match env.canonicalize(root.localPath)
      case Unresolvable => Lost
      case Resolved(canon, isReparse, hasAds) =>
        if hasAds || isReparse then Lost
        else
          match env.classify(canon, env.base(canon))
          case Denied(kind, archive) => Refused(kind, archive)
          case Clear => Directory(canon)
  }

  function RootEntries(env: Env, root: Root): seq<Entry> {
    match LookAtRoot(env, root)
    case Directory(canon) => EntriesOf(Collect(env, root, canon, canon, 0))
    case _ => []
  }

  function AllEntries(env: Env, roots: seq<Root>): seq<Entry> {
    if roots == [] then [] else AllEntries(env, roots[..|roots| - 1]) + RootEntries(env, roots[|roots| - 1])
  }

  function AdmittedRefs(roots: seq<Root>): seq<string> {
    if roots == [] then []
    else
      var last := roots[|roots| - 1];
      AdmittedRefs(roots[..|roots| - 1]) + if Admitted(last) then [last.rootRef] else []
  }

  function SurveyRoot(env: Env, root: Root): Census {
    var sight := LookAtRoot(env, root);
    if sight.Directory? then Survey(env, sight.path, sight.path, 0) else Census(0, 0, CountOf(sight))
  }

  function SurveyRoots(env: Env, roots: seq<Root>): Census {
    if roots == [] then Census(0, 0, NOTHING)
    else SurveyRoots(env, roots[..|roots| - 1]).Plus(SurveyRoot(env, roots[|roots| - 1]))
  }

  /** Nothing is lost: requested roots and child names listed are entries, denied, unresolved or directories listed. */
  lemma {:induction false} RootsConserve(env: Env, roots: seq<Root>)
    ensures var c := SurveyRoots(env, roots);
            |roots| + c.names == |AllEntries(env, roots)| + c.counts.denied + c.counts.unresolved + c.directories
  {
    if roots != [] {
      var last := roots[|roots| - 1];
      RootsConserve(env, roots[..|roots| - 1]);
      if LookAtRoot(env, last).Directory? {
        var canon := LookAtRoot(env, last).path;
        WalkConserves(env, last, canon, canon, 0);
      }
    }
  }

  // Sorting the class names.

  predicate ByName(a: Class, b: Class) {
    StringLess(a.Name(), b.Name())
  }

  ghost predicate TotalOrder<T(!new)>(less: (T, T) -> bool) {
    && (forall a, b :: less(a, b) || less(b, a) || a == b)
    && (forall a, b, c :: less(a, b) && less(b, c) ==> less(a, c))
    && (forall a :: !less(a, a))
  }

  predicate SortedBy<T>(less: (T, T) -> bool, s: seq<T>) {
    forall i, j | 0 <= i < j < |s| :: less(s[i], s[j])
  }

  lemma NamesDiffer(a: Class, b: Class)
    ensures a.Name() == b.Name() ==> a == b
  {
    if a.Name() == b.Name() {
      assert a.Name()[0] == b.Name()[0] && a.Name()[1] == b.Name()[1] && |a.Name()| == |b.Name()|;
    }
  }

  lemma NamesAreTotallyOrdered()
    ensures TotalOrder(ByName)
  {
    forall a: Class, b: Class
      ensures ByName(a, b) || ByName(b, a) || a == b
      ensures !ByName(a, a)
    {
      StringCompareFlip(a.Name(), a.Name());
      StringCompareFlip(a.Name(), b.Name());
      NamesDiffer(a, b);
    }
    forall a: Class, b: Class, c: Class | ByName(a, b) && ByName(b, c)
      ensures ByName(a, c)
    {
      StringCompareTransitive(a.Name(), b.Name(), c.Name());
    }
  }

  /** The element that comes before all others. */
  method First<T(==,!new)>(less: (T, T) -> bool, rest: set<T>) returns (first: T)
    requires rest != {} && TotalOrder(less)
    ensures first in rest && forall c | c in rest && c != first :: less(first, c)
  {
    first :| first in rest;
    var todo := rest - {first};
    while todo != {}
      invariant todo <= rest && first in rest && first !in todo
      invariant forall c | c in rest - todo && c != first :: less(first, c)
      decreases |todo|
    {
      var c :| c in todo;
      todo := todo - {c};
      var winner := if less(c, first) then c else first;
      forall d | d in rest - todo && d != winner
        ensures less(winner, d)
      {
        assert less(c, first) || less(first, c);
        assert d == c || d == first || less(first, d);
      }
      first := winner;
    }
  }

  method SortedKeys<T(==,!new)>(less: (T, T) -> bool, all: set<T>) returns (keys: seq<T>)
    requires TotalOrder(less)
    ensures SortedBy(less, keys) && (forall c :: c in keys <==> c in all)
  {
    keys := [];
    var rest := all;
    while rest != {}
      invariant rest <= all && SortedBy(less, keys)
      invariant forall c :: c in keys <==> c in all && c !in rest
      invariant forall i, c | 0 <= i < |keys| && c in rest :: less(keys[i], c)
      decreases |rest|
    {
      var first := First(less, rest);
      keys, rest := keys + [first], rest - {first};
    }
  }

  lemma ChildThenRest(env: Env, root: Root, rootCanon: string, dir: string, depth: nat, names: seq<string>, i: nat,
                      before: seq<Entry>, sum: Counts)
    requires depth <= env.maxDepth && i < |names|
    ensures before + EntriesOf(CollectFrom(env, root, rootCanon, dir, depth, names, i))
         == before + EntriesOf(CollectChild(env, root, rootCanon, dir, depth, names, i))
            + EntriesOf(CollectFrom(env, root, rootCanon, dir, depth, names, i + 1))
    ensures sum.Plus(SurveyFrom(env, rootCanon, dir, depth, names, i).counts)
         == sum.Plus(SurveyChild(env, rootCanon, dir, depth, names[i]).counts)
               .Plus(SurveyFrom(env, rootCanon, dir, depth, names, i + 1).counts)
  {
    var here := CollectChild(env, root, rootCanon, dir, depth, names, i);
    var rest := CollectFrom(env, root, rootCanon, dir, depth, names, i + 1);
    assert EntriesOf(here + rest) == EntriesOf(here) + EntriesOf(rest);
    PlusAssociates(sum, SurveyChild(env, rootCanon, dir, depth, names[i]).counts,
                   SurveyFrom(env, rootCanon, dir, depth, names, i + 1).counts);
  }

  lemma NothingToCome(env: Env, root: Root, rootCanon: string, dir: string, depth: nat, names: seq<string>,
                      all: seq<Entry>, sum: Counts)
    requires depth <= env.maxDepth && env.list(dir) == Some(names)
    ensures all + EntriesOf(CollectFrom(env, root, rootCanon, dir, depth, names, |names|)) == all
    ensures sum.Plus(SurveyFrom(env, rootCanon, dir, depth, names, |names|).counts) == sum
    ensures Survey(env, rootCanon, dir, depth).counts == SurveyFrom(env, rootCanon, dir, depth, names, 0).counts
  {
    PlusAssociates(sum, NOTHING, NOTHING);
    PlusAssociates(SurveyFrom(env, rootCanon, dir, depth, names, 0).counts, NOTHING, NOTHING);
    assert EntriesOf([]) == [];
  }

  lemma PlusAssociates(a: Counts, b: Counts, c: Counts)
    ensures a.Plus(b.Plus(c)) == a.Plus(b).Plus(c)
    ensures a.Plus(NOTHING) == a == NOTHING.Plus(a)
  {
  }

  class Generator {
    const env: Env
    var entries: seq<Entry>
    var eligibleCount: nat
    var eligibleBytes: nat
    var deniedCount: nat
    var containerCount: nat
    var unresolvedCount: nat
    var deniedSet: set<Class>

    constructor (env: Env)
      ensures this.env == env && Valid() && entries == [] && Totals() == NOTHING
    {
      this.env := env;
      entries, eligibleCount, eligibleBytes := [], 0, 0;
      deniedCount, containerCount, unresolvedCount, deniedSet := 0, 0, 0, {};
    }

    ghost predicate Valid()
      reads this
    {
      && eligibleCount == |entries| && eligibleBytes == TotalSize(entries)
      && containerCount <= deniedCount
      && (ArchiveContainer in deniedSet <==> containerCount > 0)
      && (deniedSet == {} <==> deniedCount == 0)
    }

    function Totals(): Counts
      reads this
    {
      Counts(deniedCount, containerCount, unresolvedCount, deniedSet)
    }

    method RecordDenied(kind: Class, archive: bool)
      requires Valid() && (kind == ArchiveContainer ==> archive)
      modifies this
      ensures Valid() && entries == old(entries) && Totals() == old(Totals()).Plus(Denying(kind, archive))
    {
      deniedCount, deniedSet := deniedCount + 1, deniedSet + {kind};
      if archive {
        containerCount, deniedSet := containerCount + 1, deniedSet + {ArchiveContainer};
      }
    }

    method GiveUp()
      requires Valid()
      modifies this
      ensures Valid() && entries == old(entries) && Totals() == old(Totals()).Plus(LOST)
    {
      unresolvedCount := unresolvedCount + 1;
    }

    method Emit(entry: Entry)
      requires Valid()
      modifies this
      ensures Valid() && entries == old(entries) + [entry] && Totals() == old(Totals())
    {
      assert (entries + [entry])[..|entries|] == entries;
      entries := entries + [entry];
      eligibleCount, eligibleBytes := eligibleCount + 1, eligibleBytes + entry.size;
    }

    /** Walk one directory: its files join the entries, and what it counts joins the totals, exactly as specified. */
    method Walk(root: Root, rootCanon: string, dir: string, depth: nat)
      requires Valid() && WellClassed(env)
      modifies this
      ensures Valid() && Totals() == old(Totals()).Plus(Survey(env, rootCanon, dir, depth).counts)
      ensures entries == old(entries) + EntriesOf(Collect(env, root, rootCanon, dir, depth))
      decreases env.maxDepth + 1 - depth, 2
    {
      if depth > env.maxDepth || env.list(dir).None? {
        GiveUp();
        return;
      }
      var names := env.list(dir).value;
      ghost var goal := ToCome(root, rootCanon, dir, depth, names, 0);
      for i := 0 to |names|
        invariant Valid() && ToCome(root, rootCanon, dir, depth, names, i) == goal
      {
        WalkNext(root, rootCanon, dir, depth, names, i);
      }
      NothingToCome(env, root, rootCanon, dir, depth, names, entries, Totals());
    }

    /** Where entries and totals will be once the names from the i-th on are walked. */
    ghost function ToCome(root: Root, rootCanon: string, dir: string, depth: nat, names: seq<string>,
                          i: nat): (seq<Entry>, Counts)
      requires depth <= env.maxDepth && i <= |names|
      reads this
    {
      (entries + EntriesOf(CollectFrom(env, root, rootCanon, dir, depth, names, i)),
       Totals().Plus(SurveyFrom(env, rootCanon, dir, depth, names, i).counts))
    }

    method WalkNext(root: Root, rootCanon: string, dir: string, depth: nat, names: seq<string>, i: nat)
      requires Valid() && WellClassed(env) && depth <= env.maxDepth && i < |names|
      modifies this
      ensures Valid()
      ensures ToCome(root, rootCanon, dir, depth, names, i + 1) == old(ToCome(root, rootCanon, dir, depth, names, i))
      decreases env.maxDepth + 1 - depth, 1
    {
      ChildThenRest(env, root, rootCanon, dir, depth, names, i, entries, Totals());
      WalkChild(root, rootCanon, dir, depth, names, i);
    }

    /** Canonicalize, contain, deny, and only then descend or emit. */
    method WalkChild(root: Root, rootCanon: string, dir: string, depth: nat, names: seq<string>, i: nat)
      requires Valid() && WellClassed(env) && depth <= env.maxDepth && i < |names|
      modifies this
      ensures Valid() && Totals() == old(Totals()).Plus(SurveyChild(env, rootCanon, dir, depth, names[i]).counts)
      ensures entries == old(entries) + EntriesOf(CollectChild(env, root, rootCanon, dir, depth, names, i))
      decreases env.maxDepth + 1 - depth, 0
    {
      var name := names[i];
      ghost var spec := CollectChild(env, root, rootCanon, dir, depth, names, i);
      var canon := env.canonicalize(env.join(dir, name));
      if canon.Unresolvable? || canon.hasAds || ':' in name || !env.within(canon.path, rootCanon)
         || env.stat(canon.path).None? {
        GiveUp();
        assert EntriesOf(spec) == [];
        return;
      }
      var info := env.stat(canon.path).value;
      var denial := env.classify(canon.path, name);
      if denial.Denied? {
        RecordDenied(denial.kind, denial.archive);
        assert EntriesOf(spec) == [];
      } else if info.isDir {
        if canon.isReparse {
          GiveUp();
          assert EntriesOf(spec) == [];
        } else {
          Walk(root, rootCanon, canon.path, depth + 1);
          assert EntriesOf(spec) == EntriesOf(Collect(env, root, rootCanon, canon.path, depth + 1));
        }
      } else {
        Emit(MakeEntry(env, root, depth, name, info));
        assert EntriesOf(spec) == [MakeEntry(env, root, depth, name, info)];
        PlusAssociates(Totals(), NOTHING, NOTHING);
      }
    }

    method WalkRoot(root: Root) returns (echoed: bool)
      requires Valid() && WellClassed(env)
      modifies this
      ensures Valid() && Totals() == old(Totals()).Plus(SurveyRoot(env, root).counts)
      ensures entries == old(entries) + RootEntries(env, root) && echoed == Admitted(root)
    {
      echoed := Admitted(root);
      if !echoed {
        GiveUp();
        return;
      }
      var canon := env.canonicalize(root.localPath);
      if canon.Unresolvable? || canon.hasAds || canon.isReparse {
        GiveUp();
        return;
      }
      var denial := env.classify(canon.path, env.base(canon.path));
      if denial.Denied? {
        RecordDenied(denial.kind, denial.archive);
      } else {
        Walk(root, canon.path, canon.path, 0);
      }
    }
  }

  /** The counts of a manifest agree with its entries and its class list. */
  ghost predicate Coherent(m: Manifest) {
    && m.eligibleCount == |m.entries| && m.eligibleBytes == TotalSize(m.entries)
    && m.containerCount <= m.deniedCount
    && (ArchiveContainer in m.deniedClasses <==> m.containerCount > 0)
    && SortedBy(ByName, m.deniedClasses) && (m.deniedClasses == [] <==> m.deniedCount == 0)
  }

  ghost predicate CountedAs(m: Manifest, c: Counts) {
    && m.deniedCount == c.denied && m.containerCount == c.containers && m.unresolvedCount == c.unresolved
    && forall k :: k in m.deniedClasses <==> k in c.classes
  }

  /**
   * `Generate`.  Entries, counts and classes are exactly the specified ones, the manifest is coherent, and nothing is
   * lost: requested roots plus child names listed equal entries plus denied plus unresolved plus directories listed.
   */
  method Generate(env: Env, hasCanonicalizer: bool, maxDepth: int, roots: seq<Root>) returns (r: Result)
    requires WellClassed(env)
    ensures r == Err(NoCanonicalizer) <==> !hasCanonicalizer
    ensures r == Err(NoManagedRoots) <==> hasCanonicalizer && roots == []
    ensures r.Ok? ==>
              r.manifest.entries == AllEntries(WithDepth(env, maxDepth), roots)
              && r.manifest.rootRefs == AdmittedRefs(roots)
    ensures r.Ok? ==> Coherent(r.manifest)
    ensures r.Ok? ==> CountedAs(r.manifest, SurveyRoots(WithDepth(env, maxDepth), roots).counts)
    ensures r.Ok? ==>
              var c := SurveyRoots(WithDepth(env, maxDepth), roots);
              |roots| + c.names
              == |r.manifest.entries| + r.manifest.deniedCount + r.manifest.unresolvedCount + c.directories
  {
    if !hasCanonicalizer {
      return Err(NoCanonicalizer);
    }
    if roots == [] {
      return Err(NoManagedRoots);
    }
    var env' := WithDepth(env, maxDepth);
    var g := new Generator(env');
    var refs: seq<string> := [];
    for i := 0 to |roots|
      invariant g.Valid() && g.env == env' && fresh(g) && g.Totals() == SurveyRoots(env', roots[..i]).counts
      invariant g.entries == AllEntries(env', roots[..i]) && refs == AdmittedRefs(roots[..i])
    {
      var echoed := g.WalkRoot(roots[i]);
      if echoed {
        refs := refs + [roots[i].rootRef];
      }
      assert roots[..i + 1][..i] == roots[..i];
    }
    assert roots[..|roots|] == roots;
    NamesAreTotallyOrdered();
    var classes := SortedKeys(ByName, g.deniedSet);
    assert classes != [] ==> classes[0] in classes;
    RootsConserve(env', roots);
    r := Ok(
      Manifest(refs, g.entries, g.eligibleCount, g.eligibleBytes, g.deniedCount, classes,
               g.containerCount, g.unresolvedCount));
  }

  function WithDepth(env: Env, maxDepth: int): Env {
    env.(maxDepth := if maxDepth <= 0 then DEFAULT_MAX_DEPTH else maxDepth)
  }

  /** Nothing path-shaped is echoed: every entry carries a validated root reference and a known path class. */
  lemma {:induction false} EntriesArePathFree(env: Env, roots: seq<Root>)
    ensures forall e | e in AllEntries(env, roots) :: ValidRootRef(e.rootRef) && e.pathClass in PATH_CLASSES
    ensures forall s | s in AdmittedRefs(roots) :: ValidRootRef(s)
  {
    if roots != [] {
      var last := roots[|roots| - 1];
      EntriesArePathFree(env, roots[..|roots| - 1]);
      if LookAtRoot(env, last).Directory? {
        var canon := LookAtRoot(env, last).path;
        var hits := Collect(env, last, canon, canon, 0);
        forall k | 0 <= k < |hits|
          ensures hits[k].entry.rootRef == last.rootRef && hits[k].entry.pathClass == last.pathClass
        {
          var dirs := HitIsExplained(env, last, canon, canon, 0, k);
        }
      }
    }
  }
}
