/** One concrete deployment on which a plan is eligible and its helper can be prepared. */
module PendingExample {
  import opened Text
  import opened Paths
  import opened ActivationPlan
  import opened SemVer
  import opened PendingPlans
  import opened PendingSweep

  /** A release d.0.0. */
  function Release(d: char): string { [d] + ['.'] + (['0'] + ['.'] + ['0']) }

  lemma ReleasePieces(d: char)
    requires IsDigit(d)
    ensures Split(Release(d), '.') == [[d], ['0'], ['0']]
  {
    SplitPlain([d], '.');
    SplitPlain(['0'], '.');
    SplitJoin(['0'], ['0'], '.');
    SplitJoin([d], ['0'] + ['.'] + ['0'], '.');
  }

  lemma OneDigit(d: char)
    requires IsDigit(d)
    ensures ValidNumericCore([d]) && Value([d]) == Digit(d)
  {
    assert [d][..0] == [];
    assert Value([]) == 0;
  }

  lemma ReleaseCore(s: string, d: char)
    requires IsDigit(d) && Split(s, '.') == [[d], ['0'], ['0']]
    ensures ParseCore(s, [], "") == Some(Version(Digit(d), 0, 0, [], ""))
  {
    OneDigit(d);
    OneDigit('0');
  }

  lemma NoTag(s: string, v: Version)
    requires s != "" && !IsSpace(s[0]) && !IsSpace(s[|s| - 1]) && s[0] != 'v' && s[0] != 'V' && '-' !in s && '+' !in s
    requires ParseCore(s, [], "") == Some(v)
    ensures ParseVersion(s) == Some(v)
  {
    assert TrimLeft(s) == s && TrimRight(s) == s;
    assert IndexOf(s, '+') < 0 && IndexOf(s, '-') < 0;
    assert ParsePrerelease(s, "") == Some(v);
  }

  lemma ReleaseParses(d: char)
    requires IsDigit(d)
    ensures ParseVersion(Release(d)) == Some(Version(Digit(d), 0, 0, [], ""))
  {
    ReleasePieces(d);
    ReleaseCore(Release(d), d);
    NoTag(Release(d), Version(Digit(d), 0, 0, [], ""));
  }

  // The paths.

  /** Text that trimming leaves alone. */
  predicate Trimmed(s: string) {
    s != "" && !IsSpace(s[0]) && !IsSpace(s[|s| - 1])
  }

  lemma TrimmedStays(s: string)
    requires Trimmed(s)
    ensures TrimSpace(s) == s
  {
  }

  lemma {:induction false} DirOf(dir: string, name: string)
    requires '/' !in name
    ensures DirPrefix(dir + ['/'] + name) == dir + ['/']
  {
    var s := dir + ['/'] + name;
    if name != "" {
      assert s[..|s| - 1] == dir + ['/'] + name[..|name| - 1];
      DirOf(dir, name[..|name| - 1]);
    } else {
      assert s == dir + ['/'];
    }
  }

  const ROOT: string := ['/', 's']
  const PROGRAM: string := ['/', 'a']

  function At(name: string): string { ROOT + ['/'] + name }

  lemma Located(name: string)
    requires Plain(name)
    ensures Clean(At(name)) == Join(ROOT, name) == Join(DirPrefix(At(name)), name) == CleanPath(true, [['s'], name])
  {
    assert At(name) == ROOT + "/" + name;
    JoinAppends(ROOT, name);
    RootSplits();
    DirOf(ROOT, name);
    JoinAppends(ROOT + ['/'], name);
  }

  lemma RootSplits()
    ensures Clean(ROOT) == CleanPath(true, [['s']]) == Clean(ROOT + ['/'])
    ensures Clean(PROGRAM) == CleanPath(true, [['a']])
  {
    TopLevel(['s']);
    TopLevel(['a']);
    assert ['/'] + ['s'] == ROOT && ['/'] + ['a'] == PROGRAM;
  }

  lemma TopLevel(name: string)
    requires Plain(name)
    ensures Clean(['/'] + name) == CleanPath(true, [name]) == Clean(['/'] + name + ['/'])
  {
    var s := ['/'] + name;
    SplitPlain([], '/');
    SplitPlain(name, '/');
    SplitJoin([], name, '/');
    assert [] + ['/'] + name == s;
    SplitJoin(s, [], '/');
    assert s + ['/'] + [] == s + ['/'];
    assert Split(s, '/') == ["", name] && Split(s + ['/'], '/') == ["", name, ""];
    assert s[0] == '/' && (s + ['/'])[0] == '/';
    ReduceOne(name);
  }

  lemma ReduceOne(name: string)
    requires Plain(name)
    ensures Reduce(true, ["", name]) == [name] && Reduce(true, ["", name, ""]) == [name]
  {
    var none: seq<string> := [];
    var one: seq<string> := [""];
    assert one[..0] == none && ["", name][..1] == one && ["", name, ""][..2] == ["", name];
    assert Reduce(true, none) == none;
    assert Reduce(true, one) == none;
    assert Reduce(true, ["", name]) == [name];
  }

  // The deployment: version 1.0.0 runs from /a, a plan for 2.0.0 is staged under /s.

  function ExamplePlan(id: string, sha: string): Plan {
    Plan(1, id, id, "x", PROGRAM, At(StagedFile(id)), At(PlanFile(id)), Release('2'), sha, "x", "x")
  }

  function ExampleSearch(id: string, sha: string): Search {
    Search(ROOT, 0, Release('1'), NoStore, (b: Bytes) => sha, (b: Bytes) => Some(ExamplePlan(id, sha)))
  }

  function ExampleFiles(id: string): Files {
    map[Clean(PROGRAM) := [0], Join(ROOT, PlanFile(id)) := [1], Join(ROOT, StagedFile(id)) := [2]]
  }

  function ExampleEntry(id: string): DirEntry { DirEntry(PlanFile(id), false, Some(0)) }

  lemma EntryNamesId(id: string)
    requires ValidStagingId(id)
    ensures EntryId(PlanFile(id)) == Some(id)
  {
    var name := PlanFile(id);
    assert name == "activation-" + (id + ".json");
    assert name[11..] == id + ".json";
    assert (id + ".json")[..|id + ".json"| - 5] == id;
  }

  lemma PlanIsValid(id: string, sha: string)
    requires ValidStagingId(id) && IsSha256Hex(sha)
    ensures ValidPlan(ExamplePlan(id, sha))
  {
    NamesArePlain(id);
    Located(StagedFile(id));
    Located(PlanFile(id));
    DirOf(ROOT, StagedFile(id));
    JoinAppends(DirPrefix(At(StagedFile(id))), PlanFile(id));
    JoinAppends(DirPrefix(At(StagedFile(id))), StagedFile(id));
    RootSplits();
    TrimmedStays(PROGRAM);
    TrimmedStays("x");
    TrimmedStays(At(StagedFile(id)));
    TrimmedStays(At(PlanFile(id)));
    TrimmedStays(Release('2'));
  }

  lemma PlanLoads(id: string, sha: string)
    requires ValidStagingId(id) && IsSha256Hex(sha)
    ensures LoadPlan(ROOT, id, ExampleSearch(id, sha).decode, ExampleFiles(id)) == Ok(ExamplePlan(id, sha))
  {
    PlanIsValid(id, sha);
    NamesArePlain(id);
    Located(PlanFile(id));
    TrimmedStays(ROOT);
    assert Join(ROOT, PlanFile(id)) in ExampleFiles(id);
  }

  lemma PlanIsReady(id: string, sha: string)
    requires ValidStagingId(id) && IsSha256Hex(sha) && ToLower(TrimSpace(sha)) == sha
    ensures PlanReady(ExampleSearch(id, sha), ExampleFiles(id), ExamplePlan(id, sha))
  {
    NamesArePlain(id);
    Located(StagedFile(id));
    assert Join(ROOT, StagedFile(id)) in ExampleFiles(id) && Clean(PROGRAM) in ExampleFiles(id);
  }

  lemma NoOutcome(id: string)
    requires ValidStagingId(id)
    ensures Join(ROOT, OutcomeFile(id)) !in ExampleFiles(id) && Join(ROOT, HelperFile(id)) !in ExampleFiles(id)
    ensures Clean(PROGRAM) in ExampleFiles(id) && Clean(PROGRAM) != Join(ROOT, HelperFile(id))
  {
    NamesArePlain(id);
    NamesAreDistinct(ROOT, id);
    JoinAppends(ROOT, OutcomeFile(id));
    JoinAppends(ROOT, HelperFile(id));
    RootSplits();
    assert |[['s'], OutcomeFile(id)]| == |[['s'], HelperFile(id)]| == 2 && |[['a']]| == 1;
  }

  lemma IsUpgrade(id: string, sha: string)
    ensures Guarded(ExampleSearch(id, sha))
    ensures ParseVersion(Release('2')).Some? && Upgrade(ExampleSearch(id, sha), ParseVersion(Release('2')).value)
  {
    ReleaseParses('1');
    ReleaseParses('2');
    TrimmedStays(ROOT);
  }

  lemma ExampleIsEligible(id: string, sha: string)
    requires ValidStagingId(id) && IsSha256Hex(sha) && ToLower(TrimSpace(sha)) == sha
    ensures Test(ExampleSearch(id, sha), ExampleFiles(id))(ExampleEntry(id))
    ensures EntryId(ExampleEntry(id).name) == Some(id)
  {
    var s, files, e := ExampleSearch(id, sha), ExampleFiles(id), ExampleEntry(id);
    EntryNamesId(id);
    TrimmedStays(ROOT);
    PlanLoads(id, sha);
    assert PlanOf(s, files, e) == Some(ExamplePlan(id, sha));
    PlanIsReady(id, sha);
    NoOutcome(id);
    IsUpgrade(id, sha);
  }

  method SetUp(search: Search, files: Files, id: string) returns (s: Sweeper)
    requires ValidStagingId(id) && search.root == ROOT && search.maxBytes == 0 && files == ExampleFiles(id)
    ensures fresh(s) && s.Valid() && s.reliable && !s.faulty && s.helperPath == HelperPathIn(search.root)
    ensures s.search == search && s.executable == PROGRAM && s.files == files
    ensures s.markers == map[] && s.attempts == [] && s.starts == [] && s.clock == SECOND
    ensures s.Preparable(id, files)
  {
    NoOutcome(id);
    TrimmedStays(ROOT);
    TrimmedStays(PROGRAM);
    s := new Sweeper(search, PROGRAM, files, true, false);
  }

  /** The sweeper before the first pass, and the directory entry it will find. */
  method Deploy(id: string, sha: string) returns (s: Sweeper, e: DirEntry)
    requires ValidStagingId(id) && IsSha256Hex(sha) && ToLower(TrimSpace(sha)) == sha
    ensures fresh(s) && s.Valid() && s.reliable && !s.faulty && s.helperPath == HelperPathIn(s.search.root)
    ensures s.search.root == ROOT && s.search.currentVersion == Release('1') && s.executable == PROGRAM
    ensures s.markers == map[] && s.attempts == [] && s.starts == [] && s.clock == SECOND
    ensures s.Preparable(id, s.files) && Test(s.search, s.files)(e) && EntryId(e.name) == Some(id)
  {
    e := ExampleEntry(id);
    ExampleIsEligible(id, sha);
    s := SetUp(ExampleSearch(id, sha), ExampleFiles(id), id);
  }

  /**
   * The run itself: the first pass starts the helper, a later one, any time after the interval, refuses the same plan.
   */
  method BlockedHelper(id: string, sha: string, now: int, later: int)
    returns (s: Sweeper, e: DirEntry, first: Verdict, second: Verdict)
    requires ValidStagingId(id) && IsSha256Hex(sha) && ToLower(TrimSpace(sha)) == sha
    requires now >= SECOND && later - now >= RETRY_INTERVAL
    ensures s.search.root == ROOT && s.search.currentVersion == Release('1') && s.executable == PROGRAM && s.reliable
    ensures !s.faulty
    ensures first.HelperStarted? && second == HelperRefused && Test(s.search, s.files)(e) && EntryId(e.name) == Some(id)
    ensures s.attempts == [Attempt(id, now, now), Attempt(id, later, later)] && s.starts == [id]
  {
    s, e := Deploy(id, sha);
    ghost var before, starts := s.attempts, s.starts;
    assert before == [] && starts == [];
    first, second := RetryIsRefused(s, e, id, now, now, later);
    assert s.attempts == before + [Attempt(id, now, now)] + [Attempt(id, later, later)] && s.starts == starts + [id];
    Shorten(before, Attempt(id, now, now), Attempt(id, later, later));
  }

  lemma Shorten(before: seq<Attempt>, a: Attempt, b: Attempt)
    requires before == []
    ensures before + [a] + [b] == [a, b]
  {
  }

  /** Such an id and such a hash. */
  lemma SomeHex() returns (id: string, sha: string)
    ensures ValidStagingId(id) && IsSha256Hex(sha) && ToLower(TrimSpace(sha)) == sha
  {
    id, sha := seq(32, i => 'a'), seq(64, i => 'a');
    TrimmedStays(sha);
  }
}
