/** Finding the staged plan to retry: the newest one that still verifies and is a strict upgrade. */
module PendingPlans {
  import opened Text
  import opened Paths
  import opened ActivationPlan
  import opened SemVer

  datatype DirEntry = DirEntry(name: string, isDir: bool, modTime: Option<int>)

  datatype HighWater = NoStore | ReadFails | Mark(text: string)

  datatype Stage = Stage(id: string, targetVersion: string, sha256: string)

  datatype Search = Search(
    root: string,
    maxBytes: int,
    currentVersion: string,
    highWater: HighWater,
    hash: Bytes -> string,
    decode: Bytes -> Option<Plan>)

  /** The staging id a directory entry names, if it is named like a plan. */
  function EntryId(name: string): Option<string> {
    if !("activation-" <= name) || !HasSuffix(name, ".json") then None
    else
      var rest := name[11..];
      var id := if HasSuffix(rest, ".json") then rest[..|rest| - 5] else rest;
      if ValidStagingId(id) then Some(id) else None
  }

  /** The guards that must hold before the directory is even listed. */
  predicate Guarded(s: Search) {
    && TrimSpace(s.root) != ""
    && ParseVersion(s.currentVersion).Some?
    && !s.highWater.ReadFails?
    && (s.highWater.Mark? && TrimSpace(s.highWater.text) != "" ==> ParseVersion(TrimSpace(s.highWater.text)).Some?)
  }

  /** Strictly above the running version and, where there is one, strictly above the activated floor. */
  predicate Upgrade(s: Search, target: Version)
    requires Guarded(s)
  {
    && Compare(target, ParseVersion(s.currentVersion).value) > 0
    && (s.highWater.Mark? && TrimSpace(s.highWater.text) != "" ==>
          Compare(target, ParseVersion(TrimSpace(s.highWater.text)).value) > 0)
  }

  /** `VerifyActivationPlanReady` on an unchanging disk. */
  predicate PlanReady(s: Search, files: Files, plan: Plan) {
    var hashed := HashFile(s.maxBytes, s.hash, files, Clean(plan.stagedBinaryPath));
    Clean(plan.currentBinaryPath) in files && hashed.Ok? && SameHash(hashed.value, plan.sha256)
  }

  function PlanOf(s: Search, files: Files, e: DirEntry): Option<Plan> {
    var root := TrimSpace(s.root);
    match EntryId(e.name)
    case None => None
    case Some(id) =>
      match LoadPlan(root, id, s.decode, files)
      case Err(_) => None
      case Ok(plan) => Some(plan)
  }

  /** A plan that was written, never reached an outcome, still verifies, and is a strict upgrade. */
  predicate Eligible(s: Search, files: Files, e: DirEntry) {
    && Guarded(s)
    && !e.isDir && EntryId(e.name).Some? && e.modTime.Some?
    && Join(TrimSpace(s.root), OutcomeFile(EntryId(e.name).value)) !in files
    && PlanOf(s, files, e).Some?
    && (var plan := PlanOf(s, files, e).value;
        PlanReady(s, files, plan) && ParseVersion(plan.targetVersion).Some?
        && Upgrade(s, ParseVersion(plan.targetVersion).value))
  }

  function StageOf(s: Search, files: Files, e: DirEntry): Stage
    requires Eligible(s, files, e)
  {
    var plan := PlanOf(s, files, e).value;
    Stage(EntryId(e.name).value, plan.targetVersion, plan.sha256)
  }

  /** The entry the scan settles on: one that qualifies, and the first of those with the latest modification time. */
  predicate Newest(ok: DirEntry -> bool, entries: seq<DirEntry>, k: nat) {
    && k < |entries| && ok(entries[k]) && entries[k].modTime.Some?
    && (forall j | 0 <= j < |entries| && ok(entries[j]) ::
          entries[j].modTime.Some? && entries[j].modTime.value <= entries[k].modTime.value)
    && (forall j | 0 <= j < k && ok(entries[j]) :: entries[j].modTime.value < entries[k].modTime.value)
  }

  method Scan(ok: DirEntry -> bool, entries: seq<DirEntry>) returns (found: bool, at: nat)
    requires forall e | ok(e) :: e.modTime.Some?
    ensures found <==> exists k :: 0 <= k < |entries| && ok(entries[k])
    ensures found ==> Newest(ok, entries, at)
  {
    found, at := false, 0;
    var bestMod := 0;
    for i := 0 to |entries|
      invariant found <==> exists k :: 0 <= k < i && ok(entries[k])
      invariant found ==> at < i && ok(entries[at]) && bestMod == entries[at].modTime.value
      invariant found ==> forall j | 0 <= j < i && ok(entries[j]) :: entries[j].modTime.value <= bestMod
      invariant found ==> forall j | 0 <= j < at && ok(entries[j]) :: entries[j].modTime.value < bestMod
    {
      if ok(entries[i]) && (!found || entries[i].modTime.value > bestMod) {
        found, bestMod, at := true, entries[i].modTime.value, i;
      }
    }
  }

  function Test(s: Search, files: Files): DirEntry -> bool {
    e => Eligible(s, files, e)
  }

  method FindPendingActivation(s: Search, files: Files, listing: Option<seq<DirEntry>>) returns (best: Option<Stage>)
    ensures best.Some? <==> listing.Some? && exists k :: 0 <= k < |listing.value| && Test(s, files)(listing.value[k])
    ensures best.Some? ==>
              exists k: nat :: Newest(Test(s, files), listing.value, k)
                              && best.value == StageOf(s, files, listing.value[k])
  {
    best := None;
    if Guarded(s) && listing.Some? {
      var found, at := Scan(Test(s, files), listing.value);
      if found {
        best := Some(StageOf(s, files, listing.value[at]));
      }
    }
  }

  // Whole runs of sweeps.  An activation that is driven may fail, die or roll back; where it succeeds the plan's target
  // runs.

  datatype Sweep = Sweep(search: Search, files: Files, entries: seq<DirEntry>, picked: nat, activated: bool)

  predicate Picks(w: Sweep) {
    && Guarded(w.search) && Newest(Test(w.search, w.files), w.entries, w.picked)
    && Eligible(w.search, w.files, w.entries[w.picked])
  }

  function Current(w: Sweep): Option<Version> {
    ParseVersion(w.search.currentVersion)
  }

  function Target(w: Sweep): string
    requires Picks(w)
  {
    PlanOf(w.search, w.files, w.entries[w.picked]).value.targetVersion
  }

  predicate SweepRun(run: seq<Sweep>) {
    && (forall k | 0 <= k < |run| && run[k].activated :: Picks(run[k]))
    && (forall k | 0 < k < |run| ::
          run[k].search.currentVersion ==
            if run[k - 1].activated then Target(run[k - 1]) else run[k - 1].search.currentVersion)
  }

  /**
   * Once a version was activated, everything that runs later is at least that version, and everything picked later is
   * strictly above it: no version is activated again, whatever fails in between.
   */
  lemma NeverRerunsHistory(run: seq<Sweep>, i: nat, j: nat)
    requires SweepRun(run) && i < j < |run| && run[i].activated
    ensures ParseVersion(Target(run[i])).Some? && Current(run[i]).Some? && Current(run[j]).Some?
    ensures Compare(Current(run[i]).value, ParseVersion(Target(run[i])).value) < 0
    ensures Compare(ParseVersion(Target(run[i])).value, Current(run[j]).value) <= 0
    ensures Picks(run[j]) ==>
              ParseVersion(Target(run[j])).Some?
              && Compare(ParseVersion(Target(run[i])).value, ParseVersion(Target(run[j])).value) < 0
  {
    var current := seq(|run|, k requires 0 <= k < |run| => Current(run[k]));
    var target := seq(|run|, k requires 0 <= k < |run| => if Picks(run[k]) then ParseVersion(Target(run[k])) else None);
    var done := seq(|run|, k requires 0 <= k < |run| => run[k].activated);
    forall k | 0 <= k < |run| && target[k].Some?
      ensures current[k].Some? && Compare(current[k].value, target[k].value) < 0
    {
      OneSweepUpgrades(run[k]);
    }
    forall k | 0 <= k < |run| && done[k]
      ensures target[k].Some?
    {
      OneSweepUpgrades(run[k]);
    }
    forall k | 0 < k < |run|
      ensures current[k] == if done[k - 1] then target[k - 1] else current[k - 1]
    {
      assert run[k].search.currentVersion ==
             if run[k - 1].activated then Target(run[k - 1]) else run[k - 1].search.currentVersion;
    }
    ChainIncreases(current, target, done, i, j);
    if Picks(run[j]) {
      OneSweepUpgrades(run[j]);
      assert target[j] == ParseVersion(Target(run[j]));
      CompareTransitive(target[i].value, current[j].value, target[j].value);
    }
  }

  lemma {:induction false} ChainIncreases(current: seq<Option<Version>>, target: seq<Option<Version>>,
                                          done: seq<bool>, i: nat, j: nat)
    requires |current| == |target| == |done| && i < j < |current| && done[i]
    requires forall k | 0 <= k < |current| && target[k].Some? ::
               current[k].Some? && Compare(current[k].value, target[k].value) < 0
    requires forall k | 0 <= k < |current| && done[k] :: target[k].Some?
    requires forall k | 0 < k < |current| :: current[k] == if done[k - 1] then target[k - 1] else current[k - 1]
    ensures current[j].Some? && Compare(target[i].value, current[j].value) <= 0
    decreases j
  {
    assert current[j] == if done[j - 1] then target[j - 1] else current[j - 1];
    if i == j - 1 {
      CompareFlip(target[i].value, target[i].value);
    } else {
      ChainIncreases(current, target, done, i, j - 1);
      if done[j - 1] {
        CompareTransitive(target[i].value, current[j - 1].value, current[j].value);
      }
    }
  }

  lemma OneSweepUpgrades(w: Sweep)
    requires Picks(w)
    ensures Current(w).Some? && ParseVersion(Target(w)).Some?
    ensures Compare(Current(w).value, ParseVersion(Target(w)).value) < 0
  {
    CompareFlip(ParseVersion(Target(w)).value, Current(w).value);
  }
}
