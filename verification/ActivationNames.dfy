/** The code's own file names satisfy what the activation machine assumes about its layout. */
module ActivationNames {
  import opened Text
  import opened Paths
  import opened ActivationPlan
  import opened ActivationMachine
  import opened ActivationSafety
  import opened ActivationEvidence

  /**
   * The one assumption about the disk: the installed binary is a named file and is not itself one of the
   * artifacts of this staging id.
   */
  predicate InstalledApart(root: string, id: string, plan: Plan) {
    && Plain(LastElement(plan.currentBinaryPath))
    && Clean(plan.currentBinaryPath) !in
         {Join(root, PlanFile(id)), Join(root, OutcomeFile(id)), Join(root, OutcomeTempFile(id)),
          Join(root, BackupFile(id)), Join(root, StagedFile(id))}
  }

  predicate Deployment(root: string, id: string, decode: Bytes -> Option<Plan>, files: Files) {
    var loaded := LoadPlan(root, id, decode, files);
    loaded.Ok? ==> InstalledApart(root, id, loaded.value)
  }

  lemma TempApart(s: string, suffix: string, root: string, name: string)
    requires Plain(LastElement(s)) && |suffix| >= 5 && '/' !in suffix && Plain(name) && |name| >= 5
    requires suffix[|suffix| - 5..] != name[|name| - 5..]
    ensures Clean(s + suffix) != Join(root, name)
  {
    SuffixRenames(s, suffix);
    JoinAppends(root, name);
    var dir: seq<string> :| Clean(s + suffix) == CleanPath(Clean(s).rooted, dir + [LastElement(s) + suffix]);
    var segs := dir + [LastElement(s) + suffix];
    var segs' := Clean(root).segs + [name];
    assert segs[|segs| - 1] == LastElement(s) + suffix && segs'[|segs'| - 1] == name;
  }

  /** No artifact name of a staging id ends the way a swap temporary does. */
  lemma ArtifactEndings(id: string)
    requires ValidStagingId(id)
    ensures PlanFile(id)[|PlanFile(id)| - 5..] == ".json" && OutcomeFile(id)[|OutcomeFile(id)| - 5..] == ".json"
    ensures OutcomeTempFile(id)[|OutcomeTempFile(id)| - 5..] == "n.tmp"
    ensures BackupFile(id)[|BackupFile(id)| - 5..][1..] == ".bin"
    ensures StagedFile(id)[|StagedFile(id)| - 5..][1..] == ".bin"
  {
  }

  lemma TempsApart(s: string, root: string, name: string)
    requires Plain(LastElement(s)) && Plain(name) && |name| >= 5
    requires name[|name| - 5..] in [".json", "n.tmp"] || name[|name| - 5..][1..] == ".bin"
    ensures Clean(s + ".ag029.tmp") != Join(root, name) && Clean(s + ".ag029.rollback.tmp") != Join(root, name)
  {
    var t, r := ".ag029.tmp", ".ag029.rollback.tmp";
    assert t[|t| - 5..] == "9.tmp" && r[|r| - 5..] == "k.tmp";
    assert "9.tmp"[1..] == ".tmp" && "k.tmp"[1..] == ".tmp";
    TempApart(s, t, root, name);
    TempApart(s, r, root, name);
  }

  /** Under that assumption the files a run touches are eight different files, and rollback reads the backup. */
  lemma WiredUpdateApart(root: string, id: string, maxBytes: int, ctl: bool, hw: bool,
                         hash: Bytes -> string, decode: Bytes -> Option<Plan>, encode: Outcome -> Bytes, files: Files)
    requires LoadPlan(root, id, decode, files).Ok? && Deployment(root, id, decode, files)
    ensures UpdateApart(Wire(root, id, maxBytes, ctl, hw, hash, decode, encode),
                        Resolve(LoadPlan(root, id, decode, files).value))
  {
    var s := LoadPlan(root, id, decode, files).value.currentBinaryPath;
    LoadedPlanMatches(root, id, decode, files);
    NamesArePlain(id);
    ArtifactEndings(id);
    TempsApart(s, root, PlanFile(id));
    TempsApart(s, root, OutcomeFile(id));
    TempsApart(s, root, OutcomeTempFile(id));
    TempsApart(s, root, BackupFile(id));
    TempsApart(s, root, StagedFile(id));
    SwapNamesDistinct(s);
    NamesAreDistinct(root, id);
  }

  lemma WiredLayout(root: string, id: string, maxBytes: int, ctl: bool, hw: bool,
                    hash: Bytes -> string, decode: Bytes -> Option<Plan>, encode: Outcome -> Bytes, files: Files)
    requires Deployment(root, id, decode, files)
    ensures Layout(Wire(root, id, maxBytes, ctl, hw, hash, decode, encode), files)
  {
    var env := Wire(root, id, maxBytes, ctl, hw, hash, decode, encode);
    if LoadPlan(root, id, decode, files).Ok? {
      WiredUpdateApart(root, id, maxBytes, ctl, hw, hash, decode, encode, files);
    }
    if ValidStagingId(id) {
      NamesAreDistinct(root, id);
    }
    forall f, f' | Get(f, env.planFile) == Get(f', env.planFile)
      ensures env.fetch(f) == env.fetch(f')
    {
      FetchReadsPlanFile(root, id, decode, f, f');
    }
  }

  lemma FetchReadsPlanFile(root: string, id: string, decode: Bytes -> Option<Plan>, f: Files, f': Files)
    requires Get(f, Join(root, PlanFile(id))) == Get(f', Join(root, PlanFile(id)))
    ensures Fetch(root, id, decode, f) == Fetch(root, id, decode, f')
  {
  }

  lemma SwapNamesDistinct(s: string)
    requires Plain(LastElement(s))
    ensures Clean(s) != Clean(s + ".ag029.tmp")
    ensures Clean(s) != Clean(s + ".ag029.rollback.tmp")
    ensures Clean(s + ".ag029.tmp") != Clean(s + ".ag029.rollback.tmp")
  {
    SuffixRenames(s, ".ag029.tmp");
    SuffixRenames(s, ".ag029.rollback.tmp");
    var last := LastElement(s);
    var d1: seq<string> :| Clean(s) == CleanPath(Clean(s).rooted, d1 + [last])
      && Clean(s + ".ag029.tmp") == CleanPath(Clean(s).rooted, d1 + [last + ".ag029.tmp"]);
    var d2: seq<string> :| Clean(s) == CleanPath(Clean(s).rooted, d2 + [last])
      && Clean(s + ".ag029.rollback.tmp") == CleanPath(Clean(s).rooted, d2 + [last + ".ag029.rollback.tmp"]);
    var a, b, c := d1 + [last], d1 + [last + ".ag029.tmp"], d2 + [last + ".ag029.rollback.tmp"];
    assert a[|a| - 1] == last && b[|b| - 1] == last + ".ag029.tmp" && c[|c| - 1] == last + ".ag029.rollback.tmp";
  }

  /**
   * For the code's own wiring, over every interleaving of runs for one staging id, with any call failing and any
   * run dying at any point: the installed path is sound in every state, Stop is called at most once in all, and the
   * run that called it keeps the earlier bytes in the backup file.
   */
  lemma ActivationIsSafe(root: string, id: string, maxBytes: int, ctl: bool, hw: bool,
                         hash: Bytes -> string, decode: Bytes -> Option<Plan>, encode: Outcome -> Bytes,
                         files: Files, b: seq<System>, k: nat, i: nat, j: nat)
    requires Deployment(root, id, decode, files)
    requires Behaviour(Wire(root, id, maxBytes, ctl, hw, hash, decode, encode), files, b)
    requires k < |b| && i < |b[k].runs| && j < |b[k].runs|
    ensures var env := Wire(root, id, maxBytes, ctl, hw, hash, decode, encode);
            && (env.fetch(files).Ok? ==> InstalledSound(env, env.fetch(files).value, files, b[k].files))
            && b[k].runs[i].stops <= 1
            && (b[k].runs[i].stops == 1 && b[k].runs[j].stops == 1 ==> i == j)
            && (b[k].runs[i].stops == 1 ==>
                  env.fetch(files).Ok? && BackupHeld(env, env.fetch(files).value, files, b[k].files))
  {
    var env := Wire(root, id, maxBytes, ctl, hw, hash, decode, encode);
    WiredLayout(root, id, maxBytes, ctl, hw, hash, decode, encode, files);
    if env.fetch(files).Ok? {
      InstalledAlwaysSound(env, files, b, k);
    }
    StopAtMostOnce(env, files, b, k, i, j);
  }

  /** For the code's own wiring, what a run returned is true of the disk from then on. */
  lemma WiredOutcomeIsTrue(root: string, id: string, maxBytes: int, ctl: bool, hw: bool,
                           hash: Bytes -> string, decode: Bytes -> Option<Plan>, encode: Outcome -> Bytes,
                           files: Files, b: seq<System>, k: nat, i: nat)
    requires Deployment(root, id, decode, files)
    requires Behaviour(Wire(root, id, maxBytes, ctl, hw, hash, decode, encode), files, b)
    requires k < |b| && i < |b[k].runs| && b[k].runs[i].pc == Done
    ensures var env := Wire(root, id, maxBytes, ctl, hw, hash, decode, encode);
            MeansDisk(env, files, b[k].files, b[k].runs[i])
  {
    var env := Wire(root, id, maxBytes, ctl, hw, hash, decode, encode);
    WiredLayout(root, id, maxBytes, ctl, hw, hash, decode, encode, files);
    OutcomeMeansDisk(env, files, b, k, i);
  }

  /** For the code's own wiring, a run that called Stop and then died or returned fixes what is installed. */
  lemma WiredStopperFreezes(root: string, id: string, maxBytes: int, ctl: bool, hw: bool,
                            hash: Bytes -> string, decode: Bytes -> Option<Plan>, encode: Outcome -> Bytes,
                            files: Files, b: seq<System>, i: nat, k: nat, r: nat)
    requires Deployment(root, id, decode, files)
    requires Behaviour(Wire(root, id, maxBytes, ctl, hw, hash, decode, encode), files, b)
    requires i <= k < |b| && Settled(b[i], r)
    ensures var env := Wire(root, id, maxBytes, ctl, hw, hash, decode, encode);
            env.fetch(files).Ok? && Frozen(env.fetch(files).value.installed, b[i], b[k], r)
  {
    var env := Wire(root, id, maxBytes, ctl, hw, hash, decode, encode);
    WiredLayout(root, id, maxBytes, ctl, hw, hash, decode, encode, files);
    SettledStopperFreezes(env, files, b, i, k, r);
  }

  /** For the code's own wiring, the outcome file is as it was, or holds a whole outcome that is true now. */
  lemma WiredFileIsTrue(root: string, id: string, maxBytes: int, ctl: bool, hw: bool,
                        hash: Bytes -> string, decode: Bytes -> Option<Plan>, encode: Outcome -> Bytes,
                        files: Files, b: seq<System>, k: nat)
    requires Deployment(root, id, decode, files)
    requires Behaviour(Wire(root, id, maxBytes, ctl, hw, hash, decode, encode), files, b)
    requires k < |b|
    ensures var env := Wire(root, id, maxBytes, ctl, hw, hash, decode, encode);
            || Get(b[k].files, env.outcomeFile) == Get(files, env.outcomeFile)
            || exists o :: Get(b[k].files, env.outcomeFile) == Some(env.encode(Evidence(o)))
                         && TrueNow(env, files, b[k].files, o)
  {
    var env := Wire(root, id, maxBytes, ctl, hw, hash, decode, encode);
    WiredLayout(root, id, maxBytes, ctl, hw, hash, decode, encode, files);
    if ValidStagingId(id) {
      NamesAreDistinct(root, id);
    }
    FileTellsTheTruth(env, files, b, k);
  }
}
