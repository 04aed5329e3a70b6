/**
 * The activation run as a machine: one `Step` per file or service call, each of which may fail, with a
 * crash possible between any two.  `System` interleaves any number of runs for one staging id.
 *
 * The machine sees files by cleaned path and plans by the files they name; `Wire` supplies both from a
 * staging root, a staging id and the code's own naming and validation.
 */
module ActivationMachine {
  import opened Text
  import opened Paths
  import opened ActivationPlan

  /** The part of a loaded plan that activation acts on, with its paths resolved. */
  datatype Update = Update(
    planId: string,
    targetVersion: string,
    sha256: string,
    installed: CleanPath,
    installTemp: CleanPath,
    rollbackTemp: CleanPath,
    staged: CleanPath,
    restoreFrom: CleanPath)

  /** What every run for one staging id shares: its names, its limits, and the code it calls. */
  datatype Env = Env(
    id: string,
    validId: bool,
    planFile: CleanPath,
    backup: CleanPath,
    outcomeFile: CleanPath,
    outcomeTemp: CleanPath,
    maxBytes: int,
    hasController: bool,
    hasHighWater: bool,
    hash: Bytes -> string,
    sameHash: (string, string) -> bool,
    fetch: Files -> Result<Update>,
    encode: Outcome -> Bytes)

  function Resolve(plan: Plan): Update {
    var current := plan.currentBinaryPath;
    Update(plan.activationPlanId, plan.targetVersion, plan.sha256,
           Clean(current), Clean(current + ".ag029.tmp"), Clean(current + ".ag029.rollback.tmp"),
           Clean(plan.stagedBinaryPath), Join(DirPrefix(plan.stagedBinaryPath), BackupFile(plan.stagingId)))
  }

  function Fetch(root: string, id: string, decode: Bytes -> Option<Plan>, files: Files): Result<Update> {
    match LoadPlan(root, id, decode, files)
    case Ok(plan) => Ok(Resolve(plan))
    case Err(why) => Err(why)
  }

  function Wire(root: string, id: string, maxBytes: int, hasController: bool, hasHighWater: bool,
                hash: Bytes -> string, decode: Bytes -> Option<Plan>, encode: Outcome -> Bytes): Env
  {
    Env(id, ValidStagingId(id), Join(root, PlanFile(id)), Join(root, BackupFile(id)), Join(root, OutcomeFile(id)),
        Join(root, OutcomeTempFile(id)), maxBytes, hasController, hasHighWater, hash,
        (a, e) => SameHash(a, e), files => Fetch(root, id, decode, files), encode)
  }

  datatype Status = Activated | RolledBack | Failed

  datatype Outcome = Outcome(
    status: Status,
    planId: string,
    targetVersion: string,
    newSha: string,
    backupSha: string,
    serviceRunningVerified: bool,
    evidencePersisted: bool,
    evidenceError: bool,
    reason: Reason)

  /** The three uses of the checked copy. */
  datatype CopyKind = Backup | Promote | Restore

  datatype Pc =
    | Begin
    | Load
    | VerifyLoad
    | VerifyStat
    | VerifyHash
    | CopyHash(kind: CopyKind)
    | CopyRead(kind: CopyKind)
    | CopyOpen(kind: CopyKind)
    | CopyWrite(kind: CopyKind)
    | CopySettle(kind: CopyKind)
    | CopyUndo(kind: CopyKind, why: Reason)
    | StopService
    | SwapRemove(kind: CopyKind)
    | SwapRename(kind: CopyKind)
    | SwapHarden(kind: CopyKind)
    | SwapUndo(kind: CopyKind)
    | StartService(kind: CopyKind)
    | WriteHighWater
    | RecordOpen
    | RecordWrite
    | RecordSettle
    | RecordRename
    | RecordHarden
    | RecordUndo
    | Done

  /**
   * One run.  `holdsBackup` is set by creating the backup file and cleared when its creator gives it up;
   * `stops` counts calls of service Stop; `lastStart` is what was installed at the last successful Start.
   */
  datatype Run = Run(
    pc: Pc,
    plan: Update,
    checked: Update,
    raw: Bytes,
    sourceHash: string,
    newSha: string,
    backupSha: string,
    cause: Reason,
    outcome: Outcome,
    holdsBackup: bool,
    stops: nat,
    lastStart: Option<Option<Bytes>>)

  /** How the environment answers a call; a failed write has written the first `n` bytes. */
  datatype Choice = Works | Fails(n: nat)

  datatype Config = Config(run: Run, files: Files)

  const NO_PATH := CleanPath(false, [])
  const NO_UPDATE := Update("", "", "", NO_PATH, NO_PATH, NO_PATH, NO_PATH, NO_PATH)

  function FailedOutcome(planId: string, target: string, backupSha: string, reason: Reason): Outcome {
    Outcome(Failed, planId, target, "", backupSha, false, false, false, reason)
  }

  function Start(): Run {
    Run(Begin, NO_UPDATE, NO_UPDATE, [], "", "", "", ControllerMissing,
        FailedOutcome("", "", "", ControllerMissing), false, 0, None)
  }

  /** A write through an open handle reaches the name only while the name is there. */
  function Put(files: Files, p: CleanPath, content: Bytes): Files {
    if p in files then files[p := content] else files
  }

  // Where the calls of a run point.

  function Source(plan: Update, kind: CopyKind): CleanPath {
    match kind
    case Backup => plan.installed
    case Promote => plan.staged
    case Restore => plan.restoreFrom
  }

  function Target(env: Env, plan: Update, kind: CopyKind): CleanPath {
    match kind
    case Backup => env.backup
    case Promote => plan.installTemp
    case Restore => plan.rollbackTemp
  }

  function ExpectedHash(r: Run, kind: CopyKind): string {
    match kind
    case Backup => ""
    case Promote => r.plan.sha256
    case Restore => r.backupSha
  }

  // Where control goes.

  function Record(r: Run, o: Outcome): Run {
    r.(pc := RecordOpen, outcome := o)
  }

  function GiveUp(r: Run, reason: Reason): Run {
    Record(r, FailedOutcome(r.plan.planId, r.plan.targetVersion, r.backupSha, reason))
  }

  function RollBack(r: Run, cause: Reason): Run {
    r.(pc := CopyHash(Restore), cause := cause)
  }

  function CopyFailed(r: Run, kind: CopyKind, why: Reason): Run {
    match kind
    case Backup => GiveUp(r, why)
    case Promote => RollBack(r, BinaryActivationFailed(why))
    case Restore => GiveUp(r, RollbackRestoreFailed(why))
  }

  function CopyDone(r: Run, kind: CopyKind): Run {
    match kind
    case Backup => r.(pc := StopService, backupSha := r.sourceHash)
    case Promote => r.(pc := SwapRemove(Promote), newSha := r.sourceHash)
    case Restore => r.(pc := SwapRemove(Restore))
  }

  function SwapFailed(r: Run, kind: CopyKind): Run {
    if kind == Promote then RollBack(r, PromoteFailed) else GiveUp(r, RollbackPromoteFailed)
  }

  /** A failed evidence write downgrades a successful activation; any other outcome only notes it. */
  function RecordFailed(r: Run): Run {
    r.(pc := Done, outcome :=
      if r.outcome.status == Activated
      then r.outcome.(status := Failed, reason := EvidenceLost)
      else r.outcome.(evidenceError := true))
  }

  function Prefix(content: Bytes, n: nat): Bytes {
    if n <= |content| then content[..n] else content
  }

  /** The calls up to the readiness verdict: they read files and change nothing. */
  function StepPrepare(env: Env, r: Run, files: Files, c: Choice): Run
    requires r.pc.Begin? || r.pc.Load? || r.pc.VerifyLoad? || r.pc.VerifyStat? || r.pc.VerifyHash?
  {
    match r.pc
    case Begin =>
      if env.hasController then r.(pc := Load)
      else Record(r, FailedOutcome(if env.validId then env.id else "", "", "", ControllerMissing))
    case Load =>
      (match if c.Fails? then Err(PlanUnreadable) else env.fetch(files)
       case Err(why) => Record(r, FailedOutcome(env.id, "", "", why))
       case Ok(plan) => r.(pc := VerifyLoad, plan := plan))
    case VerifyLoad =>
      (match if c.Fails? then Err(PlanUnreadable) else env.fetch(files)
       case Err(why) => GiveUp(r, why)
       case Ok(checked) => r.(pc := VerifyStat, checked := checked))
    case VerifyStat =>
      if c.Fails? || r.checked.installed !in files then GiveUp(r, CurrentUnreadable) else r.(pc := VerifyHash)
    case VerifyHash =>
      match if c.Fails? then Err(BinaryUnopenable) else HashFile(env.maxBytes, env.hash, files, r.checked.staged)
      case Err(why) => GiveUp(r, why)
      case Ok(h) => if env.sameHash(h, r.checked.sha256) then r.(pc := CopyHash(Backup)) else GiveUp(r, HashMismatch)
  }

  /** The checked copy: hash, compare, read, create exclusively, write, settle, or undo. */
  function StepCopy(env: Env, r: Run, files: Files, c: Choice): Config
    requires r.pc.CopyHash? || r.pc.CopyRead? || r.pc.CopyOpen? || r.pc.CopyWrite? || r.pc.CopySettle? || r.pc.CopyUndo?
  {
    var kind := r.pc.kind;
    var source, target := Source(r.plan, kind), Target(env, r.plan, kind);
    match r.pc
    case CopyHash(_) =>
      var expected := ExpectedHash(r, kind);
      (match if c.Fails? then Err(BinaryUnopenable) else HashFile(env.maxBytes, env.hash, files, source)
       case Err(why) => Config(CopyFailed(r, kind, why), files)
       case Ok(h) =>
         if expected != "" && !env.sameHash(h, expected) then Config(CopyFailed(r, kind, HashMismatch), files)
         else Config(r.(pc := CopyRead(kind), sourceHash := h), files))
    case CopyRead(_) =>
      if c.Fails? || source !in files then Config(CopyFailed(r, kind, BinaryUnreadable), files)
      else if |files[source]| > env.maxBytes > 0 then Config(CopyFailed(r, kind, BinaryTooLarge), files)
      else Config(r.(pc := CopyOpen(kind), raw := files[source]), files)
    case CopyOpen(_) =>
      if c.Fails? || target in files then Config(CopyFailed(r, kind, TempUnwritable), files)
      else Config(r.(pc := CopyWrite(kind), holdsBackup := r.holdsBackup || kind == Backup), files[target := []])
    case CopyWrite(_) =>
      if c.Works? then Config(r.(pc := CopySettle(kind)), Put(files, target, r.raw))
      else Config(r.(pc := CopyUndo(kind, TempUnwritable)), Put(files, target, Prefix(r.raw, c.n)))
    case CopySettle(_) =>
      if c.Works? then Config(CopyDone(r, kind), files)
      else Config(r.(pc := CopyUndo(kind, TempUnsettled)), files)
    case CopyUndo(_, why) =>
      Config(CopyFailed(r.(holdsBackup := r.holdsBackup && kind != Backup), kind, why),
             if c.Works? then files - {target} else files)
  }

  /** Stop, the remove-rename-harden swap, Start and the high-water write. */
  function StepSwap(env: Env, r: Run, files: Files, c: Choice): Config
    requires r.pc.StopService? || r.pc.SwapRemove? || r.pc.SwapRename? || r.pc.SwapHarden? || r.pc.SwapUndo?
             || r.pc.StartService? || r.pc.WriteHighWater?
  {
    var final := r.plan.installed;
    match r.pc
    case StopService =>
      var r' := r.(stops := r.stops + 1);
      Config(if c.Works? then r'.(pc := CopyHash(Promote)) else GiveUp(r', StopFailed), files)
    case SwapRemove(kind) =>
      if c.Fails? then Config(r.(pc := SwapUndo(kind)), files)
      else Config(r.(pc := SwapRename(kind)), files - {final})
    case SwapRename(kind) =>
      var temp := Target(env, r.plan, kind);
      if c.Fails? || temp !in files then Config(r.(pc := SwapUndo(kind)), files)
      else Config(r.(pc := SwapHarden(kind)), (files - {temp})[final := files[temp]])
    case SwapHarden(kind) =>
      Config(if c.Works? then r.(pc := StartService(kind)) else SwapFailed(r, kind), files)
    case SwapUndo(kind) =>
      Config(SwapFailed(r, kind), if c.Works? then files - {Target(env, r.plan, kind)} else files)
    case StartService(kind) =>
      var r' := r.(lastStart := Some(Get(files, final)));
      Config(
        if kind == Promote then
          if c.Works? then r'.(pc := WriteHighWater) else RollBack(r, StartFailed)
        else if c.Fails? then GiveUp(r, RollbackStartFailed)
        else Record(r', Outcome(RolledBack, r.plan.planId, r.plan.targetVersion, "", r.backupSha, true, false, false,
                                RollbackRestored(r.cause))),
        files)
    case WriteHighWater =>
      Config(
        if env.hasHighWater && c.Fails? then GiveUp(r, HighWaterFailed)
        else Record(r,
                    Outcome(Activated, r.plan.planId, r.plan.targetVersion, r.newSha, r.backupSha, true, false, false,
                               Applied)),
        files)
  }

  /** The evidence write: temporary file, rename, harden. */
  function StepRecord(env: Env, r: Run, files: Files, c: Choice): Config
    requires r.pc.RecordOpen? || r.pc.RecordWrite? || r.pc.RecordSettle? || r.pc.RecordRename? || r.pc.RecordHarden?
             || r.pc.RecordUndo?
  {
    var temp := env.outcomeTemp;
    var content := env.encode(r.outcome.(evidencePersisted := true));
    match r.pc
    case RecordOpen =>
      if !env.validId || c.Fails? || temp in files then Config(RecordFailed(r), files)
      else Config(r.(pc := RecordWrite), files[temp := []])
    case RecordWrite =>
      if c.Works? then Config(r.(pc := RecordSettle), Put(files, temp, content))
      else Config(r.(pc := RecordUndo), Put(files, temp, Prefix(content, c.n)))
    case RecordSettle =>
      Config(r.(pc := if c.Works? then RecordRename else RecordUndo), files)
    case RecordRename =>
      if c.Fails? || temp !in files then Config(r.(pc := RecordUndo), files)
      else Config(r.(pc := RecordHarden), (files - {temp})[env.outcomeFile := files[temp]])
    case RecordHarden =>
      Config(if c.Works? then r.(pc := Done, outcome := r.outcome.(evidencePersisted := true))
             else RecordFailed(r), files)
    case RecordUndo =>
      Config(RecordFailed(r), if c.Works? then files - {temp} else files)
  }

  function Step(env: Env, r: Run, files: Files, c: Choice): Config {
    match r.pc
    case Begin | Load | VerifyLoad | VerifyStat | VerifyHash =>
      Config(StepPrepare(env, r, files, c), files)
    case CopyHash(_) | CopyRead(_) | CopyOpen(_) | CopyWrite(_) | CopySettle(_) | CopyUndo(_, _) =>
      StepCopy(env, r, files, c)
    case StopService | SwapRemove(_) | SwapRename(_) | SwapHarden(_) | SwapUndo(_) | StartService(_) | WriteHighWater =>
      StepSwap(env, r, files, c)
    case RecordOpen | RecordWrite | RecordSettle | RecordRename | RecordHarden | RecordUndo =>
      StepRecord(env, r, files, c)
    case Done =>
      Config(r, files)
  }

  // Many runs over one disk.

  datatype System = System(files: Files, runs: seq<Run>, dead: set<nat>)

  predicate Boot(files: Files, s: System) {
    s.files == files && s.dead == {} && forall i | 0 <= i < |s.runs| :: s.runs[i] == Start()
  }

  ghost predicate Moves(env: Env, s: System, s': System, i: nat, c: Choice) {
    && i < |s.runs| && i !in s.dead
    && (var post := Step(env, s.runs[i], s.files, c); s' == System(post.files, s.runs[i := post.run], s.dead))
  }

  predicate Crashes(s: System, s': System, i: nat) {
    i < |s.runs| && s' == s.(dead := s.dead + {i})
  }

  ghost predicate Next(env: Env, s: System, s': System) {
    (exists i: nat, c: Choice :: Moves(env, s, s', i, c)) || (exists i: nat :: Crashes(s, s', i))
  }

  /** A behaviour: any number of runs, in any interleaving, with any calls failing and any runs dying. */
  ghost predicate Behaviour(env: Env, files: Files, b: seq<System>) {
    b != [] && Boot(files, b[0]) && forall i | 0 < i < |b| :: Next(env, b[i - 1], b[i])
  }
}
