/** What every interleaving of activation runs keeps, and what a returned outcome means. */
module ActivationSafety {
  import opened Text
  import opened Paths
  import opened ActivationPlan
  import opened ActivationMachine

  /**
   * The files one update touches are eight different files, rollback reads the file backup wrote, and there is a digest
   * to check.
   */
  predicate UpdateApart(env: Env, u: Update) {
    && u.installed
         !in {u.installTemp, u.rollbackTemp, env.backup, u.staged, env.planFile, env.outcomeFile, env.outcomeTemp}
    && u.installTemp !in {u.rollbackTemp, env.backup, u.staged, env.planFile, env.outcomeFile, env.outcomeTemp}
    && u.rollbackTemp !in {env.backup, u.staged, env.planFile, env.outcomeFile, env.outcomeTemp}
    && env.backup !in {u.staged, env.planFile, env.outcomeFile, env.outcomeTemp}
    && u.staged !in {env.planFile, env.outcomeFile, env.outcomeTemp}
    && u.restoreFrom == env.backup
    && u.sha256 != ""
  }

  /** What the machine needs of its wiring; `ActivationNames.WiredLayout` derives it from the code's names. */
  ghost predicate Layout(env: Env, files0: Files) {
    && (forall f, f' | Get(f, env.planFile) == Get(f', env.planFile) :: env.fetch(f) == env.fetch(f'))
    && Apart(env, files0)
  }

  predicate Apart(env: Env, files0: Files) {
    && (env.validId ==>
          env.planFile !in {env.outcomeFile, env.outcomeTemp} && env.backup !in {env.outcomeFile, env.outcomeTemp})
    && (env.fetch(files0).Ok? ==> env.validId && UpdateApart(env, env.fetch(files0).value))
  }

  // The invariant.  `files0` is the disk before the first run.

  /** Nobody rewrites the plan or the staged binary. */
  ghost predicate InputsKept(env: Env, files0: Files, files: Files) {
    && Get(files, env.planFile) == Get(files0, env.planFile)
    && (env.fetch(files0).Ok? ==>
          Get(files, env.fetch(files0).value.staged) == Get(files0, env.fetch(files0).value.staged))
  }

  ghost predicate InstalledKept(plan: Update, files0: Files, files: Files) {
    Get(files, plan.installed) == Get(files0, plan.installed)
  }

  /** The staged binary is there and hashes to what the plan says. */
  ghost predicate StagedMatches(env: Env, plan: Update, files0: Files) {
    plan.staged in files0 && env.sameHash(env.hash(files0[plan.staged]), plan.sha256)
  }

  /** The installed path holds exactly the earlier bytes, exactly the verified staged bytes, or nothing. */
  ghost predicate InstalledSound(env: Env, plan: Update, files0: Files, files: Files) {
    || Get(files, plan.installed) == None
    || InstalledKept(plan, files0, files)
    || (StagedMatches(env, plan, files0) && Get(files, plan.installed) == Get(files0, plan.staged))
  }

  ghost predicate BackupHeld(env: Env, plan: Update, files0: Files, files: Files) {
    plan.installed in files0 && Get(files, env.backup) == Some(files0[plan.installed])
  }

  ghost predicate NewInstalled(env: Env, plan: Update, files0: Files, files: Files) {
    StagedMatches(env, plan, files0) && Get(files, plan.installed) == Some(files0[plan.staged])
  }

  /** What the outcome of the run that holds the backup says about the disk and the service. */
  ghost predicate OutcomeFits(env: Env, r: Run, files0: Files, files: Files) {
    match r.outcome.status
    case Activated =>
      NewInstalled(env, r.plan, files0, files) && r.lastStart == Some(Get(files, r.plan.installed))
    case RolledBack =>
      InstalledKept(r.plan, files0, files) && r.lastStart == Some(Get(files, r.plan.installed))
    case Failed =>
      && InstalledSound(env, r.plan, files0, files)
      && (r.plan.installed !in files ==>
            r.outcome.reason.RollbackRestoreFailed? || r.outcome.reason == RollbackPromoteFailed)
      && (r.outcome.reason == EvidenceLost || r.outcome.reason == HighWaterFailed ==>
            NewInstalled(env, r.plan, files0, files) && r.lastStart == Some(Get(files, r.plan.installed)))
      && (r.outcome.reason == StopFailed || r.outcome.reason == RollbackStartFailed ==>
            InstalledKept(r.plan, files0, files))
  }

  predicate Recording(pc: Pc) {
    pc in {RecordOpen, RecordWrite, RecordSettle, RecordRename, RecordHarden, RecordUndo, Done}
  }

  predicate BackingUp(pc: Pc) {
    pc == CopyWrite(Backup) || pc == CopySettle(Backup) || (pc.CopyUndo? && pc.kind == Backup) || pc == StopService
  }

  /** A run that does not hold the backup: nothing it knows matters once some run has passed the backup step. */
  ghost predicate Bystander(env: Env, files0: Files, r: Run, passed: bool) {
    var planned := env.fetch(files0) == Ok(r.plan);
    var cur := r.plan.installed;
    && !r.holdsBackup && r.stops == 0 && r.backupSha == ""
    && match r.pc
       case Begin | Load => true
       case VerifyLoad | VerifyStat | VerifyHash => planned
       case CopyHash(kind) => kind == Backup && planned
       case CopyRead(kind) =>
         kind == Backup && planned && (!passed ==> cur in files0 && r.sourceHash == env.hash(files0[cur]))
       case CopyOpen(kind) =>
         kind == Backup && planned &&
            (!passed ==> cur in files0 && r.sourceHash == env.hash(files0[cur]) && r.raw == files0[cur])
       case CopyWrite(_) | CopySettle(_) | CopyUndo(_, _) | StopService | SwapRemove(_) | SwapRename(_)
         | SwapHarden(_) | SwapUndo(_)
         | StartService(_) | WriteHighWater => false
       case RecordOpen | RecordWrite | RecordSettle | RecordRename | RecordHarden | RecordUndo | Done =>
         r.outcome.status == Failed && (!r.pc.RecordOpen? && !r.pc.Done? ==> env.validId)
  }

  /** The run that holds the backup, between creating it and returning. */
  ghost predicate Holder(env: Env, files0: Files, files: Files, r: Run) {
    var plan, cur := r.plan, r.plan.installed;
    && r.holdsBackup && env.fetch(files0) == Ok(plan) && cur in files0 && env.backup in files
    && if BackingUp(r.pc) then
         && r.stops == 0 && InstalledKept(plan, files0, files) && r.sourceHash == env.hash(files0[cur])
         && (r.pc.CopyWrite? ==> r.raw == files0[cur])
         && (r.pc.CopySettle? || r.pc.StopService? ==> BackupHeld(env, plan, files0, files))
         && r.backupSha == (if r.pc.StopService? then r.sourceHash else "")
       else
         && r.stops == 1 && BackupHeld(env, plan, files0, files) && r.backupSha == env.hash(files0[cur])
         && InstalledSound(env, plan, files0, files)
         && HolderAt(env, files0, files, r)
  }

  /** Control point by control point after Stop. */
  ghost predicate HolderAt(env: Env, files0: Files, files: Files, r: Run) {
    var plan, cur := r.plan, r.plan.installed;
    match r.pc
    case Begin | Load | VerifyLoad | VerifyStat | VerifyHash | StopService => false
    case CopyHash(kind) => kind == Restore || (kind == Promote && InstalledKept(plan, files0, files))
    case CopyRead(kind) =>
      kind == Restore || (kind == Promote && InstalledKept(plan, files0, files) && StagedMatches(env, plan, files0))
    case CopyOpen(kind) => kind != Backup && HolderCopies(env, files0, files, r, kind)
    case CopyWrite(kind) =>
      kind != Backup && HolderCopies(env, files0, files, r, kind) && Target(env, plan, kind) in files
    case CopySettle(kind) =>
      kind != Backup && HolderCopies(env, files0, files, r, kind) && Get(files, Target(env, plan, kind)) == Some(r.raw)
    case CopyUndo(kind, _) => kind == Restore || (kind == Promote && InstalledKept(plan, files0, files))
    case SwapRemove(kind) =>
      && kind != Backup && SwapReady(env, files0, files, r, kind)
      && (kind == Promote ==> InstalledKept(plan, files0, files))
    case SwapRename(kind) => kind != Backup && SwapReady(env, files0, files, r, kind) && cur !in files
    case SwapHarden(kind) => kind != Backup && Swapped(env, files0, files, r, kind)
    case SwapUndo(kind) => kind != Backup
    case StartService(kind) => kind != Backup && Swapped(env, files0, files, r, kind)
    case WriteHighWater => Swapped(env, files0, files, r, Promote) && r.lastStart == Some(Get(files, cur))
    case RecordOpen | RecordWrite | RecordSettle | RecordRename | RecordHarden | RecordUndo | Done =>
      OutcomeFits(env, r, files0, files)
  }

  ghost predicate HolderCopies(env: Env, files0: Files, files: Files, r: Run, kind: CopyKind) {
    if kind == Promote then
      InstalledKept(r.plan, files0, files) && StagedMatches(env, r.plan, files0) && r.raw == files0[r.plan.staged]
    else Get(files0, r.plan.installed) == Some(r.raw)
  }

  ghost predicate SwapReady(env: Env, files0: Files, files: Files, r: Run, kind: CopyKind) {
    if kind == Promote
    then StagedMatches(env, r.plan, files0) && Get(files, Target(env, r.plan, kind)) == Some(files0[r.plan.staged])
    else Get(files, Target(env, r.plan, kind)) == Get(files0, r.plan.installed)
  }

  ghost predicate Swapped(env: Env, files0: Files, files: Files, r: Run, kind: CopyKind) {
    if kind == Promote then NewInstalled(env, r.plan, files0, files) else InstalledKept(r.plan, files0, files)
  }

  ghost predicate Passed(s: System) {
    exists i :: 0 <= i < |s.runs| && s.runs[i].stops > 0
  }

  ghost predicate Inv(env: Env, files0: Files, s: System) {
    && InputsKept(env, files0, s.files)
    && (env.fetch(files0).Ok? && !Passed(s) ==> InstalledKept(env.fetch(files0).value, files0, s.files))
    && (forall i | 0 <= i < |s.runs| ::
          Bystander(env, files0, s.runs[i], Passed(s)) || Holder(env, files0, s.files, s.runs[i]))
    && (forall i, j | 0 <= i < |s.runs| && 0 <= j < |s.runs| && s.runs[i].holdsBackup && s.runs[j].holdsBackup ::
          i == j)
  }

  /** What a bystander's call leaves alone. */
  ghost predicate QuietStep(env: Env, plan: Update, files: Files, files': Files) {
    && Get(files', plan.installed) == Get(files, plan.installed)
    && Get(files', Target(env, plan, Promote)) == Get(files, Target(env, plan, Promote))
    && Get(files', Target(env, plan, Restore)) == Get(files, Target(env, plan, Restore))
  }

  ghost predicate BystanderPre(env: Env, files0: Files, files: Files, r: Run, passed: bool) {
    && Apart(env, files0) && InputsKept(env, files0, files) && env.fetch(files) == env.fetch(files0)
    && Bystander(env, files0, r, passed)
    && (env.fetch(files0).Ok? && !passed ==> InstalledKept(env.fetch(files0).value, files0, files))
  }

  /**
   * A bystander's call leaves the installed binary and the swap files alone; only creating the backup makes it a
   * holder.
   */
  ghost predicate BystanderPost(env: Env, files0: Files, files: Files, post: Config, passed: bool) {
    && InputsKept(env, files0, post.files) && post.run.stops == 0
    && (env.fetch(files0).Ok? ==> QuietStep(env, env.fetch(files0).value, files, post.files))
    && (if post.run.holdsBackup
        then env.backup !in files && (!passed ==> Holder(env, files0, post.files, post.run))
        else Bystander(env, files0, post.run, passed) && Get(post.files, env.backup) == Get(files, env.backup))
  }

  lemma BystanderPrepares(env: Env, files0: Files, files: Files, r: Run, c: Choice, passed: bool)
    requires BystanderPre(env, files0, files, r, passed)
    requires r.pc.Begin? || r.pc.Load? || r.pc.VerifyLoad? || r.pc.VerifyStat? || r.pc.VerifyHash?
    ensures BystanderPost(env, files0, files, Step(env, r, files, c), passed)
  {
  }

  lemma BystanderCopies(env: Env, files0: Files, files: Files, r: Run, c: Choice, passed: bool)
    requires BystanderPre(env, files0, files, r, passed)
    requires r.pc.CopyHash? || r.pc.CopyRead? || r.pc.CopyOpen?
    ensures BystanderPost(env, files0, files, StepCopy(env, r, files, c), passed)
  {
  }

  /** Recording evidence touches only the outcome file and its temporary, and only the verdict on the evidence. */
  lemma RecordingIsLocal(env: Env, r: Run, files: Files, c: Choice, p: CleanPath)
    requires Recording(r.pc)
    requires env.validId ==> p !in {env.outcomeFile, env.outcomeTemp}
    requires !env.validId ==> r.pc in {RecordOpen, Done}
    ensures var post := RecordingStep(env, r, files, c);
            Get(post.files, p) == Get(files, p) && Noted(env, r, post.run)
  {
    if r.pc == RecordOpen || r.pc == RecordWrite || r.pc == RecordSettle {
      RecordFillIsLocal(env, r, files, c, p);
    } else if r.pc != Done {
      RecordEndIsLocal(env, r, files, c, p);
    }
  }

  /** The steps of recording, the last of which changes nothing. */
  function RecordingStep(env: Env, r: Run, files: Files, c: Choice): Config
    requires Recording(r.pc)
  {
    if r.pc == Done then Config(r, files) else StepRecord(env, r, files, c)
  }

  lemma RecordFillIsLocal(env: Env, r: Run, files: Files, c: Choice, p: CleanPath)
    requires r.pc == RecordOpen || r.pc == RecordWrite || r.pc == RecordSettle
    requires env.validId ==> p !in {env.outcomeFile, env.outcomeTemp}
    requires !env.validId ==> r.pc == RecordOpen
    ensures var post := StepRecord(env, r, files, c);
            Get(post.files, p) == Get(files, p) && Noted(env, r, post.run)
  {
  }

  lemma RecordEndIsLocal(env: Env, r: Run, files: Files, c: Choice, p: CleanPath)
    requires r.pc == RecordRename || r.pc == RecordHarden || r.pc == RecordUndo
    requires env.validId && p !in {env.outcomeFile, env.outcomeTemp}
    ensures var post := StepRecord(env, r, files, c);
            Get(post.files, p) == Get(files, p) && Noted(env, r, post.run)
  {
  }

  /** What recording may change of a run. */
  predicate Noted(env: Env, r: Run, r': Run) {
    && Recording(r'.pc)
    && r'.(pc := r.pc, outcome := r.outcome) == r
    && (r'.pc !in {RecordOpen, Done} ==> env.validId)
    && r'.outcome.status in {r.outcome.status, Failed}
    && (r'.outcome.status != r.outcome.status ==> r'.outcome.reason == EvidenceLost && r.outcome.status == Activated)
    && (r'.outcome.status == r.outcome.status ==> r'.outcome.reason == r.outcome.reason)
  }

  lemma BystanderRecords(env: Env, files0: Files, files: Files, r: Run, c: Choice, passed: bool)
    requires BystanderPre(env, files0, files, r, passed)
    requires Recording(r.pc)
    ensures BystanderPost(env, files0, files, RecordingStep(env, r, files, c), passed)
  {
    RecordingIsLocal(env, r, files, c, env.planFile);
    RecordingIsLocal(env, r, files, c, env.backup);
    if env.fetch(files0).Ok? {
      var u := env.fetch(files0).value;
      RecordingIsLocal(env, r, files, c, u.installed);
      RecordingIsLocal(env, r, files, c, u.installTemp);
      RecordingIsLocal(env, r, files, c, u.rollbackTemp);
      RecordingIsLocal(env, r, files, c, u.staged);
    }
  }

  lemma BystanderMoves(env: Env, files0: Files, files: Files, r: Run, c: Choice, passed: bool)
    requires BystanderPre(env, files0, files, r, passed)
    ensures BystanderPost(env, files0, files, Step(env, r, files, c), passed)
  {
    if Recording(r.pc) {
      BystanderRecords(env, files0, files, r, c, passed);
    } else if r.pc.CopyHash? || r.pc.CopyRead? || r.pc.CopyOpen? {
      BystanderCopies(env, files0, files, r, c, passed);
    } else {
      BystanderPrepares(env, files0, files, r, c, passed);
    }
  }

  ghost predicate HolderPre(env: Env, files0: Files, files: Files, r: Run) {
    Apart(env, files0) && InputsKept(env, files0, files) && Holder(env, files0, files, r)
  }

  /** A holder's call keeps the holder invariant, or gives the backup up with nothing changed. */
  ghost predicate HolderPost(env: Env, files0: Files, r: Run, post: Config) {
    && InputsKept(env, files0, post.files) && r.stops <= post.run.stops
    && (if post.run.holdsBackup
        then Holder(env, files0, post.files, post.run)
        else Bystander(env, files0, post.run, false) && InstalledKept(r.plan, files0, post.files) && r.stops == 0)
  }

  lemma HolderBacksUp(env: Env, files0: Files, files: Files, r: Run, c: Choice)
    requires HolderPre(env, files0, files, r) && BackingUp(r.pc) && r.pc != StopService
    ensures HolderPost(env, files0, r, StepCopy(env, r, files, c))
  {
  }

  lemma HolderStops(env: Env, files0: Files, files: Files, r: Run, c: Choice)
    requires HolderPre(env, files0, files, r) && r.pc == StopService
    ensures HolderPost(env, files0, r, StepSwap(env, r, files, c))
  {
  }

  lemma HolderHashes(env: Env, files0: Files, files: Files, r: Run, c: Choice)
    requires HolderPre(env, files0, files, r) && !BackingUp(r.pc) && r.pc.CopyHash?
    ensures HolderPost(env, files0, r, StepCopy(env, r, files, c))
  {
    if r.pc.kind == Promote {
      HolderHashesStaged(env, files0, files, r, c);
    } else {
      HolderHashesBackup(env, files0, files, r, c);
    }
  }

  lemma HolderHashesStaged(env: Env, files0: Files, files: Files, r: Run, c: Choice)
    requires HolderPre(env, files0, files, r) && r.pc == CopyHash(Promote)
    ensures HolderPost(env, files0, r, StepCopy(env, r, files, c))
  {
  }

  lemma HolderHashesBackup(env: Env, files0: Files, files: Files, r: Run, c: Choice)
    requires HolderPre(env, files0, files, r) && r.pc == CopyHash(Restore)
    ensures HolderPost(env, files0, r, StepCopy(env, r, files, c))
  {
  }

  lemma HolderReads(env: Env, files0: Files, files: Files, r: Run, c: Choice)
    requires HolderPre(env, files0, files, r) && !BackingUp(r.pc) && r.pc.CopyRead?
    ensures HolderPost(env, files0, r, StepCopy(env, r, files, c))
  {
    if r.pc.kind == Promote {
      HolderReadsStaged(env, files0, files, r, c);
    } else {
      HolderReadsBackup(env, files0, files, r, c);
    }
  }

  lemma HolderReadsStaged(env: Env, files0: Files, files: Files, r: Run, c: Choice)
    requires HolderPre(env, files0, files, r) && r.pc == CopyRead(Promote)
    ensures HolderPost(env, files0, r, StepCopy(env, r, files, c))
  {
  }

  lemma HolderReadsBackup(env: Env, files0: Files, files: Files, r: Run, c: Choice)
    requires HolderPre(env, files0, files, r) && r.pc == CopyRead(Restore)
    ensures HolderPost(env, files0, r, StepCopy(env, r, files, c))
  {
  }

  lemma HolderWrites(env: Env, files0: Files, files: Files, r: Run, c: Choice)
    requires HolderPre(env, files0, files, r) && !BackingUp(r.pc)
    requires r.pc.CopyWrite?
    ensures HolderPost(env, files0, r, StepCopy(env, r, files, c))
  {
  }

  lemma HolderOpens(env: Env, files0: Files, files: Files, r: Run, c: Choice)
    requires HolderPre(env, files0, files, r) && r.pc.CopyOpen?
    ensures HolderPost(env, files0, r, StepCopy(env, r, files, c))
  {
  }

  lemma HolderSettles(env: Env, files0: Files, files: Files, r: Run, c: Choice)
    requires HolderPre(env, files0, files, r) && !BackingUp(r.pc)
    requires r.pc.CopySettle?
    ensures HolderPost(env, files0, r, StepCopy(env, r, files, c))
  {
  }

  lemma HolderUndoes(env: Env, files0: Files, files: Files, r: Run, c: Choice)
    requires HolderPre(env, files0, files, r) && !BackingUp(r.pc) && r.pc.CopyUndo?
    ensures HolderPost(env, files0, r, StepCopy(env, r, files, c))
  {
  }

  lemma HolderRemoves(env: Env, files0: Files, files: Files, r: Run, c: Choice)
    requires HolderPre(env, files0, files, r)
    requires r.pc.SwapRemove? || r.pc.SwapUndo?
    ensures HolderPost(env, files0, r, StepSwap(env, r, files, c))
  {
  }

  lemma HolderRenames(env: Env, files0: Files, files: Files, r: Run, c: Choice)
    requires HolderPre(env, files0, files, r) && r.pc.SwapRename?
    ensures HolderPost(env, files0, r, StepSwap(env, r, files, c))
  {
  }

  lemma HolderStarts(env: Env, files0: Files, files: Files, r: Run, c: Choice)
    requires HolderPre(env, files0, files, r) && r.pc.StartService?
    ensures HolderPost(env, files0, r, StepSwap(env, r, files, c))
  {
  }

  lemma HolderMarks(env: Env, files0: Files, files: Files, r: Run, c: Choice)
    requires HolderPre(env, files0, files, r) && r.pc.WriteHighWater?
    ensures HolderPost(env, files0, r, StepSwap(env, r, files, c))
  {
  }

  lemma HolderHardens(env: Env, files0: Files, files: Files, r: Run, c: Choice)
    requires HolderPre(env, files0, files, r) && r.pc.SwapHarden?
    ensures HolderPost(env, files0, r, StepSwap(env, r, files, c))
  {
  }

  lemma OutcomeStillFits(env: Env, r: Run, r': Run, files0: Files, files: Files, files': Files)
    requires OutcomeFits(env, r, files0, files)
    requires r'.plan == r.plan && r'.lastStart == r.lastStart
    requires Get(files', r.plan.installed) == Get(files, r.plan.installed)
    requires if r'.outcome.status == r.outcome.status then r'.outcome.reason == r.outcome.reason
             else r'.outcome.status == Failed && r'.outcome.reason == EvidenceLost && r.outcome.status == Activated
    ensures OutcomeFits(env, r', files0, files')
    ensures InstalledSound(env, r.plan, files0, files) ==> InstalledSound(env, r.plan, files0, files')
  {
  }

  lemma HolderRecords(env: Env, files0: Files, files: Files, r: Run, c: Choice)
    requires HolderPre(env, files0, files, r) && Recording(r.pc)
    ensures HolderPost(env, files0, r, RecordingStep(env, r, files, c))
  {
    RecordingIsLocal(env, r, files, c, env.planFile);
    RecordingIsLocal(env, r, files, c, env.backup);
    RecordingIsLocal(env, r, files, c, r.plan.installed);
    RecordingIsLocal(env, r, files, c, r.plan.staged);
    HolderNotes(env, files0, files, r, RecordingStep(env, r, files, c));
  }

  lemma HolderNotes(env: Env, files0: Files, files: Files, r: Run, post: Config)
    requires HolderPre(env, files0, files, r) && Recording(r.pc) && Noted(env, r, post.run)
    requires Get(post.files, env.planFile) == Get(files, env.planFile)
    requires Get(post.files, env.backup) == Get(files, env.backup)
    requires Get(post.files, r.plan.installed) == Get(files, r.plan.installed)
    requires Get(post.files, r.plan.staged) == Get(files, r.plan.staged)
    ensures HolderPost(env, files0, r, post)
  {
    OutcomeStillFits(env, r, post.run, files0, files, post.files);
    assert Holder(env, files0, post.files, post.run);
  }

  lemma HolderCopying(env: Env, files0: Files, files: Files, r: Run, c: Choice)
    requires HolderPre(env, files0, files, r)
    requires Copying(r.pc)
    ensures HolderPost(env, files0, r, StepCopy(env, r, files, c))
  {
    if BackingUp(r.pc) {
      HolderBacksUp(env, files0, files, r, c);
    } else if r.pc.CopyHash? {
      HolderHashes(env, files0, files, r, c);
    } else if r.pc.CopyRead? {
      HolderReads(env, files0, files, r, c);
    } else if r.pc.CopyOpen? {
      HolderOpens(env, files0, files, r, c);
    } else if r.pc.CopyWrite? {
      HolderWrites(env, files0, files, r, c);
    } else if r.pc.CopySettle? {
      HolderSettles(env, files0, files, r, c);
    } else {
      HolderUndoes(env, files0, files, r, c);
    }
  }

  lemma HolderSwapping(env: Env, files0: Files, files: Files, r: Run, c: Choice)
    requires HolderPre(env, files0, files, r) && Swapping(r.pc)
    ensures HolderPost(env, files0, r, StepSwap(env, r, files, c))
  {
    if r.pc.StopService? {
      HolderStops(env, files0, files, r, c);
    } else if r.pc.SwapRemove? || r.pc.SwapUndo? {
      HolderRemoves(env, files0, files, r, c);
    } else if r.pc.SwapRename? {
      HolderRenames(env, files0, files, r, c);
    } else if r.pc.SwapHarden? {
      HolderHardens(env, files0, files, r, c);
    } else if r.pc.WriteHighWater? {
      HolderMarks(env, files0, files, r, c);
    } else {
      HolderStarts(env, files0, files, r, c);
    }
  }

  lemma HolderMoves(env: Env, files0: Files, files: Files, r: Run, c: Choice)
    requires HolderPre(env, files0, files, r)
    ensures HolderPost(env, files0, r, Step(env, r, files, c))
  {
    HolderIsPrepared(env, files0, files, r);
    StepByGroup(env, files, r, c);
    if Recording(r.pc) {
      HolderRecords(env, files0, files, r, c);
    } else if Copying(r.pc) {
      HolderCopying(env, files0, files, r, c);
    } else {
      HolderSwapping(env, files0, files, r, c);
    }
  }

  lemma HolderIsPrepared(env: Env, files0: Files, files: Files, r: Run)
    requires HolderPre(env, files0, files, r)
    ensures Recording(r.pc) || Copying(r.pc) || Swapping(r.pc)
  {
  }

  predicate Copying(pc: Pc) {
    pc.CopyHash? || pc.CopyRead? || pc.CopyOpen? || pc.CopyWrite? || pc.CopySettle? || pc.CopyUndo?
  }

  predicate Swapping(pc: Pc) {
    || pc.StopService? || pc.SwapRemove? || pc.SwapRename? || pc.SwapHarden? || pc.SwapUndo? || pc.StartService?
    || pc.WriteHighWater?
  }

  lemma StepByGroup(env: Env, files: Files, r: Run, c: Choice)
    requires Recording(r.pc) || Copying(r.pc) || Swapping(r.pc)
    ensures Step(env, r, files, c) ==
            if Recording(r.pc) then RecordingStep(env, r, files, c)
            else if Copying(r.pc) then StepCopy(env, r, files, c)
            else StepSwap(env, r, files, c)
  {
  }

  lemma HolderStepInSystem(env: Env, files0: Files, s: System, i: nat, post: Config)
    requires Inv(env, files0, s) && i < |s.runs| && s.runs[i].holdsBackup
    requires HolderPost(env, files0, s.runs[i], post) && Holder(env, files0, s.files, s.runs[i])
    ensures Inv(env, files0, System(post.files, s.runs[i := post.run], s.dead))
  {
    var s' := System(post.files, s.runs[i := post.run], s.dead);
    assert Passed(s') <==> post.run.stops > 0 by {
      assert s'.runs[i] == post.run;
      forall j | 0 <= j < |s.runs| && j != i
        ensures s'.runs[j] == s.runs[j] && s.runs[j].stops == 0
      {
        assert Bystander(env, files0, s.runs[j], Passed(s)) || Holder(env, files0, s.files, s.runs[j]);
      }
    }
    forall j | 0 <= j < |s.runs|
      ensures Bystander(env, files0, s'.runs[j], Passed(s')) || Holder(env, files0, s'.files, s'.runs[j])
    {
      if j != i {
        assert Bystander(env, files0, s.runs[j], Passed(s)) || Holder(env, files0, s.files, s.runs[j]);
        PassingIsMonotone(env, files0, s.runs[j], Passed(s), Passed(s'));
      }
    }
  }

  /** A bystander's knowledge is only ever needed before some run has passed. */
  lemma PassingIsMonotone(env: Env, files0: Files, r: Run, passed: bool, passed': bool)
    requires Bystander(env, files0, r, passed) && (passed ==> passed')
    ensures Bystander(env, files0, r, passed')
  {
  }

  lemma BystanderStepInSystem(env: Env, files0: Files, s: System, i: nat, post: Config)
    requires Inv(env, files0, s) && i < |s.runs| && !s.runs[i].holdsBackup
    requires BystanderPost(env, files0, s.files, post, Passed(s))
    ensures Inv(env, files0, System(post.files, s.runs[i := post.run], s.dead))
  {
    var s' := System(post.files, s.runs[i := post.run], s.dead);
    assert forall j | 0 <= j < |s.runs| ::
      Bystander(env, files0, s.runs[j], Passed(s)) || Holder(env, files0, s.files, s.runs[j]);
    forall j | 0 <= j < |s.runs| && j != i && s.runs[j].holdsBackup
      ensures Holder(env, files0, s'.files, s.runs[j]) && !post.run.holdsBackup
    {
      QuietKeepsHolder(env, files0, s.files, post.files, s.runs[j]);
    }
    assert s.runs[i].stops == 0;
    assert Passed(s) ==> Passed(s') by {
      if j :| 0 <= j < |s.runs| && s.runs[j].stops > 0 {
        assert s'.runs[j] == s.runs[j];
      }
    }
    assert Passed(s') ==> Passed(s);
  }

  lemma MoveKeepsInv(env: Env, files0: Files, s: System, s': System, i: nat, c: Choice)
    requires Layout(env, files0) && Inv(env, files0, s) && Moves(env, s, s', i, c)
    ensures Inv(env, files0, s')
  {
    assert Bystander(env, files0, s.runs[i], Passed(s)) || Holder(env, files0, s.files, s.runs[i]);
    if s.runs[i].holdsBackup {
      HolderMoves(env, files0, s.files, s.runs[i], c);
      HolderStepInSystem(env, files0, s, i, Step(env, s.runs[i], s.files, c));
    } else {
      assert Get(s.files, env.planFile) == Get(files0, env.planFile);
      assert env.fetch(s.files) == env.fetch(files0);
      BystanderMoves(env, files0, s.files, s.runs[i], c, Passed(s));
      BystanderStepInSystem(env, files0, s, i, Step(env, s.runs[i], s.files, c));
    }
  }

  /** A holder does not notice another run's quiet call. */
  lemma QuietKeepsHolder(env: Env, files0: Files, files: Files, files': Files, r: Run)
    requires Holder(env, files0, files, r)
    requires QuietStep(env, r.plan, files, files') && Get(files', env.backup) == Get(files, env.backup)
    ensures Holder(env, files0, files', r)
  {
  }

  /** The invariant holds in every state of every behaviour. */
  lemma {:induction false} InvAlways(env: Env, files0: Files, b: seq<System>, k: nat)
    requires Layout(env, files0) && Behaviour(env, files0, b) && k < |b|
    ensures Inv(env, files0, b[k])
  {
    if k > 0 {
      InvAlways(env, files0, b, k - 1);
      var s, s' := b[k - 1], b[k];
      assert Next(env, s, s');
      if i: nat, c: Choice :| Moves(env, s, s', i, c) {
        MoveKeepsInv(env, files0, s, s', i, c);
      } else {
        var i: nat :| Crashes(s, s', i);
        assert Passed(s') <==> Passed(s);
      }
    }
  }

  // The results.

  /** Whatever fails and whoever crashes, the installed path never holds anything else. */
  lemma InstalledAlwaysSound(env: Env, files0: Files, b: seq<System>, k: nat)
    requires Layout(env, files0) && Behaviour(env, files0, b) && k < |b| && env.fetch(files0).Ok?
    ensures InstalledSound(env, env.fetch(files0).value, files0, b[k].files)
  {
    InvAlways(env, files0, b, k);
    if i :| 0 <= i < |b[k].runs| && b[k].runs[i].stops > 0 {
      assert Bystander(env, files0, b[k].runs[i], Passed(b[k])) || Holder(env, files0, b[k].files, b[k].runs[i]);
    }
  }

  /**
   * Across all interleaved runs at most one Stop is ever called, and from then on the backup holds the earlier bytes.
   */
  lemma StopAtMostOnce(env: Env, files0: Files, b: seq<System>, k: nat, i: nat, j: nat)
    requires Layout(env, files0) && Behaviour(env, files0, b) && k < |b| && i < |b[k].runs| && j < |b[k].runs|
    ensures b[k].runs[i].stops <= 1
    ensures b[k].runs[i].stops == 1 && b[k].runs[j].stops == 1 ==> i == j
    ensures b[k].runs[i].stops == 1 ==>
              env.fetch(files0).Ok? && BackupHeld(env, env.fetch(files0).value, files0, b[k].files)
  {
    InvAlways(env, files0, b, k);
    assert Bystander(env, files0, b[k].runs[i], Passed(b[k])) || Holder(env, files0, b[k].files, b[k].runs[i]);
    assert Bystander(env, files0, b[k].runs[j], Passed(b[k])) || Holder(env, files0, b[k].files, b[k].runs[j]);
  }

  /**
   * What a returned outcome means, then and in every later state: ACTIVATED means the verified staged bytes are
   * installed and a Start succeeded over them, ROLLED_BACK the same of the earlier bytes, and a run that stopped the
   * service and returned with nothing installed says FAILED for a restore or a promote that failed.  FAILED for the
   * high-water mark or the evidence means the new bytes run; for Stop or the rollback's Start, the earlier ones are
   * there.
   */
  ghost predicate MeansDisk(env: Env, files0: Files, files: Files, r: Run) {
    var reason := r.outcome.reason;
    && (r.outcome.status != Failed ==> env.fetch(files0) == Ok(r.plan) && r.stops == 1)
    && (r.outcome.status == Activated ==>
          NewInstalled(env, r.plan, files0, files) && r.lastStart == Some(Some(files0[r.plan.staged])))
    && (r.outcome.status == RolledBack ==>
          InstalledKept(r.plan, files0, files) && r.lastStart == Some(Get(files0, r.plan.installed)))
    && (r.stops == 1 && r.plan.installed !in files ==>
          r.outcome.status == Failed && (reason.RollbackRestoreFailed? || reason == RollbackPromoteFailed))
    && (r.stops == 1 && r.outcome.status == Failed && (reason == EvidenceLost || reason == HighWaterFailed) ==>
          NewInstalled(env, r.plan, files0, files) && r.lastStart == Some(Some(files0[r.plan.staged])))
    && (r.stops == 1 && r.outcome.status == Failed && (reason == StopFailed || reason == RollbackStartFailed) ==>
          InstalledKept(r.plan, files0, files))
  }

  lemma OutcomeMeansDisk(env: Env, files0: Files, b: seq<System>, k: nat, i: nat)
    requires Layout(env, files0) && Behaviour(env, files0, b) && k < |b| && i < |b[k].runs| && b[k].runs[i].pc == Done
    ensures MeansDisk(env, files0, b[k].files, b[k].runs[i])
  {
    InvAlways(env, files0, b, k);
    assert Bystander(env, files0, b[k].runs[i], Passed(b[k])) || Holder(env, files0, b[k].files, b[k].runs[i]);
  }

  /**
   * A run that has called Stop and then died or returned leaves the deployment as it is for good: no other run for the
   * staging id, then or later, changes what is installed.  If it ended with nothing installed, nothing will be.
   */
  lemma {:induction false} SettledStopperFreezes(env: Env, files0: Files, b: seq<System>, i: nat, k: nat, r: nat)
    requires Layout(env, files0) && Behaviour(env, files0, b) && i <= k < |b|
    requires Settled(b[i], r)
    ensures env.fetch(files0).Ok? && Frozen(env.fetch(files0).value.installed, b[i], b[k], r)
    decreases k
  {
    if i == k {
      SettledIsDeployed(env, files0, b, k, r);
    } else {
      SettledStopperFreezes(env, files0, b, i, k - 1, r);
      FrozenGoesOn(env, files0, b, i, k, r);
    }
  }

  lemma SettledIsDeployed(env: Env, files0: Files, b: seq<System>, k: nat, r: nat)
    requires Layout(env, files0) && Behaviour(env, files0, b) && k < |b| && Settled(b[k], r)
    ensures env.fetch(files0).Ok?
  {
    StopAtMostOnce(env, files0, b, k, r, r);
  }

  lemma FrozenGoesOn(env: Env, files0: Files, b: seq<System>, i: nat, k: nat, r: nat)
    requires Layout(env, files0) && Behaviour(env, files0, b) && i < k < |b| && env.fetch(files0).Ok?
    requires Frozen(env.fetch(files0).value.installed, b[i], b[k - 1], r)
    ensures Frozen(env.fetch(files0).value.installed, b[i], b[k], r)
  {
    StopperIsOnlyHolder(env, files0, b, k - 1, r);
    BehaviourMoves(env, files0, b, k);
    SettledStaysFrozen(env, files0, b[i], b[k - 1], b[k], r);
  }

  /** The inputs are as they were, and no run but this one holds the backup. */
  ghost predicate OnlyHolder(env: Env, files0: Files, s: System, r: nat) {
    && r < |s.runs| && InputsKept(env, files0, s.files) && env.fetch(s.files) == env.fetch(files0)
    && forall m | 0 <= m < |s.runs| && m != r :: Bystander(env, files0, s.runs[m], true)
  }

  lemma StopperIsOnlyHolder(env: Env, files0: Files, b: seq<System>, k: nat, r: nat)
    requires Layout(env, files0) && Behaviour(env, files0, b) && k < |b|
    requires r < |b[k].runs| && b[k].runs[r].stops == 1
    ensures OnlyHolder(env, files0, b[k], r)
  {
    InvAlways(env, files0, b, k);
    var s := b[k];
    assert Bystander(env, files0, s.runs[r], Passed(s)) || Holder(env, files0, s.files, s.runs[r]);
    assert Get(s.files, env.planFile) == Get(files0, env.planFile);
    forall m | 0 <= m < |s.runs| && m != r ensures Bystander(env, files0, s.runs[m], true) {
      assert Bystander(env, files0, s.runs[m], Passed(s)) || Holder(env, files0, s.files, s.runs[m]);
    }
  }

  /** The run has called Stop, and has died or returned. */
  ghost predicate Settled(s: System, r: nat) {
    r < |s.runs| && (r in s.dead || s.runs[r].pc == Done) && s.runs[r].stops == 1
  }

  /** Since `s0` neither the run nor what is installed has changed. */
  ghost predicate Frozen(installed: CleanPath, s0: System, s: System, r: nat) {
    Settled(s, r) && r < |s0.runs| && s.runs[r] == s0.runs[r] && Get(s.files, installed) == Get(s0.files, installed)
  }

  lemma BehaviourMoves(env: Env, files0: Files, b: seq<System>, k: nat)
    requires Behaviour(env, files0, b) && 0 < k < |b|
    ensures Next(env, b[k - 1], b[k])
  {
  }

  lemma SettledStaysFrozen(env: Env, files0: Files, s0: System, s: System, s': System, r: nat)
    requires Apart(env, files0) && OnlyHolder(env, files0, s, r) && Next(env, s, s') && env.fetch(files0).Ok?
    requires Frozen(env.fetch(files0).value.installed, s0, s, r)
    ensures Frozen(env.fetch(files0).value.installed, s0, s', r)
  {
    if m: nat, c: Choice :| Moves(env, s, s', m, c) {
      if m != r {
        BystanderMoves(env, files0, s.files, s.runs[m], c, true);
      }
    }
  }
}
