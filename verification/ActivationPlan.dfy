/** The local activation plan: its file names, its validation and its loading. */
module ActivationPlan {
  import opened Text
  import opened Paths

  newtype Byte = b: int | 0 <= b < 256
  type Bytes = seq<Byte>
  type Files = map<CleanPath, Bytes>

  datatype Plan = Plan(
    schemaVersion: int,
    stagingId: string,
    activationPlanId: string,
    serviceName: string,
    currentBinaryPath: string,
    stagedBinaryPath: string,
    activationPlanPath: string,
    targetVersion: string,
    sha256: string,
    signerThumbprint: string,
    signingTier: string)

  /** Every reason the activation code reports, in place of its texts. */
  datatype Reason =
    | ControllerMissing
    | LocatorInvalid
    | PlanUnreadable
    | PlanUndecodable
    | PlanInvalid
    | PlanPathMismatch
    | CurrentUnreadable
    | BinaryUnopenable
    | BinaryTooLarge
    | HashMismatch
    | BinaryUnreadable
    | TempUnwritable
    | TempUnsettled
    | StopFailed
    | BinaryActivationFailed(why: Reason)
    | PromoteFailed
    | StartFailed
    | HighWaterFailed
    | Applied
    | EvidenceLost
    | RollbackRestoreFailed(why: Reason)
    | RollbackPromoteFailed
    | RollbackStartFailed
    | RollbackRestored(cause: Reason)

  datatype Result<+T> = Ok(value: T) | Err(reason: Reason)

  predicate IsHex(c: char) {
    '0' <= c <= '9' || 'a' <= c <= 'f' || 'A' <= c <= 'F'
  }

  predicate ValidStagingId(id: string) {
    |id| == 32 && forall i | 0 <= i < |id| :: IsHex(id[i])
  }

  predicate IsSha256Hex(s: string) {
    |s| == 64 && forall i | 0 <= i < |s| :: IsHex(s[i])
  }

  /** `VerifySHA256Equal`: both sides are 64 hex digits and equal up to case and padding. */
  predicate SameHash(actual: string, expected: string) {
    var a, e := ToLower(TrimSpace(actual)), ToLower(TrimSpace(expected));
    IsSha256Hex(a) && IsSha256Hex(e) && a == e
  }

  function PlanFile(id: string): string { "activation-" + id + ".json" }
  function OutcomeFile(id: string): string { "activation-outcome-" + id + ".json" }
  function OutcomeTempFile(id: string): string { "activation-outcome-" + id + ".json.tmp" }
  function BackupFile(id: string): string { "rollback-" + id + ".bin" }
  function HelperFile(id: string): string { "activation-helper-" + id + ".exe" }
  function StagedFile(id: string): string { "staged-" + id + ".bin" }

  predicate ValidPlan(p: Plan) {
    var root := DirPrefix(p.stagedBinaryPath);
    && p.schemaVersion == 1
    && ValidStagingId(p.stagingId) && p.activationPlanId == p.stagingId
    && TrimSpace(p.serviceName) != "" && TrimSpace(p.currentBinaryPath) != ""
    && TrimSpace(p.stagedBinaryPath) != "" && TrimSpace(p.activationPlanPath) != ""
    && Clean(p.stagedBinaryPath) == Join(root, StagedFile(p.stagingId))
    && Clean(p.activationPlanPath) == Join(root, PlanFile(p.stagingId))
    && Clean(TrimSpace(p.currentBinaryPath)) != Clean(TrimSpace(p.stagedBinaryPath))
    && IsSha256Hex(p.sha256)
    && TrimSpace(p.targetVersion) != "" && TrimSpace(p.signerThumbprint) != "" && p.signingTier != ""
  }

  function Get(files: Files, p: CleanPath): Option<Bytes> {
    if p in files then Some(files[p]) else None
  }

  function LoadPlan(root: string, id: string, decode: Bytes -> Option<Plan>, files: Files): Result<Plan> {
    var path := Join(root, PlanFile(id));
    ReadPlan(root, id, decode, path, Get(files, path))
  }

  function ReadPlan(root: string, id: string, decode: Bytes -> Option<Plan>, path: CleanPath,
                    content: Option<Bytes>): Result<Plan> {
    if !ValidStagingId(id) || TrimSpace(root) == "" then Err(LocatorInvalid)
    else if content.None? then Err(PlanUnreadable)
    else
      match decode(content.value)
      case None => Err(PlanUndecodable)
      case Some(plan) =>
        if !ValidPlan(plan) then Err(PlanInvalid)
        else if Clean(plan.activationPlanPath) != path then Err(PlanPathMismatch)
        else Ok(plan)
  }

  const DEFAULT_MAX_UPDATE_BYTES := 250 * 1024 * 1024

  /** `HashFileWithLimit`: a limit of zero or less means the default one. */
  function HashFile(maxBytes: int, hash: Bytes -> string, files: Files, p: CleanPath): Result<string> {
    if p !in files then Err(BinaryUnopenable)
    else if |files[p]| > (if maxBytes <= 0 then DEFAULT_MAX_UPDATE_BYTES else maxBytes) then Err(BinaryTooLarge)
    else Ok(hash(files[p]))
  }

  lemma NamesArePlain(id: string)
    requires ValidStagingId(id)
    ensures Plain(PlanFile(id)) && Plain(OutcomeFile(id)) && Plain(OutcomeTempFile(id))
    ensures Plain(BackupFile(id)) && Plain(HelperFile(id)) && Plain(StagedFile(id))
  {
    assert '/' !in id;
  }

  /** No two artifacts of one staging id share a file. */
  lemma NamesAreDistinct(root: string, id: string)
    requires ValidStagingId(id)
    ensures Join(root, BackupFile(id)) !in {Join(root, StagedFile(id)), Join(root, PlanFile(id)),
                                            Join(root, OutcomeFile(id)), Join(root, OutcomeTempFile(id))}
    ensures Join(root, StagedFile(id)) !in {Join(root, PlanFile(id)),
                                            Join(root, OutcomeFile(id)), Join(root, OutcomeTempFile(id))}
    ensures Join(root, PlanFile(id)) !in {Join(root, OutcomeFile(id)), Join(root, OutcomeTempFile(id))}
    ensures Join(root, OutcomeFile(id)) != Join(root, OutcomeTempFile(id))
    ensures Join(root, HelperFile(id)) !in {Join(root, BackupFile(id)), Join(root, StagedFile(id)),
                                            Join(root, PlanFile(id)),
                                            Join(root, OutcomeFile(id)), Join(root, OutcomeTempFile(id))}
  {
    NamesArePlain(id);
    assert PlanFile(id)[0] == OutcomeFile(id)[0] == OutcomeTempFile(id)[0] == 'a';
    assert BackupFile(id)[0] == 'r' && StagedFile(id)[0] == 's';
    JoinInjective(root, BackupFile(id), root, StagedFile(id));
    JoinInjective(root, BackupFile(id), root, PlanFile(id));
    JoinInjective(root, BackupFile(id), root, OutcomeFile(id));
    JoinInjective(root, BackupFile(id), root, OutcomeTempFile(id));
    JoinInjective(root, StagedFile(id), root, PlanFile(id));
    JoinInjective(root, StagedFile(id), root, OutcomeFile(id));
    JoinInjective(root, StagedFile(id), root, OutcomeTempFile(id));
    JoinInjective(root, PlanFile(id), root, OutcomeFile(id));
    JoinInjective(root, PlanFile(id), root, OutcomeTempFile(id));
    JoinInjective(root, OutcomeFile(id), root, OutcomeTempFile(id));
    assert HelperFile(id)[0] == 'a' && |HelperFile(id)| !in {|PlanFile(id)|, |OutcomeFile(id)|, |OutcomeTempFile(id)|};
    JoinInjective(root, HelperFile(id), root, BackupFile(id));
    JoinInjective(root, HelperFile(id), root, StagedFile(id));
    JoinInjective(root, HelperFile(id), root, PlanFile(id));
    JoinInjective(root, HelperFile(id), root, OutcomeFile(id));
    JoinInjective(root, HelperFile(id), root, OutcomeTempFile(id));
  }

  /**
   * A plan that loads for (root, id) carries that id and that root, so the backup name rollback derives
   * from the plan is the very file the backup step derived from (root, id).
   */
  lemma LoadedPlanMatches(root: string, id: string, decode: Bytes -> Option<Plan>, files: Files)
    requires LoadPlan(root, id, decode, files).Ok?
    ensures var plan := LoadPlan(root, id, decode, files).value;
            && plan.stagingId == id
            && Clean(DirPrefix(plan.stagedBinaryPath)) == Clean(root)
            && Clean(plan.stagedBinaryPath) == Join(root, StagedFile(id))
            && Join(DirPrefix(plan.stagedBinaryPath), BackupFile(plan.stagingId)) == Join(root, BackupFile(id))
  {
    var plan := LoadPlan(root, id, decode, files).value;
    var dir := DirPrefix(plan.stagedBinaryPath);
    NamesArePlain(id);
    NamesArePlain(plan.stagingId);
    JoinInjective(dir, PlanFile(plan.stagingId), root, PlanFile(id));
    assert PlanFile(id)[11..43] == id && PlanFile(plan.stagingId)[11..43] == plan.stagingId;
    JoinInjective(dir, StagedFile(id), root, StagedFile(id));
    JoinInjective(dir, BackupFile(id), root, BackupFile(id));
  }
}
