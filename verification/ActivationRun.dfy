/**
 * `ActivatePreparedUpdate` as the code runs it: calls on a disk and a service that may fail, in the code's order.
 * A ghost log matches every call with one machine step, so the safety results hold of the run's whole history.
 */
module ActivationRun {
  import opened Text
  import opened Paths
  import opened ActivationPlan
  import opened ActivationMachine
  import opened ActivationSafety
  import opened ActivationLog

  /** The plan loads, its binary is there and hashes, and the staged bytes are the ones it names. */
  ghost predicate Verifiable(env: Env, files: Files) {
    && env.hasController && env.validId && env.fetch(files).Ok?
    && var u := env.fetch(files).value;
       && u.installed in files && HashFile(env.maxBytes, env.hash, files, u.installed).Ok?
       && HashFile(env.maxBytes, env.hash, files, u.staged).Ok? && env.sameHash(env.hash(files[u.staged]), u.sha256)
  }

  /** Nothing stands in the way of an activation. */
  ghost predicate Ready(env: Env, files: Files) {
    Verifiable(env, files) && env.backup !in files
    && env.fetch(files).value.installTemp !in files && env.outcomeTemp !in files
  }

  /**
   * Only the swap file of an earlier run stands in the way of an activation, and nothing in the way of its rollback.
   */
  ghost predicate Blocked(env: Env, files: Files) {
    && Verifiable(env, files) && env.backup !in files
    && var u := env.fetch(files).value;
       && u.installTemp in files && u.rollbackTemp !in files
       && env.sameHash(env.hash(files[u.installed]), env.hash(files[u.installed]))
  }

  /** A checked copy can succeed: the source hashes within the limit and as expected, and the target is free. */
  ghost predicate Copyable(env: Env, files: Files, source: CleanPath, expected: string, target: CleanPath) {
    Readable(env, files, source, expected) && target !in files
  }

  ghost predicate Readable(env: Env, files: Files, source: CleanPath, expected: string) {
    && HashFile(env.maxBytes, env.hash, files, source).Ok?
    && (expected == "" || env.sameHash(env.hash(files[source]), expected))
  }

  /** The temporary of the outcome file is free, and no swap file takes its place. */
  predicate Clear(env: Env, plan: Update, files: Files) {
    env.outcomeTemp !in files && env.outcomeTemp != plan.installTemp && env.outcomeTemp != plan.installed
  }

  /** A rollback can succeed: the backup is there under its hash, and the swap file's place is free. */
  ghost predicate Restorable(env: Env, plan: Update, backupSha: string, files: Files) {
    Copyable(env, files, plan.restoreFrom, backupSha, plan.rollbackTemp) && plan.rollbackTemp != plan.installed
  }

  lemma ReadyToBackUp(env: Env, files: Files, plan: Update)
    requires Verifiable(env, files) && env.backup !in files && env.fetch(files) == Ok(plan)
    ensures Copyable(env, files, plan.installed, "", env.backup)
  {
  }

  lemma ReadyToPromote(env: Env, files: Files, plan: Update, content: Bytes)
    requires Ready(env, files) && env.fetch(files) == Ok(plan) && UpdateApart(env, plan)
    ensures var files' := files[env.backup := content];
            Copyable(env, files', plan.staged, plan.sha256, plan.installTemp) && plan.installTemp != plan.installed
            && Clear(env, plan, files')
  {
  }

  lemma ReadyToRestore(env: Env, files: Files, plan: Update)
    requires Blocked(env, files) && env.fetch(files) == Ok(plan) && UpdateApart(env, plan)
    ensures var content := files[plan.installed];
            Restorable(env, plan, env.hash(content), files[env.backup := content])
  {
  }

  class Host {
    /** The states of the disk, each different from the one before; the last is the present one. */
    var disk: seq<Files>
    const env: Env
    /** Whether calls may fail. */
    const faulty: bool

    constructor (env: Env, files: Files, faulty: bool)
      ensures this.env == env && this.faulty == faulty && disk == [files]
    {
      this.env, this.disk, this.faulty := env, [files], faulty;
    }

    /** What is on the disk. */
    function Now(): Files
      reads this
    {
      if disk == [] then map[] else disk[|disk| - 1]
    }

    /**
     * The log is a machine run that has reached `run` on this disk, by way of exactly the states the disk went through.
     */
    ghost predicate At(h: Log, run: Run)
      reads this
    {
      Logged(env, h) && Last(h) == Config(run, Now()) && disk == Trail(h)
    }

    /** The log ends with the return of this outcome. */
    ghost predicate Returned(h: Log, out: Outcome)
      reads this
    {
      h != [] && At(h, Last(h).run) && Last(h).run.pc == Done && Last(h).run.outcome == out
    }

    /** The outcome is in its file, whatever was there before. */
    ghost predicate Recorded(out: Outcome)
      reads this
    {
      out.evidencePersisted && Get(Now(), env.outcomeFile) == Some(env.encode(out))
    }

    // The disk and the service.

    method Attempt() returns (ok: bool)
      ensures !faulty ==> ok
    {
      var luck: bool := *;
      ok := luck || !faulty;
    }

    /** Every change of the disk. */
    method Become(files: Files)
      modifies this
      ensures disk == Moved(old(disk), files) && Now() == files
    {
      if disk == [] || disk[|disk| - 1] != files {
        disk := disk + [files];
      }
    }

    method CreateExclusive(p: CleanPath) returns (ok: bool)
      requires disk != []
      modifies this
      ensures disk == Moved(old(disk), Now())
      ensures ok ==> p !in old(Now()) && Now() == old(Now())[p := []]
      ensures !ok ==> Now() == old(Now()) && disk == old(disk) && (faulty || p in Now())
    {
      ok := Attempt();
      if ok && p !in Now() {
        Become(Now()[p := []]);
      } else {
        ok := false;
      }
    }

    method Write(p: CleanPath, content: Bytes) returns (ok: bool, n: nat)
      requires disk != []
      modifies this
      ensures disk == Moved(old(disk), Now())
      ensures Now() == Put(old(Now()), p, if ok then content else Prefix(content, n))
      ensures !faulty ==> ok
    {
      ok := Attempt();
      n := *;
      Become(Put(Now(), p, if ok then content else Prefix(content, n)));
    }

    method Remove(p: CleanPath) returns (ok: bool)
      requires disk != []
      modifies this
      ensures disk == Moved(old(disk), Now())
      ensures Now() == if ok then old(Now()) - {p} else old(Now())
      ensures !faulty ==> ok
    {
      ok := Attempt();
      Become(if ok then Now() - {p} else Now());
    }

    method Rename(from: CleanPath, to: CleanPath) returns (ok: bool)
      requires disk != []
      modifies this
      ensures disk == Moved(old(disk), Now())
      ensures ok ==> from in old(Now()) && Now() == (old(Now()) - {from})[to := old(Now())[from]]
      ensures !ok ==> Now() == old(Now()) && (faulty || from !in Now())
    {
      ok := Attempt();
      ok := ok && from in Now();
      Become(if ok then (Now() - {from})[to := Now()[from]] else Now());
    }

    // The code.

    /** Hash, compare, read: the part of the checked copy that changes nothing. */
    method ReadChecked(kind: CopyKind, source: CleanPath, expected: string, ghost h: Log, ghost r: Run)
      returns (v: Result<string>, raw: Bytes, ghost h': Log, ghost r': Run)
      requires At(h, r) && r.pc == CopyHash(kind) && source == Source(r.plan, kind) && expected == ExpectedHash(r, kind)
      ensures At(h', r') && h'[0] == h[0]
      ensures match v
              case Ok(hash) => r' == r.(pc := CopyOpen(kind), sourceHash := hash, raw := raw)
              case Err(why) => exists x :: r' == CopyFailed(r.(sourceHash := x), kind, why)
      ensures !faulty && Readable(env, Now(), source, expected) ==>
                v == Ok(env.hash(Now()[source])) && raw == Now()[source]
    {
      raw := [];
      var ok := Attempt();
      v := if ok then HashFile(env.maxBytes, env.hash, Now(), source) else Err(BinaryUnopenable);
      h' := TookCopied(env, h, Answer(ok));
      r' := Last(h').run;
      if v.Ok? && expected != "" && !env.sameHash(v.value, expected) {
        v := Err(HashMismatch);
      }
      if v.Err? {
        assert r' == CopyFailed(r.(sourceHash := r.sourceHash), kind, v.reason);
        return;
      }
      ghost var hash := v.value;
      ok := Attempt();
      h' := TookCopied(env, h', Answer(ok));
      r' := Last(h').run;
      if !ok || source !in Now() {
        v := Err(BinaryUnreadable);
      } else if |Now()[source]| > env.maxBytes > 0 {
        v := Err(BinaryTooLarge);
      } else {
        raw := Now()[source];
        return;
      }
      assert r' == CopyFailed(r.(sourceHash := hash), kind, v.reason);
    }

    /** Create exclusively, write, settle; a failure after creation gives the file up again. */
    method WriteNew(kind: CopyKind, target: CleanPath, raw: Bytes, ghost h: Log, ghost r: Run)
      returns (problem: Option<Reason>, ghost h': Log, ghost r': Run)
      requires At(h, r) && r.pc == CopyOpen(kind) && target == Target(env, r.plan, kind) && raw == r.raw
      requires kind == Backup ==> !r.holdsBackup
      modifies this
      ensures At(h', r') && h'[0] == h[0]
      ensures match problem
              case None => r' == CopyDone(r.(holdsBackup := r.holdsBackup || kind == Backup), kind)
              case Some(why) => r' == CopyFailed(r, kind, why)
      ensures !faulty && target !in old(Now()) ==> problem == None && Now() == old(Now())[target := raw]
      ensures target in old(Now()) ==> problem == Some(TempUnwritable) && Now() == old(Now())
    {
      var ok := CreateExclusive(target);
      if !ok {
        h' := TookCopied(env, h, Answer(false));
        return Some(TempUnwritable), h', Last(h').run;
      }
      h' := TookCopied(env, h, Works);
      problem, h', r' := FillNew(kind, target, raw, h', Last(h').run);
    }

    /** Write and settle the file this run has created. */
    method FillNew(kind: CopyKind, target: CleanPath, raw: Bytes, ghost h: Log, ghost r: Run)
      returns (problem: Option<Reason>, ghost h': Log, ghost r': Run)
      requires At(h, r) && r.pc == CopyWrite(kind) && target == Target(env, r.plan, kind) && raw == r.raw
      modifies this
      ensures At(h', r') && h'[0] == h[0]
      ensures match problem
              case None => r' == CopyDone(r, kind)
              case Some(why) => r' == CopyFailed(r.(holdsBackup := r.holdsBackup && kind != Backup), kind, why)
      ensures !faulty && target in old(Now()) ==> problem == None && Now() == old(Now())[target := raw]
    {
      var ok, n := Write(target, raw);
      h' := TookCopied(env, h, if ok then Works else Fails(n));
      if !ok {
        h' := GiveUpTemp(kind, target, TempUnwritable, h', Last(h').run);
        return Some(TempUnwritable), h', Last(h').run;
      }
      ok := Attempt();
      h' := TookCopied(env, h', Answer(ok));
      if !ok {
        h' := GiveUpTemp(kind, target, TempUnsettled, h', Last(h').run);
        return Some(TempUnsettled), h', Last(h').run;
      }
      return None, h', Last(h').run;
    }

    /** Remove a temporary; whether that works is not looked at. */
    method GiveUpTemp(kind: CopyKind, target: CleanPath, why: Reason, ghost h: Log, ghost r: Run)
      returns (ghost h': Log)
      requires At(h, r) && r.pc == CopyUndo(kind, why) && target == Target(env, r.plan, kind)
      modifies this
      ensures At(h', CopyFailed(r.(holdsBackup := r.holdsBackup && kind != Backup), kind, why)) && h'[0] == h[0]
    {
      var ok := Remove(target);
      h' := TookCopied(env, h, Answer(ok));
    }

    method CopyBinaryWithExpectedHash(kind: CopyKind, source: CleanPath, target: CleanPath, expected: string,
                                      ghost h: Log, ghost r: Run)
      returns (v: Result<string>, ghost h': Log, ghost mid: Run, ghost r': Run)
      requires At(h, r) && r.pc == CopyHash(kind)
      requires source == Source(r.plan, kind) && target == Target(env, r.plan, kind)
      requires expected == ExpectedHash(r, kind)
      requires kind == Backup ==> !r.holdsBackup
      modifies this
      ensures At(h', r') && h'[0] == h[0]
      ensures mid.(pc := r.pc, raw := r.raw, sourceHash := r.sourceHash, holdsBackup := r.holdsBackup) == r
      ensures match v
              case Ok(hash) => hash == mid.sourceHash && r' == CopyDone(mid, kind)
              case Err(why) => r' == CopyFailed(mid, kind, why)
      ensures !faulty && Copyable(env, old(Now()), source, expected, target) ==>
                v == Ok(env.hash(old(Now())[source])) && Now() == old(Now())[target := old(Now())[source]]
      ensures target in old(Now()) ==> v.Err? && Now() == old(Now())
      ensures !faulty && Readable(env, old(Now()), source, expected) && target in old(Now()) ==>
                v == Err(TempUnwritable)
    {
      var raw;
      v, raw, h', r' := ReadChecked(kind, source, expected, h, r);
      if v.Err? {
        ghost var x :| r' == CopyFailed(r.(sourceHash := x), kind, v.reason);
        mid := r.(sourceHash := x);
        return;
      }
      mid := r';
      var problem;
      problem, h', r' := WriteNew(kind, target, raw, h', mid);
      if problem.Some? {
        v := Err(problem.value);
      } else {
        mid := mid.(holdsBackup := mid.holdsBackup || kind == Backup);
      }
    }

    method ReplaceFile(kind: CopyKind, temp: CleanPath, final: CleanPath, ghost h: Log, ghost r: Run)
      returns (ok: bool, ghost h': Log, ghost r': Run)
      requires At(h, r) && r.pc == SwapRemove(kind) && temp == Target(env, r.plan, kind) && final == r.plan.installed
      modifies this
      ensures At(h', r') && h'[0] == h[0]
      ensures r' == if ok then r.(pc := StartService(kind)) else SwapFailed(r, kind)
      ensures !faulty && temp in old(Now()) && temp != final ==> ok
      ensures final != env.outcomeTemp && env.outcomeTemp !in old(Now()) ==> env.outcomeTemp !in Now()
    {
      ok := Remove(final);
      h' := TookSwapped(env, h, Answer(ok));
      if !ok {
        h' := GiveUpSwap(kind, temp, h', r.(pc := SwapUndo(kind)));
        return false, h', SwapFailed(r, kind);
      }
      ok, h', r' := RenameAndHarden(kind, temp, final, h', r.(pc := SwapRename(kind)));
    }

    /** The second half of the swap, once the installed path is clear. */
    method RenameAndHarden(kind: CopyKind, temp: CleanPath, final: CleanPath, ghost h: Log, ghost r: Run)
      returns (ok: bool, ghost h': Log, ghost r': Run)
      requires At(h, r) && r.pc == SwapRename(kind) && temp == Target(env, r.plan, kind) && final == r.plan.installed
      modifies this
      ensures At(h', r') && h'[0] == h[0]
      ensures r' == if ok then r.(pc := StartService(kind)) else SwapFailed(r, kind)
      ensures !faulty && temp in old(Now()) ==> ok
      ensures final != env.outcomeTemp && env.outcomeTemp !in old(Now()) ==> env.outcomeTemp !in Now()
    {
      ok := Rename(temp, final);
      h' := TookSwapped(env, h, Answer(ok));
      if !ok {
        h' := GiveUpSwap(kind, temp, h', r.(pc := SwapUndo(kind)));
        return false, h', SwapFailed(r, kind);
      }
      ok := Attempt();
      h' := TookSwapped(env, h', Answer(ok));
      r' := Last(h').run;
    }

    method GiveUpSwap(kind: CopyKind, temp: CleanPath, ghost h: Log, ghost r: Run) returns (ghost h': Log)
      requires At(h, r) && r.pc == SwapUndo(kind) && temp == Target(env, r.plan, kind)
      modifies this
      ensures At(h', SwapFailed(r, kind)) && h'[0] == h[0]
      ensures env.outcomeTemp !in old(Now()) ==> env.outcomeTemp !in Now()
    {
      var ok := Remove(temp);
      h' := TookSwapped(env, h, Answer(ok));
    }

    /** `atomicWriteLocalSelfUpdateJSON` on the outcome file, and what it makes of the outcome. */
    method WriteOutcome(o: Outcome, ghost h: Log, ghost r: Run) returns (out: Outcome, ghost h': Log)
      requires At(h, r) && r.pc == RecordOpen && r.outcome == o
      modifies this
      ensures At(h', r.(pc := Done, outcome := out)) && h'[0] == h[0]
      ensures !faulty && env.validId && env.outcomeTemp !in old(Now()) ==> out == o.(evidencePersisted := true)
      ensures o.status != Activated ==> out.status == o.status && out.reason == o.reason
      ensures out == o.(evidencePersisted := true) && !o.evidencePersisted ==>
                Get(Now(), env.outcomeFile) == Some(env.encode(out))
    {
      var lost := if o.status == Activated then o.(status := Failed, reason := EvidenceLost)
                  else o.(evidenceError := true);
      var ok := false;
      if env.validId {
        ok := CreateExclusive(env.outcomeTemp);
      }
      h' := TookRecorded(env, h, Answer(ok));
      if !ok {
        return lost, h';
      }
      ok, h' := FillOutcome(o, h', Last(h').run);
      if !ok {
        h' := GiveUpOutcome(h', Last(h').run);
        return lost, h';
      }
      ok := Attempt();
      h' := TookRecorded(env, h', Answer(ok));
      return if ok then o.(evidencePersisted := true) else lost, h';
    }

    /** Remove the temporary of an outcome that could not be put in place. */
    method GiveUpOutcome(ghost h: Log, ghost r: Run) returns (ghost h': Log)
      requires At(h, r) && r.pc == RecordUndo
      modifies this
      ensures At(h', RecordFailed(r)) && h'[0] == h[0]
    {
      var ok := Remove(env.outcomeTemp);
      h' := TookRecorded(env, h, Answer(ok));
    }

    /** Write, settle and rename the created temporary. */
    method FillOutcome(o: Outcome, ghost h: Log, ghost r: Run) returns (ok: bool, ghost h': Log)
      requires At(h, r) && r.pc == RecordWrite && r.outcome == o
      modifies this
      ensures At(h', r.(pc := if ok then RecordHarden else RecordUndo)) && h'[0] == h[0]
      ensures !faulty && env.outcomeTemp in old(Now()) ==> ok
      ensures env.outcomeTemp in old(Now()) && ok ==>
                Get(Now(), env.outcomeFile) == Some(env.encode(o.(evidencePersisted := true)))
    {
      var n;
      ok, n := Write(env.outcomeTemp, env.encode(o.(evidencePersisted := true)));
      h' := TookRecorded(env, h, if ok then Works else Fails(n));
      if ok {
        ok := Attempt();
        h' := TookRecorded(env, h', Answer(ok));
        if ok {
          ok := Rename(env.outcomeTemp, env.outcomeFile);
          h' := TookRecorded(env, h', Answer(ok));
        }
      }
    }

    method RollbackAfterActivationFailure(plan: Update, backupSha: string, cause: Reason, ghost h: Log, ghost r: Run)
      returns (out: Outcome, ghost h': Log)
      requires At(h, r) && r.pc == CopyHash(Restore) && r.plan == plan && r.backupSha == backupSha && r.cause == cause
      modifies this
      ensures Returned(h', out) && h'[0] == h[0]
      ensures !faulty && Restorable(env, plan, backupSha, old(Now())) ==> out.status == RolledBack
    {
      var copied;
      ghost var mid, r';
      copied, h', mid, r' := CopyBinaryWithExpectedHash(Restore, plan.restoreFrom, plan.rollbackTemp, backupSha, h, r);
      if copied.Err? {
        out, h' := WriteOutcome(
          FailedOutcome(plan.planId, plan.targetVersion, backupSha, RollbackRestoreFailed(copied.reason)), h', r');
        return;
      }
      out, h' := PromoteRestored(plan, backupSha, cause, h', r');
    }

    /** The second part of a rollback: swap the restored binary in, and start it. */
    method PromoteRestored(plan: Update, backupSha: string, cause: Reason, ghost h: Log, ghost r: Run)
      returns (out: Outcome, ghost h': Log)
      requires At(h, r) && r.pc == SwapRemove(Restore)
      requires r.plan == plan && r.backupSha == backupSha && r.cause == cause
      modifies this
      ensures Returned(h', out) && h'[0] == h[0]
      ensures !faulty && plan.rollbackTemp in old(Now()) && plan.rollbackTemp != plan.installed ==>
                out.status == RolledBack
    {
      var ok;
      ghost var r';
      ok, h', r' := ReplaceFile(Restore, plan.rollbackTemp, plan.installed, h, r);
      if !ok {
        out, h' := WriteOutcome(
          FailedOutcome(plan.planId, plan.targetVersion, backupSha, RollbackPromoteFailed), h', r');
        return;
      }
      out, h' := StartRestored(plan, backupSha, cause, h', r');
    }

    /** The last part of a rollback: start what was there before, and record. */
    method StartRestored(plan: Update, backupSha: string, cause: Reason, ghost h: Log, ghost r: Run)
      returns (out: Outcome, ghost h': Log)
      requires At(h, r) && r.pc == StartService(Restore)
      requires r.plan == plan && r.backupSha == backupSha && r.cause == cause
      modifies this
      ensures Returned(h', out) && h'[0] == h[0]
      ensures !faulty ==> out.status == RolledBack
    {
      var ok := Attempt();
      h' := TookSwapped(env, h, Answer(ok));
      if !ok {
        out, h' := WriteOutcome(
          FailedOutcome(plan.planId, plan.targetVersion, backupSha, RollbackStartFailed), h', Last(h').run);
        return;
      }
      out, h' := WriteOutcome(
        Outcome(RolledBack, plan.planId, plan.targetVersion, "", backupSha, true, false, false,
                RollbackRestored(cause)),
        h', Last(h').run);
    }

    /** `VerifyActivationPlanReady`: load again, look at the installed file, hash the staged one. */
    method VerifyReady(ghost h: Log, ghost r: Run) returns (problem: Option<Reason>, ghost h': Log, ghost r': Run)
      requires At(h, r) && r.pc == VerifyLoad
      ensures At(h', r') && h'[0] == h[0]
      ensures match problem
              case None => r' == r.(pc := CopyHash(Backup), checked := r'.checked)
              case Some(why) => exists u :: r' == GiveUp(r.(checked := u), why)
      ensures !faulty && Verifiable(env, Now()) ==> problem == None
    {
      var ok := Attempt();
      var loaded := if ok then env.fetch(Now()) else Err(PlanUnreadable);
      h' := TookPrepared(env, h, Answer(ok));
      if loaded.Err? {
        assert Last(h').run == GiveUp(r.(checked := r.checked), loaded.reason);
        return Some(loaded.reason), h', Last(h').run;
      }
      var plan := loaded.value;
      ok := Attempt();
      h' := TookPrepared(env, h', Answer(ok));
      if !ok || plan.installed !in Now() {
        assert Last(h').run == GiveUp(r.(checked := plan), CurrentUnreadable);
        return Some(CurrentUnreadable), h', Last(h').run;
      }
      problem, h', r' := VerifyStaged(plan, h', Last(h').run);
      assert problem.Some? ==> r' == GiveUp(r.(checked := plan), problem.value);
    }

    /** The staged binary hashes to what the plan says. */
    method VerifyStaged(plan: Update, ghost h: Log, ghost r: Run)
      returns (problem: Option<Reason>, ghost h': Log, ghost r': Run)
      requires At(h, r) && r.pc == VerifyHash && r.checked == plan
      ensures At(h', r') && h'[0] == h[0]
      ensures match problem
              case None => r' == r.(pc := CopyHash(Backup))
              case Some(why) => r' == GiveUp(r, why)
      ensures !faulty && HashFile(env.maxBytes, env.hash, Now(), plan.staged).Ok?
              && env.sameHash(env.hash(Now()[plan.staged]), plan.sha256)
              ==> problem == None
    {
      var ok := Attempt();
      var hashed := if ok then HashFile(env.maxBytes, env.hash, Now(), plan.staged) else Err(BinaryUnopenable);
      h' := TookPrepared(env, h, Answer(ok));
      r' := Last(h').run;
      if hashed.Err? {
        return Some(hashed.reason), h', r';
      }
      if !env.sameHash(hashed.value, plan.sha256) {
        return Some(HashMismatch), h', r';
      }
      problem := None;
    }

    /** Copy the staged binary beside the installed one and swap it in. */
    method InstallNew(plan: Update, ghost h: Log, ghost r: Run)
      returns (v: Result<string>, cause: Reason, ghost h': Log, ghost r': Run)
      requires At(h, r) && r.pc == CopyHash(Promote) && r.plan == plan
      modifies this
      ensures At(h', r') && h'[0] == h[0] && r'.plan == plan && r'.backupSha == r.backupSha
      ensures match v
              case Ok(hash) => r'.pc == StartService(Promote) && r'.newSha == hash
              case Err(_) => r'.pc == CopyHash(Restore) && r'.cause == cause
      ensures !faulty && Copyable(env, old(Now()), plan.staged, plan.sha256, plan.installTemp)
              && plan.installTemp != plan.installed
              && Clear(env, plan, old(Now()))
              ==> v.Ok? && env.outcomeTemp !in Now()
      ensures plan.installTemp in old(Now()) ==> v.Err? && Now() == old(Now())
    {
      ghost var mid;
      cause := PromoteFailed;
      v, h', mid, r' := CopyBinaryWithExpectedHash(Promote, plan.staged, plan.installTemp, plan.sha256, h, r);
      if v.Err? {
        cause := BinaryActivationFailed(v.reason);
        return;
      }
      var ok;
      ok, h', r' := ReplaceFile(Promote, plan.installTemp, plan.installed, h', r');
      if !ok {
        v := Err(PromoteFailed);
      }
    }

    /** From the stopped service to the recorded outcome. */
    method SwapIn(plan: Update, backupSha: string, ghost h: Log, ghost r: Run) returns (out: Outcome, ghost h': Log)
      requires At(h, r) && r.pc == CopyHash(Promote) && r.plan == plan && r.backupSha == backupSha
      modifies this
      ensures Returned(h', out) && h'[0] == h[0]
      ensures !faulty && Copyable(env, old(Now()), plan.staged, plan.sha256, plan.installTemp)
              && plan.installTemp != plan.installed
              && env.validId && Clear(env, plan, old(Now()))
              ==> out.status == Activated && out.evidencePersisted
      ensures !faulty && plan.installTemp in old(Now()) && Restorable(env, plan, backupSha, old(Now())) ==>
                out.status == RolledBack
    {
      var installed, cause;
      ghost var r';
      installed, cause, h', r' := InstallNew(plan, h, r);
      if installed.Err? {
        out, h' := RollbackAfterActivationFailure(plan, backupSha, cause, h', r');
        return;
      }
      out, h' := Finish(plan, installed.value, backupSha, h', r');
    }

    /** Start over the new binary, advance the high-water mark, record. */
    method Finish(plan: Update, newSha: string, backupSha: string, ghost h: Log, ghost r: Run)
      returns (out: Outcome, ghost h': Log)
      requires At(h, r) && r.pc == StartService(Promote) && r.plan == plan && r.newSha == newSha
      requires r.backupSha == backupSha
      modifies this
      ensures Returned(h', out) && h'[0] == h[0]
      ensures !faulty && env.validId && env.outcomeTemp !in old(Now()) ==>
                out.status == Activated && out.evidencePersisted
    {
      var ok := Attempt();
      h' := TookSwapped(env, h, Answer(ok));
      if !ok {
        out, h' := RollbackAfterActivationFailure(plan, backupSha, StartFailed, h', Last(h').run);
        return;
      }
      ok := Attempt();
      h' := TookSwapped(env, h', Answer(ok));
      if env.hasHighWater && !ok {
        out, h' := WriteOutcome(
          FailedOutcome(plan.planId, plan.targetVersion, backupSha, HighWaterFailed), h', Last(h').run);
        return;
      }
      out, h' := WriteOutcome(
        Outcome(Activated, plan.planId, plan.targetVersion, newSha, backupSha, true, false, false, Applied),
        h', Last(h').run);
    }

    /** The whole call, in the code's order. */
    method Activate() returns (out: Outcome, ghost h: Log)
      requires disk == [Now()] && Layout(env, Now())
      modifies this
      ensures Returned(h, out) && h[0].files == old(Now())
      ensures !faulty && Ready(env, old(Now())) ==> out.status == Activated && out.evidencePersisted
      ensures !faulty && Blocked(env, old(Now())) ==> out.status == RolledBack
      ensures env.backup in old(Now()) ==> out.status == Failed
      ensures !faulty && env.validId && env.backup in old(Now()) && env.outcomeTemp !in old(Now()) ==>
                Recorded(out) && (Verifiable(env, old(Now())) ==> out.reason == TempUnwritable)
    {
      ghost var h0 := [Config(Start(), Now())];
      h := TookPrepared(env, h0, Works);
      if !env.hasController {
        out, h := WriteOutcome(
          FailedOutcome(if env.validId then env.id else "", "", "", ControllerMissing), h, Last(h).run);
        return;
      }
      var ok := Attempt();
      var loaded := if ok then env.fetch(Now()) else Err(PlanUnreadable);
      h := TookPrepared(env, h, Answer(ok));
      if loaded.Err? {
        out, h := WriteOutcome(FailedOutcome(env.id, "", "", loaded.reason), h, Last(h).run);
        return;
      }
      var plan := loaded.value;
      var problem;
      ghost var r';
      problem, h, r' := VerifyReady(h, Last(h).run);
      if problem.Some? {
        out, h := WriteOutcome(FailedOutcome(plan.planId, plan.targetVersion, "", problem.value), h, r');
        return;
      }
      out, h := BackUpAndSwap(plan, h, r');
    }

    method BackUpAndSwap(plan: Update, ghost h: Log, ghost r: Run) returns (out: Outcome, ghost h': Log)
      requires At(h, r) && r.pc == CopyHash(Backup) && r.plan == plan && !r.holdsBackup && r.backupSha == ""
      requires Layout(env, h[0].files)
      modifies this
      ensures Returned(h', out) && h'[0] == h[0]
      ensures !faulty && Ready(env, old(Now())) && env.fetch(old(Now())) == Ok(plan) && UpdateApart(env, plan)
              ==> out.status == Activated && out.evidencePersisted
      ensures !faulty && Blocked(env, old(Now())) && env.fetch(old(Now())) == Ok(plan) && UpdateApart(env, plan)
              ==> out.status == RolledBack
      ensures !faulty && env.validId && Verifiable(env, old(Now())) && env.fetch(old(Now())) == Ok(plan)
              && env.backup in old(Now()) && env.outcomeTemp !in old(Now())
              ==> out.reason == TempUnwritable
      ensures env.backup in old(Now()) ==> out.status == Failed
      ensures !faulty && env.validId && env.backup in old(Now()) && env.outcomeTemp !in old(Now()) ==> Recorded(out)
    {
      var backed;
      ghost var mid, r';
      if Ready(env, Now()) && env.fetch(Now()) == Ok(plan) && UpdateApart(env, plan) {
        ReadyToBackUp(env, Now(), plan);
        ReadyToPromote(env, Now(), plan, Now()[plan.installed]);
      }
      if Blocked(env, Now()) && env.fetch(Now()) == Ok(plan) && UpdateApart(env, plan) {
        ReadyToBackUp(env, Now(), plan);
        ReadyToRestore(env, Now(), plan);
      }
      backed, h', mid, r' := CopyBinaryWithExpectedHash(Backup, plan.installed, env.backup, "", h, r);
      if backed.Err? {
        out, h' := WriteOutcome(FailedOutcome(plan.planId, plan.targetVersion, "", backed.reason), h', r');
        return;
      }
      var ok := Attempt();
      h' := TookSwapped(env, h', Answer(ok));
      if !ok {
        out, h' := WriteOutcome(
          FailedOutcome(plan.planId, plan.targetVersion, backed.value, StopFailed), h', Last(h').run);
        return;
      }
      out, h' := SwapIn(plan, backed.value, h', Last(h').run);
    }

    /** What the call promises of every state the disk passes through, and on return. */
    method ActivatePreparedUpdate() returns (out: Outcome, ghost h: Log)
      requires disk == [Now()] && Layout(env, Now())
      modifies this
      ensures Logged(env, h) && h[0].files == old(Now()) && disk == Trail(h)
      ensures var loaded := env.fetch(old(Now()));
              && (forall k | 0 <= k < |disk| && loaded.Ok? :: InstalledSound(env, loaded.value, old(Now()), disk[k]))
              && (forall k | 0 <= k < |h| && h[k].run.stops > 0 ::
                    loaded.Ok? && BackupHeld(env, loaded.value, old(Now()), h[k].files))
              && (out.status == Activated ==> loaded.Ok? && NewInstalled(env, loaded.value, old(Now()), Now()))
              && (out.status == RolledBack ==>
                    && loaded.Ok? && InstalledKept(loaded.value, old(Now()), Now())
                    && Last(h).run.lastStart == Some(Get(old(Now()), loaded.value.installed)))
              && (loaded.Ok? && loaded.value.installed in old(Now()) && loaded.value.installed !in Now() ==>
                    out.status == Failed && (out.reason.RollbackRestoreFailed? || out.reason == RollbackPromoteFailed))
      ensures !faulty && Ready(env, old(Now())) ==> out.status == Activated && out.evidencePersisted
      ensures !faulty && Blocked(env, old(Now())) ==> out.status == RolledBack
      ensures env.backup in old(Now()) ==> out.status == Failed
      ensures !faulty && env.validId && env.backup in old(Now()) && env.outcomeTemp !in old(Now()) ==>
                Recorded(out) && (Verifiable(env, old(Now())) ==> out.reason == TempUnwritable)
    {
      ghost var files0 := Now();
      out, h := Activate();
      ghost var b := LogIsBehaviour(env, h);
      SafeThroughout(env, files0, h, b);
      forall k | 0 <= k < |disk| && env.fetch(files0).Ok?
        ensures InstalledSound(env, env.fetch(files0).value, files0, disk[k])
      {
        var j := TrailIsLogged(h, k);
      }
    }
  }

  lemma SafeThroughout(env: Env, files0: Files, h: Log, b: seq<System>)
    requires Layout(env, files0) && h != [] && |b| == |h| && Behaviour(env, files0, b) && Last(h).run.pc == Done
    requires forall k | 0 <= k < |h| :: b[k] == System(h[k].files, [h[k].run], {})
    ensures var loaded, out, files := env.fetch(files0), Last(h).run.outcome, Last(h).files;
            && (forall k | 0 <= k < |h| && loaded.Ok? :: InstalledSound(env, loaded.value, files0, h[k].files))
            && (forall k | 0 <= k < |h| && h[k].run.stops > 0 ::
                  loaded.Ok? && BackupHeld(env, loaded.value, files0, h[k].files))
            && (out.status == Activated ==> loaded.Ok? && NewInstalled(env, loaded.value, files0, files))
            && (out.status == RolledBack ==>
                  && loaded.Ok? && InstalledKept(loaded.value, files0, files)
                  && Last(h).run.lastStart == Some(Get(files0, loaded.value.installed)))
            && (loaded.Ok? && loaded.value.installed in files0 && loaded.value.installed !in files ==>
                  out.status == Failed && (out.reason.RollbackRestoreFailed? || out.reason == RollbackPromoteFailed))
  {
    var last := |h| - 1;
    assert b[last].runs[0] == Last(h).run;
    OutcomeMeansDisk(env, files0, b, last, 0);
    OnlyTheStopperRemoves(env, files0, b, last);
    StopAtMostOnce(env, files0, b, last, 0, 0);
    assert Last(h).run.stops == 0 ==> forall i | 0 <= i < |b[last].runs| :: b[last].runs[i].stops == 0;
    forall k | 0 <= k < |h|
      ensures env.fetch(files0).Ok? ==> InstalledSound(env, env.fetch(files0).value, files0, h[k].files)
      ensures h[k].run.stops > 0 ==>
                env.fetch(files0).Ok? && BackupHeld(env, env.fetch(files0).value, files0, h[k].files)
    {
      assert b[k].runs[0] == h[k].run;
      StopAtMostOnce(env, files0, b, k, 0, 0);
      if env.fetch(files0).Ok? {
        InstalledAlwaysSound(env, files0, b, k);
      }
    }
  }

  /** While no run has called Stop the installed file is as it was. */
  lemma OnlyTheStopperRemoves(env: Env, files0: Files, b: seq<System>, k: nat)
    requires Layout(env, files0) && Behaviour(env, files0, b) && k < |b|
    ensures env.fetch(files0).Ok? && (forall i | 0 <= i < |b[k].runs| :: b[k].runs[i].stops == 0) ==>
              InstalledKept(env.fetch(files0).value, files0, b[k].files)
    ensures forall i | 0 <= i < |b[k].runs| && b[k].runs[i].stops > 0 :: env.fetch(files0) == Ok(b[k].runs[i].plan)
  {
    InvAlways(env, files0, b, k);
    forall i | 0 <= i < |b[k].runs| && b[k].runs[i].stops > 0
      ensures env.fetch(files0) == Ok(b[k].runs[i].plan)
    {
      assert Bystander(env, files0, b[k].runs[i], Passed(b[k])) || Holder(env, files0, b[k].files, b[k].runs[i]);
    }
  }
}
