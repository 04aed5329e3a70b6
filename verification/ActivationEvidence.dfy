/**
 * What the outcome file holds, in every interleaving: what was there before, or a whole outcome that tells what is
 * installed.
 */
module ActivationEvidence {
  import opened Text
  import opened Paths
  import opened ActivationPlan
  import opened ActivationMachine
  import opened ActivationSafety

  /** The outcome as it goes into the file. */
  function Evidence(o: Outcome): Outcome { o.(evidencePersisted := true) }

  /** What becomes of an outcome whose evidence fails after all. */
  function Lost(o: Outcome): Outcome {
    if o.status == Activated then o.(status := Failed, reason := EvidenceLost) else o.(evidenceError := true)
  }

  /** The run put this outcome into the file. */
  predicate Wrote(r: Run, o: Outcome) {
    || (r.pc == RecordHarden && r.outcome == o)
    || (r.pc == Done && r.outcome == Evidence(o))
    || (r.pc == Done && r.outcome == Lost(o) && (o.status == Activated ==> r.stops == 1))
  }

  ghost predicate FromRun(env: Env, files: Files, r: Run) {
    exists o :: Wrote(r, o) && Get(files, env.outcomeFile) == Some(env.encode(Evidence(o)))
  }

  /** The run has created the temporary of the outcome file and still answers for it. */
  predicate Owner(pc: Pc) {
    pc == RecordWrite || pc == RecordSettle || pc == RecordRename || pc == RecordUndo
  }

  ghost predicate TempFits(env: Env, files: Files, r: Run) {
    && (Owner(r.pc) ==> env.validId && env.outcomeTemp in files)
    && (r.pc == RecordSettle || r.pc == RecordRename ==>
          Get(files, env.outcomeTemp) == Some(env.encode(Evidence(r.outcome))))
  }

  ghost predicate FileFits(env: Env, files0: Files, s: System) {
    || Get(s.files, env.outcomeFile) == Get(files0, env.outcomeFile)
    || exists i :: 0 <= i < |s.runs| && FromRun(env, s.files, s.runs[i])
  }

  ghost predicate Kept(env: Env, files0: Files, s: System) {
    && (forall i | 0 <= i < |s.runs| :: TempFits(env, s.files, s.runs[i]))
    && (forall i, j | 0 <= i < |s.runs| && 0 <= j < |s.runs| && Owner(s.runs[i].pc) && Owner(s.runs[j].pc) :: i == j)
    && FileFits(env, files0, s)
  }

  // One call.

  /** What a call may do to the outcome file and its temporary, and to a run's part in them. */
  ghost predicate Careful(env: Env, files: Files, r: Run, post: Config) {
    && TempFits(env, post.files, post.run)
    && (Get(post.files, env.outcomeTemp) == Get(files, env.outcomeTemp) || Owner(r.pc) || env.outcomeTemp !in files)
    && (Owner(post.run.pc) ==> Owner(r.pc) || env.outcomeTemp !in files)
    && (Get(post.files, env.outcomeFile) == Get(files, env.outcomeFile) || FromRun(env, post.files, post.run))
    && (FromRun(env, files, r) ==> FromRun(env, post.files, post.run))
  }

  lemma RecordingIsCareful(env: Env, files: Files, r: Run, c: Choice)
    requires env.validId ==> env.outcomeFile != env.outcomeTemp
    requires TempFits(env, files, r) && (r.outcome.status == Activated ==> r.stops == 1)
    requires Recording(r.pc)
    ensures Careful(env, files, r, RecordingStep(env, r, files, c))
  {
    var post := RecordingStep(env, r, files, c);
    if r.pc == RecordRename {
      RenameIsCareful(env, files, r, c);
    } else if r.pc == RecordHarden {
      HardenKeepsAuthor(env, files, r, post);
    } else if r.pc != Done {
      FillIsCareful(env, files, r, c);
    }
  }

  lemma RenameIsCareful(env: Env, files: Files, r: Run, c: Choice)
    requires env.outcomeFile != env.outcomeTemp && TempFits(env, files, r) && r.pc == RecordRename
    ensures Careful(env, files, r, StepRecord(env, r, files, c))
  {
    var post := StepRecord(env, r, files, c);
    assert forall o :: !Wrote(r, o);
    assert post.run.pc == RecordHarden ==> Wrote(post.run, r.outcome);
  }

  lemma FillIsCareful(env: Env, files: Files, r: Run, c: Choice)
    requires env.validId ==> env.outcomeFile != env.outcomeTemp
    requires TempFits(env, files, r)
    requires r.pc == RecordOpen || r.pc == RecordWrite || r.pc == RecordSettle || r.pc == RecordUndo
    ensures Careful(env, files, r, StepRecord(env, r, files, c))
  {
    assert forall o :: !Wrote(r, o);
  }

  lemma HardenKeepsAuthor(env: Env, files: Files, r: Run, post: Config)
    requires r.pc == RecordHarden && (r.outcome.status == Activated ==> r.stops == 1) && post.files == files
    requires post.run == r.(pc := Done, outcome := Evidence(r.outcome))
             || post.run == r.(pc := Done, outcome := Lost(r.outcome))
    ensures FromRun(env, files, r) ==> FromRun(env, post.files, post.run)
  {
    if FromRun(env, files, r) {
      assert Wrote(post.run, r.outcome);
    }
  }

  /** Everything before recording goes on in other files. */
  lemma WorkIsCareful(env: Env, files0: Files, files: Files, r: Run, c: Choice, passed: bool)
    requires Apart(env, files0) && !Recording(r.pc)
    requires Bystander(env, files0, r, passed) || Holder(env, files0, files, r)
    ensures Careful(env, files, r, Step(env, r, files, c))
  {
    assert forall o :: !Wrote(r, o);
    if Copying(r.pc) {
      CopyIsElsewhere(env, files0, files, r, c, passed);
    } else if Swapping(r.pc) {
      SwapIsElsewhere(env, files0, files, r, c, passed);
    }
  }

  predicate Elsewhere(env: Env, files: Files, post: Config) {
    && Get(post.files, env.outcomeTemp) == Get(files, env.outcomeTemp)
    && Get(post.files, env.outcomeFile) == Get(files, env.outcomeFile)
    && !Owner(post.run.pc) && post.run.pc != RecordSettle && post.run.pc != RecordRename
  }

  lemma CopyIsElsewhere(env: Env, files0: Files, files: Files, r: Run, c: Choice, passed: bool)
    requires Apart(env, files0) && Copying(r.pc)
    requires Bystander(env, files0, r, passed) || Holder(env, files0, files, r)
    ensures Elsewhere(env, files, StepCopy(env, r, files, c))
  {
    if r.pc.CopyOpen? || r.pc.CopyWrite? || r.pc.CopyUndo? {
      TargetIsApart(env, files0, files, r, passed);
      WriteIsElsewhere(env, files, r, c);
    }
  }

  lemma TargetIsApart(env: Env, files0: Files, files: Files, r: Run, passed: bool)
    requires Apart(env, files0) && (r.pc.CopyOpen? || r.pc.CopyWrite? || r.pc.CopyUndo?)
    requires Bystander(env, files0, r, passed) || Holder(env, files0, files, r)
    ensures Target(env, r.plan, r.pc.kind) !in {env.outcomeTemp, env.outcomeFile}
  {
  }

  lemma WriteIsElsewhere(env: Env, files: Files, r: Run, c: Choice)
    requires r.pc.CopyOpen? || r.pc.CopyWrite? || r.pc.CopyUndo?
    requires Target(env, r.plan, r.pc.kind) !in {env.outcomeTemp, env.outcomeFile}
    ensures Elsewhere(env, files, StepCopy(env, r, files, c))
  {
  }

  lemma SwapIsElsewhere(env: Env, files0: Files, files: Files, r: Run, c: Choice, passed: bool)
    requires Apart(env, files0) && Swapping(r.pc)
    requires Bystander(env, files0, r, passed) || Holder(env, files0, files, r)
    ensures Elsewhere(env, files, StepSwap(env, r, files, c))
  {
  }

  // All runs.

  lemma CarefulKeeps(env: Env, files0: Files, s: System, m: nat, post: Config)
    requires Kept(env, files0, s) && m < |s.runs| && Careful(env, s.files, s.runs[m], post)
    ensures Kept(env, files0, System(post.files, s.runs[m := post.run], s.dead))
  {
    var s' := System(post.files, s.runs[m := post.run], s.dead);
    forall i | 0 <= i < |s'.runs| ensures TempFits(env, s'.files, s'.runs[i]) {
      if i != m {
        OthersFit(env, files0, s, m, post, i);
      }
    }
    forall i, j | 0 <= i < |s'.runs| && 0 <= j < |s'.runs| && Owner(s'.runs[i].pc) && Owner(s'.runs[j].pc)
      ensures i == j {
      OneOwner(env, files0, s, m, post, i, j);
    }
    FileGoesOn(env, files0, s, m, post);
  }

  lemma OthersFit(env: Env, files0: Files, s: System, m: nat, post: Config, i: nat)
    requires Kept(env, files0, s) && m < |s.runs| && Careful(env, s.files, s.runs[m], post) && i < |s.runs| && i != m
    ensures TempFits(env, post.files, s.runs[i])
  {
    assert TempFits(env, s.files, s.runs[i]);
    assert Owner(s.runs[i].pc) && Owner(s.runs[m].pc) ==> i == m;
  }

  lemma OneOwner(env: Env, files0: Files, s: System, m: nat, post: Config, i: nat, j: nat)
    requires Kept(env, files0, s) && m < |s.runs| && Careful(env, s.files, s.runs[m], post) && i < |s.runs|
    requires j < |s.runs|
    requires var runs := s.runs[m := post.run]; Owner(runs[i].pc) && Owner(runs[j].pc)
    ensures i == j
  {
    assert TempFits(env, s.files, s.runs[i]) && TempFits(env, s.files, s.runs[j]);
    assert Owner(s.runs[i].pc) && Owner(s.runs[j].pc) ==> i == j;
  }

  lemma FileGoesOn(env: Env, files0: Files, s: System, m: nat, post: Config)
    requires FileFits(env, files0, s) && m < |s.runs| && Careful(env, s.files, s.runs[m], post)
    ensures FileFits(env, files0, System(post.files, s.runs[m := post.run], s.dead))
  {
    var s' := System(post.files, s.runs[m := post.run], s.dead);
    assert s'.runs[m] == post.run;
    if i :| 0 <= i < |s.runs| && FromRun(env, s.files, s.runs[i]) {
      AuthorStays(env, s, m, post, i);
    }
  }

  lemma AuthorStays(env: Env, s: System, m: nat, post: Config, i: nat)
    requires m < |s.runs| && Careful(env, s.files, s.runs[m], post) && i < |s.runs| && FromRun(env, s.files, s.runs[i])
    ensures var runs := s.runs[m := post.run];
            exists j :: 0 <= j < |runs| && FromRun(env, post.files, runs[j])
  {
    var runs := s.runs[m := post.run];
    if Get(post.files, env.outcomeFile) != Get(s.files, env.outcomeFile) || i == m {
      assert FromRun(env, post.files, runs[m]);
    } else {
      assert FromRun(env, post.files, runs[i]);
    }
  }

  lemma MoveKeepsFile(env: Env, files0: Files, s: System, s': System, m: nat, c: Choice)
    requires Layout(env, files0) && Inv(env, files0, s) && Kept(env, files0, s) && Moves(env, s, s', m, c)
    requires env.validId ==> env.outcomeFile != env.outcomeTemp
    ensures Kept(env, files0, s')
  {
    var r := s.runs[m];
    assert Bystander(env, files0, r, Passed(s)) || Holder(env, files0, s.files, r);
    if Recording(r.pc) {
      RecordingIsCareful(env, s.files, r, c);
      StepByGroup(env, s.files, r, c);
    } else {
      WorkIsCareful(env, files0, s.files, r, c, Passed(s));
    }
    CarefulKeeps(env, files0, s, m, Step(env, r, s.files, c));
  }

  lemma {:induction false} KeptAlways(env: Env, files0: Files, b: seq<System>, k: nat)
    requires Layout(env, files0) && Behaviour(env, files0, b) && k < |b|
    requires env.validId ==> env.outcomeFile != env.outcomeTemp
    ensures Kept(env, files0, b[k])
  {
    if k == 0 {
      BootIsKept(env, files0, b[0]);
    } else {
      KeptAlways(env, files0, b, k - 1);
      KeptGoesOn(env, files0, b, k);
    }
  }

  lemma BootIsKept(env: Env, files0: Files, s: System)
    requires Boot(files0, s)
    ensures Kept(env, files0, s)
  {
  }

  lemma KeptGoesOn(env: Env, files0: Files, b: seq<System>, k: nat)
    requires Layout(env, files0) && Behaviour(env, files0, b) && 0 < k < |b| && Kept(env, files0, b[k - 1])
    requires env.validId ==> env.outcomeFile != env.outcomeTemp
    ensures Kept(env, files0, b[k])
  {
    InvAlways(env, files0, b, k - 1);
    BehaviourMoves(env, files0, b, k);
    NextKeepsFile(env, files0, b[k - 1], b[k]);
  }

  lemma NextKeepsFile(env: Env, files0: Files, s: System, s': System)
    requires Layout(env, files0) && Inv(env, files0, s) && Kept(env, files0, s) && Next(env, s, s')
    requires env.validId ==> env.outcomeFile != env.outcomeTemp
    ensures Kept(env, files0, s')
  {
    if m: nat, c: Choice :| Moves(env, s, s', m, c) {
      MoveKeepsFile(env, files0, s, s', m, c);
    } else {
      var i: nat :| Crashes(s, s', i);
      assert s'.runs == s.runs && s'.files == s.files;
    }
  }

  /** What an outcome in the file says of the disk as it is now. */
  ghost predicate TrueNow(env: Env, files0: Files, files: Files, o: Outcome) {
    && (o.status != Failed ==> env.fetch(files0).Ok?)
    && (o.status == Activated ==> NewInstalled(env, env.fetch(files0).value, files0, files))
    && (o.status == RolledBack ==> InstalledKept(env.fetch(files0).value, files0, files))
  }

  lemma AuthorIsTrue(env: Env, files0: Files, s: System, i: nat, o: Outcome)
    requires Inv(env, files0, s) && i < |s.runs| && Wrote(s.runs[i], o)
    ensures TrueNow(env, files0, s.files, o)
  {
    var r := s.runs[i];
    assert Bystander(env, files0, r, Passed(s)) || Holder(env, files0, s.files, r);
  }

  /**
   * In every state the outcome file is as it was before the first run, or holds the whole encoding of one outcome, and
   * that outcome is true of the disk in this very state, also when the run that wrote it died or reported lost
   * evidence.
   */
  lemma FileTellsTheTruth(env: Env, files0: Files, b: seq<System>, k: nat)
    requires Layout(env, files0) && Behaviour(env, files0, b) && k < |b|
    requires env.validId ==> env.outcomeFile != env.outcomeTemp
    ensures || Get(b[k].files, env.outcomeFile) == Get(files0, env.outcomeFile)
            || exists o :: Get(b[k].files, env.outcomeFile) == Some(env.encode(Evidence(o)))
                         && TrueNow(env, files0, b[k].files, o)
  {
    KeptAlways(env, files0, b, k);
    InvAlways(env, files0, b, k);
    if i :| 0 <= i < |b[k].runs| && FromRun(env, b[k].files, b[k].runs[i]) {
      var o :| Wrote(b[k].runs[i], o) && Get(b[k].files, env.outcomeFile) == Some(env.encode(Evidence(o)));
      AuthorIsTrue(env, files0, b[k], i, o);
    }
  }
}
