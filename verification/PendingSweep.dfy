/** The throttled recovery sweep: find a pending plan, pace the attempts, prepare and launch the helper. */
module PendingSweep {
  import opened Text
  import opened Paths
  import opened ActivationPlan
  import opened PendingPlans

  /** Times are nanoseconds since the epoch; markers keep whole seconds. */
  const SECOND: int := 1_000_000_000
  const RETRY_INTERVAL: int := 15 * 60 * SECOND

  function Unix(t: int): int { t / 1_000_000_000 }
  function Nanos(seconds: int): int { seconds * 1_000_000_000 }

  /** An attempt-marker file: present but undecodable, or the last attempt and their number. */
  datatype Marker = Garbled | Marked(lastAttemptUnix: int, attempts: int)

  predicate ShouldAttemptRetry(markers: map<string, Marker>, id: string, now: int) {
    && ValidStagingId(id)
    && (id in markers && markers[id].Marked? && markers[id].lastAttemptUnix > 0 ==>
          now - Nanos(markers[id].lastAttemptUnix) >= RETRY_INTERVAL)
  }

  /** One attempt: when the throttle was asked, and when the marker was written. */
  datatype Attempt = Attempt(id: string, asked: int, recorded: int)

  datatype Verdict = NothingPending | Throttled | HelperRefused | HelperCopyFailed | HelperStarted(running: bool)

  /** Any two attempts for one plan are more than the interval less one second apart. */
  predicate Paced(attempts: seq<Attempt>) {
    forall i, j | 0 <= i < j < |attempts| && attempts[i].id == attempts[j].id ::
      attempts[j].asked - attempts[i].recorded > RETRY_INTERVAL - SECOND
  }

  predicate NoRepeats(s: seq<string>) {
    forall i, j | 0 <= i < j < |s| :: s[i] != s[j]
  }

  function HelperPathIn(root: string): string -> CleanPath {
    id => Join(TrimSpace(root), HelperFile(id))
  }

  class Sweeper {
    var files: Files
    var markers: map<string, Marker>
    const search: Search
    const executable: string
    const helperPath: string -> CleanPath
    /** Whether marker writes always succeed. */
    const reliable: bool
    /** Whether looking at the helper path and copying the helper may fail. */
    const faulty: bool
    ghost var attempts: seq<Attempt>
    var starts: seq<string>
    var clock: int

    constructor (search: Search, executable: string, files: Files, reliable: bool, faulty: bool)
      ensures Valid() && attempts == [] && starts == [] && this.files == files && markers == map[]
      ensures this.search == search && this.executable == executable && helperPath == HelperPathIn(search.root)
      ensures this.reliable == reliable && this.faulty == faulty && clock == SECOND
    {
      this.search, this.executable, this.files, this.reliable, this.faulty :=
        search, executable, files, reliable, faulty;
      helperPath := HelperPathIn(search.root);
      markers, attempts, starts, clock := map[], [], [], SECOND;
    }

    /** Every attempt so far is marked, and every helper started so far is still on disk. */
    ghost predicate Valid()
      reads this
    {
      && clock >= SECOND
      && (reliable ==> Paced(attempts) && forall i | 0 <= i < |attempts| :: Remembered(attempts[i]))
      && (forall i | 0 <= i < |attempts| :: attempts[i].recorded <= clock)
      && NoRepeats(starts) && (forall i | 0 <= i < |starts| :: helperPath(starts[i]) in files)
    }

    ghost predicate Remembered(a: Attempt)
      reads this
    {
      a.id in markers && markers[a.id].Marked? && markers[a.id].lastAttemptUnix >= Unix(a.recorded) >= 1
    }

    /** Other programs change the disk, but leave the helpers that were started. */
    method Elsewhere(files': Files)
      requires Valid() && forall i | 0 <= i < |starts| :: helperPath(starts[i]) in files'
      modifies this
      ensures Valid() && files == files' && attempts == old(attempts) && starts == old(starts)
      ensures markers == old(markers)
    {
      files := files';
    }

    /** `RecordActivationAttempt`: best effort, counting on from whatever the marker says. */
    method RecordAttempt(id: string, now: int)
      modifies this`markers
      ensures forall k | k in old(markers) && k != id :: k in markers && markers[k] == old(markers)[k]
      ensures reliable ==> id in markers && markers[id].Marked? && markers[id].lastAttemptUnix == Unix(now)
      ensures reliable && id in old(markers) && old(markers)[id].Marked? ==>
                markers[id].attempts == old(markers)[id].attempts + 1
    {
      var prev := if id in markers && markers[id].Marked? then markers[id].attempts else 0;
      var works: bool := *;
      if reliable || works {
        markers := markers[id := Marked(Unix(now), prev + 1)];
      } else {
        var torn: bool := *;
        if torn {
          markers := markers[id := Garbled];
        }
      }
    }

    function Source(): CleanPath { Clean(TrimSpace(executable)) }

    /** The inputs name a helper file that is not there yet and is not the executable itself. */
    predicate Free(id: string, files: Files) {
      && TrimSpace(executable) != "" && TrimSpace(search.root) != "" && ValidStagingId(id)
      && Source() != helperPath(id) && helperPath(id) !in files
    }

    predicate Preparable(id: string, files: Files) {
      Free(id, files) && HashFile(search.maxBytes, search.hash, files, Source()).Ok?
    }

    /** What preparing a helper came to: the running binary's bytes under the helper's name, or one of two refusals. */
    ghost predicate Prepared(id: string, problem: Option<Verdict>, before: Files, after: Files) {
      && (problem.None? ==> Preparable(id, before) && after == before[helperPath(id) := before[Source()]])
      && (problem == Some(HelperRefused) ==> after == before && (faulty || !Free(id, before)))
      && (problem == Some(HelperCopyFailed) ==>
            Free(id, before) && (faulty || !Preparable(id, before)) && after - {helperPath(id)} == before)
      && (problem.None? || problem == Some(HelperRefused) || problem == Some(HelperCopyFailed))
    }

    /** `PrepareActivationHelper`: refuse an existing helper, else copy the running binary exclusively. */
    method PrepareHelper(id: string) returns (problem: Option<Verdict>)
      modifies this`files
      ensures Prepared(id, problem, old(files), files)
      ensures !faulty ==> (problem.None? <==> Preparable(id, old(files)))
    {
      var source, target := Source(), helperPath(id);
      var visible: bool := *;
      if TrimSpace(executable) == "" || TrimSpace(search.root) == "" || !ValidStagingId(id)
         || source == target || target in files
         || (faulty && !visible) {
        return Some(HelperRefused);
      }
      var works: bool := *;
      if (works || !faulty) && HashFile(search.maxBytes, search.hash, files, source).Ok? {
        files := files[target := files[source]];
        return None;
      }
      var leftover: bool := *;
      if faulty && leftover {
        var torn: Bytes := *;
        files := files[target := torn];
      }
      return Some(HelperCopyFailed);
    }

    /**
     * One pass of the sweep; `asked` and `recorded` are its two readings of the clock, `hidden` the files it cannot
     * read.
     */
    method Sweep(listing: Option<seq<DirEntry>>, hidden: set<CleanPath>, asked: int, recorded: int)
      returns (verdict: Verdict, stage: Option<Stage>)
      requires Valid() && clock <= asked <= recorded
      modifies this
      ensures Valid() && clock == recorded
      ensures stage.Some? <==>
                && listing.Some?
                && exists k :: 0 <= k < |listing.value| && Test(search, old(files) - hidden)(listing.value[k])
      ensures stage.Some? ==>
                exists k: nat :: Newest(Test(search, old(files) - hidden), listing.value, k)
                                 && stage.value == StageOf(search, old(files) - hidden, listing.value[k])
      ensures stage.None? ==>
                verdict == NothingPending && attempts == old(attempts) && starts == old(starts) && files == old(files)
      ensures stage.Some? ==>
                Driven(stage.value.id, asked, recorded, verdict, old(files), old(markers), old(attempts), old(starts))
    {
      stage := FindPendingActivation(search, files - hidden, listing);
      if stage.Some? {
        verdict := Drive(stage.value.id, asked, recorded);
      } else {
        clock, verdict := recorded, NothingPending;
      }
    }

    /**
     * What one driven attempt did, and when: throttled exactly by the marker; otherwise the helper is started exactly
     * when it could be prepared, and refused exactly when an input is missing or the file is there, as long as nothing
     * fails.
     */
    ghost predicate Driven(id: string, asked: int, recorded: int, verdict: Verdict,
                           files0: Files, markers0: map<string, Marker>, attempts0: seq<Attempt>, starts0: seq<string>)
      reads this
    {
      && verdict != NothingPending
      && (verdict == Throttled <==> !ShouldAttemptRetry(markers0, id, asked))
      && attempts == (if verdict == Throttled then attempts0 else attempts0 + [Attempt(id, asked, recorded)])
      && starts == (if verdict.HelperStarted? then starts0 + [id] else starts0)
      && (reliable && verdict != Throttled ==>
            id in markers && markers[id].Marked? && markers[id].lastAttemptUnix == Unix(recorded))
      && if verdict == Throttled then files == files0
         else
           && Prepared(id, if verdict.HelperStarted? then None else Some(verdict), files0, files)
           && (!faulty ==> (verdict.HelperStarted? <==> Preparable(id, files0)))
           && (!Free(id, files0) ==> verdict == HelperRefused)
    }

    /** Pace, record, prepare, start. */
    method Drive(id: string, asked: int, recorded: int) returns (verdict: Verdict)
      requires Valid() && clock <= asked <= recorded
      modifies this
      ensures Valid() && clock == recorded
      ensures Driven(id, asked, recorded, verdict, old(files), old(markers), old(attempts), old(starts))
    {
      clock := recorded;
      if !ShouldAttemptRetry(markers, id, asked) {
        return Throttled;
      }
      RecordAttempt(id, recorded);
      AttemptIsPaced(old(attempts), old(markers), Attempt(id, asked, recorded));
      attempts := attempts + [Attempt(id, asked, recorded)];
      verdict := Launch(id);
    }

    /** Prepare the helper and start it; the process may still fail to come up. */
    method Launch(id: string) returns (verdict: Verdict)
      requires Valid()
      modifies this`files, this`starts
      ensures Valid() && starts == (if verdict.HelperStarted? then old(starts) + [id] else old(starts))
      ensures Prepared(id, if verdict.HelperStarted? then None else Some(verdict), old(files), files)
      ensures !faulty ==> (verdict.HelperStarted? <==> Preparable(id, old(files)))
    {
      var problem := PrepareHelper(id);
      if problem.Some? {
        return problem.value;
      }
      starts := starts + [id];
      var running: bool := *;
      return HelperStarted(running);
    }

    /**
     * Any number of passes, with any listings and clock readings, while other programs rewrite the disk but leave the
     * helpers alone: reliable markers pace the attempts, and no plan gets a second helper.
     */
    method Run(ticks: nat)
      requires Valid()
      modifies this
      ensures Valid() && NoRepeats(starts) && (reliable ==> Paced(attempts))
    {
      for i := 0 to ticks
        invariant Valid()
      {
        var files': Files :| forall i | 0 <= i < |starts| :: helperPath(starts[i]) in files';
        Elsewhere(files');
        var listing: Option<seq<DirEntry>> := *;
        var hidden: set<CleanPath> := *;
        var asked: int := *;
        var recorded: int := *;
        if clock <= asked <= recorded {
          var verdict, stage := Sweep(listing, hidden, asked, recorded);
        }
      }
    }
  }

  /** The throttle's whole-second marker loses less than a second of the interval. */
  lemma AttemptIsPaced(attempts: seq<Attempt>, markers: map<string, Marker>, a: Attempt)
    requires ShouldAttemptRetry(markers, a.id, a.asked)
    ensures forall i | 0 <= i < |attempts| && attempts[i].id == a.id && a.id in markers && markers[a.id].Marked?
                       && markers[a.id].lastAttemptUnix >= Unix(attempts[i].recorded) >= 1 ::
              a.asked - attempts[i].recorded > RETRY_INTERVAL - SECOND
  {
  }

  // The retry that was meant to go on for ever.

  /** The helper's file is none of those that decide whether its plan is eligible. */
  lemma HelperKeepsEligible(s: Search, files: Files, e: DirEntry, content: Bytes)
    requires Eligible(s, files, e)
    ensures Eligible(s, files[HelperPathIn(s.root)(EntryId(e.name).value) := content], e)
  {
    var root, id := TrimSpace(s.root), EntryId(e.name).value;
    var files' := files[Join(root, HelperFile(id)) := content];
    NamesAreDistinct(root, id);
    LoadedPlanMatches(root, id, s.decode, files);
    assert Get(files', Join(root, PlanFile(id))) == Get(files, Join(root, PlanFile(id)));
    assert PlanOf(s, files', e) == PlanOf(s, files, e);
    var plan := PlanOf(s, files, e).value;
    assert Clean(plan.stagedBinaryPath) == Join(root, StagedFile(id)) != Join(root, HelperFile(id));
    assert PlanReady(s, files', plan);
  }

  /** With one plan listed, the search can only come to that one. */
  lemma OnlyListed(ok: DirEntry -> bool, e: DirEntry, k: nat)
    requires Newest(ok, [e], k)
    ensures k == 0
  {
  }

  lemma StageIsListed(s: Search, files: Files, e: DirEntry, stage: Stage)
    requires exists k: nat :: Newest(Test(s, files), [e], k) && stage == StageOf(s, files, [e][k])
    ensures EntryId(e.name) == Some(stage.id)
  {
    var k: nat :| Newest(Test(s, files), [e], k) && stage == StageOf(s, files, [e][k]);
    OnlyListed(Test(s, files), e, k);
  }

  /** A pass over a directory that lists one eligible plan drives that plan. */
  method SweepOne(s: Sweeper, e: DirEntry, id: string, asked: int, recorded: int) returns (verdict: Verdict)
    requires s.Valid() && Test(s.search, s.files)(e) && EntryId(e.name) == Some(id)
    requires s.clock <= asked <= recorded
    modifies s
    ensures s.Valid() && s.clock == recorded
    ensures s.Driven(id, asked, recorded, verdict, old(s.files), old(s.markers), old(s.attempts), old(s.starts))
  {
    var stage;
    assert s.files - {} == s.files;
    assert Test(s.search, s.files)([e][0]);
    verdict, stage := s.Sweep(Some([e]), {}, asked, recorded);
    StageIsListed(s.search, old(s.files), e, stage.value);
  }

  /**
   * Where nothing fails, an unthrottled pass over a plan whose helper can be prepared starts it; the plan stays
   * eligible.
   */
  method FirstStarts(s: Sweeper, e: DirEntry, id: string, asked: int, recorded: int) returns (verdict: Verdict)
    requires s.Valid() && s.reliable && !s.faulty && s.helperPath == HelperPathIn(s.search.root)
    requires Test(s.search, s.files)(e) && EntryId(e.name) == Some(id) && s.Preparable(id, s.files)
    requires ShouldAttemptRetry(s.markers, id, asked) && s.clock <= asked <= recorded
    modifies s
    ensures s.Valid() && s.clock == recorded && verdict.HelperStarted? && s.helperPath(id) in s.files
    ensures Test(s.search, s.files)(e)
    ensures id in s.markers && s.markers[id].Marked? && s.markers[id].lastAttemptUnix == Unix(recorded)
    ensures s.attempts == old(s.attempts) + [Attempt(id, asked, recorded)] && s.starts == old(s.starts) + [id]
  {
    ghost var files0 := s.files;
    verdict := SweepOne(s, e, id, asked, recorded);
    HelperKeepsTest(s.search, files0, e, id, files0[s.Source()]);
  }

  /** Once its helper is there, every unthrottled pass over the plan is an attempt, and is refused. */
  method LaterRefuses(s: Sweeper, e: DirEntry, id: string, asked: int, recorded: int) returns (verdict: Verdict)
    requires s.Valid() && Test(s.search, s.files)(e) && EntryId(e.name) == Some(id) && s.helperPath(id) in s.files
    requires ShouldAttemptRetry(s.markers, id, asked) && s.clock <= asked <= recorded
    modifies s
    ensures s.Valid() && s.clock == recorded && verdict == HelperRefused && s.files == old(s.files)
    ensures s.attempts == old(s.attempts) + [Attempt(id, asked, recorded)] && s.starts == old(s.starts)
  {
    verdict := SweepOne(s, e, id, asked, recorded);
  }

  /** A marker lets an attempt pass again once the interval is over. */
  lemma IntervalPasses(markers: map<string, Marker>, id: string, recorded: int, later: int)
    requires ValidStagingId(id) && id in markers && markers[id].Marked? && markers[id].lastAttemptUnix == Unix(recorded)
    requires later - recorded >= RETRY_INTERVAL
    ensures ShouldAttemptRetry(markers, id, later)
  {
  }

  /**
   * Nothing fails, the first pass starts the helper, it never runs, so no outcome appears; the interval passes, and the
   * next pass finds the same plan as eligible as before and refuses, because the file the first pass made is there.
   */
  method RetryIsRefused(s: Sweeper, e: DirEntry, id: string, asked: int, recorded: int, later: int)
    returns (first: Verdict, second: Verdict)
    requires s.Valid() && s.reliable && !s.faulty && s.helperPath == HelperPathIn(s.search.root)
    requires Test(s.search, s.files)(e) && EntryId(e.name) == Some(id) && s.Preparable(id, s.files)
    requires ShouldAttemptRetry(s.markers, id, asked)
    requires s.clock <= asked <= recorded && later - recorded >= RETRY_INTERVAL
    modifies s
    ensures first.HelperStarted? && second == HelperRefused && Test(s.search, s.files)(e)
    ensures s.attempts == old(s.attempts) + [Attempt(id, asked, recorded)] + [Attempt(id, later, later)]
    ensures s.starts == old(s.starts) + [id]
  {
    first := FirstStarts(s, e, id, asked, recorded);
    IntervalPasses(s.markers, id, recorded, later);
    second := LaterRefuses(s, e, id, later, later);
  }

  lemma HelperKeepsTest(s: Search, files: Files, e: DirEntry, id: string, content: Bytes)
    requires Test(s, files)(e) && EntryId(e.name) == Some(id)
    ensures Test(s, files[HelperPathIn(s.root)(id) := content])(e)
  {
    HelperKeepsEligible(s, files, e, content);
  }
}
