/** The log of one run, extended call by call: which machine step each kind of call amounts to. */
module ActivationLog {
  import opened Text
  import opened Paths
  import opened ActivationPlan
  import opened ActivationMachine

  type Log = seq<Config>

  function Last(h: Log): Config
    requires h != []
  {
    h[|h| - 1]
  }

  ghost predicate Follows(env: Env, x: Config, y: Config) {
    exists c: Choice :: y == Step(env, x.run, x.files, c)
  }

  ghost predicate Linked(env: Env, h: Log, k: nat)
    requires 0 < k < |h|
  {
    Follows(env, h[k - 1], h[k])
  }

  /** A machine run from its start. */
  ghost predicate Logged(env: Env, h: Log) {
    h != [] && h[0].run == Start() && forall k | 0 < k < |h| :: Linked(env, h, k)
  }

  /** A log is a behaviour of a system with one run. */
  lemma LogIsBehaviour(env: Env, h: Log) returns (b: seq<System>)
    requires Logged(env, h)
    ensures |b| == |h| && Behaviour(env, h[0].files, b)
    ensures forall k | 0 <= k < |h| :: b[k] == System(h[k].files, [h[k].run], {})
  {
    b := seq(|h|, k requires 0 <= k < |h| => System(h[k].files, [h[k].run], {}));
    forall k | 0 < k < |b|
      ensures Next(env, b[k - 1], b[k])
    {
      assert Linked(env, h, k);
      var c: Choice :| h[k] == Step(env, h[k - 1].run, h[k - 1].files, c);
      assert b[k - 1].runs[0 := h[k].run] == [h[k].run];
      assert Moves(env, b[k - 1], b[k], 0, c);
    }
  }

  /** One more state of the disk, unless it is the one before. */
  function Moved(trail: seq<Files>, now: Files): seq<Files> {
    if trail != [] && trail[|trail| - 1] == now then trail else trail + [now]
  }

  /** The states the disk passes through along a log. */
  function Trail(h: Log): (r: seq<Files>)
    requires h != []
    ensures r != [] && r[|r| - 1] == Last(h).files
  {
    if |h| == 1 then [h[0].files] else Moved(Trail(h[..|h| - 1]), h[|h| - 1].files)
  }

  /** Every state on the trail is a state of the log. */
  lemma {:induction false} TrailIsLogged(h: Log, k: nat) returns (j: nat)
    requires h != [] && k < |Trail(h)|
    ensures j < |h| && h[j].files == Trail(h)[k]
  {
    if |h| == 1 || k >= |Trail(h[..|h| - 1])| {
      return |h| - 1;
    }
    j := TrailIsLogged(h[..|h| - 1], k);
  }

  ghost predicate Extends(env: Env, h: Log, h': Log, run: Run, files: Files) {
    Logged(env, h') && h != [] && h'[0] == h[0] && Last(h') == Config(run, files) && Trail(h') == Moved(Trail(h), files)
  }

  /** One more call: the machine step it amounts to, given how the environment answers. */
  lemma Took(env: Env, h: Log, c: Choice) returns (h': Log)
    requires Logged(env, h)
    ensures var post := Step(env, Last(h).run, Last(h).files, c);
            Extends(env, h, h', post.run, post.files)
  {
    var post := Step(env, Last(h).run, Last(h).files, c);
    h' := h + [post];
    assert h'[..|h'| - 1] == h;
    assert Linked(env, h', |h|);
    forall k | 0 < k < |h| ensures Linked(env, h', k) {
      assert Linked(env, h, k);
    }
  }

  // The same, group by group.

  lemma TookPrepared(env: Env, h: Log, c: Choice) returns (h': Log)
    requires Logged(env, h)
    requires var pc := Last(h).run.pc; pc.Begin? || pc.Load? || pc.VerifyLoad? || pc.VerifyStat? || pc.VerifyHash?
    ensures Extends(env, h, h', StepPrepare(env, Last(h).run, Last(h).files, c), Last(h).files)
  {
    h' := Took(env, h, c);
  }

  lemma TookCopied(env: Env, h: Log, c: Choice) returns (h': Log)
    requires Logged(env, h)
    requires var pc := Last(h).run.pc;
             pc.CopyHash? || pc.CopyRead? || pc.CopyOpen? || pc.CopyWrite? || pc.CopySettle? || pc.CopyUndo?
    ensures var post := StepCopy(env, Last(h).run, Last(h).files, c); Extends(env, h, h', post.run, post.files)
  {
    h' := Took(env, h, c);
  }

  lemma TookSwapped(env: Env, h: Log, c: Choice) returns (h': Log)
    requires Logged(env, h)
    requires var pc := Last(h).run.pc;
             pc.StopService? || pc.SwapRemove? || pc.SwapRename? || pc.SwapHarden? || pc.SwapUndo?
             || pc.StartService? || pc.WriteHighWater?
    ensures var post := StepSwap(env, Last(h).run, Last(h).files, c); Extends(env, h, h', post.run, post.files)
  {
    h' := Took(env, h, c);
  }

  lemma TookRecorded(env: Env, h: Log, c: Choice) returns (h': Log)
    requires Logged(env, h)
    requires var pc := Last(h).run.pc;
             pc.RecordOpen? || pc.RecordWrite? || pc.RecordSettle? || pc.RecordRename? || pc.RecordHarden?
             || pc.RecordUndo?
    ensures var post := StepRecord(env, Last(h).run, Last(h).files, c); Extends(env, h, h', post.run, post.files)
  {
    h' := Took(env, h, c);
  }

  function Answer(ok: bool): Choice {
    if ok then Works else Fails(0)
  }
}
