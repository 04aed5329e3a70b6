/**
 * What a walk counts, as a function of the disk and the canonicalizer: child names and directories listed, objects
 * denied, containers among them, objects given up on, and the classes met.  Conservation is a law about these.
 */
module BackupCensus {
  import opened BackupClassify
  import opened BackupWalk

  datatype Counts = Counts(denied: nat, containers: nat, unresolved: nat, classes: set<Class>) {
    function Plus(other: Counts): Counts {
      Counts(denied + other.denied, containers + other.containers, unresolved + other.unresolved,
             classes + other.classes)
    }
  }

  const NOTHING := Counts(0, 0, 0, {})
  const LOST := Counts(0, 0, 1, {})

  function Denying(kind: Class, archive: bool): Counts {
    Counts(1, if archive then 1 else 0, 0, {kind} + if archive then {ArchiveContainer} else {})
  }

  datatype Census = Census(names: nat, directories: nat, counts: Counts) {
    function Plus(other: Census): Census {
      Census(names + other.names, directories + other.directories, counts.Plus(other.counts))
    }
  }

  /** What one object that is not walked into adds. */
  function CountOf(sight: Sight): Counts {
    match sight
    case Lost => LOST
    case Refused(kind, archive) => Denying(kind, archive)
    case File(_) => NOTHING
    case Directory(_) => NOTHING
  }

  function Survey(env: Env, rootCanon: string, dir: string, depth: nat): Census
    decreases env.maxDepth + 1 - depth, 1, 0
  {
    if depth > env.maxDepth || env.list(dir).None? then Census(0, 0, LOST)
    else
      var names := env.list(dir).value;
      Census(|names|, 1, NOTHING).Plus(SurveyFrom(env, rootCanon, dir, depth, names, 0))
  }

  function SurveyFrom(env: Env, rootCanon: string, dir: string, depth: nat, names: seq<string>, i: nat): Census
    requires depth <= env.maxDepth && i <= |names|
    decreases env.maxDepth + 1 - depth, 0, |names| - i
  {
    if i == |names| then Census(0, 0, NOTHING)
    else SurveyChild(env, rootCanon, dir, depth, names[i]).Plus(SurveyFrom(env, rootCanon, dir, depth, names, i + 1))
  }

  function SurveyChild(env: Env, rootCanon: string, dir: string, depth: nat, name: string): Census
    requires depth <= env.maxDepth
    decreases env.maxDepth + 1 - depth, 0, 0
  {
    var sight := Look(env, rootCanon, dir, name);
    if sight.Directory? then Survey(env, rootCanon, sight.path, depth + 1) else Census(0, 0, CountOf(sight))
  }

  // Conservation.

  /** Everything named below a directory, and the directory itself, ends up in exactly one place. */
  lemma {:induction false} WalkConserves(env: Env, root: Root, rootCanon: string, dir: string, depth: nat)
    ensures var c := Survey(env, rootCanon, dir, depth);
            c.names + 1
            == |Collect(env, root, rootCanon, dir, depth)| + c.counts.denied + c.counts.unresolved + c.directories
    decreases env.maxDepth + 1 - depth, 1, 0
  {
    if depth <= env.maxDepth && env.list(dir).Some? {
      RestConserves(env, root, rootCanon, dir, depth, env.list(dir).value, 0);
    }
  }

  lemma {:induction false} RestConserves(env: Env, root: Root, rootCanon: string, dir: string, depth: nat,
                                         names: seq<string>, i: nat)
    requires depth <= env.maxDepth && i <= |names|
    ensures var c := SurveyFrom(env, rootCanon, dir, depth, names, i);
            c.names + |names| - i
            == |CollectFrom(env, root, rootCanon, dir, depth, names, i)|
               + c.counts.denied + c.counts.unresolved + c.directories
    decreases env.maxDepth + 1 - depth, 0, |names| - i
  {
    if i < |names| {
      ChildConserves(env, root, rootCanon, dir, depth, names, i);
      RestConserves(env, root, rootCanon, dir, depth, names, i + 1);
    }
  }

  lemma {:induction false} ChildConserves(env: Env, root: Root, rootCanon: string, dir: string, depth: nat,
                                          names: seq<string>, i: nat)
    requires depth <= env.maxDepth && i < |names|
    ensures var c := SurveyChild(env, rootCanon, dir, depth, names[i]);
            c.names + 1 == |CollectChild(env, root, rootCanon, dir, depth, names, i)|
               + c.counts.denied + c.counts.unresolved + c.directories
    decreases env.maxDepth + 1 - depth, 0, 0
  {
    var sight := Look(env, rootCanon, dir, names[i]);
    if sight.Directory? {
      WalkConserves(env, root, rootCanon, sight.path, depth + 1);
    }
  }
}
