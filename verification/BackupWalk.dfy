/**
 * The metadata-only dry-run walk.  The canonicalizer is untrusted: any function from paths to answers.  `Look` is the
 * code's canonicalize-contain-deny decision about one child; `Collect` is the walk; `FileOn` says, without a walk,
 * which files belong in the manifest.
 */
module BackupWalk {
  import opened Text
  import opened BackupClassify

  datatype Canon = Unresolvable | Resolved(path: string, isReparse: bool, hasAds: bool)
  datatype Info = Info(isDir: bool, size: nat, modTime: int)

  /** The disk, the canonicalizer and the code's path tests, as the walk sees them. */
  datatype Env = Env(
    maxDepth: nat,
    now: int,
    canonicalize: string -> Canon,
    list: string -> Option<seq<string>>,
    stat: string -> Option<Info>,
    join: (string, string) -> string,
    base: string -> string,
    within: (string, string) -> bool,
    classify: (string, string) -> Denial)

  datatype Root = Root(rootRef: string, localPath: string, pathClass: string, companyManaged: bool)

  datatype Bucket = P7D | P30D | P90D | Older
  datatype Extension = Doc | Sheet | Pdf | Image | Other

  datatype Entry = Entry(
    pathClass: string,
    rootRef: string,
    relativeDepth: nat,
    extension: Extension,
    size: nat,
    mtime: Bucket,
    company: bool)

  const DAY: int := 24 * 3600 * 1_000_000_000

  function MtimeBucket(now: int, modTime: int): Bucket {
    var age := now - modTime;
    if age <= 7 * DAY then P7D else if age <= 30 * DAY then P30D else if age <= 90 * DAY then P90D else Older
  }

  function ClassifyExtension(name: string): Extension {
    var ext := ToLower(Ext(name));
    if ext in {".doc", ".docx", ".odt", ".rtf", ".txt", ".md"} then Doc
    else if ext in {".xls", ".xlsx", ".ods", ".csv", ".tsv"} then Sheet
    else if ext == ".pdf" then Pdf
    else if ext in {".jpg", ".jpeg", ".png", ".gif", ".bmp", ".tif", ".tiff", ".heic", ".webp"} then Image
    else Other
  }

  function MakeEntry(env: Env, root: Root, depth: nat, name: string, info: Info): Entry {
    Entry(root.pathClass, root.rootRef, depth + 1, ClassifyExtension(name), info.size,
          MtimeBucket(env.now, info.modTime), root.companyManaged)
  }

  /** What the walk makes of one child. */
  datatype Sight = Lost | Refused(kind: Class, archive: bool) | Directory(path: string) | File(info: Info)

  function Look(env: Env, rootCanon: string, dir: string, name: string): Sight {
    match env.canonicalize(env.join(dir, name))
    case Unresolvable => Lost
    case Resolved(canon, isReparse, hasAds) =>
      if hasAds || ':' in name || !env.within(canon, rootCanon) then Lost
      else
        match env.stat(canon)
        case None => Lost
        case Some(info) =>
          match env.classify(canon, name)
          case Denied(kind, archive) => Refused(kind, archive)
          case Clear =>
            if !info.isDir then File(info)
            else if isReparse then Lost
            else Directory(canon)
  }

  // The walk, as the list of files it emits with the way it took to each: a child index per level.

  datatype Hit = Hit(at: seq<nat>, entry: Entry)

  function Under(i: nat, hits: seq<Hit>): (r: seq<Hit>)
    ensures |r| == |hits|
    ensures forall k | 0 <= k < |hits| :: r[k] == Hit([i] + hits[k].at, hits[k].entry)
  {
    seq(|hits|, k requires 0 <= k < |hits| => Hit([i] + hits[k].at, hits[k].entry))
  }

  function Collect(env: Env, root: Root, rootCanon: string, dir: string, depth: nat): seq<Hit>
    decreases env.maxDepth + 1 - depth, 1, 0
  {
    if depth > env.maxDepth || env.list(dir).None? then []
    else CollectFrom(env, root, rootCanon, dir, depth, env.list(dir).value, 0)
  }

  function CollectFrom(env: Env, root: Root, rootCanon: string, dir: string, depth: nat, names: seq<string>,
                       i: nat): seq<Hit>
    requires depth <= env.maxDepth && i <= |names|
    decreases env.maxDepth + 1 - depth, 0, |names| - i
  {
    if i == |names| then []
    else CollectChild(env, root, rootCanon, dir, depth, names, i)
         + CollectFrom(env, root, rootCanon, dir, depth, names, i + 1)
  }

  function CollectChild(env: Env, root: Root, rootCanon: string, dir: string, depth: nat, names: seq<string>,
                        i: nat): seq<Hit>
    requires depth <= env.maxDepth && i < |names|
    decreases env.maxDepth + 1 - depth, 0, 0
  {
    match Look(env, rootCanon, dir, names[i])
    case Lost => []
    case Refused(_, _) => []
    case Directory(path) => Under(i, Collect(env, root, rootCanon, path, depth + 1))
    case File(info) => [Hit([i], MakeEntry(env, root, depth, names[i], info))]
  }

  // The same files, described without walking.

  /** `dirs` are the directories passed on the way `at`, each listed, each but the last leading to the next. */
  ghost predicate Way(env: Env, rootCanon: string, dirs: seq<string>, at: seq<nat>, depth: nat) {
    && |dirs| == |at| >= 1 && depth + |at| - 1 <= env.maxDepth
    && (forall k | 0 <= k < |at| :: env.list(dirs[k]).Some? && at[k] < |env.list(dirs[k]).value|)
    && (forall k | 0 <= k < |at| - 1 ::
          Look(env, rootCanon, dirs[k], env.list(dirs[k]).value[at[k]]) == Directory(dirs[k + 1]))
  }

  function FileName(env: Env, dirs: seq<string>, at: seq<nat>): string
    requires |dirs| == |at| >= 1 && env.list(dirs[|dirs| - 1]).Some?
    requires at[|at| - 1] < |env.list(dirs[|dirs| - 1]).value|
  {
    env.list(dirs[|dirs| - 1]).value[at[|at| - 1]]
  }

  /** An eligible file lies at the end of the way. */
  ghost predicate FileOn(env: Env, rootCanon: string, dirs: seq<string>, at: seq<nat>, depth: nat) {
    Way(env, rootCanon, dirs, at, depth) && Look(env, rootCanon, dirs[|dirs| - 1], FileName(env, dirs, at)).File?
  }

  ghost predicate Explains(env: Env, root: Root, rootCanon: string, dirs: seq<string>, depth: nat, h: Hit) {
    && FileOn(env, rootCanon, dirs, h.at, depth)
    && h.entry == MakeEntry(env, root, depth + |h.at| - 1, FileName(env, dirs, h.at),
                            Look(env, rootCanon, dirs[|dirs| - 1], FileName(env, dirs, h.at)).info)
  }

  predicate LexLess(a: seq<nat>, b: seq<nat>) {
    if a == [] then b != []
    else b != [] && (a[0] < b[0] || (a[0] == b[0] && LexLess(a[1..], b[1..])))
  }

  predicate InOrder(hits: seq<Hit>) {
    forall i, j | 0 <= i < j < |hits| :: LexLess(hits[i].at, hits[j].at)
  }

  // Soundness: every hit is explained by a way.

  lemma {:induction false} HitIsExplained(env: Env, root: Root, rootCanon: string, dir: string, depth: nat, k: nat)
    returns (dirs: seq<string>)
    requires k < |Collect(env, root, rootCanon, dir, depth)|
    ensures var h := Collect(env, root, rootCanon, dir, depth)[k];
            Explains(env, root, rootCanon, dirs, depth, h) && dirs[0] == dir
    decreases env.maxDepth + 1 - depth, 1, 0
  {
    dirs := HitFromIsExplained(env, root, rootCanon, dir, depth, env.list(dir).value, 0, k);
  }

  lemma {:induction false} HitFromIsExplained(env: Env, root: Root, rootCanon: string, dir: string, depth: nat,
                                              names: seq<string>, i: nat, k: nat)
    returns (dirs: seq<string>)
    requires depth <= env.maxDepth && i <= |names| && env.list(dir) == Some(names)
    requires k < |CollectFrom(env, root, rootCanon, dir, depth, names, i)|
    ensures var h := CollectFrom(env, root, rootCanon, dir, depth, names, i)[k];
            Explains(env, root, rootCanon, dirs, depth, h) && dirs[0] == dir && h.at[0] >= i
    decreases env.maxDepth + 1 - depth, 0, |names| - i
  {
    var here := CollectChild(env, root, rootCanon, dir, depth, names, i);
    if k >= |here| {
      dirs := HitFromIsExplained(env, root, rootCanon, dir, depth, names, i + 1, k - |here|);
    } else {
      match Look(env, rootCanon, dir, names[i])
      case File(_) =>
        dirs := [dir];
      case Directory(path) =>
        var rest := HitIsExplained(env, root, rootCanon, path, depth + 1, k);
        dirs := [dir] + rest;
        Descend(env, root, rootCanon, dir, i, rest, depth, Collect(env, root, rootCanon, path, depth + 1)[k]);
    }
  }

  /** A way below a child directory, entered from its parent. */
  lemma Descend(env: Env, root: Root, rootCanon: string, dir: string, i: nat, rest: seq<string>, depth: nat, h: Hit)
    requires Explains(env, root, rootCanon, rest, depth + 1, h)
    requires env.list(dir).Some? && i < |env.list(dir).value|
    requires Look(env, rootCanon, dir, env.list(dir).value[i]) == Directory(rest[0])
    ensures Explains(env, root, rootCanon, [dir] + rest, depth, Hit([i] + h.at, h.entry))
  {
    var dirs, at := [dir] + rest, [i] + h.at;
    assert dirs[|dirs| - 1] == rest[|rest| - 1] && at[|at| - 1] == h.at[|h.at| - 1];
    forall k | 0 <= k < |at| - 1
      ensures Look(env, rootCanon, dirs[k], env.list(dirs[k]).value[at[k]]) == Directory(dirs[k + 1])
    {
      if k > 0 {
        assert dirs[k] == rest[k - 1] && at[k] == h.at[k - 1] && dirs[k + 1] == rest[k];
      }
    }
  }

  // Completeness: every file at the end of a way is hit.

  lemma {:induction false} FileIsHit(env: Env, root: Root, rootCanon: string, dirs: seq<string>, at: seq<nat>,
                                     depth: nat)
    returns (k: nat)
    requires FileOn(env, rootCanon, dirs, at, depth)
    ensures k < |Collect(env, root, rootCanon, dirs[0], depth)|
    ensures Collect(env, root, rootCanon, dirs[0], depth)[k].at == at
    decreases |at|
  {
    var dir := dirs[0];
    var names := env.list(dir).value;
    var j: nat;
    var child := CollectChild(env, root, rootCanon, dir, depth, names, at[0]);
    if |at| == 1 {
      j := 0;
      assert at == [at[0]];
    } else {
      assert Look(env, rootCanon, dirs[0], env.list(dirs[0]).value[at[0]]) == Directory(dirs[1]);
      assert FileOn(env, rootCanon, dirs[1..], at[1..], depth + 1) by {
        forall k | 0 <= k < |at[1..]| - 1
          ensures Look(env, rootCanon, dirs[1..][k], env.list(dirs[1..][k]).value[at[1..][k]])
                  == Directory(dirs[1..][k + 1])
        {
          assert Look(env, rootCanon, dirs[k + 1], env.list(dirs[k + 1]).value[at[k + 1]]) == Directory(dirs[k + 2]);
        }
      }
      j := FileIsHit(env, root, rootCanon, dirs[1..], at[1..], depth + 1);
      assert at == [at[0]] + at[1..];
    }
    k := ChildIsCollected(env, root, rootCanon, dir, depth, names, 0, at[0], j);
  }

  lemma {:induction false} ChildIsCollected(env: Env, root: Root, rootCanon: string, dir: string, depth: nat,
                                            names: seq<string>, i: nat, target: nat, j: nat)
    returns (k: nat)
    requires depth <= env.maxDepth && i <= target < |names|
    requires j < |CollectChild(env, root, rootCanon, dir, depth, names, target)|
    ensures k < |CollectFrom(env, root, rootCanon, dir, depth, names, i)|
    ensures CollectFrom(env, root, rootCanon, dir, depth, names, i)[k]
            == CollectChild(env, root, rootCanon, dir, depth, names, target)[j]
    decreases target - i
  {
    if i == target {
      k := j;
    } else {
      var k' := ChildIsCollected(env, root, rootCanon, dir, depth, names, i + 1, target, j);
      k := |CollectChild(env, root, rootCanon, dir, depth, names, i)| + k';
    }
  }

  // Order: hits come out in the order of their ways.

  lemma {:induction false} CollectInOrder(env: Env, root: Root, rootCanon: string, dir: string, depth: nat)
    ensures InOrder(Collect(env, root, rootCanon, dir, depth))
    decreases env.maxDepth + 1 - depth, 1, 0
  {
    if depth <= env.maxDepth && env.list(dir).Some? {
      CollectFromInOrder(env, root, rootCanon, dir, depth, env.list(dir).value, 0);
    }
  }

  lemma {:induction false} CollectFromInOrder(env: Env, root: Root, rootCanon: string, dir: string, depth: nat,
                                              names: seq<string>, i: nat)
    requires depth <= env.maxDepth && i <= |names|
    ensures InOrder(CollectFrom(env, root, rootCanon, dir, depth, names, i))
    ensures forall k | 0 <= k < |CollectFrom(env, root, rootCanon, dir, depth, names, i)| ::
      CollectFrom(env, root, rootCanon, dir, depth, names, i)[k].at != []
      && CollectFrom(env, root, rootCanon, dir, depth, names, i)[k].at[0] >= i
    decreases env.maxDepth + 1 - depth, 0, |names| - i
  {
    if i < |names| {
      var here := CollectChild(env, root, rootCanon, dir, depth, names, i);
      var rest := CollectFrom(env, root, rootCanon, dir, depth, names, i + 1);
      CollectFromInOrder(env, root, rootCanon, dir, depth, names, i + 1);
      match Look(env, rootCanon, dir, names[i]) {
        case Directory(path) =>
          CollectInOrder(env, root, rootCanon, path, depth + 1);
          var inner := Collect(env, root, rootCanon, path, depth + 1);
          forall a, b | 0 <= a < b < |here|
            ensures LexLess(here[a].at, here[b].at)
          {
            assert LexLess(inner[a].at, inner[b].at);
            assert here[a].at[1..] == inner[a].at && here[b].at[1..] == inner[b].at;
          }
        case _ =>
      }
      assert forall a | 0 <= a < |here| :: here[a].at != [] && here[a].at[0] == i;
      var all := here + rest;
      forall a, b | 0 <= a < b < |all|
        ensures LexLess(all[a].at, all[b].at)
      {
        if a >= |here| {
          assert all[a] == rest[a - |here|] && all[b] == rest[b - |here|];
        } else if b >= |here| {
          assert all[a] == here[a] && all[b] == rest[b - |here|];
        }
      }
    }
  }

  /**
   * Exactness.  For any canonicalizer, the walk emits one entry for every file that ends a chain of listed, resolvable,
   * contained, undenied, non-reparse directories within the depth bound and itself passes the same tests; nothing
   * else; in the order of the directory listings; with a relative depth between one and the bound plus one.
   */
  lemma WalkIsExact(env: Env, root: Root, rootCanon: string)
    ensures var hits := Collect(env, root, rootCanon, rootCanon, 0);
            && InOrder(hits)
            && (forall k | 0 <= k < |hits| ::
                  && (exists dirs :: Explains(env, root, rootCanon, dirs, 0, hits[k]) && dirs[0] == rootCanon)
                  && hits[k].entry.relativeDepth == |hits[k].at| && 1 <= |hits[k].at| <= env.maxDepth + 1)
            && (forall dirs, at | FileOn(env, rootCanon, dirs, at, 0) && dirs[0] == rootCanon ::
                  exists k :: 0 <= k < |hits| && hits[k].at == at)
  {
    var hits := Collect(env, root, rootCanon, rootCanon, 0);
    CollectInOrder(env, root, rootCanon, rootCanon, 0);
    forall k | 0 <= k < |hits|
      ensures exists dirs :: Explains(env, root, rootCanon, dirs, 0, hits[k]) && dirs[0] == rootCanon
      ensures hits[k].entry.relativeDepth == |hits[k].at| && 1 <= |hits[k].at| <= env.maxDepth + 1
    {
      var dirs := HitIsExplained(env, root, rootCanon, rootCanon, 0, k);
    }
    forall dirs, at | FileOn(env, rootCanon, dirs, at, 0) && dirs[0] == rootCanon
      ensures exists k :: 0 <= k < |hits| && hits[k].at == at
    {
      var k := FileIsHit(env, root, rootCanon, dirs, at, 0);
    }
  }
}
