/**
 * The walk with the code's own join, containment test and denied-class matcher; the canonicalizer and the disk stay
 * free.
 */
module BackupWiring {
  import opened Text
  import opened Paths
  import opened Containment
  import opened BackupClassify
  import opened BackupWalk
  import BackupManifest

  /** `filepath.Base`. */
  function Base(path: string): string {
    if path == "" then "."
    else
      var trimmed := TrimSlashes(path);
      if trimmed == "" then "/" else LastElement(trimmed)
  }

  function Wired(env: Env): Env {
    env.(join := (dir, name) => Render(Join(dir, name)), base := Base, within := WithinRoot, classify := ClassifyDenied)
  }

  /** The path's segments start with the root's, whatever their case. */
  predicate Inside(path: string, root: string) {
    LowerAll(Clean(root).segs) <= LowerAll(Clean(path).segs)
  }

  lemma MatcherIsWellClassed(env: Env)
    ensures BackupManifest.WellClassed(Wired(env))
  {
    forall p, n
      ensures Wired(env).classify(p, n).Denied? && Wired(env).classify(p, n).kind == ArchiveContainer ==>
                Wired(env).classify(p, n).archive
    {
      ArchivesAreDenied(p, n);
    }
  }

  /** The canonical path behind a child. */
  function Target(env: Env, dir: string, name: string): Canon {
    env.canonicalize(Render(Join(dir, name)))
  }

  /** A name that may be listed: neither an archive nor key material, and no part of its path is a denied place. */
  predicate Presentable(path: string, name: string) {
    && !DeniedBySegments(LowerSegments(path))
    && ToLower(Ext(name)) !in ARCHIVE_EXTS && ToLower(Ext(name)) !in PRIVATE_KEY_EXTS && ':' !in name
  }

  lemma ClearIsPresentable(path: string, name: string)
    requires ClassifyDenied(path, name) == Clear && ':' !in name
    ensures Presentable(path, name)
  {
    assert !Contains("", "token");
  }

  lemma SeenIsInside(env: Env, rootCanon: string, dir: string, name: string)
    ensures var sight, target := Look(Wired(env), rootCanon, dir, name), Target(env, dir, name);
            && (sight.Directory? || sight.File? ==>
                  target.Resolved? && Inside(target.path, rootCanon) && Presentable(target.path, name))
            && (sight.Directory? ==> sight.path == target.path && !target.isReparse)
  {
    var sight, target := Look(Wired(env), rootCanon, dir, name), Target(env, dir, name);
    if sight.Directory? || sight.File? {
      WithinRootIsInside(target.path, rootCanon);
      ClearIsPresentable(target.path, name);
    }
  }

  /**
   * Whatever the canonicalizer answers, a listed file and every directory on the way to it lie inside the managed root,
   * under no denied place, and were reached through no reparse point.
   */
  lemma ListedFilesStayInside(env: Env, root: Root, rootCanon: string, k: nat) returns (dirs: seq<string>)
    requires k < |Collect(Wired(env), root, rootCanon, rootCanon, 0)|
    ensures var h := Collect(Wired(env), root, rootCanon, rootCanon, 0)[k];
            && Explains(Wired(env), root, rootCanon, dirs, 0, h) && dirs[0] == rootCanon
            && (forall j | 1 <= j < |dirs| :: Inside(dirs[j], rootCanon) && !DeniedBySegments(LowerSegments(dirs[j])))
            && var name, target := FileName(Wired(env), dirs, h.at),
                                  Target(env, dirs[|dirs| - 1], FileName(Wired(env), dirs, h.at));
               target.Resolved? && Inside(target.path, rootCanon) && Presentable(target.path, name)
  {
    dirs := HitIsExplained(Wired(env), root, rootCanon, rootCanon, 0, k);
    var h := Collect(Wired(env), root, rootCanon, rootCanon, 0)[k];
    forall j | 1 <= j < |dirs| ensures Inside(dirs[j], rootCanon) && !DeniedBySegments(LowerSegments(dirs[j])) {
      assert 0 <= j - 1 < |h.at| - 1;
      SeenIsInside(env, rootCanon, dirs[j - 1], Wired(env).list(dirs[j - 1]).value[h.at[j - 1]]);
    }
    SeenIsInside(env, rootCanon, dirs[|dirs| - 1], FileName(Wired(env), dirs, h.at));
  }
}
