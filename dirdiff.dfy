/** The recursive comparison of Diff.run: __dirdiff (diff.py:349-364) and
    processCmp (diff.py:283-346), and the file-list variant __filediff
    (diff.py:367-378).

    Both sides are trees below their roots; `base` is the directory being
    compared, relative to both roots. Keys of `create` and `update` are
    source-relative parent directories, keys of `purge` destination-relative
    ones. The scratch directory used for a missing side is an empty directory
    (`Tmp`). A comparison that Python aborts with OSError (listing a
    destination that is not a directory, or reading the modification time of
    a destination whose stat fails) yields None. */
module Comparison {
  import opened Paths
  import opened FileTree
  import opened ChangeSet
  import opened Options
  import opened Filter
  import opened Compare

  /** The empty scratch directory standing at `p` (diff.py:115-127). */
  function Tmp(p: Path): (t: Tree)
    ensures DirExists(t, p)
  {
    if p == [] then map[] else map[p := Node(Directory, false, 0, 0, true)]
  }

  /** Nothing is listed in the scratch directory and nothing lies below it. */
  lemma TmpEmpty(p: Path)
    ensures Below(Tmp(p), p) == {} && Names(Tmp(p), p) == {}
  {
    NamesMember(Tmp(p), p);
    forall n ensures p + [n] !in Tmp(p) {
      assert |p + [n]| != |p|;
    }
  }

  /** Entries strictly below `base` on either side: shrinks on every descent. */
  function Measure(S: Tree, D: Tree, base: Path): set<Path>
  {
    Below(S, base) + Below(D, base)
  }

  lemma MeasureDown(S: Tree, D: Tree, base: Path, p: Path, S2: Tree, D2: Tree)
    requires base < p && (p in S || p in D)
    requires Below(S2, p) <= Below(S, p) && Below(D2, p) <= Below(D, p)
    ensures Measure(S2, D2, p) < Measure(S, D, base)
  {
    BelowSub(S, base, p);
    BelowSub(D, base, p);
    assert p in Measure(S, D, base) && p !in Measure(S2, D2, p);
  }

  /** _add (diff.py:142-157) for path `p` of tree `t`: the name is appended
      under its parent, marked as a directory when it is one. */
  function AddAt(m: Multimap, t: Tree, p: Path): Multimap
    requires p != []
  {
    Append(m, Parent(p), Child(Last(p), IsDir(t, p)))
  }

  /** os.path.getsize */
  function SizeAt(t: Tree, p: Path): nat
  {
    if p in t then t[p].size else 0
  }

  /** dict.update on all three maps: entries of `d` win. */
  function Merge(a: Changes, d: Changes): Changes
  {
    Changes(a.create + d.create, a.update + d.update, a.purge + d.purge)
  }

  /** __dirdiff(base, base): None when either side is not a directory
      (os.listdir raises). */
  function DirDiff(st: DiffSettings, search: Search, S: Tree, D: Tree, base: Path): Option<Changes>
    decreases Measure(S, D, base), 0, 4, 0
  {
    if !DirExists(S, base) || !DirExists(D, base) then None
    else
      DircmpNoRoot(S, D, base);
      ProcessCmp(st, search, S, D, base, Dircmp(S, D, base), false)
  }

  /** processCmp: the three categories, each in sorted order. Only a
      file-list comparison (`top`) can list the compared directory itself,
      and only as common. */
  function ProcessCmp(st: DiffSettings, search: Search, S: Tree, D: Tree, base: Path, c: Cmp, top: bool): Option<Changes>
    requires [] !in c.leftOnly && [] !in c.rightOnly && (top || [] !in c.common)
    decreases Measure(S, D, base), if top then 1 else 0, 3, 0
  {
    var lefts, commons, rights := SortPaths(c.leftOnly), SortPaths(c.common), SortPaths(c.rightOnly);
    SortPathsMember(c.leftOnly);
    SortPathsMember(c.common);
    SortPathsMember(c.rightOnly);
    match CreateEach(st, search, S, D, base, lefts, NoChanges, top)
    case None => None
    case Some(a) => UpdateThenPurge(st, search, S, D, base, commons, rights, a, top)
  }

  /** The second and third loops of processCmp, after the first succeeded. */
  function UpdateThenPurge(st: DiffSettings, search: Search, S: Tree, D: Tree, base: Path, commons: seq<Path>, rights: seq<Path>, a: Changes, top: bool): Option<Changes>
    requires [] !in rights && (top || [] !in commons)
    decreases Measure(S, D, base), if top then 1 else 0, 2, 0
  {
    match UpdateEach(st, search, S, D, base, commons, a, top)
    case None => None
    case Some(b) => PurgeEach(st, search, S, D, base, rights, b, top)
  }

  /** The descent into `base + x` that the common loop makes: strictly
      smaller, or (for the root entry of a file list) the same level. */
  lemma DescendCommon(S: Tree, D: Tree, base: Path, x: Path)
    requires x == [] || base + x in S
    ensures x == [] ==> Measure(S, D, base + x) == Measure(S, D, base)
    ensures x != [] ==> Measure(S, D, base + x) < Measure(S, D, base)
  {
    if x == [] {
      assert base + x == base;
    } else {
      assert |base + x| > |base| && (base + x)[..|base|] == base;
      MeasureDown(S, D, base, base + x, S, D);
    }
  }

  /** A source-only entry is listed for creation: a file, or a directory
      when `includedirs` is set, whose name and size pass the filter
      (diff.py:298-304). */
  predicate CreatesEntry(st: DiffSettings, search: Search, S: Tree, base: Path, x: Path)
  {
    (IsFile(S, base + x) || (IsDir(S, base + x) && st.includedirs))
    && Accepts(st, search, Join(x), Some(SizeAt(S, base + x)))
  }

  /** A common file is listed for update once when it is stale and passes
      the filter (diff.py:317-319)... */
  predicate UpdatesEntry(st: DiffSettings, search: Search, S: Tree, D: Tree, base: Path, x: Path)
    requires IsFile(S, base + x) && Exists(D, base + x)
  {
    CmpMtime(S[base + x], D[base + x], st.timeprecision, st.newer)
    && Accepts(st, search, Join(x), Some(SizeAt(S, base + x)))
  }

  /** ...and once more, unconditionally, with `forceUpdate` (diff.py:320-321). */
  function UpdateTimes(st: DiffSettings, search: Search, S: Tree, D: Tree, base: Path, x: Path): nat
    requires IsFile(S, base + x) && Exists(D, base + x)
  {
    (if UpdatesEntry(st, search, S, D, base, x) then 1 else 0) + (if st.forceUpdate then 1 else 0)
  }

  /** A destination-only file or directory is listed for purging when its
      name passes the filter; no size is consulted (diff.py:335-341). */
  predicate PurgesEntry(st: DiffSettings, search: Search, D: Tree, base: Path, x: Path)
  {
    (IsFile(D, base + x) || IsDir(D, base + x)) && Accepts(st, search, Join(x), None)
  }

  /** One source-only entry recorded in `create` when it qualifies. */
  function CreateAdd(st: DiffSettings, search: Search, S: Tree, base: Path, x: Path, acc: Changes): (r: Changes)
    requires x != []
    ensures r.update == acc.update && r.purge == acc.purge
  {
    if CreatesEntry(st, search, S, base, x) then acc.(create := AddAt(acc.create, S, base + x)) else acc
  }

  /** One destination-only entry recorded in `purge` when it qualifies. */
  function PurgeAdd(st: DiffSettings, search: Search, D: Tree, base: Path, x: Path, acc: Changes): (r: Changes)
    requires x != []
    ensures r.create == acc.create && r.update == acc.update
  {
    if PurgesEntry(st, search, D, base, x) then acc.(purge := AddAt(acc.purge, D, base + x)) else acc
  }

  /** `k` copies of `p`'s entry appended under its parent. */
  function AddTimes(m: Multimap, t: Tree, p: Path, k: nat): Multimap
    requires p != []
    decreases k
  {
    if k == 0 then m else AddTimes(AddAt(m, t, p), t, p, k - 1)
  }

  /** One source-only entry (diff.py:296-308): recorded when it qualifies,
      and a directory is walked against the empty scratch directory when the
      comparison is recursive, keeping only what that walk creates. */
  function CreateStep(st: DiffSettings, search: Search, S: Tree, D: Tree, base: Path, x: Path, acc: Changes, top: bool): (r: Option<Changes>)
    requires x != []
    ensures r.Some? ==> r.value.update == acc.update && r.value.purge == acc.purge
    ensures r.Some? ==> acc.create.Keys <= r.value.create.Keys
    decreases Measure(S, D, base), if top then 1 else 0, 0, 0
  {
    var p := base + x;
    assert |p| >= |x|;
    var a := CreateAdd(st, search, S, base, x, acc);
    if IsDir(S, p) && st.recursive then
      TmpEmpty(p);
      MeasureDown(S, D, base, p, S, Tmp(p));
      match DirDiff(st, search, S, Tmp(p), p)
      case None => None
      case Some(d) => Some(a.(create := a.create + d.create))
    else Some(a)
  }

  /** The left-only loop (diff.py:294-308). */
  function CreateEach(st: DiffSettings, search: Search, S: Tree, D: Tree, base: Path, xs: seq<Path>, acc: Changes, top: bool): (r: Option<Changes>)
    requires [] !in xs
    ensures r.Some? ==> r.value.update == acc.update && r.value.purge == acc.purge
    ensures r.Some? ==> acc.create.Keys <= r.value.create.Keys
    decreases Measure(S, D, base), if top then 1 else 0, 1, |xs|
  {
    if xs == [] then Some(acc)
    else
      match CreateStep(st, search, S, D, base, xs[0], acc, top)
      case None => None
      case Some(a) => CreateEach(st, search, S, D, base, xs[1..], a, top)
  }

  /** One common entry (diff.py:313-328): a file present on both sides is
      recorded UpdateTimes times (its mtime is read on both sides, and the
      destination's stat fails when it does not exist); a directory is
      compared recursively and everything that comparison finds is merged
      in; the directory itself is never recorded. */
  function UpdateStep(st: DiffSettings, search: Search, S: Tree, D: Tree, base: Path, x: Path, acc: Changes, top: bool): (r: Option<Changes>)
    requires top || x != []
    ensures r.Some? ==> acc.create.Keys <= r.value.create.Keys && acc.update.Keys <= r.value.update.Keys
    ensures r.Some? ==> acc.purge.Keys <= r.value.purge.Keys
    decreases Measure(S, D, base), if top then 1 else 0, 0, 0
  {
    var p := base + x;
    if IsFile(S, p) then
      if !Exists(D, p) then None
      else Some(acc.(update := AddTimes(acc.update, S, p, UpdateTimes(st, search, S, D, base, x))))
    else if DirExists(S, p) && st.recursive then
      DescendCommon(S, D, base, x);
      match DirDiff(st, search, S, D, p)
      case None => None
      case Some(d) => Some(Merge(acc, d))
    else Some(acc)
  }

  /** The common loop (diff.py:311-328). */
  function UpdateEach(st: DiffSettings, search: Search, S: Tree, D: Tree, base: Path, xs: seq<Path>, acc: Changes, top: bool): (r: Option<Changes>)
    requires top || [] !in xs
    ensures r.Some? ==> acc.create.Keys <= r.value.create.Keys && acc.update.Keys <= r.value.update.Keys
    ensures r.Some? ==> acc.purge.Keys <= r.value.purge.Keys
    decreases Measure(S, D, base), if top then 1 else 0, 1, |xs|
  {
    if xs == [] then Some(acc)
    else
      match UpdateStep(st, search, S, D, base, xs[0], acc, top)
      case None => None
      case Some(b) => UpdateEach(st, search, S, D, base, xs[1..], b, top)
  }

  /** One destination-only entry (diff.py:333-344): recorded when its name
      passes the filter, and a directory is walked against the empty
      scratch directory, keeping only what that walk purges. Directories are
      name-filtered too, whatever the comment there says. */
  function PurgeStep(st: DiffSettings, search: Search, S: Tree, D: Tree, base: Path, x: Path, acc: Changes, top: bool): (r: Option<Changes>)
    requires x != []
    ensures r.Some? ==> r.value.create == acc.create && r.value.update == acc.update
    ensures r.Some? ==> acc.purge.Keys <= r.value.purge.Keys
    decreases Measure(S, D, base), if top then 1 else 0, 0, 0
  {
    var p := base + x;
    assert |p| >= |x|;
    var a := PurgeAdd(st, search, D, base, x, acc);
    if IsDir(D, p) && st.recursive then
      TmpEmpty(p);
      MeasureDown(S, D, base, p, Tmp(p), D);
      match DirDiff(st, search, Tmp(p), D, p)
      case None => None
      case Some(d) => Some(a.(purge := a.purge + d.purge))
    else Some(a)
  }

  /** The right-only loop (diff.py:331-344). */
  function PurgeEach(st: DiffSettings, search: Search, S: Tree, D: Tree, base: Path, xs: seq<Path>, acc: Changes, top: bool): (r: Option<Changes>)
    requires [] !in xs
    ensures r.Some? ==> r.value.create == acc.create && r.value.update == acc.update
    ensures r.Some? ==> acc.purge.Keys <= r.value.purge.Keys
    decreases Measure(S, D, base), if top then 1 else 0, 1, |xs|
  {
    if xs == [] then Some(acc)
    else
      match PurgeStep(st, search, S, D, base, xs[0], acc, top)
      case None => None
      case Some(b) => PurgeEach(st, search, S, D, base, xs[1..], b, top)
  }

  /** __filediff (diff.py:367-378): the relative file list is classified by
      compareFileList and processed at the top level, where a listed path may
      name the root itself; paths missing on both sides are ignored. */
  function FileDiff(st: DiffSettings, search: Search, S: Tree, D: Tree, fl: seq<Path>): Option<Changes>
  {
    ProcessCmp(st, search, S, D, [], FileCmp(fl, S, D), true)
  }
}
