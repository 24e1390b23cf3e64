/** What Sync.runwithdiff and its per-item helpers (sync.py:190-380) do to
    the destination, as functions on values.

    A run reads the source tree and changes a `World`: the destination tree,
    the six pass and fail lists of Sync.stats, the progress counter, how often
    the cancellation check was asked, and whether the run is still going, was
    cancelled, or raised. What the operating system refuses for reasons the
    trees do not show (permissions, a full disk) comes from `Faults`; the
    cancellation check answers its n-th question with `check(n)`.

    Paths are relative to the roots: a create or update key is relative to
    the source root and also names the matching destination directory, a
    purge key is relative to the destination root. */
module Execution {
  import opened Paths
  import opened FileTree
  import opened ChangeSet
  import opened Options

  datatype Phase = Creating | Updating | Purging

  /** The pass and fail lists of Sync.stats (sync.py:76-85). */
  datatype Stats = Stats(creates: seq<Path>, createfails: seq<Path>,
                         updates: seq<Path>, updatefails: seq<Path>,
                         purges: seq<Path>, purgefails: seq<Path>)

  const NoStats: Stats := Stats([], [], [], [], [], [])

  function Passes(s: Stats, ph: Phase): seq<Path>
  {
    match ph
    case Creating => s.creates
    case Updating => s.updates
    case Purging => s.purges
  }

  function Fails(s: Stats, ph: Phase): seq<Path>
  {
    match ph
    case Creating => s.createfails
    case Updating => s.updatefails
    case Purging => s.purgefails
  }

  /** `passes.append(p)` on the pass list of phase `ph`. */
  function Passed(s: Stats, ph: Phase, p: Path): (r: Stats)
    ensures Passes(r, ph) == Passes(s, ph) + [p] && Fails(r, ph) == Fails(s, ph)
    ensures forall q :: q != ph ==> Passes(r, q) == Passes(s, q) && Fails(r, q) == Fails(s, q)
  {
    match ph
    case Creating => s.(creates := s.creates + [p])
    case Updating => s.(updates := s.updates + [p])
    case Purging => s.(purges := s.purges + [p])
  }

  /** `fails.append(p)` on the fail list of phase `ph`. */
  function Failed(s: Stats, ph: Phase, p: Path): (r: Stats)
    ensures Fails(r, ph) == Fails(s, ph) + [p] && Passes(r, ph) == Passes(s, ph)
    ensures forall q :: q != ph ==> Passes(r, q) == Passes(s, q) && Fails(r, q) == Fails(s, q)
  {
    match ph
    case Creating => s.(createfails := s.createfails + [p])
    case Updating => s.(updatefails := s.updatefails + [p])
    case Purging => s.(purgefails := s.purgefails + [p])
  }

  /** Where the system refuses: `io` holds the paths on which the main call
      of a helper (makedirs, mkdir, copy2, rmtree, remove) raises, `chmod`
      those on which making the path writable raises, `stat` the
      directories on which shutil.copystat (its utime or chmod) raises in
      __copydir. */
  datatype Faults = Faults(io: set<Path>, chmod: set<Path>, stat: set<Path>)

  /** What a run reads and does not change: the source tree, the faults, the
      dry-run switch, the forceOwnership run setting, whether a progress
      function is set, the total count of the untrimmed diff (None when there
      is no untrimmed diff), and the cancellation check if one is set. */
  datatype Env = Env(S: Tree, faults: Faults, dryRun: bool, forceOwnership: bool,
                     progress: bool, total: Option<int>, check: Option<nat -> bool>)

  datatype Status = Running | Cancelled | Raised(e: Error)

  datatype World = World(D: Tree, stats: Stats, progressamt: nat, polls: nat, status: Status)

  /** What `os.mkdir` and `os.makedirs` leave behind; the clock is not
      modelled, so a new directory has modification time 0. */
  const NewDir: Node := Node(Directory, false, 0, 0, true)

  /** __getProgPercent (sync.py:271-276), called when a progress function is
      set: the counter goes up first, then the division by the untrimmed
      diff's total raises when there is no such diff or its total is 0. */
  function Ticked(env: Env, w: World): (r: World)
    ensures r.D == w.D && r.stats == w.stats && r.polls == w.polls
    ensures r.progressamt == if env.progress then w.progressamt + 1 else w.progressamt
  {
    if !env.progress then w
    else
      var w1 := w.(progressamt := w.progressamt + 1);
      if env.total.None? then w1.(status := Raised(AttributeError))
      else if env.total.value == 0 then w1.(status := Raised(ZeroDivisionError))
      else w1
  }

  /** Some prefix of `dir` (itself included) is taken by something that is
      not a directory, so makedirs cannot go through it. */
  predicate Blocked(D: Tree, dir: Path)
  {
    exists i :: 1 <= i <= |dir| && dir[..i] in D && D[dir[..i]].kind != Directory
  }

  /** `dir` and every missing ancestor of it made as directories. */
  function MadeDirs(D: Tree, dir: Path): (r: Tree)
    ensures forall q :: q in D ==> q in r && r[q] == D[q]
    ensures forall q :: q in r && q !in D ==> r[q] == NewDir && q <= dir
    ensures dir != [] ==> dir in r
  {
    var made := map i | 1 <= i <= |dir| && dir[..i] !in D :: dir[..i] := NewDir;
    assert dir[..|dir|] == dir;
    D + made
  }

  /** __makedirs (sync.py:255-269). It is called whatever the dry-run
      switch says, so even a dry run makes the directories. */
  function MakeDirs(env: Env, ph: Phase, w: World, dir: Path): (r: World)
  {
    if dir in env.faults.io || Blocked(w.D, dir) then w.(stats := Failed(w.stats, ph, dir))
    else w.(D := MadeDirs(w.D, dir), stats := Passed(w.stats, ph, dir))
  }

  /** The forceOwnership step of __copydir and __copy (sync.py:293-301,
      316-324): an existing, read-only `p` is made writable. */
  predicate Locked(env: Env, D: Tree, p: Path)
  {
    env.forceOwnership && p != [] && Exists(D, p) && !D[p].writable
  }

  function Unlocked(D: Tree, p: Path): Tree
    requires p in D
  {
    D[p := D[p].(writable := true)]
  }

  /** The part of __copydir after the progress call (sync.py:285-305). A
      failing mkdir files `dstp` as failed; a failing chmod returns without
      filing it; shutil.copystat runs outside the try, so its error escapes
      the run, both when `dstp` is missing (a dry run) and when the system
      refuses to stamp it. */
  function DirCopied(env: Env, ph: Phase, w: World, srcp: Path, dstp: Path): (r: World)
    requires srcp in env.S && dstp != []
  {
    if !env.dryRun && (dstp in env.faults.io || dstp in w.D || !DirExists(w.D, Parent(dstp))) then
      w.(stats := Failed(w.stats, ph, dstp))
    else
      var D1 := if env.dryRun then w.D else w.D[dstp := NewDir];
      if Locked(env, D1, dstp) && dstp in env.faults.chmod then w.(D := D1)
      else
        var D2 := if Locked(env, D1, dstp) then Unlocked(D1, dstp) else D1;
        if !Exists(D2, dstp) || dstp in env.faults.stat then w.(D := D2, status := Raised(OSError))
        else
          var stamped := D2[dstp].(mtime := env.S[srcp].mtime, writable := env.S[srcp].writable);
          w.(D := D2[dstp := stamped], stats := Passed(w.stats, ph, dstp))
  }

  /** __copydir (sync.py:278-305). */
  function CopyDir(env: Env, ph: Phase, w0: World, srcp: Path, dstp: Path): (r: World)
    requires srcp in env.S && dstp != []
  {
    var w := Ticked(env, w0);
    if !w.status.Running? then w else DirCopied(env, ph, w, srcp, dstp)
  }

  /** Where shutil.copy2 writes: into `dstp` when it is a directory. */
  function Target(D: Tree, srcp: Path, dstp: Path): Path
    requires srcp != []
  {
    if IsDir(D, dstp) then dstp + [Last(srcp)] else dstp
  }

  /** A named pipe at `p`: shutil.copyfile refuses to read or write one. */
  predicate FifoAt(t: Tree, p: Path)
  {
    p in t && t[p].kind == Fifo
  }

  /** The part of __copy after the progress call (sync.py:314-336). A dry
      run files the copy as passed and touches nothing. shutil.copy2 writes
      into `dstp`, or into `dstp` + the source's name when `dstp` is a
      directory. A named pipe at either end raises SpecialFileError, which
      the `except (IOError, OSError)` does not catch. The copy fails when
      the source is not a readable file, the target's directory is missing,
      the target is a directory, is read-only or is a socket. A device
      target is written through and keeps its kind; a link target is
      written through and stays a link; otherwise the target becomes a
      copy of the source's contents and permission bits. */
  function FileCopied(env: Env, ph: Phase, w: World, srcp: Path, dstp: Path): (r: World)
    requires srcp != [] && dstp != []
  {
    if env.dryRun then w.(stats := Passed(w.stats, ph, dstp))
    else if Locked(env, w.D, dstp) && dstp in env.faults.chmod then w
    else
      var D1 := if Locked(env, w.D, dstp) then Unlocked(w.D, dstp) else w.D;
      var t := Target(D1, srcp, dstp);
      if FifoAt(env.S, srcp) || FifoAt(D1, t) then w.(D := D1, status := Raised(SpecialFileError))
      else if dstp in env.faults.io || !IsFileFollow(env.S, srcp) || !DirExists(D1, Parent(t))
         || IsDir(D1, t) || (t in D1 && (!D1[t].writable || D1[t].kind == Socket)) then
        w.(D := D1, stats := Failed(w.stats, ph, dstp))
      else if t in D1 && D1[t].kind == Device then
        w.(D := D1[t := D1[t].(mtime := env.S[srcp].mtime, writable := env.S[srcp].writable)],
           stats := Passed(w.stats, ph, dstp))
      else
        w.(D := D1[t := env.S[srcp].(link := t in D1 && D1[t].link)], stats := Passed(w.stats, ph, dstp))
  }

  /** __copy (sync.py:307-336). */
  function CopyFile(env: Env, ph: Phase, w0: World, srcp: Path, dstp: Path): (r: World)
    requires srcp != [] && dstp != []
  {
    var w := Ticked(env, w0);
    if !w.status.Running? then w else FileCopied(env, ph, w, srcp, dstp)
  }

  /** Everything of `D` that is not `dir` or below it. */
  function Pruned(D: Tree, dir: Path): (r: Tree)
    ensures forall q :: q in r <==> q in D && !(dir <= q)
    ensures forall q :: q in r ==> r[q] == D[q]
  {
    map q | q in D && !(dir <= q) :: D[q]
  }

  /** `dir` kept and everything strictly below it gone: what shutil.rmtree
      leaves when it empties a linked directory and then fails to rmdir it. */
  function Emptied(D: Tree, dir: Path): (r: Tree)
    ensures forall q :: q in r <==> q in D && !(dir < q)
    ensures forall q :: q in r ==> r[q] == D[q]
  {
    map q | q in D && !(dir < q) :: D[q]
  }

  /** The part of __rmdir after the progress call (sync.py:345-358), where
      `sep` says whether `dir` was spelled with a trailing separator, as a
      purge child marked as a directory is. Nothing is filed when `dir` is
      no longer a directory. shutil.rmtree refuses a symbolic link, but
      with a trailing separator the name is resolved first, so rmtree sees
      no link: it deletes everything below the link, then os.rmdir fails on
      the link itself and `dir` is filed as failed. */
  function DirRemoved(env: Env, ph: Phase, w: World, dir: Path, sep: bool): (r: World)
  {
    if !IsDir(w.D, dir) then w
    else if env.dryRun then w.(stats := Passed(w.stats, ph, dir))
    else if dir in env.faults.io || (w.D[dir].link && !sep) then w.(stats := Failed(w.stats, ph, dir))
    else if w.D[dir].link then w.(D := Emptied(w.D, dir), stats := Failed(w.stats, ph, dir))
    else w.(D := Pruned(w.D, dir), stats := Passed(w.stats, ph, dir))
  }

  /** __rmdir (sync.py:338-358). */
  function RmDir(env: Env, ph: Phase, w0: World, dir: Path, sep: bool): (r: World)
  {
    var w := Ticked(env, w0);
    if !w.status.Running? then w else DirRemoved(env, ph, w, dir, sep)
  }

  /** The part of __remove after the progress call (sync.py:367-380):
      nothing is filed when `f` is no longer a file. */
  function FileRemoved(env: Env, ph: Phase, w: World, f: Path): (r: World)
  {
    if !IsFileFollow(w.D, f) then w
    else if env.dryRun then w.(stats := Passed(w.stats, ph, f))
    else if f in env.faults.io then w.(stats := Failed(w.stats, ph, f))
    else w.(D := w.D - {f}, stats := Passed(w.stats, ph, f))
  }

  /** __remove (sync.py:360-380). */
  function RemoveFile(env: Env, ph: Phase, w0: World, f: Path): (r: World)
  {
    var w := Ticked(env, w0);
    if !w.status.Running? then w else FileRemoved(env, ph, w, f)
  }

  /** One child `c` listed under `k` (sync.py:209-215, 229-233, 246-253). A
      child shown with a trailing separator names a directory, so it is
      never taken for a file. */
  function Item(env: Env, ph: Phase, k: Path, c: Child, w: World): (r: World)
  {
    if !w.status.Running? then w
    else
      var p := k + [c.name];
      match ph
      case Creating =>
        if IsDir(env.S, p) then CopyDir(env, ph, w, p, p)
        else if !c.dirMark && IsFileFollow(env.S, p) then CopyFile(env, ph, w, p, p)
        else w
      case Updating => CopyFile(env, ph, w, p, p)
      case Purging =>
        if IsDir(w.D, p) then RmDir(env, ph, w, p, c.dirMark)
        else if !c.dirMark && IsFileFollow(w.D, p) then RemoveFile(env, ph, w, p)
        else w
  }

  /** The children `cs` of `k`, in their stored order. */
  function Items(env: Env, ph: Phase, k: Path, cs: seq<Child>, w: World): World
  {
    if cs == [] then w
    else Item(env, ph, k, cs[|cs| - 1], Items(env, ph, k, cs[..|cs| - 1], w))
  }

  /** The check asks once per group; a false answer ends the run
      (sync.py:198-200). */
  function Polled(env: Env, w: World): (r: World)
  {
    if env.check.None? then w
    else if env.check.value(w.polls) then w.(polls := w.polls + 1)
    else w.(polls := w.polls + 1, status := Cancelled)
  }

  /** One key `k` with its children `cs`: the poll, then in the create phase
      the destination directory made when missing (sync.py:206-208), then the
      children. */
  function Group(env: Env, ph: Phase, k: Path, cs: seq<Child>, w: World): World
  {
    if !w.status.Running? then w
    else
      var w1 := Polled(env, w);
      if !w1.status.Running? then w1
      else
        var w2 := if ph == Creating && !DirExists(w1.D, k) then MakeDirs(env, ph, w1, k) else w1;
        Items(env, ph, k, cs, w2)
  }

  /** The groups of `m` in the key order `ks`. */
  function Groups(env: Env, ph: Phase, m: Multimap, ks: seq<Path>, w: World): World
  {
    if ks == [] then w
    else
      var k := ks[|ks| - 1];
      Group(env, ph, k, Get(m, k), Groups(env, ph, m, ks[..|ks| - 1], w))
  }

  /** Every key of `m` exactly once. */
  predicate Enumerates(ks: seq<Path>, m: Multimap)
  {
    (forall i, j :: 0 <= i < j < |ks| ==> ks[i] != ks[j]) &&
    (forall k :: k in ks ==> k in m) && (forall k :: k in m ==> k in ks)
  }

  /** `ks` is what `sorted(m.items())` walks: every key once, in path order. */
  predicate IsKeyOrder(ks: seq<Path>, m: Multimap)
  {
    SortedPaths(ks) && Enumerates(ks, m)
  }

  /** The run settings a run reads to pick its phases. */
  datatype Phases = Phases(create: bool, update: bool, purge: bool)

  /** runwithdiff (sync.py:190-253) from the point where the diff is known:
      creates, then updates, then purges, each only when its run setting is
      set, each over its keys in the orders `ck`, `uk`, `pk`. */
  function Execute(env: Env, on: Phases, c: Changes, ck: seq<Path>, uk: seq<Path>, pk: seq<Path>, w: World): World
  {
    var w1 := if on.create then Groups(env, Creating, c.create, ck, w) else w;
    var w2 := if on.update then Groups(env, Updating, c.update, uk, w1) else w1;
    if on.purge then Groups(env, Purging, c.purge, pk, w2) else w2
  }
}
