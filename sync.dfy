/** The Sync class of sync.py: settings for the comparison and for the run,
    the untrimmed and trimmed diffs, and the run that applies a diff to the
    destination.

    The source and destination trees, the faults of the system and the
    comparison's pattern search are parameters; a run returns the new
    destination tree. A create or update path given to difftrim is relative
    to the source root, a purge path to the destination root. */
module Synchronizer {
  import opened Paths
  import opened FileTree
  import opened ChangeSet
  import opened Options
  import opened Filter
  import opened Differ
  import opened Execution
  import opened ExecutionProps

  /** `defaults` with every keyword it knows overriding it; other keywords
      are dropped. */
  function Overridden(defaults: Settings, kwargs: Settings): (r: Settings)
    ensures r.Keys == defaults.Keys
    ensures forall k :: k in r && k in kwargs ==> r[k] == kwargs[k]
    ensures forall k :: k in r && k !in kwargs ==> r[k] == defaults[k]
  {
    map k | k in defaults :: if k in kwargs then kwargs[k] else defaults[k]
  }

  /** The keyword loop of __init__ (sync.py:90-94), from the diff settings
      `dd` and the run settings `rd`: a keyword goes to the diff settings
      when they know it, else to the run settings when they know it, else
      nowhere. */
  method Route(kwargs: Settings, dd: Settings, rd: Settings) returns (diffstngs: Settings, runstngs: Settings)
    requires dd.Keys !! rd.Keys
    ensures diffstngs == Overridden(dd, kwargs)
    ensures runstngs == Overridden(rd, kwargs)
  {
    diffstngs, runstngs := dd, rd;
    var rest := kwargs.Keys;
    while rest != {}
      invariant rest <= kwargs.Keys
      invariant diffstngs.Keys == dd.Keys && runstngs.Keys == rd.Keys
      invariant forall j :: j in diffstngs ==> diffstngs[j] == if j in kwargs && j !in rest then kwargs[j] else dd[j]
      invariant forall j :: j in runstngs ==> runstngs[j] == if j in kwargs && j !in rest then kwargs[j] else rd[j]
      decreases rest
    {
      var k :| k in rest;
      if k in diffstngs {
        diffstngs := diffstngs[k := kwargs[k]];
      } else if k in runstngs {
        runstngs := runstngs[k := kwargs[k]];
      }
      rest := rest - {k};
    }
    SameSettings(diffstngs, Overridden(dd, kwargs));
    SameSettings(runstngs, Overridden(rd, kwargs));
  }

  lemma SameSettings(a: Settings, b: Settings)
    requires a.Keys == b.Keys && forall k :: k in a ==> a[k] == b[k]
    ensures a == b
  {
  }

  /** Sync's settings as the constructor leaves them are ready for a
      comparison: well typed when the keywords are, every option of a Diff
      present, and no keyword lands in both dictionaries. */
  lemma RoutedReady(kwargs: Settings)
    requires WellTyped(kwargs)
    ensures WellTyped(Overridden(SyncDiffDefaults, kwargs))
    ensures Overridden(SyncDiffDefaults, kwargs).Keys == DiffOpts
    ensures Overridden(SyncDiffDefaults, kwargs).Keys !! Overridden(SyncRunDefaults, kwargs).Keys
  {
    SyncDiffDefaultsComplete();
    SyncDefaultsDisjoint();
  }

  /** One path of difftrim: Diff.remove_* on an existing path. */
  function TrimStep(m: Multimap, t: Tree, p: Path): Multimap
  {
    if Exists(t, p) then Detached(m, t, p) else m
  }

  /** The loops of difftrim (sync.py:130-135) on one map. */
  function Trimmed(m: Multimap, t: Tree, ps: seq<Path>): Multimap
  {
    if ps == [] then m else TrimStep(Trimmed(m, t, ps[..|ps| - 1]), t, ps[|ps| - 1])
  }

  /** Trimming never grows the count of entries. */
  lemma {:induction false} TrimmedShrinks(m: Multimap, t: Tree, ps: seq<Path>)
    ensures EntryCount(Trimmed(m, t, ps)) <= EntryCount(m)
  {
    if ps != [] {
      var prev := Trimmed(m, t, ps[..|ps| - 1]);
      var p := ps[|ps| - 1];
      TrimmedShrinks(m, t, ps[..|ps| - 1]);
      if Exists(t, p) && p != [] {
        var c := Child(Last(p), IsDir(t, p));
        if c in Get(prev, Parent(p)) {
          DetachCount(prev, Parent(p), c);
        }
      }
    }
  }

  /** Trimming never adds an entry: every list of the trimmed map is a
      sub-multiset of the original one. */
  lemma {:induction false} TrimmedSublists(m: Multimap, t: Tree, ps: seq<Path>)
    ensures forall k :: multiset(Get(Trimmed(m, t, ps), k)) <= multiset(Get(m, k))
  {
    if ps != [] {
      var prev := Trimmed(m, t, ps[..|ps| - 1]);
      TrimmedSublists(m, t, ps[..|ps| - 1]);
      forall k ensures multiset(Get(TrimStep(prev, t, ps[|ps| - 1]), k)) <= multiset(Get(prev, k)) {
      }
    }
  }

  /** The state of the selection behind `sorted(m.items())`: the keys taken
      so far, each once and in path order, precede every key still in
      `rest`, and the two together are the keys of `m`. */
  ghost predicate Selected(ks: seq<Path>, rest: set<Path>, m: Multimap)
  {
    rest <= m.Keys &&
    (forall k :: k in ks ==> k in m && k !in rest) &&
    (forall k :: k in m ==> k in ks || k in rest) &&
    SortedPaths(ks) &&
    (forall i, j :: 0 <= i < j < |ks| ==> ks[i] != ks[j]) &&
    (forall i, k :: 0 <= i < |ks| && k in rest ==> PathLe(ks[i], k))
  }

  /** Taking the least remaining key keeps the selection in order. */
  lemma SelectLeast(ks: seq<Path>, rest: set<Path>, m: Multimap, k: Path)
    requires Selected(ks, rest, m)
    requires k in rest && forall j :: j in rest ==> PathLe(k, j)
    ensures Selected(ks + [k], rest - {k}, m)
  {
    var ks' := ks + [k];
    assert forall i :: 0 <= i < |ks| ==> ks'[i] == ks[i];
  }

  /** `sorted(m.items())` (sync.py:196, 219, 237): the keys of `m`, each once,
      in path order. */
  method SortedKeys(m: Multimap) returns (ks: seq<Path>)
    ensures IsKeyOrder(ks, m)
  {
    ks := [];
    var rest := m.Keys;
    while rest != {}
      invariant Selected(ks, rest, m)
      decreases rest
    {
      LeastPathExists(rest);
      var k :| k in rest && forall j :: j in rest ==> PathLe(k, j);
      SelectLeast(ks, rest, m, k);
      ks := ks + [k];
      rest := rest - {k};
    }
  }

  /** The phases the run settings `rs` switch on (sync.py:194, 217, 235). */
  function PhasesBy(rs: Settings): Phases
  {
    Phases(Flag(rs, "create"), Flag(rs, "update"), Flag(rs, "purge"))
  }

  /** The change maps of a diff, or None when there is no diff. */
  function ChangesIn(d: Diff?): Option<Changes>
    reads d
  {
    if d == null then None else Some(Changes(d.create, d.update, d.purge))
  }

  /** What __run does with the change maps `c` of the diff it picked: with
      no diff only the statistics are emptied; otherwise the run's Outcome,
      starting from empty statistics. */
  ghost predicate Ran(c: Option<Changes>, env: Env, on: Phases, D0: Tree, a0: nat,
                      D1: Tree, s1: Stats, a1: nat, st: Status)
  {
    if c.None? then D1 == D0 && s1 == NoStats && a1 == a0 && st == Running
    else Outcome(c.value, env, on, D0, NoStats, a0, D1, s1, a1, st)
  }

  /** Whether run computes the diff again afterwards: the deprecated
      `no_update` keyword, negated with Python truthiness, overrides
      refreshDiff (sync.py:160-162). */
  function Refreshing(refreshDiff: bool, kwargs: Settings): bool
  {
    if "no_update" in kwargs then !Truthy(kwargs["no_update"]) else refreshDiff
  }

  /** The run settings sync and update install before running
      (sync.py:142-144, sync.py:149-151): `create` as given, `update` on,
      then every keyword on top. */
  function ModeSettings(rs: Settings, create: bool, kwargs: Settings): Settings
  {
    rs["create" := VBool(create)]["update" := VBool(true)] + kwargs
  }

  /** Under those settings a run creates exactly when asked to and always
      updates, unless a keyword says otherwise; purging is left as it was;
      the keys a run reads stay present. */
  lemma ModePhases(rs: Settings, create: bool, kwargs: Settings)
    ensures "create" !in kwargs ==> PhasesBy(ModeSettings(rs, create, kwargs)).create == create
    ensures "update" !in kwargs ==> PhasesBy(ModeSettings(rs, create, kwargs)).update
    ensures "purge" !in kwargs ==> PhasesBy(ModeSettings(rs, create, kwargs)).purge == PhasesBy(rs).purge
    ensures "create" in kwargs ==> PhasesBy(ModeSettings(rs, create, kwargs)).create == Flag(kwargs, "create")
    ensures SyncRunDefaults.Keys <= rs.Keys ==> SyncRunDefaults.Keys <= ModeSettings(rs, create, kwargs).Keys
  {
  }

  /** What a run over the change maps `c` does from the destination `D0`,
      the lists `s0` and the counter `a0`: Execute over some path order of
      each map it walks. */
  ghost predicate Outcome(c: Changes, env: Env, on: Phases, D0: Tree, s0: Stats, a0: nat,
                          D1: Tree, s1: Stats, a1: nat, st: Status)
  {
    exists ck, uk, pk ::
      (on.create ==> IsKeyOrder(ck, c.create)) && (on.update ==> IsKeyOrder(uk, c.update)) &&
      (on.purge ==> IsKeyOrder(pk, c.purge)) &&
      var r := Execute(env, on, c, ck, uk, pk, World(D0, s0, a0, 0, Running));
      D1 == r.D && s1 == r.stats && a1 == r.progressamt && st == r.status
  }

  /** The orders a run walked witness its Outcome. */
  lemma OutcomeOf(c: Changes, env: Env, on: Phases, ck: seq<Path>, uk: seq<Path>, pk: seq<Path>,
                  D0: Tree, s0: Stats, a0: nat, r: World)
    requires on.create ==> IsKeyOrder(ck, c.create)
    requires on.update ==> IsKeyOrder(uk, c.update)
    requires on.purge ==> IsKeyOrder(pk, c.purge)
    requires r == Execute(env, on, c, ck, uk, pk, World(D0, s0, a0, 0, Running))
    ensures Outcome(c, env, on, D0, s0, a0, r.D, r.stats, r.progressamt, r.status)
  {
  }

  /** Some path order of the keys `s`; it stands for the order of a phase
      that a stopped run never reaches. */
  ghost function OrderOf(s: set<Path>): (ks: seq<Path>)
    ensures SortedPaths(ks)
    ensures forall i, j :: 0 <= i < j < |ks| ==> ks[i] != ks[j]
    ensures forall k :: k in ks <==> k in s
    decreases s
  {
    if s == {} then []
    else
      LeastPathExists(s);
      var k :| k in s && forall j :: j in s ==> PathLe(k, j);
      var t := OrderOf(s - {k});
      ConsSorted(k, t);
      [k] + t
  }

  /** The try block of __copydir (sync.py:285-305) on the destination and
      the lists: mkdir, the ownership fix, copystat, whose refusal escapes. */
  method TryCopyDir(env: Env, ph: Phase, srcp: Path, dstp: Path, D0: Tree, s0: Stats,
                    ghost a: nat, ghost polls: nat)
    returns (D: Tree, s: Stats, status: Status)
    requires srcp in env.S && dstp != []
    ensures World(D, s, a, polls, status) == DirCopied(env, ph, World(D0, s0, a, polls, Running), srcp, dstp)
  {
    D, s, status := D0, s0, Running;
    if !env.dryRun {
      if dstp in env.faults.io || dstp in D || !DirExists(D, Parent(dstp)) {
        s := Failed(s, ph, dstp);
        return;
      }
      D := D[dstp := NewDir];
    }
    if env.forceOwnership && Exists(D, dstp) && !D[dstp].writable {
      if dstp in env.faults.chmod {
        return;
      }
      D := Unlocked(D, dstp);
    }
    if !Exists(D, dstp) || dstp in env.faults.stat {
      status := Raised(OSError);
      return;
    }
    D := D[dstp := D[dstp].(mtime := env.S[srcp].mtime, writable := env.S[srcp].writable)];
    s := Passed(s, ph, dstp);
  }

  /** The try block of __copy (sync.py:314-336): the ownership fix, then
      shutil.copy2. */
  method TryCopy(env: Env, ph: Phase, srcp: Path, dstp: Path, D0: Tree, s0: Stats,
                 ghost a: nat, ghost polls: nat)
    returns (D: Tree, s: Stats, status: Status)
    requires srcp != [] && dstp != []
    ensures World(D, s, a, polls, status) == FileCopied(env, ph, World(D0, s0, a, polls, Running), srcp, dstp)
  {
    D, s, status := D0, s0, Running;
    if env.dryRun {
      s := Passed(s, ph, dstp);
      return;
    }
    if env.forceOwnership && Exists(D, dstp) && !D[dstp].writable {
      if dstp in env.faults.chmod {
        return;
      }
      D := Unlocked(D, dstp);
    }
    var t := Target(D, srcp, dstp);
    if FifoAt(env.S, srcp) || FifoAt(D, t) {
      status := Raised(SpecialFileError);
      return;
    }
    if dstp in env.faults.io || !IsFileFollow(env.S, srcp) || !DirExists(D, Parent(t))
       || IsDir(D, t) || (t in D && (!D[t].writable || D[t].kind == Socket)) {
      s := Failed(s, ph, dstp);
      return;
    }
    if t in D && D[t].kind == Device {
      D := D[t := D[t].(mtime := env.S[srcp].mtime, writable := env.S[srcp].writable)];
    } else {
      D := D[t := env.S[srcp].(link := t in D && D[t].link)];
    }
    s := Passed(s, ph, dstp);
  }

  /** The rest of __rmdir (sync.py:345-358): shutil.rmtree of a directory
      still present, spelled with a trailing separator when `sep`. */
  method TryRmDir(env: Env, ph: Phase, dir: Path, sep: bool, D0: Tree, s0: Stats, ghost a: nat, ghost polls: nat)
    returns (D: Tree, s: Stats)
    ensures World(D, s, a, polls, Running) == DirRemoved(env, ph, World(D0, s0, a, polls, Running), dir, sep)
  {
    D, s := D0, s0;
    if !IsDir(D, dir) {
      return;
    }
    if env.dryRun {
      s := Passed(s, ph, dir);
    } else if dir in env.faults.io || (D[dir].link && !sep) {
      s := Failed(s, ph, dir);
    } else if D[dir].link {
      D := Emptied(D, dir);
      s := Failed(s, ph, dir);
    } else {
      D := Pruned(D, dir);
      s := Passed(s, ph, dir);
    }
  }

  /** The rest of __remove (sync.py:367-380): os.remove of a file still
      present. */
  method TryRemove(env: Env, ph: Phase, f: Path, D0: Tree, s0: Stats, ghost a: nat, ghost polls: nat)
    returns (D: Tree, s: Stats)
    ensures World(D, s, a, polls, Running) == FileRemoved(env, ph, World(D0, s0, a, polls, Running), f)
  {
    D, s := D0, s0;
    if !IsFileFollow(D, f) {
      return;
    }
    if env.dryRun {
      s := Passed(s, ph, f);
    } else if f in env.faults.io {
      s := Failed(s, ph, f);
    } else {
      D := D - {f};
      s := Passed(s, ph, f);
    }
  }

  /** Keywords merged into settings that hold every diff option leave them
      well typed and complete, so a Diff built from them can run. */
  lemma MergedReady(ds: Settings, kwargs: Settings)
    requires WellTyped(ds) && DiffOpts <= ds.Keys && WellTyped(kwargs)
    ensures WellTyped(ds + kwargs) && DiffOpts <= (ds + kwargs).Keys
  {
  }

  /** `orig` and `trim` are what diff leaves behind for the comparison
      result `r`: on success two distinct diffs holding its three maps;
      otherwise the error the comparison raised. */
  ghost predicate DiffsOf(r: Option<Changes>, err: Option<Error>, orig: Diff?, trim: Diff?)
    reads orig, trim
  {
    (r.None? ==> err == Some(OSError)) &&
    (r.Some? ==>
      err.None? && orig != null && trim != null && orig != trim &&
      orig.Valid() && trim.Valid() &&
      orig.create == r.value.create && orig.update == r.value.update && orig.purge == r.value.purge &&
      trim.create == r.value.create && trim.update == r.value.update && trim.purge == r.value.purge)
  }

  /** The first loop of difftrim (sync.py:130-131): remove_create on each
      path in turn. */
  method TrimCreate(d: Diff, S: Tree, ps: seq<Path>)
    modifies d
    ensures d.create == Trimmed(old(d.create), S, ps)
    ensures d.update == old(d.update) && d.purge == old(d.purge)
    ensures old(d.Counted()) ==> d.Counted()
    ensures d.src == old(d.src) && d.dst == old(d.dst) && d.opts == old(d.opts)
  {
    var i := 0;
    while i < |ps|
      invariant 0 <= i <= |ps|
      invariant d.create == Trimmed(old(d.create), S, ps[..i])
      invariant d.update == old(d.update) && d.purge == old(d.purge)
      invariant old(d.Counted()) ==> d.Counted()
      invariant d.src == old(d.src) && d.dst == old(d.dst) && d.opts == old(d.opts)
    {
      assert ps[..i + 1][..i] == ps[..i];
      d.RemoveCreate(S, ps[i]);
      i := i + 1;
    }
    assert ps[..i] == ps;
  }

  /** The second loop of difftrim (sync.py:132-133): remove_update. */
  method TrimUpdate(d: Diff, S: Tree, ps: seq<Path>)
    modifies d
    ensures d.update == Trimmed(old(d.update), S, ps)
    ensures d.create == old(d.create) && d.purge == old(d.purge)
    ensures old(d.Counted()) ==> d.Counted()
    ensures d.src == old(d.src) && d.dst == old(d.dst) && d.opts == old(d.opts)
  {
    var i := 0;
    while i < |ps|
      invariant 0 <= i <= |ps|
      invariant d.update == Trimmed(old(d.update), S, ps[..i])
      invariant d.create == old(d.create) && d.purge == old(d.purge)
      invariant old(d.Counted()) ==> d.Counted()
      invariant d.src == old(d.src) && d.dst == old(d.dst) && d.opts == old(d.opts)
    {
      assert ps[..i + 1][..i] == ps[..i];
      d.RemoveUpdate(S, ps[i]);
      i := i + 1;
    }
    assert ps[..i] == ps;
  }

  /** The third loop of difftrim (sync.py:134-135): remove_purge, whose
      paths are looked up in the destination. */
  method TrimPurge(d: Diff, D: Tree, ps: seq<Path>)
    modifies d
    ensures d.purge == Trimmed(old(d.purge), D, ps)
    ensures d.create == old(d.create) && d.update == old(d.update)
    ensures old(d.Counted()) ==> d.Counted()
    ensures d.src == old(d.src) && d.dst == old(d.dst) && d.opts == old(d.opts)
  {
    var i := 0;
    while i < |ps|
      invariant 0 <= i <= |ps|
      invariant d.purge == Trimmed(old(d.purge), D, ps[..i])
      invariant d.create == old(d.create) && d.update == old(d.update)
      invariant old(d.Counted()) ==> d.Counted()
      invariant d.src == old(d.src) && d.dst == old(d.dst) && d.opts == old(d.opts)
    {
      assert ps[..i + 1][..i] == ps[..i];
      d.RemovePurge(D, ps[i]);
      i := i + 1;
    }
    assert ps[..i] == ps;
  }

  /** diff once both roots are known (sync.py:117-120): the keywords merged
      into the diff settings, a Diff that runs at once on them, and a copy
      of it to trim. */
  method BuildDiffs(src: Option<Path>, dst: Option<Path>, ds: Settings, kwargs: Settings,
                    S: Tree, D: Tree, search: Search, tmp: Path)
    returns (merged: Settings, orig: Diff?, trim: Diff?, err: Option<Error>, ghost r: Option<Changes>)
    requires src.Some? && dst.Some?
    requires WellTyped(ds) && DiffOpts <= ds.Keys && WellTyped(kwargs)
    ensures merged == ds + kwargs && WellTyped(merged) && DiffOpts <= merged.Keys
    ensures kwargs == map[] ==> merged == ds
    ensures err.Some? <==> orig == null
    ensures err.Some? <==> trim == null
    ensures orig != null ==> fresh(orig) && fresh(trim)
    ensures r == Compared(InitialOpts(merged), src, dst, S, D, search)
    ensures DiffsOf(r, err, orig, trim)
    ensures err.None? ==> orig.Counted() && trim.Counted()
  {
    r := Compared(InitialOpts(ds + kwargs), src, dst, S, D, search);
    MergedReady(ds, kwargs);
    merged := ds + kwargs;
    var d;
    d, err := New(src, dst, merged, S, D, search, tmp);
    if err.Some? {
      return merged, null, null, err, r;
    }
    orig := d;
    trim := d.Copy();
  }

  class Sync {
    var src: Option<Path>
    var dst: Option<Path>
    var origdiff: Diff?
    var trimdiff: Diff?
    var diffstngs: Settings
    var runstngs: Settings
    /** Whether a progress function is set; the function itself only
        receives messages and is not modelled. */
    var progressfnc: bool
    /** The cancellation check, answering its n-th question of a run. */
    var progresscheck: Option<nat -> bool>
    var progressamt: nat
    var stats: Stats
    var hasrun: bool
    var hasrundiff: bool
    var diffcurrent: bool

    /** The two diffs exist together and are distinct objects; the settings
        can always be handed to a Diff. */
    ghost predicate Valid()
      reads this, origdiff, trimdiff
    {
      WellTyped(diffstngs) && DiffOpts <= diffstngs.Keys && SyncRunDefaults.Keys <= runstngs.Keys &&
      (origdiff == null <==> trimdiff == null) &&
      (origdiff != null ==> origdiff != trimdiff && origdiff.Valid() && trimdiff.Valid())
    }

    /** __validate (sync.py:107-110). */
    predicate Ready()
      reads this
    {
      src.Some? && dst.Some?
    }

    /** The untrimmed diff's total, which __getProgPercent divides by. */
    function Total(): Option<int>
      reads this`origdiff, origdiff
    {
      if origdiff == null then None else Some(origdiff.totalcount)
    }

    /** The environment of a run started now with the run settings `rs`. */
    function EnvBy(rs: Settings, S: Tree, faults: Faults, dryRun: bool): Env
      reads this`progressfnc, this`progresscheck, this`origdiff, origdiff
    {
      Env(S, faults, dryRun, Flag(rs, "forceOwnership"), progressfnc, Total(), progresscheck)
    }

    /** The diff __run picks under the run settings `rs` (sync.py:185). */
    function ChosenBy(rs: Settings): Diff?
      reads this`origdiff, this`trimdiff
    {
      if Flag(rs, "trimmed") then trimdiff else origdiff
    }

    /** `env` carries what the helpers read from this object: whether a
        progress function is set, the total it divides by, and the check. */
    ghost predicate Agrees(env: Env)
      reads this`progressfnc, this`progresscheck, this`origdiff, origdiff
    {
      env.progress == progressfnc && env.total == Total() && env.check == progresscheck
    }

    /** __init__ (sync.py:45-94). */
    constructor (src: Option<Path>, dst: Option<Path>, kwargs: Settings)
      requires WellTyped(kwargs)
      ensures this.src == src && this.dst == dst
      ensures diffstngs == Overridden(SyncDiffDefaults, kwargs)
      ensures runstngs == Overridden(SyncRunDefaults, kwargs)
      ensures origdiff == null && trimdiff == null && Valid()
      ensures !progressfnc && progresscheck.None? && progressamt == 0 && stats == NoStats
      ensures !hasrun && !hasrundiff && !diffcurrent
    {
      SyncDiffDefaultsComplete();
      SyncDefaultsDisjoint();
      var d, r := Route(kwargs, SyncDiffDefaults, SyncRunDefaults);
      this.src, this.dst := src, dst;
      diffstngs, runstngs := d, r;
      origdiff, trimdiff := null, null;
      progressfnc, progresscheck, progressamt := false, None, 0;
      stats := NoStats;
      hasrun, hasrundiff, diffcurrent := false, false, false;
      RoutedReady(kwargs);
    }

    /** getopts (sync.py:96-105): both dictionaries in one, a run setting
        winning over a diff setting of the same name. */
    method GetOpts() returns (r: Settings)
      ensures r.Keys == diffstngs.Keys + runstngs.Keys
      ensures forall k :: k in runstngs ==> r[k] == runstngs[k]
      ensures forall k :: k in diffstngs && k !in runstngs ==> r[k] == diffstngs[k]
    {
      r := map[];
      var rest := diffstngs.Keys;
      while rest != {}
        invariant rest <= diffstngs.Keys
        invariant r == Restrict(diffstngs, diffstngs.Keys - rest)
        decreases rest
      {
        var k :| k in rest;
        r := r[k := diffstngs[k]];
        rest := rest - {k};
      }
      rest := runstngs.Keys;
      while rest != {}
        invariant rest <= runstngs.Keys
        invariant r.Keys == diffstngs.Keys + (runstngs.Keys - rest)
        invariant forall k :: k in runstngs && k !in rest ==> r[k] == runstngs[k]
        invariant forall k :: k in diffstngs && (k !in runstngs || k in rest) ==> r[k] == diffstngs[k]
        decreases rest
      {
        var k :| k in rest;
        r := r[k := runstngs[k]];
        rest := rest - {k};
      }
    }

    /** diff (sync.py:112-120): with both roots known, the keywords are
        merged into the diff settings unfiltered, a Diff is built from them
        and runs at once, and the trimmed diff starts as a copy of it. An
        error of the comparison escapes after the settings were merged. */
    method Diff(kwargs: Settings, S: Tree, D: Tree, search: Search, tmp: Path) returns (err: Option<Error>)
      requires Valid() && WellTyped(kwargs)
      modifies this`diffstngs, this`origdiff, this`trimdiff, this`hasrundiff, this`diffcurrent
      ensures Valid()
      ensures !Ready() ==> err.None? && diffstngs == old(diffstngs)
      ensures Ready() ==> diffstngs == old(diffstngs) + kwargs
      ensures kwargs == map[] ==> diffstngs == old(diffstngs)
      ensures src == old(src) && dst == old(dst) && runstngs == old(runstngs) && hasrun == old(hasrun)
      ensures stats == old(stats) && progressamt == old(progressamt)
      ensures err.Some? || !Ready() ==> origdiff == old(origdiff) && trimdiff == old(trimdiff)
      ensures err.Some? || !Ready() ==> hasrundiff == old(hasrundiff) && diffcurrent == old(diffcurrent)
      ensures Ready() && err.None? ==> hasrundiff && diffcurrent && fresh(origdiff) && fresh(trimdiff)
      ensures Ready() && err.None? ==> origdiff.Counted() && trimdiff.Counted()
      ensures Ready() ==>
        DiffsOf(Compared(InitialOpts(diffstngs), src, dst, S, D, search), err, origdiff, trimdiff)
    {
      err := None;
      if !Ready() {
        return;
      }
      var merged, d, t;
      ghost var r;
      merged, d, t, err, r := BuildDiffs(src, dst, diffstngs, kwargs, S, D, search, tmp);
      if err.Some? {
        KeepSettings(merged);
      } else {
        Install(merged, d, t);
      }
    }

    /** The assignment that ends a failed diff: only the merged settings
        are kept. */
    method KeepSettings(merged: Settings)
      requires Valid() && WellTyped(merged) && DiffOpts <= merged.Keys
      modifies this`diffstngs
      ensures Valid() && diffstngs == merged
      ensures src == old(src) && dst == old(dst) && runstngs == old(runstngs) && hasrun == old(hasrun)
      ensures stats == old(stats) && progressamt == old(progressamt)
      ensures origdiff == old(origdiff) && trimdiff == old(trimdiff)
      ensures hasrundiff == old(hasrundiff) && diffcurrent == old(diffcurrent)
    {
      diffstngs := merged;
    }

    /** The assignments that end a successful diff: the merged settings,
        the two diffs and the flags. */
    method Install(merged: Settings, d: Diff, t: Diff)
      requires SyncRunDefaults.Keys <= runstngs.Keys && WellTyped(merged) && DiffOpts <= merged.Keys
      requires d != t && d.Valid() && t.Valid()
      modifies this`diffstngs, this`origdiff, this`trimdiff, this`hasrundiff, this`diffcurrent
      ensures Valid() && diffstngs == merged
      ensures src == old(src) && dst == old(dst) && runstngs == old(runstngs) && hasrun == old(hasrun)
      ensures stats == old(stats) && progressamt == old(progressamt)
      ensures origdiff == d && trimdiff == t && hasrundiff && diffcurrent
      ensures unchanged(d, t)
    {
      diffstngs, origdiff, trimdiff := merged, d, t;
      hasrundiff, diffcurrent := true, true;
    }

    /** difftrim (sync.py:122-135): each path leaves the trimmed diff in
        turn; the untrimmed diff is not touched. Without a diff the first
        path raises. */
    method DiffTrim(create: seq<Path>, update: seq<Path>, purge: seq<Path>, S: Tree, D: Tree)
      returns (err: Option<Error>)
      requires Valid()
      modifies trimdiff
      ensures Valid()
      ensures trimdiff == null ==>
        err == if create == [] && update == [] && purge == [] then None else Some(AttributeError)
      ensures trimdiff != null ==>
        err.None? &&
        trimdiff.create == Trimmed(old(trimdiff.create), S, create) &&
        trimdiff.update == Trimmed(old(trimdiff.update), S, update) &&
        trimdiff.purge == Trimmed(old(trimdiff.purge), D, purge)
      ensures trimdiff != null ==>
        trimdiff.src == old(trimdiff.src) && trimdiff.dst == old(trimdiff.dst) && trimdiff.opts == old(trimdiff.opts)
      ensures trimdiff != null && old(trimdiff.Counted()) ==> trimdiff.Counted()
    {
      if trimdiff == null {
        if create != [] || update != [] || purge != [] {
          return Some(AttributeError);
        }
        return None;
      }
      err := None;
      TrimCreate(trimdiff, S, create);
      TrimUpdate(trimdiff, S, update);
      TrimPurge(trimdiff, D, purge);
    }

    /** __getProgPercent (sync.py:271-276): the counter goes up, then the
        division by the untrimmed diff's total fails when there is no such
        diff or its total is 0. The percentage itself is not modelled. */
    method GetProgPercent() returns (status: Status)
      modifies this`progressamt
      ensures progressamt == old(progressamt) + 1
      ensures status == if origdiff == null then Raised(AttributeError)
                        else if origdiff.totalcount == 0 then Raised(ZeroDivisionError)
                        else Running
    {
      progressamt := progressamt + 1;
      if origdiff == null {
        return Raised(AttributeError);
      }
      if origdiff.totalcount == 0 {
        return Raised(ZeroDivisionError);
      }
      return Running;
    }

    /** __makedirs (sync.py:255-269). */
    method MakeDirs(env: Env, ph: Phase, dir: Path, D0: Tree, ghost polls: nat) returns (D: Tree)
      modifies this`stats
      ensures World(D, stats, progressamt, polls, Running)
           == Execution.MakeDirs(env, ph, World(D0, old(stats), old(progressamt), polls, Running), dir)
    {
      if dir in env.faults.io || Blocked(D0, dir) {
        D := D0;
        stats := Failed(stats, ph, dir);
      } else {
        D := MadeDirs(D0, dir);
        stats := Passed(stats, ph, dir);
      }
    }

    /** __copydir (sync.py:278-305). */
    method CopyDir(env: Env, ph: Phase, srcp: Path, dstp: Path, D0: Tree, ghost polls: nat)
      returns (D: Tree, status: Status)
      requires Agrees(env) && srcp in env.S && dstp != []
      modifies this`stats, this`progressamt
      ensures World(D, stats, progressamt, polls, status)
           == Execution.CopyDir(env, ph, World(D0, old(stats), old(progressamt), polls, Running), srcp, dstp)
    {
      D, status := D0, Running;
      if progressfnc {
        status := GetProgPercent();
        if !status.Running? {
          return;
        }
      }
      var s;
      D, s, status := TryCopyDir(env, ph, srcp, dstp, D0, stats, progressamt, polls);
      stats := s;
    }

    /** __copy (sync.py:307-336). */
    method Copy(env: Env, ph: Phase, srcp: Path, dstp: Path, D0: Tree, ghost polls: nat)
      returns (D: Tree, status: Status)
      requires Agrees(env) && srcp != [] && dstp != []
      modifies this`stats, this`progressamt
      ensures World(D, stats, progressamt, polls, status)
           == CopyFile(env, ph, World(D0, old(stats), old(progressamt), polls, Running), srcp, dstp)
    {
      D, status := D0, Running;
      if progressfnc {
        status := GetProgPercent();
        if !status.Running? {
          return;
        }
      }
      var s;
      D, s, status := TryCopy(env, ph, srcp, dstp, D0, stats, progressamt, polls);
      stats := s;
    }

    /** __rmdir (sync.py:338-358). */
    method RmDir(env: Env, ph: Phase, dir: Path, sep: bool, D0: Tree, ghost polls: nat)
      returns (D: Tree, status: Status)
      requires Agrees(env)
      modifies this`stats, this`progressamt
      ensures World(D, stats, progressamt, polls, status)
           == Execution.RmDir(env, ph, World(D0, old(stats), old(progressamt), polls, Running), dir, sep)
    {
      D, status := D0, Running;
      if progressfnc {
        status := GetProgPercent();
        if !status.Running? {
          return;
        }
      }
      var s;
      D, s := TryRmDir(env, ph, dir, sep, D0, stats, progressamt, polls);
      stats := s;
    }

    /** __remove (sync.py:360-380). */
    method Remove(env: Env, ph: Phase, f: Path, D0: Tree, ghost polls: nat)
      returns (D: Tree, status: Status)
      requires Agrees(env)
      modifies this`stats, this`progressamt
      ensures World(D, stats, progressamt, polls, status)
           == RemoveFile(env, ph, World(D0, old(stats), old(progressamt), polls, Running), f)
    {
      D, status := D0, Running;
      if progressfnc {
        status := GetProgPercent();
        if !status.Running? {
          return;
        }
      }
      var s;
      D, s := TryRemove(env, ph, f, D0, stats, progressamt, polls);
      stats := s;
    }

    /** The body of the children loops of runwithdiff (sync.py:209-215,
        229-233, 246-253) for the child `c` of `k`. */
    method Handle(env: Env, ph: Phase, k: Path, c: Child, D0: Tree, ghost polls: nat)
      returns (D: Tree, status: Status)
      requires Agrees(env)
      modifies this`stats, this`progressamt
      ensures World(D, stats, progressamt, polls, status)
           == Item(env, ph, k, c, World(D0, old(stats), old(progressamt), polls, Running))
    {
      var p := k + [c.name];
      D, status := D0, Running;
      match ph
      case Creating =>
        if IsDir(env.S, p) {
          D, status := CopyDir(env, ph, p, p, D0, polls);
        } else if !c.dirMark && IsFileFollow(env.S, p) {
          D, status := Copy(env, ph, p, p, D0, polls);
        }
      case Updating =>
        D, status := Copy(env, ph, p, p, D0, polls);
      case Purging =>
        if IsDir(D0, p) {
          D, status := RmDir(env, ph, p, c.dirMark, D0, polls);
        } else if !c.dirMark && IsFileFollow(D0, p) {
          D, status := Remove(env, ph, p, D0, polls);
        }
    }

    /** The children loop of one key of runwithdiff (sync.py:209-215,
        229-233, 246-253): the children in stored order, stopping at the
        first helper that raises. */
    method RunChildren(env: Env, ph: Phase, k: Path, cs: seq<Child>, D0: Tree, ghost polls: nat)
      returns (D: Tree, status: Status)
      requires Agrees(env)
      modifies this`stats, this`progressamt
      ensures World(D, stats, progressamt, polls, status)
           == Items(env, ph, k, cs, World(D0, old(stats), old(progressamt), polls, Running))
    {
      ghost var w0 := World(D0, stats, progressamt, polls, Running);
      D, status := D0, Running;
      var j := 0;
      while j < |cs|
        invariant 0 <= j <= |cs| && status.Running?
        invariant World(D, stats, progressamt, polls, status) == Items(env, ph, k, cs[..j], w0)
      {
        ItemsStep(env, ph, k, cs, j, w0);
        D, status := Handle(env, ph, k, cs[j], D, polls);
        if !status.Running? {
          ItemsStopEarly(env, ph, k, cs, j + 1, w0);
          return;
        }
        j := j + 1;
      }
      assert cs[..j] == cs;
    }

    /** One key of a phase of runwithdiff: the cancellation check, in the
        create phase the destination directory, then the children
        (sync.py:197-215). */
    method RunGroup(env: Env, ph: Phase, k: Path, cs: seq<Child>, D0: Tree, polls0: nat)
      returns (D: Tree, polls: nat, status: Status)
      requires Agrees(env)
      modifies this`stats, this`progressamt
      ensures World(D, stats, progressamt, polls, status)
           == Group(env, ph, k, cs, World(D0, old(stats), old(progressamt), polls0, Running))
    {
      D, polls, status := D0, polls0, Running;
      if progresscheck.Some? {
        var ok := progresscheck.value(polls);
        polls := polls + 1;
        if !ok {
          status := Cancelled;
          return;
        }
      }
      if ph == Creating && !DirExists(D, k) {
        D := MakeDirs(env, ph, k, D, polls);
      }
      D, status := RunChildren(env, ph, k, cs, D, polls);
    }

    /** The `i`-th key of a phase: the fold over the keys so far grows by
        that key's group. */
    method RunNextGroup(env: Env, ph: Phase, m: Multimap, ks: seq<Path>, i: nat, D0: Tree, polls0: nat, ghost w0: World)
      returns (D: Tree, polls: nat, status: Status)
      requires Agrees(env) && i < |ks|
      requires World(D0, stats, progressamt, polls0, Running) == Groups(env, ph, m, ks[..i], w0)
      modifies this`stats, this`progressamt
      ensures World(D, stats, progressamt, polls, status) == Groups(env, ph, m, ks[..i + 1], w0)
    {
      GroupsStep(env, ph, m, ks, i, w0);
      D, polls, status := RunGroup(env, ph, ks[i], Get(m, ks[i]), D0, polls0);
    }

    /** One phase of runwithdiff over the keys `ks`, which stops when the
        check answers false or a helper raises. */
    method RunPhase(env: Env, ph: Phase, m: Multimap, ks: seq<Path>, D0: Tree, polls0: nat)
      returns (D: Tree, polls: nat, status: Status)
      requires Agrees(env)
      modifies this`stats, this`progressamt
      ensures World(D, stats, progressamt, polls, status)
           == Groups(env, ph, m, ks, World(D0, old(stats), old(progressamt), polls0, Running))
    {
      ghost var w0 := World(D0, stats, progressamt, polls0, Running);
      D, polls, status := D0, polls0, Running;
      var i := 0;
      while i < |ks| && status.Running?
        invariant 0 <= i <= |ks|
        invariant World(D, stats, progressamt, polls, status) == Groups(env, ph, m, ks[..i], w0)
      {
        D, polls, status := RunNextGroup(env, ph, m, ks, i, D, polls, w0);
        i := i + 1;
      }
      if status.Running? {
        assert ks[..i] == ks;
      } else {
        GroupsStopEarly(env, ph, m, ks, i, w0);
      }
    }

    /** One phase of runwithdiff, run when its setting `on` is set and no
        earlier phase stopped the run (sync.py:194-253). */
    method RunPhaseIf(env: Env, on: bool, ph: Phase, m: Multimap, D0: Tree, polls0: nat, status0: Status)
      returns (D: Tree, polls: nat, status: Status, ghost ks: seq<Path>)
      requires Agrees(env)
      modifies this`stats, this`progressamt
      ensures on ==> IsKeyOrder(ks, m)
      ensures var w := World(D0, old(stats), old(progressamt), polls0, status0);
              World(D, stats, progressamt, polls, status) == if on then Groups(env, ph, m, ks, w) else w
    {
      D, polls, status, ks := D0, polls0, status0, [];
      if !on {
        return;
      }
      if !status0.Running? {
        ks := OrderOf(m.Keys);
        GroupsStopped(env, ph, m, ks, World(D0, stats, progressamt, polls0, status0));
        return;
      }
      var order := SortedKeys(m);
      ks := order;
      D, polls, status := RunPhase(env, ph, m, order, D0, polls0);
    }

    /** runwithdiff (sync.py:190-253): creates, updates and purges, each
        when its run setting is set, each over its keys in path order. */
    method RunWithDiff(diff: Diff?, dryRun: bool, S: Tree, D0: Tree, faults: Faults)
      returns (D: Tree, status: Status)
      modifies this`stats, this`progressamt
      ensures diff == null ==>
        D == D0 && status == Raised(TypeError) && stats == old(stats) && progressamt == old(progressamt)
      ensures diff != null ==>
        Outcome(Changes(diff.create, diff.update, diff.purge), EnvBy(runstngs, S, faults, dryRun),
                PhasesBy(runstngs), D0, old(stats), old(progressamt), D, stats, progressamt, status)
    {
      if diff == null {
        return D0, Raised(TypeError);
      }
      var env := EnvBy(runstngs, S, faults, dryRun);
      var on := PhasesBy(runstngs);
      var c := Changes(diff.create, diff.update, diff.purge);
      ghost var w0 := World(D0, stats, progressamt, 0, Running);
      var polls;
      ghost var ck, uk, pk;
      D, polls, status, ck := RunPhaseIf(env, on.create, Creating, c.create, D0, 0, Running);
      D, polls, status, uk := RunPhaseIf(env, on.update, Updating, c.update, D, polls, status);
      D, polls, status, pk := RunPhaseIf(env, on.purge, Purging, c.purge, D, polls, status);
      OutcomeOf(c, env, on, ck, uk, pk, D0, w0.stats, w0.progressamt, World(D, stats, progressamt, polls, status));
    }

    /** __run (sync.py:176-188): the statistics are emptied, then the diff
        the run settings pick is run; without a diff nothing else happens. */
    method RunChosen(dryRun: bool, S: Tree, D0: Tree, faults: Faults) returns (D: Tree, status: Status)
      requires Valid()
      modifies this`stats, this`progressamt
      ensures Ran(old(ChangesIn(ChosenBy(runstngs))), old(EnvBy(runstngs, S, faults, dryRun)), PhasesBy(runstngs),
                  D0, old(progressamt), D, stats, progressamt, status)
      ensures Valid() && src == old(src) && dst == old(dst) && runstngs == old(runstngs) && diffstngs == old(diffstngs)
      ensures origdiff == old(origdiff) && trimdiff == old(trimdiff) && hasrundiff == old(hasrundiff)
      ensures hasrun == old(hasrun) && diffcurrent == old(diffcurrent)
    {
      stats := NoStats;
      var d := if Flag(runstngs, "trimmed") then trimdiff else origdiff;
      if d == null {
        return D0, Running;
      }
      D, status := RunWithDiff(d, dryRun, S, D0, faults);
    }

    /** run (sync.py:154-174). The clock readings and the log messages are
        not modelled. */
    method Run(refreshDiff: bool, dryRun: bool, kwargs: Settings, S: Tree, D0: Tree, faults: Faults,
               search: Search, tmp: Path)
      returns (D: Tree, status: Status, ghost ran: Status, ghost err: Option<Error>)
      requires Valid()
      modifies this`stats, this`progressamt, this`hasrun, this`diffcurrent,
               this`diffstngs, this`origdiff, this`trimdiff, this`hasrundiff
      ensures Valid() && runstngs == old(runstngs) && diffstngs == old(diffstngs)
      ensures Ran(old(ChangesIn(ChosenBy(runstngs))), old(EnvBy(runstngs, S, faults, dryRun)), PhasesBy(runstngs),
                  D0, old(progressamt), D, stats, progressamt, ran)
      ensures status == if err.Some? then Raised(err.value) else ran
      ensures ran.Raised? ==> err.None? && hasrun == old(hasrun) && diffcurrent == old(diffcurrent)
      ensures !ran.Raised? ==> hasrun && (diffcurrent <==> Refreshing(refreshDiff, kwargs) && Ready() && err.None?)
      ensures ran.Raised? || !Refreshing(refreshDiff, kwargs) || !Ready() ==>
        err.None? && origdiff == old(origdiff) && trimdiff == old(trimdiff) && hasrundiff == old(hasrundiff)
      ensures !ran.Raised? && Refreshing(refreshDiff, kwargs) && Ready() ==>
        DiffsOf(Compared(InitialOpts(diffstngs), src, dst, S, D, search), err, origdiff, trimdiff)
      ensures !ran.Raised? && Refreshing(refreshDiff, kwargs) && Ready() && err.None? ==> hasrundiff && fresh(origdiff) && fresh(trimdiff)
    {
      D, status := RunChosen(dryRun, S, D0, faults);
      ran, err := status, None;
      if status.Raised? {
        return;
      }
      var e := Finish(Refreshing(refreshDiff, kwargs), S, D, search, tmp);
      err := e;
      if e.Some? {
        status := Raised(e.value);
      }
    }

    /** The end of run once the run returned (sync.py:171-174): a run is
        recorded, the diff is outdated, and with `refresh` diff is called
        again without keywords on the trees as they are now. */
    method Finish(refresh: bool, S: Tree, D: Tree, search: Search, tmp: Path) returns (err: Option<Error>)
      requires Valid()
      modifies this`hasrun, this`diffcurrent, this`diffstngs, this`origdiff, this`trimdiff, this`hasrundiff
      ensures Valid() && hasrun && diffstngs == old(diffstngs)
      ensures src == old(src) && dst == old(dst) && runstngs == old(runstngs)
      ensures stats == old(stats) && progressamt == old(progressamt)
      ensures diffcurrent <==> refresh && Ready() && err.None?
      ensures !refresh || !Ready() ==>
        err.None? && origdiff == old(origdiff) && trimdiff == old(trimdiff) && hasrundiff == old(hasrundiff)
      ensures refresh && Ready() ==>
        DiffsOf(Compared(InitialOpts(diffstngs), src, dst, S, D, search), err, origdiff, trimdiff)
      ensures refresh && Ready() && err.None? ==> hasrundiff && fresh(origdiff) && fresh(trimdiff)
    {
      hasrun, diffcurrent := true, false;
      err := None;
      if refresh {
        err := Diff(map[], S, D, search, tmp);
      }
    }

    /** The assignments that open sync and update (sync.py:142-144,
        149-151): the mode switched, then the keywords merged in. */
    method SetMode(create: bool, kwargs: Settings)
      requires Valid()
      modifies this`runstngs
      ensures Valid() && runstngs == ModeSettings(old(runstngs), create, kwargs)
      ensures src == old(src) && dst == old(dst) && diffstngs == old(diffstngs)
      ensures origdiff == old(origdiff) && trimdiff == old(trimdiff)
      ensures hasrun == old(hasrun) && hasrundiff == old(hasrundiff) && diffcurrent == old(diffcurrent)
      ensures stats == old(stats) && progressamt == old(progressamt)
      ensures ChangesIn(ChosenBy(runstngs)) == old(ChangesIn(ChosenBy(ModeSettings(runstngs, create, kwargs))))
      ensures progressfnc == old(progressfnc) && progresscheck == old(progresscheck) && Total() == old(Total())
    {
      ModePhases(runstngs, create, kwargs);
      runstngs := ModeSettings(runstngs, create, kwargs);
    }

    /** sync (sync.py:137-145): creation and update switched on, the
        keywords merged into the run settings, then run. */
    method Synchronize(refreshDiff: bool, dryRun: bool, kwargs: Settings, S: Tree, D0: Tree, faults: Faults,
                       search: Search, tmp: Path)
      returns (D: Tree, status: Status, ghost ran: Status, ghost err: Option<Error>)
      requires Valid()
      modifies this`runstngs, this`stats, this`progressamt, this`hasrun, this`diffcurrent,
               this`diffstngs, this`origdiff, this`trimdiff, this`hasrundiff
      ensures Valid() && runstngs == ModeSettings(old(runstngs), true, kwargs) && diffstngs == old(diffstngs)
      ensures Ran(old(ChangesIn(ChosenBy(ModeSettings(runstngs, true, kwargs)))), old(EnvBy(ModeSettings(runstngs, true, kwargs), S, faults, dryRun)), PhasesBy(runstngs),
                  D0, old(progressamt), D, stats, progressamt, ran)
      ensures status == if err.Some? then Raised(err.value) else ran
      ensures ran.Raised? ==> err.None? && hasrun == old(hasrun) && diffcurrent == old(diffcurrent)
      ensures !ran.Raised? ==> hasrun && (diffcurrent <==> refreshDiff && Ready() && err.None?)
      ensures ran.Raised? || !refreshDiff || !Ready() ==>
        err.None? && origdiff == old(origdiff) && trimdiff == old(trimdiff) && hasrundiff == old(hasrundiff)
      ensures !ran.Raised? && refreshDiff && Ready() ==>
        DiffsOf(Compared(InitialOpts(diffstngs), src, dst, S, D, search), err, origdiff, trimdiff)
      ensures !ran.Raised? && refreshDiff && Ready() && err.None? ==> hasrundiff && fresh(origdiff) && fresh(trimdiff)
    {
      SetMode(true, kwargs);
      D, status, ran, err := Run(refreshDiff, dryRun, map[], S, D0, faults, search, tmp);
    }

    /** update (sync.py:147-152): as sync, but with creation switched off. */
    method Update(refreshDiff: bool, dryRun: bool, kwargs: Settings, S: Tree, D0: Tree, faults: Faults,
                  search: Search, tmp: Path)
      returns (D: Tree, status: Status, ghost ran: Status, ghost err: Option<Error>)
      requires Valid()
      modifies this`runstngs, this`stats, this`progressamt, this`hasrun, this`diffcurrent,
               this`diffstngs, this`origdiff, this`trimdiff, this`hasrundiff
      ensures Valid() && runstngs == ModeSettings(old(runstngs), false, kwargs) && diffstngs == old(diffstngs)
      ensures Ran(old(ChangesIn(ChosenBy(ModeSettings(runstngs, false, kwargs)))), old(EnvBy(ModeSettings(runstngs, false, kwargs), S, faults, dryRun)), PhasesBy(runstngs),
                  D0, old(progressamt), D, stats, progressamt, ran)
      ensures status == if err.Some? then Raised(err.value) else ran
      ensures ran.Raised? ==> err.None? && hasrun == old(hasrun) && diffcurrent == old(diffcurrent)
      ensures !ran.Raised? ==> hasrun && (diffcurrent <==> refreshDiff && Ready() && err.None?)
      ensures ran.Raised? || !refreshDiff || !Ready() ==>
        err.None? && origdiff == old(origdiff) && trimdiff == old(trimdiff) && hasrundiff == old(hasrundiff)
      ensures !ran.Raised? && refreshDiff && Ready() ==>
        DiffsOf(Compared(InitialOpts(diffstngs), src, dst, S, D, search), err, origdiff, trimdiff)
      ensures !ran.Raised? && refreshDiff && Ready() && err.None? ==> hasrundiff && fresh(origdiff) && fresh(trimdiff)
    {
      SetMode(false, kwargs);
      D, status, ran, err := Run(refreshDiff, dryRun, map[], S, D0, faults, search, tmp);
    }
  }
}
