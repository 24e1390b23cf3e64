/** What a run promises about the destination, the pass and fail lists and
    the progress counter, whatever the faults and the answers of the
    cancellation check. */
module ExecutionProps {
  import opened Paths
  import opened FileTree
  import opened ChangeSet
  import opened Options
  import opened Execution

  // ---------------------------------------------------------------------
  // A stopped run stays stopped.

  /** Once an item has raised, the remaining children change nothing. */
  lemma {:induction false} ItemsStopEarly(env: Env, ph: Phase, k: Path, cs: seq<Child>, j: nat, w: World)
    requires j <= |cs| && !Items(env, ph, k, cs[..j], w).status.Running?
    ensures Items(env, ph, k, cs, w) == Items(env, ph, k, cs[..j], w)
    decreases |cs| - j
  {
    if j < |cs| {
      var init := cs[..|cs| - 1];
      assert init[..j] == cs[..j];
      ItemsStopEarly(env, ph, k, init, j, w);
    } else {
      assert cs[..j] == cs;
    }
  }

  /** Once the run has been cancelled or has raised, the remaining groups
      change nothing. */
  lemma {:induction false} GroupsStopEarly(env: Env, ph: Phase, m: Multimap, ks: seq<Path>, j: nat, w: World)
    requires j <= |ks| && !Groups(env, ph, m, ks[..j], w).status.Running?
    ensures Groups(env, ph, m, ks, w) == Groups(env, ph, m, ks[..j], w)
    decreases |ks| - j
  {
    if j < |ks| {
      var init := ks[..|ks| - 1];
      assert init[..j] == ks[..j];
      GroupsStopEarly(env, ph, m, init, j, w);
    } else {
      assert ks[..j] == ks;
    }
  }

  /** A run that has stopped changes nothing in the later phases. */
  lemma GroupsStopped(env: Env, ph: Phase, m: Multimap, ks: seq<Path>, w: World)
    requires !w.status.Running?
    ensures Groups(env, ph, m, ks, w) == w
  {
    assert ks[..0] == [];
    GroupsStopEarly(env, ph, m, ks, 0, w);
  }

  /** One more child: the fold over `cs[..j + 1]` is the fold over
      `cs[..j]` followed by the child `cs[j]`. */
  lemma ItemsStep(env: Env, ph: Phase, k: Path, cs: seq<Child>, j: nat, w: World)
    requires j < |cs|
    ensures Items(env, ph, k, cs[..j + 1], w) == Item(env, ph, k, cs[j], Items(env, ph, k, cs[..j], w))
  {
    assert cs[..j + 1][..j] == cs[..j];
  }

  /** One more key: the fold over `ks[..i + 1]` is the fold over `ks[..i]`
      followed by the group of `ks[i]`. */
  lemma GroupsStep(env: Env, ph: Phase, m: Multimap, ks: seq<Path>, i: nat, w: World)
    requires i < |ks|
    ensures Groups(env, ph, m, ks[..i + 1], w) == Group(env, ph, ks[i], Get(m, ks[i]), Groups(env, ph, m, ks[..i], w))
  {
    assert ks[..i + 1][..i] == ks[..i];
  }

  /** A false first answer of the check cancels the run before anything is
      touched (sync.py:198-200): one question asked, nothing else changed. */
  lemma {:induction false} CancelledAtOnce(env: Env, ph: Phase, m: Multimap, ks: seq<Path>, w: World)
    requires w.status.Running? && ks != []
    requires env.check.Some? && !env.check.value(w.polls)
    ensures Groups(env, ph, m, ks, w) == w.(polls := w.polls + 1, status := Cancelled)
  {
    if |ks| > 1 {
      CancelledAtOnce(env, ph, m, ks[..|ks| - 1], w);
    }
  }

  // ---------------------------------------------------------------------
  // What gets filed.

  /** One child is filed at most once, in the lists of its own phase, under
      its own path. */
  lemma ItemFiledOnce(env: Env, ph: Phase, k: Path, c: Child, w: World)
    ensures var r := Item(env, ph, k, c, w).stats;
      r == w.stats || r == Passed(w.stats, ph, k + [c.name]) || r == Failed(w.stats, ph, k + [c.name])
  {
  }

  /** The lists of `ph` grew by appending paths of `allowed` only. */
  predicate Within(s: Stats, r: Stats, ph: Phase, allowed: set<Path>)
  {
    Passes(s, ph) <= Passes(r, ph) && Fails(s, ph) <= Fails(r, ph) &&
    (forall i :: |Passes(s, ph)| <= i < |Passes(r, ph)| ==> Passes(r, ph)[i] in allowed) &&
    (forall i :: |Fails(s, ph)| <= i < |Fails(r, ph)| ==> Fails(r, ph)[i] in allowed)
  }

  /** The lists of every other phase are as they were. */
  predicate Others(s: Stats, r: Stats, ph: Phase)
  {
    forall q :: q != ph ==> Passes(r, q) == Passes(s, q) && Fails(r, q) == Fails(s, q)
  }

  lemma WithinTrans(s1: Stats, s2: Stats, s3: Stats, ph: Phase, a: set<Path>, b: set<Path>)
    requires Within(s1, s2, ph, a) && Within(s2, s3, ph, b)
    ensures Within(s1, s3, ph, a + b)
  {
  }

  lemma WithinWiden(s: Stats, r: Stats, ph: Phase, a: set<Path>, b: set<Path>)
    requires Within(s, r, ph, a) && a <= b
    ensures Within(s, r, ph, b)
  {
  }

  /** The paths of the children `cs` of `k`. */
  function Children(k: Path, cs: seq<Child>): (r: set<Path>)
    ensures forall c :: c in cs ==> k + [c.name] in r
  {
    set c | c in cs :: k + [c.name]
  }

  /** What phase `ph` may file for the map `m`: the path of a listed child,
      or in the create phase a key (a directory made by makedirs). */
  function Planned(ph: Phase, m: Multimap): (r: set<Path>)
    ensures forall k, c :: k in m && c in m[k] ==> k + [c.name] in r
    ensures ph == Creating ==> m.Keys <= r
  {
    (set k, c | k in m && c in m[k] :: k + [c.name]) + (if ph == Creating then m.Keys else {})
  }

  lemma {:induction false} ItemsFiled(env: Env, ph: Phase, k: Path, cs: seq<Child>, w: World)
    ensures Within(w.stats, Items(env, ph, k, cs, w).stats, ph, Children(k, cs))
    ensures Others(w.stats, Items(env, ph, k, cs, w).stats, ph)
  {
    if cs != [] {
      var init := cs[..|cs| - 1];
      var c := cs[|cs| - 1];
      var mid := Items(env, ph, k, init, w);
      ItemsFiled(env, ph, k, init, w);
      ItemFiledOnce(env, ph, k, c, mid);
      assert Children(k, init) <= Children(k, cs) by {
        forall x | x in Children(k, init) ensures x in Children(k, cs) {
          var d :| d in init && x == k + [d.name];
          assert d in cs;
        }
      }
      WithinTrans(w.stats, mid.stats, Item(env, ph, k, c, mid).stats, ph, Children(k, init), {k + [c.name]});
      WithinWiden(w.stats, Item(env, ph, k, c, mid).stats, ph, Children(k, init) + {k + [c.name]}, Children(k, cs));
    }
  }

  lemma OthersTrans(s1: Stats, s2: Stats, s3: Stats, ph: Phase)
    requires Others(s1, s2, ph) && Others(s2, s3, ph)
    ensures Others(s1, s3, ph)
  {
  }

  /** The directory a create-phase group makes for its key is the only path
      that step files. */
  lemma MadeDirFiled(env: Env, ph: Phase, k: Path, w: World)
    ensures var w2 := if ph == Creating && !DirExists(w.D, k) then MakeDirs(env, ph, w, k) else w;
            Within(w.stats, w2.stats, ph, if ph == Creating then {k} else {}) && Others(w.stats, w2.stats, ph)
  {
  }

  lemma GroupFiled(env: Env, ph: Phase, k: Path, cs: seq<Child>, w: World)
    ensures Within(w.stats, Group(env, ph, k, cs, w).stats, ph,
                   Children(k, cs) + (if ph == Creating then {k} else {}))
    ensures Others(w.stats, Group(env, ph, k, cs, w).stats, ph)
  {
    if w.status.Running? {
      var w1 := Polled(env, w);
      if w1.status.Running? {
        var w2 := if ph == Creating && !DirExists(w1.D, k) then MakeDirs(env, ph, w1, k) else w1;
        MadeDirFiled(env, ph, k, w1);
        ItemsFiled(env, ph, k, cs, w2);
        WithinTrans(w.stats, w2.stats, Items(env, ph, k, cs, w2).stats, ph,
                    if ph == Creating then {k} else {}, Children(k, cs));
        OthersTrans(w.stats, w2.stats, Items(env, ph, k, cs, w2).stats, ph);
      }
    }
  }

  /** Every path the phase files is planned for it by the map it walks. */
  lemma {:induction false} GroupsFiled(env: Env, ph: Phase, m: Multimap, ks: seq<Path>, w: World)
    requires forall k :: k in ks ==> k in m
    ensures Within(w.stats, Groups(env, ph, m, ks, w).stats, ph, Planned(ph, m))
    ensures Others(w.stats, Groups(env, ph, m, ks, w).stats, ph)
  {
    if ks != [] {
      var init := ks[..|ks| - 1];
      var k := ks[|ks| - 1];
      var mid := Groups(env, ph, m, init, w);
      assert forall j :: j in init ==> j in ks;
      GroupsFiled(env, ph, m, init, w);
      GroupFiled(env, ph, k, Get(m, k), mid);
      var here := Children(k, Get(m, k)) + (if ph == Creating then {k} else {});
      assert here <= Planned(ph, m) by {
        forall x | x in Children(k, Get(m, k)) ensures x in Planned(ph, m) {
          var d :| d in m[k] && x == k + [d.name];
        }
      }
      WithinTrans(w.stats, mid.stats, Group(env, ph, k, Get(m, k), mid).stats, ph, Planned(ph, m), here);
    }
  }

  /** The lists a phase files into hold, after the run, what they held
      before followed by planned paths of that phase's map only. */
  lemma ExecuteFiled(env: Env, on: Phases, c: Changes, ck: seq<Path>, uk: seq<Path>, pk: seq<Path>, w: World)
    requires Enumerates(ck, c.create) && Enumerates(uk, c.update) && Enumerates(pk, c.purge)
    ensures var r := Execute(env, on, c, ck, uk, pk, w).stats;
      Within(w.stats, r, Creating, Planned(Creating, c.create)) &&
      Within(w.stats, r, Updating, Planned(Updating, c.update)) &&
      Within(w.stats, r, Purging, Planned(Purging, c.purge))
    ensures var r := Execute(env, on, c, ck, uk, pk, w).stats;
      (!on.create ==> Passes(r, Creating) == Passes(w.stats, Creating) && Fails(r, Creating) == Fails(w.stats, Creating)) &&
      (!on.update ==> Passes(r, Updating) == Passes(w.stats, Updating) && Fails(r, Updating) == Fails(w.stats, Updating)) &&
      (!on.purge ==> Passes(r, Purging) == Passes(w.stats, Purging) && Fails(r, Purging) == Fails(w.stats, Purging))
  {
    var w1 := if on.create then Groups(env, Creating, c.create, ck, w) else w;
    var w2 := if on.update then Groups(env, Updating, c.update, uk, w1) else w1;
    if on.create { GroupsFiled(env, Creating, c.create, ck, w); }
    if on.update { GroupsFiled(env, Updating, c.update, uk, w1); }
    if on.purge { GroupsFiled(env, Purging, c.purge, pk, w2); }
  }

  // ---------------------------------------------------------------------
  // The progress counter.

  /** The number of children listed under the keys `ks`. */
  function Sum(m: Multimap, ks: seq<Path>): nat
  {
    if ks == [] then 0 else Sum(m, ks[..|ks| - 1]) + |Get(m, ks[|ks| - 1])|
  }

  lemma {:induction false} SumFrame(m: Multimap, m': Multimap, ks: seq<Path>)
    requires forall j :: j in ks ==> Get(m, j) == Get(m', j)
    ensures Sum(m, ks) == Sum(m', ks)
  {
    if ks != [] {
      SumFrame(m, m', ks[..|ks| - 1]);
    }
  }

  /** Walking every key once counts every child once. */
  lemma {:induction false} SumIsCount(m: Multimap, ks: seq<Path>)
    requires Enumerates(ks, m)
    ensures Sum(m, ks) == EntryCount(m)
  {
    if ks == [] {
      assert m == map[];
      EntryCountEmpty();
    } else {
      var init := ks[..|ks| - 1];
      var k := ks[|ks| - 1];
      var m' := m - {k};
      assert k !in init by {
        forall i | 0 <= i < |init| ensures init[i] != k {
          assert ks[i] != ks[|ks| - 1];
        }
      }
      assert Enumerates(init, m') by {
        forall j | j in m' ensures j in init {
          var i :| 0 <= i < |ks| && ks[i] == j;
          assert i != |ks| - 1;
          assert init[i] == j;
        }
      }
      SumIsCount(m', init);
      SumFrame(m, m', init);
      EntryCountRemoveKey(m, k);
    }
  }

  /** Each helper asks __getProgPercent exactly once when a progress
      function is set, and never otherwise. */
  lemma HelpersTick(env: Env, ph: Phase, w: World, p: Path, sep: bool)
    ensures p in env.S && p != [] ==>
      CopyDir(env, ph, w, p, p).progressamt == Ticked(env, w).progressamt
    ensures p != [] ==> CopyFile(env, ph, w, p, p).progressamt == Ticked(env, w).progressamt
    ensures RmDir(env, ph, w, p, sep).progressamt == Ticked(env, w).progressamt
    ensures RemoveFile(env, ph, w, p).progressamt == Ticked(env, w).progressamt
  {
  }

  lemma ItemProgress(env: Env, ph: Phase, k: Path, c: Child, w: World)
    ensures var r := Item(env, ph, k, c, w);
      w.progressamt <= r.progressamt <= w.progressamt + 1 &&
      (!env.progress ==> r.progressamt == w.progressamt)
  {
    HelpersTick(env, ph, w, k + [c.name], c.dirMark);
  }

  lemma {:induction false} ItemsProgress(env: Env, ph: Phase, k: Path, cs: seq<Child>, w: World)
    ensures var r := Items(env, ph, k, cs, w);
      w.progressamt <= r.progressamt <= w.progressamt + |cs| &&
      (!env.progress ==> r.progressamt == w.progressamt)
  {
    if cs != [] {
      ItemsProgress(env, ph, k, cs[..|cs| - 1], w);
      ItemProgress(env, ph, k, cs[|cs| - 1], Items(env, ph, k, cs[..|cs| - 1], w));
    }
  }

  lemma GroupProgress(env: Env, ph: Phase, k: Path, cs: seq<Child>, w: World)
    ensures var r := Group(env, ph, k, cs, w);
      w.progressamt <= r.progressamt <= w.progressamt + |cs| &&
      (!env.progress ==> r.progressamt == w.progressamt)
  {
    if w.status.Running? {
      var w1 := Polled(env, w);
      if w1.status.Running? {
        var w2 := if ph == Creating && !DirExists(w1.D, k) then MakeDirs(env, ph, w1, k) else w1;
        ItemsProgress(env, ph, k, cs, w2);
      }
    }
  }

  /** Every helper call advances the counter by one and nothing else does,
      so a phase advances it by at most the number of children it walks;
      without a progress function it does not move. */
  lemma {:induction false} GroupsProgress(env: Env, ph: Phase, m: Multimap, ks: seq<Path>, w: World)
    ensures var r := Groups(env, ph, m, ks, w);
      w.progressamt <= r.progressamt <= w.progressamt + Sum(m, ks) &&
      (!env.progress ==> r.progressamt == w.progressamt)
  {
    if ks != [] {
      var init := ks[..|ks| - 1];
      var k := ks[|ks| - 1];
      GroupsProgress(env, ph, m, init, w);
      GroupProgress(env, ph, k, Get(m, k), Groups(env, ph, m, init, w));
    }
  }

  /** A whole run advances the counter by at most the number of entries of
      the diff it walks: with a diff whose counts are current, by at most its
      total count. */
  lemma ExecuteProgress(env: Env, on: Phases, c: Changes, ck: seq<Path>, uk: seq<Path>, pk: seq<Path>, w: World)
    requires Enumerates(ck, c.create) && Enumerates(uk, c.update) && Enumerates(pk, c.purge)
    ensures var r := Execute(env, on, c, ck, uk, pk, w);
      w.progressamt <= r.progressamt <=
        w.progressamt + EntryCount(c.create) + EntryCount(c.update) + EntryCount(c.purge) &&
      (!env.progress ==> r.progressamt == w.progressamt)
  {
    var w1 := if on.create then Groups(env, Creating, c.create, ck, w) else w;
    var w2 := if on.update then Groups(env, Updating, c.update, uk, w1) else w1;
    GroupsProgress(env, Creating, c.create, ck, w);
    GroupsProgress(env, Updating, c.update, uk, w1);
    GroupsProgress(env, Purging, c.purge, pk, w2);
    SumIsCount(c.create, ck);
    SumIsCount(c.update, uk);
    SumIsCount(c.purge, pk);
  }

  // ---------------------------------------------------------------------
  // What happens to the destination.

  /** Nothing of `D` is gone or changes kind, link or size in `D'`, and what
      is new in `D'` is a directory. */
  predicate Grows(D: Tree, D': Tree)
  {
    (forall q :: q in D ==> q in D' && D'[q].kind == D[q].kind && D'[q].link == D[q].link && D'[q].size == D[q].size) &&
    (forall q :: q in D' && q !in D ==> D'[q].kind == Directory)
  }

  /** Nothing of `D` is gone from `D'`. */
  predicate Keeps(D: Tree, D': Tree)
  {
    forall q :: q in D ==> q in D'
  }

  /** `D'` holds nothing that `D` did not hold as it was. */
  predicate Shrinks(D: Tree, D': Tree)
  {
    forall q :: q in D' ==> q in D && D'[q] == D[q]
  }

  lemma CopyDirDryRun(env: Env, ph: Phase, w: World, p: Path)
    requires env.dryRun && p in env.S && p != []
    ensures Grows(w.D, CopyDir(env, ph, w, p, p).D)
  {
  }

  lemma CopyFileDryRun(env: Env, ph: Phase, w: World, p: Path)
    requires env.dryRun && p != []
    ensures CopyFile(env, ph, w, p, p).D == w.D
  {
  }

  lemma RmDirDryRun(env: Env, ph: Phase, w: World, p: Path, sep: bool)
    requires env.dryRun
    ensures RmDir(env, ph, w, p, sep).D == w.D
  {
  }

  lemma RemoveFileDryRun(env: Env, ph: Phase, w: World, p: Path)
    requires env.dryRun
    ensures RemoveFile(env, ph, w, p).D == w.D
  {
  }

  /** A dry run does not make the directory, and shutil.copystat, which
      sits outside the try (sync.py:302), fails on it: copying a directory
      missing from the destination raises OSError in a dry run. */
  lemma DryRunCopyDirRaises(env: Env, ph: Phase, w: World, srcp: Path, dstp: Path)
    requires env.dryRun && srcp in env.S && dstp != [] && dstp !in w.D
    requires Ticked(env, w).status.Running?
    ensures CopyDir(env, ph, w, srcp, dstp).status == Raised(OSError)
    ensures CopyDir(env, ph, w, srcp, dstp).stats == w.stats
  {
  }

  /** shutil.copystat sits outside the try of __copydir (sync.py:302):
      when it is refused on a directory mkdir has just made, the directory
      stays, nothing is filed and the run stops with OSError. */
  lemma CopyStatRefusedRaises(env: Env, ph: Phase, w: World, srcp: Path, dstp: Path)
    requires !env.dryRun && srcp in env.S && dstp != [] && dstp !in w.D && DirExists(w.D, Parent(dstp))
    requires dstp !in env.faults.io && dstp in env.faults.stat
    requires Ticked(env, w).status.Running?
    ensures var r := CopyDir(env, ph, w, srcp, dstp);
      r.status == Raised(OSError) && r.stats == w.stats && IsDir(r.D, dstp) &&
      (forall q :: q in w.D ==> q in r.D && r.D[q] == w.D[q])
  {
  }

  /** shutil.copyfile refuses a named pipe at the target with
      SpecialFileError, which escapes the `except (IOError, OSError)` of
      __copy (sync.py:314-326): the run stops, nothing is filed and the
      destination is left alone. */
  lemma CopyOntoFifoRaises(env: Env, ph: Phase, w: World, srcp: Path, dstp: Path)
    requires !env.dryRun && srcp != [] && dstp != [] && dstp in w.D && w.D[dstp].kind == Fifo && w.D[dstp].writable
    requires Ticked(env, w).status.Running?
    ensures CopyFile(env, ph, w, srcp, dstp).status == Raised(SpecialFileError)
    ensures CopyFile(env, ph, w, srcp, dstp).stats == w.stats
    ensures CopyFile(env, ph, w, srcp, dstp).D == w.D
  {
  }

  /** A socket at the target cannot be opened for writing: the copy is
      filed as failed and the socket stays. */
  lemma CopyOntoSocketFails(env: Env, ph: Phase, w: World, srcp: Path, dstp: Path)
    requires !env.dryRun && srcp != [] && !FifoAt(env.S, srcp)
    requires dstp != [] && dstp in w.D && w.D[dstp].kind == Socket && w.D[dstp].writable
    requires Ticked(env, w).status.Running?
    ensures CopyFile(env, ph, w, srcp, dstp).status.Running?
    ensures CopyFile(env, ph, w, srcp, dstp).stats == Failed(w.stats, ph, dstp)
    ensures CopyFile(env, ph, w, srcp, dstp).D == w.D
  {
  }

  /** A device at the target is written through: the copy passes, the
      device stays a device of the same size, and only its time and
      permission bits come from the source. */
  lemma CopyOntoDeviceWritesThrough(env: Env, ph: Phase, w: World, srcp: Path, dstp: Path)
    requires !env.dryRun && IsFileFollow(env.S, srcp) && dstp !in env.faults.io
    requires dstp != [] && dstp in w.D && w.D[dstp].kind == Device && w.D[dstp].writable && DirExists(w.D, Parent(dstp))
    requires Ticked(env, w).status.Running?
    ensures var r := CopyFile(env, ph, w, srcp, dstp);
      r.status.Running? && r.stats == Passed(w.stats, ph, dstp) &&
      dstp in r.D && r.D[dstp].kind == Device && r.D[dstp].link == w.D[dstp].link &&
      r.D[dstp].size == w.D[dstp].size && r.D[dstp].mtime == env.S[srcp].mtime &&
      (forall q :: q in w.D && q != dstp ==> q in r.D && r.D[q] == w.D[q])
  {
  }

  /** A directory reached through a symbolic link and spelled with the
      trailing separator of a purge child marked as a directory
      (sync.py:247-249): shutil.rmtree does not see a link, deletes
      everything below it, and fails when it removes the link itself, so
      the link stays and is filed as failed. Spelled without the
      separator, rmtree refuses the link and deletes nothing. */
  lemma LinkedDirEmptied(env: Env, ph: Phase, w: World, dir: Path, sep: bool)
    requires !env.dryRun && IsDir(w.D, dir) && w.D[dir].link && dir !in env.faults.io
    requires Ticked(env, w).status.Running?
    ensures var r := RmDir(env, ph, w, dir, sep);
      r.status.Running? && r.stats == Failed(w.stats, ph, dir) &&
      dir in r.D && r.D[dir] == w.D[dir] &&
      (forall q :: q in r.D ==> q in w.D && r.D[q] == w.D[q]) &&
      (forall q :: q in w.D && !(dir < q) ==> q in r.D) &&
      (sep ==> forall q :: dir < q ==> q !in r.D) &&
      (!sep ==> r.D == w.D)
  {
  }

  /** A dry run skips the mutation but still files a pass: always for a
      copy, and for a removal whose target is still there (sync.py:314-316,
      sync.py:349-350, sync.py:371-372). */
  lemma DryRunPasses(env: Env, ph: Phase, w: World, p: Path, sep: bool)
    requires env.dryRun && Ticked(env, w).status.Running?
    ensures p != [] ==> CopyFile(env, ph, w, p, p).stats == Passed(w.stats, ph, p)
    ensures IsDir(w.D, p) ==> RmDir(env, ph, w, p, sep).stats == Passed(w.stats, ph, p)
    ensures IsFileFollow(w.D, p) ==> RemoveFile(env, ph, w, p).stats == Passed(w.stats, ph, p)
  {
  }

  /** A purge target that is neither a directory nor a file lands in
      neither list (sync.py:248-253). */
  lemma PurgeMissFiledNowhere(env: Env, k: Path, c: Child, w: World)
    requires !IsDir(w.D, k + [c.name]) && !IsFileFollow(w.D, k + [c.name])
    ensures Item(env, Purging, k, c, w).stats == w.stats
  {
  }

  /** A copy whose chmod under forceOwnership fails lands in neither list
      and leaves the destination as it was (sync.py:316-324). */
  lemma ChmodFailFiledNowhere(env: Env, ph: Phase, w: World, p: Path)
    requires p != [] && !env.dryRun && Locked(env, w.D, p) && p in env.faults.chmod
    ensures CopyFile(env, ph, w, p, p).stats == w.stats
    ensures CopyFile(env, ph, w, p, p).D == w.D
  {
  }

  lemma ItemDryRun(env: Env, ph: Phase, k: Path, c: Child, w: World)
    requires env.dryRun
    ensures Grows(w.D, Item(env, ph, k, c, w).D)
  {
    var p := k + [c.name];
    if w.status.Running? {
      match ph
      case Creating =>
        if IsDir(env.S, p) {
          CopyDirDryRun(env, ph, w, p);
        } else if !c.dirMark && IsFileFollow(env.S, p) {
          CopyFileDryRun(env, ph, w, p);
        }
      case Updating =>
        CopyFileDryRun(env, ph, w, p);
      case Purging =>
        if IsDir(w.D, p) {
          RmDirDryRun(env, ph, w, p, c.dirMark);
        } else if !c.dirMark && IsFileFollow(w.D, p) {
          RemoveFileDryRun(env, ph, w, p);
        }
    }
  }

  lemma {:induction false} ItemsDryRun(env: Env, ph: Phase, k: Path, cs: seq<Child>, w: World)
    requires env.dryRun
    ensures Grows(w.D, Items(env, ph, k, cs, w).D)
  {
    if cs != [] {
      ItemsDryRun(env, ph, k, cs[..|cs| - 1], w);
      ItemDryRun(env, ph, k, cs[|cs| - 1], Items(env, ph, k, cs[..|cs| - 1], w));
    }
  }

  lemma MakeDirsGrows(env: Env, ph: Phase, w: World, dir: Path)
    ensures Grows(w.D, MakeDirs(env, ph, w, dir).D)
  {
  }

  lemma GroupDryRun(env: Env, ph: Phase, k: Path, cs: seq<Child>, w: World)
    requires env.dryRun
    ensures Grows(w.D, Group(env, ph, k, cs, w).D)
  {
    if w.status.Running? {
      var w1 := Polled(env, w);
      if w1.status.Running? {
        var w2 := if ph == Creating && !DirExists(w1.D, k) then MakeDirs(env, ph, w1, k) else w1;
        MakeDirsGrows(env, ph, w1, k);
        ItemsDryRun(env, ph, k, cs, w2);
      }
    }
  }

  lemma {:induction false} GroupsDryRun(env: Env, ph: Phase, m: Multimap, ks: seq<Path>, w: World)
    requires env.dryRun
    ensures Grows(w.D, Groups(env, ph, m, ks, w).D)
  {
    if ks != [] {
      var init := ks[..|ks| - 1];
      var k := ks[|ks| - 1];
      GroupsDryRun(env, ph, m, init, w);
      GroupDryRun(env, ph, k, Get(m, k), Groups(env, ph, m, init, w));
    }
  }

  /** A dry run deletes nothing, replaces nothing and writes no file: all it
      can leave behind are the directories makedirs made (sync.py:207-208,
      which does not look at the dry-run switch) and the times and
      permissions copystat and chmod set on directories that existed. */
  lemma DryRunOnlyAddsDirectories(env: Env, on: Phases, c: Changes, ck: seq<Path>, uk: seq<Path>, pk: seq<Path>, w: World)
    requires env.dryRun
    ensures Grows(w.D, Execute(env, on, c, ck, uk, pk, w).D)
  {
    var w1 := if on.create then Groups(env, Creating, c.create, ck, w) else w;
    var w2 := if on.update then Groups(env, Updating, c.update, uk, w1) else w1;
    GroupsDryRun(env, Creating, c.create, ck, w);
    GroupsDryRun(env, Updating, c.update, uk, w1);
    GroupsDryRun(env, Purging, c.purge, pk, w2);
  }

  lemma ItemKeeps(env: Env, ph: Phase, k: Path, c: Child, w: World)
    requires ph != Purging
    ensures Keeps(w.D, Item(env, ph, k, c, w).D)
  {
  }

  lemma {:induction false} ItemsKeep(env: Env, ph: Phase, k: Path, cs: seq<Child>, w: World)
    requires ph != Purging
    ensures Keeps(w.D, Items(env, ph, k, cs, w).D)
  {
    if cs != [] {
      ItemsKeep(env, ph, k, cs[..|cs| - 1], w);
      ItemKeeps(env, ph, k, cs[|cs| - 1], Items(env, ph, k, cs[..|cs| - 1], w));
    }
  }

  lemma GroupKeeps(env: Env, ph: Phase, k: Path, cs: seq<Child>, w: World)
    requires ph != Purging
    ensures Keeps(w.D, Group(env, ph, k, cs, w).D)
  {
    if w.status.Running? {
      var w1 := Polled(env, w);
      if w1.status.Running? {
        var w2 := if ph == Creating && !DirExists(w1.D, k) then MakeDirs(env, ph, w1, k) else w1;
        MakeDirsGrows(env, ph, w1, k);
        ItemsKeep(env, ph, k, cs, w2);
      }
    }
  }

  lemma {:induction false} GroupsKeep(env: Env, ph: Phase, m: Multimap, ks: seq<Path>, w: World)
    requires ph != Purging
    ensures Keeps(w.D, Groups(env, ph, m, ks, w).D)
  {
    if ks != [] {
      var init := ks[..|ks| - 1];
      var k := ks[|ks| - 1];
      GroupsKeep(env, ph, m, init, w);
      GroupKeeps(env, ph, k, Get(m, k), Groups(env, ph, m, init, w));
    }
  }

  /** Without the purge setting nothing is removed from the destination. */
  lemma NothingRemovedWithoutPurge(env: Env, on: Phases, c: Changes, ck: seq<Path>, uk: seq<Path>, pk: seq<Path>, w: World)
    requires !on.purge
    ensures Keeps(w.D, Execute(env, on, c, ck, uk, pk, w).D)
  {
    var w1 := if on.create then Groups(env, Creating, c.create, ck, w) else w;
    GroupsKeep(env, Creating, c.create, ck, w);
    GroupsKeep(env, Updating, c.update, uk, w1);
  }

  lemma ItemShrinks(env: Env, k: Path, c: Child, w: World)
    ensures Shrinks(w.D, Item(env, Purging, k, c, w).D)
  {
  }

  lemma {:induction false} ItemsShrink(env: Env, k: Path, cs: seq<Child>, w: World)
    ensures Shrinks(w.D, Items(env, Purging, k, cs, w).D)
  {
    if cs != [] {
      ItemsShrink(env, k, cs[..|cs| - 1], w);
      ItemShrinks(env, k, cs[|cs| - 1], Items(env, Purging, k, cs[..|cs| - 1], w));
    }
  }

  /** The purge phase only removes: everything left was there before,
      unchanged. */
  lemma {:induction false} PurgeOnlyRemoves(env: Env, m: Multimap, ks: seq<Path>, w: World)
    ensures Shrinks(w.D, Groups(env, Purging, m, ks, w).D)
  {
    if ks != [] {
      var init := ks[..|ks| - 1];
      var k := ks[|ks| - 1];
      PurgeOnlyRemoves(env, m, init, w);
      var mid := Groups(env, Purging, m, init, w);
      if mid.status.Running? {
        var w1 := Polled(env, mid);
        if w1.status.Running? {
          ItemsShrink(env, k, Get(m, k), w1);
        }
      }
    }
  }
}
