/** Where the comparison files its entries: every key of a comparison at
    `base` is `base` or a directory below it. */
module ComparisonKeys {
  import opened Paths
  import opened FileTree
  import opened ChangeSet
  import opened Options
  import opened Filter
  import opened Compare
  import opened Comparison

  /** All keys of all three maps are `base` or lie below it. */
  predicate KeysFrom(c: Changes, base: Path)
  {
    (forall k :: k in c.create ==> base <= k) &&
    (forall k :: k in c.update ==> base <= k) &&
    (forall k :: k in c.purge ==> base <= k)
  }

  lemma ParentFrom(base: Path, x: Path)
    requires x != []
    ensures base <= Parent(base + x) && base < base + x
  {
    assert Parent(base + x) == base + x[..|x| - 1];
  }

  lemma PrefixTrans(a: Path, b: Path, c: Path)
    requires a <= b && b <= c
    ensures a <= c
  {
    assert b[..|a|] == c[..|a|];
  }

  lemma AddKeepsKeys(acc: Changes, t: Tree, base: Path, x: Path)
    requires x != [] && KeysFrom(acc, base)
    ensures KeysFrom(acc.(create := AddAt(acc.create, t, base + x)), base)
    ensures KeysFrom(acc.(update := AddAt(acc.update, t, base + x)), base)
    ensures KeysFrom(acc.(purge := AddAt(acc.purge, t, base + x)), base)
  {
    ParentFrom(base, x);
  }

  lemma CreateAddKeys(st: DiffSettings, search: Search, S: Tree, base: Path, x: Path, acc: Changes)
    requires x != [] && KeysFrom(acc, base)
    ensures KeysFrom(CreateAdd(st, search, S, base, x, acc), base)
  {
    AddKeepsKeys(acc, S, base, x);
  }

  lemma PurgeAddKeys(st: DiffSettings, search: Search, D: Tree, base: Path, x: Path, acc: Changes)
    requires x != [] && KeysFrom(acc, base)
    ensures KeysFrom(PurgeAdd(st, search, D, base, x, acc), base)
  {
    AddKeepsKeys(acc, D, base, x);
  }

  lemma {:induction false} AddTimesKeepsKeys(m: Multimap, t: Tree, p: Path, n: nat, base: Path)
    requires p != [] && base <= Parent(p)
    requires forall k :: k in m ==> base <= k
    ensures forall k :: k in AddTimes(m, t, p, n) ==> base <= k
    decreases n
  {
    if n > 0 {
      AddTimesKeepsKeys(AddAt(m, t, p), t, p, n - 1, base);
    }
  }

  lemma FileUpdateKeys(acc: Changes, S: Tree, base: Path, x: Path, n: nat)
    requires x != [] && KeysFrom(acc, base)
    ensures KeysFrom(acc.(update := AddTimes(acc.update, S, base + x, n)), base)
  {
    ParentFrom(base, x);
    AddTimesKeepsKeys(acc.update, S, base + x, n, base);
  }

  /** Keys below `p` are keys below any directory above `p`. */
  lemma KeysFromWiden(d: Changes, base: Path, p: Path)
    requires KeysFrom(d, p) && base <= p
    ensures KeysFrom(d, base)
  {
    forall k | k in d.create ensures base <= k {
      PrefixTrans(base, p, k);
    }
    forall k | k in d.update ensures base <= k {
      PrefixTrans(base, p, k);
    }
    forall k | k in d.purge ensures base <= k {
      PrefixTrans(base, p, k);
    }
  }

  /** What a deeper comparison adds keeps all keys under `base`. */
  lemma SubCreateKeys(a: Changes, d: Changes, base: Path, p: Path)
    requires KeysFrom(a, base) && KeysFrom(d, p) && base <= p
    ensures KeysFrom(a.(create := a.create + d.create), base)
  {
    KeysFromWiden(d, base, p);
  }

  lemma SubPurgeKeys(a: Changes, d: Changes, base: Path, p: Path)
    requires KeysFrom(a, base) && KeysFrom(d, p) && base <= p
    ensures KeysFrom(a.(purge := a.purge + d.purge), base)
  {
    KeysFromWiden(d, base, p);
  }

  lemma MergeKeys(a: Changes, d: Changes, base: Path, p: Path)
    requires KeysFrom(a, base) && KeysFrom(d, p) && base <= p
    ensures KeysFrom(Merge(a, d), base)
  {
    KeysFromWiden(d, base, p);
  }

  /** __dirdiff at `base` only files entries under `base` or below it. */
  lemma {:induction false} DirDiffKeysFrom(st: DiffSettings, search: Search, S: Tree, D: Tree, base: Path)
    ensures DirDiff(st, search, S, D, base).Some? ==> KeysFrom(DirDiff(st, search, S, D, base).value, base)
    decreases Measure(S, D, base), 0, 4, 0
  {
    if DirExists(S, base) && DirExists(D, base) {
      DircmpMember(S, D, base);
      ProcessCmpKeysFrom(st, search, S, D, base, Dircmp(S, D, base));
    }
  }

  lemma {:induction false} ProcessCmpKeysFrom(st: DiffSettings, search: Search, S: Tree, D: Tree, base: Path, c: Cmp)
    requires [] !in c.leftOnly && [] !in c.rightOnly && [] !in c.common
    ensures ProcessCmp(st, search, S, D, base, c, false).Some? ==> KeysFrom(ProcessCmp(st, search, S, D, base, c, false).value, base)
    decreases Measure(S, D, base), 0, 3, 0
  {
    SortPathsMember(c.leftOnly);
    SortPathsMember(c.common);
    SortPathsMember(c.rightOnly);
    CreateEachKeysFrom(st, search, S, D, base, SortPaths(c.leftOnly), NoChanges);
    match CreateEach(st, search, S, D, base, SortPaths(c.leftOnly), NoChanges, false)
    case None =>
    case Some(a) => UpdateThenPurgeKeysFrom(st, search, S, D, base, SortPaths(c.common), SortPaths(c.rightOnly), a);
  }

  lemma {:induction false} UpdateThenPurgeKeysFrom(st: DiffSettings, search: Search, S: Tree, D: Tree, base: Path, commons: seq<Path>, rights: seq<Path>, a: Changes)
    requires [] !in rights && [] !in commons && KeysFrom(a, base)
    ensures UpdateThenPurge(st, search, S, D, base, commons, rights, a, false).Some? ==> KeysFrom(UpdateThenPurge(st, search, S, D, base, commons, rights, a, false).value, base)
    decreases Measure(S, D, base), 0, 2, 0
  {
    UpdateEachKeysFrom(st, search, S, D, base, commons, a);
    match UpdateEach(st, search, S, D, base, commons, a, false)
    case None =>
    case Some(b) => PurgeEachKeysFrom(st, search, S, D, base, rights, b);
  }

  lemma {:induction false} CreateStepKeysFrom(st: DiffSettings, search: Search, S: Tree, D: Tree, base: Path, x: Path, acc: Changes)
    requires x != [] && KeysFrom(acc, base)
    ensures CreateStep(st, search, S, D, base, x, acc, false).Some? ==> KeysFrom(CreateStep(st, search, S, D, base, x, acc, false).value, base)
    decreases Measure(S, D, base), 0, 0, 0
  {
    var p := base + x;
    var a := CreateAdd(st, search, S, base, x, acc);
    CreateAddKeys(st, search, S, base, x, acc);
    if IsDir(S, p) && st.recursive {
      TmpEmpty(p);
      MeasureDown(S, D, base, p, S, Tmp(p));
      DirDiffKeysFrom(st, search, S, Tmp(p), p);
      match DirDiff(st, search, S, Tmp(p), p)
      case None =>
      case Some(d) => SubCreateKeys(a, d, base, p);
    }
  }

  lemma {:induction false} CreateEachKeysFrom(st: DiffSettings, search: Search, S: Tree, D: Tree, base: Path, xs: seq<Path>, acc: Changes)
    requires [] !in xs && KeysFrom(acc, base)
    ensures CreateEach(st, search, S, D, base, xs, acc, false).Some? ==> KeysFrom(CreateEach(st, search, S, D, base, xs, acc, false).value, base)
    decreases Measure(S, D, base), 0, 1, |xs|
  {
    if xs != [] {
      CreateStepKeysFrom(st, search, S, D, base, xs[0], acc);
      match CreateStep(st, search, S, D, base, xs[0], acc, false)
      case None =>
      case Some(a) => CreateEachKeysFrom(st, search, S, D, base, xs[1..], a);
    }
  }

  lemma {:induction false} UpdateStepKeysFrom(st: DiffSettings, search: Search, S: Tree, D: Tree, base: Path, x: Path, acc: Changes)
    requires x != [] && KeysFrom(acc, base)
    ensures UpdateStep(st, search, S, D, base, x, acc, false).Some? ==> KeysFrom(UpdateStep(st, search, S, D, base, x, acc, false).value, base)
    decreases Measure(S, D, base), 0, 0, 0
  {
    var p := base + x;
    if IsFile(S, p) {
      if Exists(D, p) {
        FileUpdateKeys(acc, S, base, x, UpdateTimes(st, search, S, D, base, x));
      }
    } else if DirExists(S, p) && st.recursive {
      DescendCommon(S, D, base, x);
      DirDiffKeysFrom(st, search, S, D, p);
      match DirDiff(st, search, S, D, p)
      case None =>
      case Some(d) => MergeKeys(acc, d, base, p);
    }
  }

  lemma {:induction false} UpdateEachKeysFrom(st: DiffSettings, search: Search, S: Tree, D: Tree, base: Path, xs: seq<Path>, acc: Changes)
    requires [] !in xs && KeysFrom(acc, base)
    ensures UpdateEach(st, search, S, D, base, xs, acc, false).Some? ==> KeysFrom(UpdateEach(st, search, S, D, base, xs, acc, false).value, base)
    decreases Measure(S, D, base), 0, 1, |xs|
  {
    if xs != [] {
      UpdateStepKeysFrom(st, search, S, D, base, xs[0], acc);
      match UpdateStep(st, search, S, D, base, xs[0], acc, false)
      case None =>
      case Some(b) => UpdateEachKeysFrom(st, search, S, D, base, xs[1..], b);
    }
  }

  lemma {:induction false} PurgeStepKeysFrom(st: DiffSettings, search: Search, S: Tree, D: Tree, base: Path, x: Path, acc: Changes)
    requires x != [] && KeysFrom(acc, base)
    ensures PurgeStep(st, search, S, D, base, x, acc, false).Some? ==> KeysFrom(PurgeStep(st, search, S, D, base, x, acc, false).value, base)
    decreases Measure(S, D, base), 0, 0, 0
  {
    var p := base + x;
    var a := PurgeAdd(st, search, D, base, x, acc);
    PurgeAddKeys(st, search, D, base, x, acc);
    if IsDir(D, p) && st.recursive {
      TmpEmpty(p);
      MeasureDown(S, D, base, p, Tmp(p), D);
      DirDiffKeysFrom(st, search, Tmp(p), D, p);
      match DirDiff(st, search, Tmp(p), D, p)
      case None =>
      case Some(d) => SubPurgeKeys(a, d, base, p);
    }
  }

  lemma {:induction false} PurgeEachKeysFrom(st: DiffSettings, search: Search, S: Tree, D: Tree, base: Path, xs: seq<Path>, acc: Changes)
    requires [] !in xs && KeysFrom(acc, base)
    ensures PurgeEach(st, search, S, D, base, xs, acc, false).Some? ==> KeysFrom(PurgeEach(st, search, S, D, base, xs, acc, false).value, base)
    decreases Measure(S, D, base), 0, 1, |xs|
  {
    if xs != [] {
      PurgeStepKeysFrom(st, search, S, D, base, xs[0], acc);
      match PurgeStep(st, search, S, D, base, xs[0], acc, false)
      case None =>
      case Some(b) => PurgeEachKeysFrom(st, search, S, D, base, xs[1..], b);
    }
  }
}
