/** What processCmp merges from its recursive calls (diff.py:305-308,
    322-328, 342-344): below an entry `base + [n]` the comparison at `base`
    holds exactly what the walk into that entry found, taken from the map
    the source merges it into, and nothing when there was no walk. */
module ComparisonSubtree {
  import opened Paths
  import opened FileTree
  import opened ChangeSet
  import opened Options
  import opened Filter
  import opened Compare
  import opened Comparison
  import opened ComparisonKeys
  import opened ComparisonFlat

  /** The create, update and purge lists filed under one key. */
  datatype Slot = Slot(create: seq<Child>, update: seq<Child>, purge: seq<Child>)

  const EmptySlot := Slot([], [], [])

  function SlotAt(c: Changes, k: Path): Slot
  {
    Slot(Get(c.create, k), Get(c.update, k), Get(c.purge, k))
  }

  /** What a source-only entry contributes under `k`: the create lists of
      its walk against the empty scratch directory. */
  function CreateHit(st: DiffSettings, search: Search, S: Tree, base: Path, n: string, k: Path): Slot
  {
    var p := base + [n];
    if IsDir(S, p) && st.recursive && DirDiff(st, search, S, Tmp(p), p).Some? then
      Slot(Get(DirDiff(st, search, S, Tmp(p), p).value.create, k), [], [])
    else EmptySlot
  }

  /** What a common entry contributes under `k`: all three lists of the
      comparison of that directory. */
  function UpdateHit(st: DiffSettings, search: Search, S: Tree, D: Tree, base: Path, n: string, k: Path): Slot
  {
    var p := base + [n];
    if IsDir(S, p) && st.recursive && DirDiff(st, search, S, D, p).Some? then
      SlotAt(DirDiff(st, search, S, D, p).value, k)
    else EmptySlot
  }

  /** What a destination-only entry contributes under `k`: the purge lists
      of its walk against the empty scratch directory. */
  function PurgeHit(st: DiffSettings, search: Search, D: Tree, base: Path, n: string, k: Path): Slot
  {
    var p := base + [n];
    if IsDir(D, p) && st.recursive && DirDiff(st, search, Tmp(p), D, p).Some? then
      Slot([], [], Get(DirDiff(st, search, Tmp(p), D, p).value.purge, k))
    else EmptySlot
  }

  /** A key below `base + [n]` lies below no other entry of `base`. */
  lemma SameChild(base: Path, x: Path, n: string, k: Path)
    requires |x| == 1 && base + [n] <= k
    ensures base + x <= k ==> x == [n]
  {
    if base + x <= k {
      assert (base + x)[|base|] == k[|base|] == (base + [n])[|base|];
      assert x == [x[0]];
    }
  }

  /** A walk into a sibling `base + x` files nothing under `base + [n]`. */
  lemma SiblingMisses(d: Changes, base: Path, x: Path, n: string, k: Path)
    requires |x| == 1 && x != [n] && base + [n] <= k && KeysFrom(d, base + x)
    ensures k !in d.create && k !in d.update && k !in d.purge
  {
    SameChild(base, x, n, k);
  }

  /** An entry directly below `base` is filed under `base`, never under `k`. */
  lemma ParentIsBase(base: Path, x: Path, k: Path, n: string)
    requires |x| == 1 && base + [n] <= k
    ensures Parent(base + x) == base && k != base
  {
    assert (base + x)[..|base|] == base;
  }

  lemma {:induction false} AddTimesElsewhere(m: Multimap, t: Tree, p: Path, times: nat, k: Path)
    requires p != [] && k != Parent(p)
    ensures Get(AddTimes(m, t, p, times), k) == Get(m, k)
    decreases times
  {
    if times > 0 {
      AddTimesElsewhere(AddAt(m, t, p), t, p, times - 1, k);
    }
  }

  /** dict.update with a map `d`: under `k` the lists of `d` win, and a list
      equal to `d`'s or empty becomes `d`'s. */
  lemma UnionAt(a: Multimap, d: Multimap, k: Path)
    requires Get(a, k) == [] || Get(a, k) == Get(d, k)
    ensures Get(a + d, k) == Get(d, k)
  {
  }

  lemma UnionMiss(a: Multimap, d: Multimap, k: Path)
    requires k !in d
    ensures Get(a + d, k) == Get(a, k)
  {
  }

  lemma {:induction false} CreateStepAt(st: DiffSettings, search: Search, S: Tree, D: Tree, base: Path, x: Path, acc: Changes, n: string, k: Path)
    requires |x| == 1 && base + [n] <= k
    requires x == [n] ==> SlotAt(acc, k) == EmptySlot || SlotAt(acc, k) == CreateHit(st, search, S, base, n, k)
    ensures var r := CreateStep(st, search, S, D, base, x, acc, false);
      r.Some? ==> SlotAt(r.value, k) == if x == [n] then CreateHit(st, search, S, base, n, k) else SlotAt(acc, k)
    ensures var p := base + [n];
      x == [n] && IsDir(S, p) && st.recursive && CreateStep(st, search, S, D, base, x, acc, false).Some? ==>
        DirDiff(st, search, S, Tmp(p), p).Some?
  {
    var p := base + x;
    var a := CreateAdd(st, search, S, base, x, acc);
    ParentIsBase(base, x, k, n);
    assert SlotAt(a, k) == SlotAt(acc, k);
    if IsDir(S, p) && st.recursive {
      DirDiffKeysFrom(st, search, S, Tmp(p), p);
      match DirDiff(st, search, S, Tmp(p), p)
      case None =>
      case Some(d) =>
        if x == [n] {
          UnionAt(a.create, d.create, k);
        } else {
          SiblingMisses(d, base, x, n, k);
          UnionMiss(a.create, d.create, k);
        }
    }
  }

  /** The source-only loop: under `k` it ends with the walk of `n` when `n`
      is listed, and leaves `k` alone otherwise. */
  lemma {:induction false} CreateEachAt(st: DiffSettings, search: Search, S: Tree, D: Tree, base: Path, xs: seq<Path>, acc: Changes, n: string, k: Path)
    requires OneDeep(xs) && base + [n] <= k
    requires [n] in xs ==> SlotAt(acc, k) == EmptySlot || SlotAt(acc, k) == CreateHit(st, search, S, base, n, k)
    ensures var r := CreateEach(st, search, S, D, base, xs, acc, false);
      r.Some? ==> SlotAt(r.value, k) == if [n] in xs then CreateHit(st, search, S, base, n, k) else SlotAt(acc, k)
    ensures var p := base + [n];
      [n] in xs && IsDir(S, p) && st.recursive && CreateEach(st, search, S, D, base, xs, acc, false).Some? ==>
        DirDiff(st, search, S, Tmp(p), p).Some?
    decreases |xs|
  {
    if xs != [] {
      assert xs[0] in xs;
      assert OneDeep(xs[1..]) by {
        forall y | y in xs[1..] ensures |y| == 1 {
          assert y in xs;
        }
      }
      assert [n] in xs <==> xs[0] == [n] || [n] in xs[1..] by {
        assert xs == [xs[0]] + xs[1..];
      }
      CreateStepAt(st, search, S, D, base, xs[0], acc, n, k);
      match CreateStep(st, search, S, D, base, xs[0], acc, false)
      case None =>
      case Some(a) => CreateEachAt(st, search, S, D, base, xs[1..], a, n, k);
    }
  }

  lemma {:induction false} UpdateStepAt(st: DiffSettings, search: Search, S: Tree, D: Tree, base: Path, x: Path, acc: Changes, n: string, k: Path)
    requires |x| == 1 && base + [n] <= k
    requires x == [n] ==> SlotAt(acc, k) == EmptySlot || SlotAt(acc, k) == UpdateHit(st, search, S, D, base, n, k)
    ensures var r := UpdateStep(st, search, S, D, base, x, acc, false);
      r.Some? ==> SlotAt(r.value, k) == if x == [n] then UpdateHit(st, search, S, D, base, n, k) else SlotAt(acc, k)
    ensures var p := base + [n];
      x == [n] && IsDir(S, p) && st.recursive && UpdateStep(st, search, S, D, base, x, acc, false).Some? ==>
        DirDiff(st, search, S, D, p).Some?
  {
    var p := base + x;
    ParentIsBase(base, x, k, n);
    if IsFile(S, p) {
      if Exists(D, p) {
        AddTimesElsewhere(acc.update, S, p, UpdateTimes(st, search, S, D, base, x), k);
      }
    } else if DirExists(S, p) && st.recursive {
      DirDiffKeysFrom(st, search, S, D, p);
      match DirDiff(st, search, S, D, p)
      case None =>
      case Some(d) =>
        if x == [n] {
          UnionAt(acc.create, d.create, k);
          UnionAt(acc.update, d.update, k);
          UnionAt(acc.purge, d.purge, k);
        } else {
          SiblingMisses(d, base, x, n, k);
          UnionMiss(acc.create, d.create, k);
          UnionMiss(acc.update, d.update, k);
          UnionMiss(acc.purge, d.purge, k);
        }
    }
  }

  /** The common loop: under `k` it ends with the comparison of `n` when
      `n` is listed, and leaves `k` alone otherwise. */
  lemma {:induction false} UpdateEachAt(st: DiffSettings, search: Search, S: Tree, D: Tree, base: Path, xs: seq<Path>, acc: Changes, n: string, k: Path)
    requires OneDeep(xs) && base + [n] <= k
    requires [n] in xs ==> SlotAt(acc, k) == EmptySlot || SlotAt(acc, k) == UpdateHit(st, search, S, D, base, n, k)
    ensures var r := UpdateEach(st, search, S, D, base, xs, acc, false);
      r.Some? ==> SlotAt(r.value, k) == if [n] in xs then UpdateHit(st, search, S, D, base, n, k) else SlotAt(acc, k)
    ensures var p := base + [n];
      [n] in xs && IsDir(S, p) && st.recursive && UpdateEach(st, search, S, D, base, xs, acc, false).Some? ==>
        DirDiff(st, search, S, D, p).Some?
    decreases |xs|
  {
    if xs != [] {
      assert xs[0] in xs;
      assert OneDeep(xs[1..]) by {
        forall y | y in xs[1..] ensures |y| == 1 {
          assert y in xs;
        }
      }
      assert [n] in xs <==> xs[0] == [n] || [n] in xs[1..] by {
        assert xs == [xs[0]] + xs[1..];
      }
      UpdateStepAt(st, search, S, D, base, xs[0], acc, n, k);
      match UpdateStep(st, search, S, D, base, xs[0], acc, false)
      case None =>
      case Some(b) => UpdateEachAt(st, search, S, D, base, xs[1..], b, n, k);
    }
  }

  lemma {:induction false} PurgeStepAt(st: DiffSettings, search: Search, S: Tree, D: Tree, base: Path, x: Path, acc: Changes, n: string, k: Path)
    requires |x| == 1 && base + [n] <= k
    requires x == [n] ==> SlotAt(acc, k) == EmptySlot || SlotAt(acc, k) == PurgeHit(st, search, D, base, n, k)
    ensures var r := PurgeStep(st, search, S, D, base, x, acc, false);
      r.Some? ==> SlotAt(r.value, k) == if x == [n] then PurgeHit(st, search, D, base, n, k) else SlotAt(acc, k)
    ensures var p := base + [n];
      x == [n] && IsDir(D, p) && st.recursive && PurgeStep(st, search, S, D, base, x, acc, false).Some? ==>
        DirDiff(st, search, Tmp(p), D, p).Some?
  {
    var p := base + x;
    var a := PurgeAdd(st, search, D, base, x, acc);
    ParentIsBase(base, x, k, n);
    assert SlotAt(a, k) == SlotAt(acc, k);
    if IsDir(D, p) && st.recursive {
      DirDiffKeysFrom(st, search, Tmp(p), D, p);
      match DirDiff(st, search, Tmp(p), D, p)
      case None =>
      case Some(d) =>
        if x == [n] {
          UnionAt(a.purge, d.purge, k);
        } else {
          SiblingMisses(d, base, x, n, k);
          UnionMiss(a.purge, d.purge, k);
        }
    }
  }

  /** The destination-only loop: under `k` it ends with the walk of `n`
      when `n` is listed, and leaves `k` alone otherwise. */
  lemma {:induction false} PurgeEachAt(st: DiffSettings, search: Search, S: Tree, D: Tree, base: Path, xs: seq<Path>, acc: Changes, n: string, k: Path)
    requires OneDeep(xs) && base + [n] <= k
    requires [n] in xs ==> SlotAt(acc, k) == EmptySlot || SlotAt(acc, k) == PurgeHit(st, search, D, base, n, k)
    ensures var r := PurgeEach(st, search, S, D, base, xs, acc, false);
      r.Some? ==> SlotAt(r.value, k) == if [n] in xs then PurgeHit(st, search, D, base, n, k) else SlotAt(acc, k)
    ensures var p := base + [n];
      [n] in xs && IsDir(D, p) && st.recursive && PurgeEach(st, search, S, D, base, xs, acc, false).Some? ==>
        DirDiff(st, search, Tmp(p), D, p).Some?
    decreases |xs|
  {
    if xs != [] {
      assert xs[0] in xs;
      assert OneDeep(xs[1..]) by {
        forall y | y in xs[1..] ensures |y| == 1 {
          assert y in xs;
        }
      }
      assert [n] in xs <==> xs[0] == [n] || [n] in xs[1..] by {
        assert xs == [xs[0]] + xs[1..];
      }
      PurgeStepAt(st, search, S, D, base, xs[0], acc, n, k);
      match PurgeStep(st, search, S, D, base, xs[0], acc, false)
      case None =>
      case Some(b) => PurgeEachAt(st, search, S, D, base, xs[1..], b, n, k);
    }
  }

  /** The update and purge loops, after the create loop left `a`. */
  lemma UpdateThenPurgeAt(st: DiffSettings, search: Search, S: Tree, D: Tree, base: Path, commons: seq<Path>, rights: seq<Path>, a: Changes, n: string, k: Path)
    requires OneDeep(commons) && OneDeep(rights) && base + [n] <= k
    requires !([n] in commons && [n] in rights)
    requires [n] in commons || [n] in rights ==> SlotAt(a, k) == EmptySlot
    ensures var r := UpdateThenPurge(st, search, S, D, base, commons, rights, a, false);
      r.Some? ==> SlotAt(r.value, k) == if [n] in commons then UpdateHit(st, search, S, D, base, n, k)
                                        else if [n] in rights then PurgeHit(st, search, D, base, n, k)
                                        else SlotAt(a, k)
    ensures var r := UpdateThenPurge(st, search, S, D, base, commons, rights, a, false);
      var p := base + [n];
      && ([n] in commons && IsDir(S, p) && st.recursive && r.Some? ==> DirDiff(st, search, S, D, p).Some?)
      && ([n] in rights && IsDir(D, p) && st.recursive && r.Some? ==> DirDiff(st, search, Tmp(p), D, p).Some?)
  {
    UpdateEachAt(st, search, S, D, base, commons, a, n, k);
    match UpdateEach(st, search, S, D, base, commons, a, false)
    case None =>
    case Some(b) => PurgeEachAt(st, search, S, D, base, rights, b, n, k);
  }

  /** The three loops of processCmp: an entry listed in at most one
      category ends, under `k`, with that category's walk. */
  lemma ProcessCmpAt(st: DiffSettings, search: Search, S: Tree, D: Tree, base: Path, c: Cmp, n: string, k: Path)
    requires OneDeep(c.leftOnly) && OneDeep(c.common) && OneDeep(c.rightOnly) && base + [n] <= k
    requires [] !in c.leftOnly && [] !in c.common && [] !in c.rightOnly
    requires !([n] in c.leftOnly && [n] in c.common) && !([n] in c.leftOnly && [n] in c.rightOnly)
    requires !([n] in c.common && [n] in c.rightOnly)
    ensures var r := ProcessCmp(st, search, S, D, base, c, false);
      r.Some? ==> SlotAt(r.value, k) == if [n] in c.common then UpdateHit(st, search, S, D, base, n, k)
                                        else if [n] in c.leftOnly then CreateHit(st, search, S, base, n, k)
                                        else if [n] in c.rightOnly then PurgeHit(st, search, D, base, n, k)
                                        else EmptySlot
    ensures var r := ProcessCmp(st, search, S, D, base, c, false);
      var p := base + [n];
      && ([n] in c.common && IsDir(S, p) && st.recursive && r.Some? ==> DirDiff(st, search, S, D, p).Some?)
      && ([n] in c.leftOnly && IsDir(S, p) && st.recursive && r.Some? ==> DirDiff(st, search, S, Tmp(p), p).Some?)
      && ([n] in c.rightOnly && IsDir(D, p) && st.recursive && r.Some? ==> DirDiff(st, search, Tmp(p), D, p).Some?)
  {
    var lefts, commons, rights := SortPaths(c.leftOnly), SortPaths(c.common), SortPaths(c.rightOnly);
    SortPathsMember(c.leftOnly);
    SortPathsMember(c.common);
    SortPathsMember(c.rightOnly);
    assert SlotAt(NoChanges, k) == EmptySlot;
    CreateEachAt(st, search, S, D, base, lefts, NoChanges, n, k);
    match CreateEach(st, search, S, D, base, lefts, NoChanges, false)
    case None =>
    case Some(a) => UpdateThenPurgeAt(st, search, S, D, base, commons, rights, a, n, k);
  }

  /** processCmp merges what each walk found (diff.py:305-308, 322-328,
      342-344). Below a common directory the comparison at `base` holds the
      comparison of that directory in all three maps; below a source-only
      directory only its walk's creates; below a destination-only directory
      only its walk's purges; and below anything else nothing at all. A walk
      that the result depends on succeeded. */
  lemma DirDiffSubtree(st: DiffSettings, search: Search, S: Tree, D: Tree, base: Path, n: string, k: Path)
    requires DirDiff(st, search, S, D, base).Some? && base + [n] <= k
    ensures var r := DirDiff(st, search, S, D, base).value;
      var p := base + [n];
      var ls, ld := Names(S, base), Names(D, base);
      && (n in ls && n in ld && IsDir(S, p) && st.recursive ==>
            DirDiff(st, search, S, D, p).Some? && SlotAt(r, k) == SlotAt(DirDiff(st, search, S, D, p).value, k))
      && (n in ls && n !in ld && IsDir(S, p) && st.recursive ==>
            DirDiff(st, search, S, Tmp(p), p).Some?
            && SlotAt(r, k) == Slot(Get(DirDiff(st, search, S, Tmp(p), p).value.create, k), [], []))
      && (n !in ls && n in ld && IsDir(D, p) && st.recursive ==>
            DirDiff(st, search, Tmp(p), D, p).Some?
            && SlotAt(r, k) == Slot([], [], Get(DirDiff(st, search, Tmp(p), D, p).value.purge, k)))
      && (!st.recursive || (n in ls && !IsDir(S, p)) || (n !in ls && (n !in ld || !IsDir(D, p))) ==>
            SlotAt(r, k) == EmptySlot)
  {
    var c := Dircmp(S, D, base);
    DircmpMember(S, D, base);
    DircmpNoRoot(S, D, base);
    ProcessCmpAt(st, search, S, D, base, c, n, k);
  }
}
