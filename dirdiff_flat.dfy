/** A comparison without `recursive` stays on the directory it compares
    (diff.py:305-308, 322-328, 342-344 are skipped): every key it files is
    that directory, and the lists there are the one-level lists. */
module ComparisonFlat {
  import opened Paths
  import opened FileTree
  import opened ChangeSet
  import opened Options
  import opened Filter
  import opened Compare
  import opened Comparison
  import opened ComparisonLevel

  /** Every key of the three maps is `base`. */
  predicate OnlyAt(c: Changes, base: Path)
  {
    (forall k :: k in c.create ==> k == base) &&
    (forall k :: k in c.update ==> k == base) &&
    (forall k :: k in c.purge ==> k == base)
  }

  /** Entries named directly below `base`. */
  predicate OneDeep(xs: seq<Path>)
  {
    forall x :: x in xs ==> |x| == 1
  }

  lemma AddAtOnlyAt(m: Multimap, t: Tree, base: Path, x: Path)
    requires |x| == 1 && forall k :: k in m ==> k == base
    ensures forall k :: k in AddAt(m, t, base + x) ==> k == base
  {
    assert base + x == base + [x[0]];
    ParentOfChild(base, x[0]);
  }

  lemma {:induction false} AddTimesOnlyAt(m: Multimap, t: Tree, base: Path, x: Path, n: nat)
    requires |x| == 1 && forall k :: k in m ==> k == base
    ensures forall k :: k in AddTimes(m, t, base + x, n) ==> k == base
    decreases n
  {
    if n > 0 {
      AddAtOnlyAt(m, t, base, x);
      AddTimesOnlyAt(AddAt(m, t, base + x), t, base, x, n - 1);
    }
  }

  /** Without recursion the source-only loop cannot fail and files only
      under `base`. */
  lemma {:induction false} CreateEachFlat(st: DiffSettings, search: Search, S: Tree, D: Tree, base: Path, xs: seq<Path>, acc: Changes)
    requires !st.recursive && OneDeep(xs) && OnlyAt(acc, base)
    ensures CreateEach(st, search, S, D, base, xs, acc, false).Some?
    ensures OnlyAt(CreateEach(st, search, S, D, base, xs, acc, false).value, base)
    decreases |xs|
  {
    if xs != [] {
      assert xs[0] in xs;
      var a := CreateAdd(st, search, S, base, xs[0], acc);
      AddAtOnlyAt(acc.create, S, base, xs[0]);
      assert CreateStep(st, search, S, D, base, xs[0], acc, false) == Some(a);
      assert OneDeep(xs[1..]) by {
        forall x | x in xs[1..] ensures |x| == 1 {
          assert x in xs;
        }
      }
      CreateEachFlat(st, search, S, D, base, xs[1..], a);
    }
  }

  /** Without recursion the common loop files only under `base`. */
  lemma {:induction false} UpdateEachFlat(st: DiffSettings, search: Search, S: Tree, D: Tree, base: Path, xs: seq<Path>, acc: Changes)
    requires !st.recursive && OneDeep(xs) && OnlyAt(acc, base)
    ensures var r := UpdateEach(st, search, S, D, base, xs, acc, false);
      r.Some? ==> OnlyAt(r.value, base)
    decreases |xs|
  {
    if xs != [] {
      var x := xs[0];
      assert x in xs;
      var p := base + x;
      if IsFile(S, p) && Exists(D, p) {
        AddTimesOnlyAt(acc.update, S, base, x, UpdateTimes(st, search, S, D, base, x));
      }
      assert OneDeep(xs[1..]) by {
        forall y | y in xs[1..] ensures |y| == 1 {
          assert y in xs;
        }
      }
      match UpdateStep(st, search, S, D, base, x, acc, false)
      case None =>
      case Some(b) => UpdateEachFlat(st, search, S, D, base, xs[1..], b);
    }
  }

  /** Without recursion the destination-only loop cannot fail and files
      only under `base`. */
  lemma {:induction false} PurgeEachFlat(st: DiffSettings, search: Search, S: Tree, D: Tree, base: Path, xs: seq<Path>, acc: Changes)
    requires !st.recursive && OneDeep(xs) && OnlyAt(acc, base)
    ensures PurgeEach(st, search, S, D, base, xs, acc, false).Some?
    ensures OnlyAt(PurgeEach(st, search, S, D, base, xs, acc, false).value, base)
    decreases |xs|
  {
    if xs != [] {
      assert xs[0] in xs;
      var a := PurgeAdd(st, search, D, base, xs[0], acc);
      AddAtOnlyAt(acc.purge, D, base, xs[0]);
      assert PurgeStep(st, search, S, D, base, xs[0], acc, false) == Some(a);
      assert OneDeep(xs[1..]) by {
        forall x | x in xs[1..] ensures |x| == 1 {
          assert x in xs;
        }
      }
      PurgeEachFlat(st, search, S, D, base, xs[1..], a);
    }
  }

  /** The last two loops of processCmp without recursion. */
  lemma UpdateThenPurgeFlat(st: DiffSettings, search: Search, S: Tree, D: Tree, base: Path, commons: seq<Path>, rights: seq<Path>, a: Changes)
    requires !st.recursive && OneDeep(commons) && OneDeep(rights) && OnlyAt(a, base)
    requires [] !in commons && [] !in rights
    ensures var r := UpdateThenPurge(st, search, S, D, base, commons, rights, a, false);
      r.Some? ==> OnlyAt(r.value, base)
  {
    UpdateEachFlat(st, search, S, D, base, commons, a);
    match UpdateEach(st, search, S, D, base, commons, a, false)
    case None =>
    case Some(b) => PurgeEachFlat(st, search, S, D, base, rights, b);
  }

  /** processCmp without recursion on a listing of names directly below
      `base`. */
  lemma ProcessCmpFlat(st: DiffSettings, search: Search, S: Tree, D: Tree, base: Path, c: Cmp)
    requires !st.recursive && [] !in c.leftOnly && [] !in c.rightOnly && [] !in c.common
    requires OneDeep(c.leftOnly) && OneDeep(c.common) && OneDeep(c.rightOnly)
    ensures var r := ProcessCmp(st, search, S, D, base, c, false);
      r.Some? ==> OnlyAt(r.value, base)
  {
    var lefts, commons, rights := SortPaths(c.leftOnly), SortPaths(c.common), SortPaths(c.rightOnly);
    SortPathsMember(c.leftOnly);
    SortPathsMember(c.common);
    SortPathsMember(c.rightOnly);
    CreateEachFlat(st, search, S, D, base, lefts, NoChanges);
    var a := CreateEach(st, search, S, D, base, lefts, NoChanges, false).value;
    UpdateThenPurgeFlat(st, search, S, D, base, commons, rights, a);
  }

  /** __dirdiff without `recursive` files every entry under the directory
      it compares. */
  lemma DirDiffFlat(st: DiffSettings, search: Search, S: Tree, D: Tree, base: Path)
    requires !st.recursive
    ensures var r := DirDiff(st, search, S, D, base);
      r.Some? ==> OnlyAt(r.value, base)
  {
    if DirExists(S, base) && DirExists(D, base) {
      DircmpMember(S, D, base);
      DircmpNoRoot(S, D, base);
      ProcessCmpFlat(st, search, S, D, base, Dircmp(S, D, base));
    }
  }

  /** What a comparison without `recursive` finds: the one-level lists
      under the compared directory and nothing anywhere else. */
  lemma NonRecursiveComparison(st: DiffSettings, search: Search, S: Tree, D: Tree, base: Path)
    requires !st.recursive && DirDiff(st, search, S, D, base).Some?
    ensures var r := DirDiff(st, search, S, D, base).value;
      var ls, ld := Names(S, base), Names(D, base);
      && r.create.Keys <= {base} && r.update.Keys <= {base} && r.purge.Keys <= {base}
      && Get(r.create, base) == CreateNames(st, search, S, base, SortedNames(ls - ld))
      && Get(r.update, base) == UpdateNames(st, search, S, D, base, SortedNames(ls * ld))
      && Get(r.purge, base) == PurgeNames(st, search, D, base, SortedNames(ld - ls))
  {
    DirDiffFlat(st, search, S, D, base);
    DirDiffLevel(st, search, S, D, base);
  }
}
