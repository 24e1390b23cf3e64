/** What Diff.run promises about one directory, stated on the recursive
    comparison itself: which names each list of a directory holds and in
    what order, and that a one-sided subtree is walked whole. */
module ComparisonProps {
  import opened Paths
  import opened FileTree
  import opened ChangeSet
  import opened Options
  import opened Filter
  import opened Compare
  import opened Comparison
  import opened ComparisonKeys
  import opened ComparisonLevel

  /** A name is listed for creation under a compared directory exactly when
      it is in the source listing (not ignored), absent from the destination
      listing, a file or (with `includedirs`) a directory, and accepted by
      the filter; directories carry the directory mark. */
  lemma DirDiffCreateMember(st: DiffSettings, search: Search, S: Tree, D: Tree, base: Path, c: Child)
    requires DirDiff(st, search, S, D, base).Some?
    ensures c in Get(DirDiff(st, search, S, D, base).value.create, base)
        <==> c.name !in Ignored && base + [c.name] !in D && CreatesEntry(st, search, S, base, [c.name])
             && c.dirMark == IsDir(S, base + [c.name])
  {
    var ls, ld := Names(S, base), Names(D, base);
    DirDiffLevel(st, search, S, D, base);
    CreateNamesMember(st, search, S, base, SortedNames(ls - ld), c);
    SortedNamesSpec(ls - ld);
    NamesMember(S, base);
    NamesMember(D, base);
  }

  /** A name is listed for update under a compared directory exactly when
      it is listed on both sides, is a plain file in the source, exists in
      the destination and is recorded at least once (stale and accepted, or
      forced); it never carries the directory mark. */
  lemma DirDiffUpdateMember(st: DiffSettings, search: Search, S: Tree, D: Tree, base: Path, c: Child)
    requires DirDiff(st, search, S, D, base).Some?
    ensures c in Get(DirDiff(st, search, S, D, base).value.update, base)
        <==> c.name !in Ignored && !c.dirMark && IsFile(S, base + [c.name]) && Exists(D, base + [c.name])
             && UpdateTimes(st, search, S, D, base, [c.name]) > 0
  {
    var ls, ld := Names(S, base), Names(D, base);
    DirDiffLevel(st, search, S, D, base);
    UpdateNamesMember(st, search, S, D, base, SortedNames(ls * ld), c);
    SortedNamesSpec(ls * ld);
    NamesMember(S, base);
    NamesMember(D, base);
  }

  /** A name is listed for purging under a compared directory exactly when
      it is in the destination listing (not ignored), absent from the source
      listing, a file or a directory, and its name passes the filter. */
  lemma DirDiffPurgeMember(st: DiffSettings, search: Search, S: Tree, D: Tree, base: Path, c: Child)
    requires DirDiff(st, search, S, D, base).Some?
    ensures c in Get(DirDiff(st, search, S, D, base).value.purge, base)
        <==> c.name !in Ignored && base + [c.name] !in S && PurgesEntry(st, search, D, base, [c.name])
             && c.dirMark == IsDir(D, base + [c.name])
  {
    var ls, ld := Names(S, base), Names(D, base);
    DirDiffLevel(st, search, S, D, base);
    PurgeNamesMember(st, search, D, base, SortedNames(ld - ls), c);
    SortedNamesSpec(ld - ls);
    NamesMember(S, base);
    NamesMember(D, base);
  }

  /** Each list of a compared directory is in name order (the loops walk
      sorted listings); creations and purges name each child once. */
  lemma DirDiffOrder(st: DiffSettings, search: Search, S: Tree, D: Tree, base: Path)
    requires DirDiff(st, search, S, D, base).Some?
    ensures NamesAscending(Get(DirDiff(st, search, S, D, base).value.create, base))
    ensures NamesInOrder(Get(DirDiff(st, search, S, D, base).value.update, base))
    ensures NamesAscending(Get(DirDiff(st, search, S, D, base).value.purge, base))
  {
    var ls, ld := Names(S, base), Names(D, base);
    DirDiffLevel(st, search, S, D, base);
    SortedNamesSpec(ls - ld);
    SortedNamesSpec(ls * ld);
    SortedNamesSpec(ld - ls);
    CreateNamesAscending(st, search, S, base, SortedNames(ls - ld));
    UpdateNamesInOrder(st, search, S, D, base, SortedNames(ls * ld));
    PurgeNamesAscending(st, search, D, base, SortedNames(ld - ls));
  }

  /** A directory that exists only in the source is walked against the
      empty scratch directory (diff.py:305-308): the walk always succeeds and
      proposes creations only. */
  lemma {:induction false} SourceOnlyWalk(st: DiffSettings, search: Search, S: Tree, base: Path)
    requires DirExists(S, base)
    ensures DirDiff(st, search, S, Tmp(base), base).Some?
    ensures DirDiff(st, search, S, Tmp(base), base).value.update == map[]
    ensures DirDiff(st, search, S, Tmp(base), base).value.purge == map[]
    decreases Measure(S, Tmp(base), base), 0, 4, 0
  {
    var c := Dircmp(S, Tmp(base), base);
    TmpEmpty(base);
    OneSidedListing(S, Tmp(base), base);
    var lefts := SortPaths(c.leftOnly);
    SortPathsMember(c.leftOnly);
    CreateEachSome(st, search, S, Tmp(base), base, lefts, NoChanges);
    var a := CreateEach(st, search, S, Tmp(base), base, lefts, NoChanges, false).value;
    NothingMore(st, search, S, Tmp(base), base, a);
  }

  /** Against the empty scratch directory nothing is common and nothing is
      on the destination side only. */
  lemma OneSidedListing(S: Tree, D: Tree, base: Path)
    requires Names(D, base) == {} || Names(S, base) == {}
    ensures Names(D, base) == {} ==> Dircmp(S, D, base).common == [] && Dircmp(S, D, base).rightOnly == []
    ensures Names(S, base) == {} ==> Dircmp(S, D, base).common == [] && Dircmp(S, D, base).leftOnly == []
    ensures [] !in Dircmp(S, D, base).leftOnly && [] !in Dircmp(S, D, base).rightOnly
  {
    var ls, ld := Names(S, base), Names(D, base);
    assert ls * ld == {};
    assert ld == {} ==> ld - ls == {};
    assert ls == {} ==> ls - ld == {};
  }

  /** With nothing common and nothing destination-only, the last two loops
      change nothing. */
  lemma NothingMore(st: DiffSettings, search: Search, S: Tree, D: Tree, base: Path, a: Changes)
    ensures UpdateThenPurge(st, search, S, D, base, SortPaths([]), SortPaths([]), a, false) == Some(a)
  {
  }

  lemma {:induction false} CreateEachSome(st: DiffSettings, search: Search, S: Tree, D: Tree, base: Path, xs: seq<Path>, acc: Changes)
    requires [] !in xs
    ensures CreateEach(st, search, S, D, base, xs, acc, false).Some?
    decreases Measure(S, D, base), 0, 1, |xs|
  {
    if xs != [] {
      CreateStepSome(st, search, S, D, base, xs[0], acc);
      CreateEachSome(st, search, S, D, base, xs[1..], CreateStep(st, search, S, D, base, xs[0], acc, false).value);
    }
  }

  lemma {:induction false} CreateStepSome(st: DiffSettings, search: Search, S: Tree, D: Tree, base: Path, x: Path, acc: Changes)
    requires x != []
    ensures CreateStep(st, search, S, D, base, x, acc, false).Some?
    decreases Measure(S, D, base), 0, 0, 0
  {
    var p := base + x;
    if IsDir(S, p) && st.recursive {
      TmpEmpty(p);
      MeasureDown(S, D, base, p, S, Tmp(p));
      SourceOnlyWalk(st, search, S, p);
    }
  }

  /** A directory that exists only in the destination is walked against the
      empty scratch directory (diff.py:341-344): the walk always succeeds and
      proposes purges only. */
  lemma {:induction false} DestinationOnlyWalk(st: DiffSettings, search: Search, D: Tree, base: Path)
    requires DirExists(D, base)
    ensures DirDiff(st, search, Tmp(base), D, base).Some?
    ensures DirDiff(st, search, Tmp(base), D, base).value.create == map[]
    ensures DirDiff(st, search, Tmp(base), D, base).value.update == map[]
    decreases Measure(Tmp(base), D, base), 0, 4, 0
  {
    var c := Dircmp(Tmp(base), D, base);
    TmpEmpty(base);
    OneSidedListing(Tmp(base), D, base);
    var rights := SortPaths(c.rightOnly);
    SortPathsMember(c.rightOnly);
    assert c == Cmp([], [], c.rightOnly, []);
    PurgeEachSome(st, search, Tmp(base), D, base, rights, NoChanges);
    NothingBefore(st, search, Tmp(base), D, base, c.rightOnly);
    assert DirDiff(st, search, Tmp(base), D, base) == ProcessCmp(st, search, Tmp(base), D, base, c, false);
  }

  /** With nothing source-only and nothing common, only the purge loop
      contributes. */
  lemma NothingBefore(st: DiffSettings, search: Search, S: Tree, D: Tree, base: Path, rights: seq<Path>)
    requires [] !in rights
    ensures [] !in SortPaths(rights)
    ensures ProcessCmp(st, search, S, D, base, Cmp([], [], rights, []), false)
         == PurgeEach(st, search, S, D, base, SortPaths(rights), NoChanges, false)
  {
    SortPathsMember(rights);
    assert SortPaths([]) == [];
    assert CreateEach(st, search, S, D, base, [], NoChanges, false) == Some(NoChanges);
    assert UpdateEach(st, search, S, D, base, [], NoChanges, false) == Some(NoChanges);
    assert UpdateThenPurge(st, search, S, D, base, [], SortPaths(rights), NoChanges, false)
        == PurgeEach(st, search, S, D, base, SortPaths(rights), NoChanges, false);
  }

  lemma {:induction false} PurgeEachSome(st: DiffSettings, search: Search, S: Tree, D: Tree, base: Path, xs: seq<Path>, acc: Changes)
    requires [] !in xs
    ensures PurgeEach(st, search, S, D, base, xs, acc, false).Some?
    decreases Measure(S, D, base), 0, 1, |xs|
  {
    if xs != [] {
      PurgeStepSome(st, search, S, D, base, xs[0], acc);
      PurgeEachSome(st, search, S, D, base, xs[1..], PurgeStep(st, search, S, D, base, xs[0], acc, false).value);
    }
  }

  lemma {:induction false} PurgeStepSome(st: DiffSettings, search: Search, S: Tree, D: Tree, base: Path, x: Path, acc: Changes)
    requires x != []
    ensures PurgeStep(st, search, S, D, base, x, acc, false).Some?
    decreases Measure(S, D, base), 0, 0, 0
  {
    var p := base + x;
    if IsDir(D, p) && st.recursive {
      TmpEmpty(p);
      MeasureDown(S, D, base, p, Tmp(p), D);
      DestinationOnlyWalk(st, search, D, p);
    }
  }
}
