/** The three-way classification the comparison consumes: a directory
    comparison (what `filecmp.dircmp` reports for one level) or an explicit
    file list classified by existence (Diff.compareFileList, diff.py:217-243),
    and the stripping of root prefixes from such a list
    (Diff.makeFileListRelative, diff.py:78-105). */
module Compare {
  import opened Paths
  import opened FileTree

  /** Entries relative to the compared directories. `missing` is only filled
      for file lists. */
  datatype Cmp = Cmp(leftOnly: seq<Path>, common: seq<Path>, rightOnly: seq<Path>, missing: seq<Path>)

  /** dircmp's default ignore list in Python 2. */
  const Ignored: set<string> := {"RCS", "CVS", "tags"}

  /** os.listdir(base) without the ignored names. */
  function Names(t: Tree, base: Path): set<string>
  {
    (set q | q in t && |q| == |base| + 1 && q[..|base|] == base :: q[|base|]) - Ignored
  }

  /** A name is listed exactly when `base` has a child of that name that is
      not ignored. */
  lemma NamesMember(t: Tree, base: Path)
    ensures forall n :: n in Names(t, base) <==> base + [n] in t && n !in Ignored
  {
    var r := Names(t, base);
    forall n | base + [n] in t && n !in Ignored ensures n in r {
      var q := base + [n];
      assert q[..|base|] == base && q[|base|] == n;
    }
    forall n | n in r ensures base + [n] in t {
      var q :| q in t && |q| == |base| + 1 && q[..|base|] == base && q[|base|] == n;
      assert q == base + [n];
    }
  }

  /** filecmp.dircmp(base in S, base in D): names on the left only, on both
      sides, and on the right only, each list in name order. */
  function Dircmp(S: Tree, D: Tree, base: Path): Cmp
  {
    var ls, ld := Names(S, base), Names(D, base);
    Cmp(Singletons(SortedNames(ls - ld)), Singletons(SortedNames(ls * ld)), Singletons(SortedNames(ld - ls)), [])
  }

  /** Each list holds one-name paths, and a name is listed on the side(s)
      where it is present. */
  lemma DircmpMember(S: Tree, D: Tree, base: Path)
    ensures Dircmp(S, D, base).missing == []
    ensures forall x :: x in Dircmp(S, D, base).leftOnly <==> |x| == 1 && x[0] in Names(S, base) && x[0] !in Names(D, base)
    ensures forall x :: x in Dircmp(S, D, base).common <==> |x| == 1 && x[0] in Names(S, base) && x[0] in Names(D, base)
    ensures forall x :: x in Dircmp(S, D, base).rightOnly <==> |x| == 1 && x[0] !in Names(S, base) && x[0] in Names(D, base)
  {
    var ls, ld := Names(S, base), Names(D, base);
    SortedNamesSpec(ls - ld);
    SortedNamesSpec(ls * ld);
    SortedNamesSpec(ld - ls);
    SingletonsMember(SortedNames(ls - ld));
    SingletonsMember(SortedNames(ls * ld));
    SingletonsMember(SortedNames(ld - ls));
  }

  /** No list of dircmp holds the compared directory itself. */
  lemma DircmpNoRoot(S: Tree, D: Tree, base: Path)
    ensures [] !in Dircmp(S, D, base).leftOnly && [] !in Dircmp(S, D, base).common
    ensures [] !in Dircmp(S, D, base).rightOnly
  {
    DircmpMember(S, D, base);
  }

  datatype Category = LeftOnly | Common | RightOnly | Missing

  /** Where compareFileList files one relative path: by whether it exists
      below the source root and below the destination root. */
  function CategoryOf(S: Tree, D: Tree, p: Path): Category
  {
    var s, d := Exists(S, p), Exists(D, p);
    if s && d then Common else if s then LeftOnly else if d then RightOnly else Missing
  }

  /** The entries of `fl` in category `c`, in input order. */
  function Select(fl: seq<Path>, S: Tree, D: Tree, c: Category): seq<Path>
  {
    if fl == [] then []
    else
      var x := fl[|fl| - 1];
      Select(fl[..|fl| - 1], S, D, c) + (if CategoryOf(S, D, x) == c then [x] else [])
  }

  lemma SelectSnoc(fl: seq<Path>, x: Path, S: Tree, D: Tree, c: Category)
    ensures Select(fl + [x], S, D, c) == Select(fl, S, D, c) + (if CategoryOf(S, D, x) == c then [x] else [])
  {
    assert (fl + [x])[..|fl|] == fl;
  }

  /** A path is selected exactly when it is listed and in that category. */
  lemma {:induction false} SelectMember(fl: seq<Path>, S: Tree, D: Tree, c: Category)
    ensures forall x :: x in Select(fl, S, D, c) <==> x in fl && CategoryOf(S, D, x) == c
  {
    if fl != [] {
      var init := fl[..|fl| - 1];
      SelectMember(init, S, D, c);
      assert fl == init + [fl[|fl| - 1]];
    }
  }

  /** The classification compareFileList computes, as a value. */
  function FileCmp(fl: seq<Path>, S: Tree, D: Tree): (c: Cmp)
    ensures [] !in c.leftOnly && [] !in c.rightOnly
  {
    OneSidedNotRoot(fl, S, D);
    Cmp(Select(fl, S, D, LeftOnly), Select(fl, S, D, Common), Select(fl, S, D, RightOnly), Select(fl, S, D, Missing))
  }

  /** compareFileList (diff.py:217-243): one pass over the list. */
  method CompareFileList(fl: seq<Path>, S: Tree, D: Tree) returns (r: Cmp)
    ensures r.leftOnly == Select(fl, S, D, LeftOnly) && r.common == Select(fl, S, D, Common)
    ensures r.rightOnly == Select(fl, S, D, RightOnly) && r.missing == Select(fl, S, D, Missing)
    ensures r == FileCmp(fl, S, D)
  {
    r := Cmp([], [], [], []);
    for i := 0 to |fl|
      invariant r.leftOnly == Select(fl[..i], S, D, LeftOnly) && r.common == Select(fl[..i], S, D, Common)
      invariant r.rightOnly == Select(fl[..i], S, D, RightOnly) && r.missing == Select(fl[..i], S, D, Missing)
    {
      var rel := fl[i];
      var srcExists := Exists(S, rel);
      var dstExists := Exists(D, rel);
      if srcExists && dstExists {
        r := r.(common := r.common + [rel]);
      } else if srcExists && !dstExists {
        r := r.(leftOnly := r.leftOnly + [rel]);
      } else if !srcExists && dstExists {
        r := r.(rightOnly := r.rightOnly + [rel]);
      } else {
        r := r.(missing := r.missing + [rel]);
      }
      assert fl[..i + 1] == fl[..i] + [fl[i]];
      SelectSnoc(fl[..i], fl[i], S, D, LeftOnly);
      SelectSnoc(fl[..i], fl[i], S, D, Common);
      SelectSnoc(fl[..i], fl[i], S, D, RightOnly);
      SelectSnoc(fl[..i], fl[i], S, D, Missing);
    }
    assert fl[..|fl|] == fl;
  }

  /** How often a path is selected: as often as it is listed when it is in
      the category, never otherwise. */
  lemma {:induction false} SelectCount(fl: seq<Path>, S: Tree, D: Tree, c: Category)
    ensures forall x :: multiset(Select(fl, S, D, c))[x] == if CategoryOf(S, D, x) == c then multiset(fl)[x] else 0
  {
    if fl != [] {
      var init, y := fl[..|fl| - 1], fl[|fl| - 1];
      SelectCount(init, S, D, c);
      assert fl == init + [y];
      assert multiset(fl) == multiset(init) + multiset{y};
    }
  }

  /** Every listed path lands in exactly one of the four lists: the lists
      together are a permutation of the input. */
  lemma SelectPartition(fl: seq<Path>, S: Tree, D: Tree)
    ensures multiset(Select(fl, S, D, LeftOnly)) + multiset(Select(fl, S, D, Common))
          + multiset(Select(fl, S, D, RightOnly)) + multiset(Select(fl, S, D, Missing)) == multiset(fl)
    ensures |Select(fl, S, D, LeftOnly)| + |Select(fl, S, D, Common)|
          + |Select(fl, S, D, RightOnly)| + |Select(fl, S, D, Missing)| == |fl|
  {
    var l, c, r, m := Select(fl, S, D, LeftOnly), Select(fl, S, D, Common), Select(fl, S, D, RightOnly), Select(fl, S, D, Missing);
    SelectCount(fl, S, D, LeftOnly);
    SelectCount(fl, S, D, Common);
    SelectCount(fl, S, D, RightOnly);
    SelectCount(fl, S, D, Missing);
    var sum := multiset(l) + multiset(c) + multiset(r) + multiset(m);
    forall x ensures sum[x] == multiset(fl)[x] {
    }
    assert sum == multiset(fl);
    assert |sum| == |l| + |c| + |r| + |m|;
  }

  /** The root always exists, so only paths below it can be one-sided. */
  lemma OneSidedNotRoot(fl: seq<Path>, S: Tree, D: Tree)
    ensures [] !in Select(fl, S, D, LeftOnly) && [] !in Select(fl, S, D, RightOnly)
    ensures [] !in Select(fl, S, D, Missing)
  {
    SelectMember(fl, S, D, LeftOnly);
    SelectMember(fl, S, D, RightOnly);
    SelectMember(fl, S, D, Missing);
  }

  /** `root` removed from the front of `p` when `p` lies strictly below it.
      This is the Windows reading of diff.py:89-102, where the source
      replaces `root` followed by a backslash inside the path string; the
      replacement anywhere else in the string, and its failure to match on
      POSIX separators, are not modelled. A path equal to the root is kept. */
  function StripRoot(p: Path, root: Path): Path
  {
    if root < p then p[|root|..] else p
  }

  /** The relative form of one listed path: source root first, then
      destination root (diff.py:98-99). */
  function Relative(p: Path, srcRoot: Path, dstRoot: Path): Path
  {
    StripRoot(StripRoot(p, srcRoot), dstRoot)
  }

  /** makeFileListRelative (diff.py:78-105). */
  method MakeFileListRelative(fl: seq<Path>, srcRoot: Path, dstRoot: Path) returns (result: seq<Path>)
    ensures |result| == |fl|
    ensures forall i :: 0 <= i < |fl| ==> result[i] == Relative(fl[i], srcRoot, dstRoot)
  {
    result := [];
    for i := 0 to |fl|
      invariant |result| == i
      invariant forall j :: 0 <= j < i ==> result[j] == Relative(fl[j], srcRoot, dstRoot)
    {
      var rel := fl[i];
      if srcRoot < rel {
        rel := rel[|srcRoot|..];
      }
      if dstRoot < rel {
        rel := rel[|dstRoot|..];
      }
      result := result + [rel];
    }
  }

  /** Each output is a non-empty tail of its input (the part after the
      prefix that was removed). */
  lemma RelativeIsSuffix(p: Path, srcRoot: Path, dstRoot: Path)
    ensures var r := Relative(p, srcRoot, dstRoot);
      |r| <= |p| && r == p[|p| - |r|..] && (p != [] ==> r != [])
  {
    var q := StripRoot(p, srcRoot);
    assert q == p[|p| - |q|..];
    var r := StripRoot(q, dstRoot);
    assert r == q[|q| - |r|..];
  }

  /** A path below the source root loses exactly that root, when what is left
      is not itself below the destination root. */
  lemma RelativeUnderSource(srcRoot: Path, dstRoot: Path, rel: Path)
    requires rel != [] && !(dstRoot < rel)
    ensures Relative(srcRoot + rel, srcRoot, dstRoot) == rel
  {
    assert (srcRoot + rel)[|srcRoot|..] == rel;
  }

  /** A path below neither root, or already relative to them, is kept as is. */
  lemma RelativeKeepsOthers(p: Path, srcRoot: Path, dstRoot: Path)
    requires !(srcRoot < p) && !(dstRoot < p)
    ensures Relative(p, srcRoot, dstRoot) == p
  {
  }
}
