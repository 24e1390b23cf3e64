/** The filesystem as the engine sees it, and the queries of utils.py.

    A tree is a finite map from relative paths to nodes. The root of a tree
    (the empty path) always exists as a directory, so a missing root is not
    represented; a node stored under the empty path is never consulted. A node
    records what `os.stat` reports after following a symbolic link (`kind`,
    `mtime`, `size`, whether it is writable) and whether the name itself is a
    symbolic link (`link`, what `os.path.islink` reports). A link whose target
    is missing has kind `Dangling`: stat fails on it. */
module FileTree {
  import opened Paths

  /** What stat reports: a regular file, a directory, a named pipe, a
      socket, a device, or nothing (a dangling link). */
  datatype Kind = Regular | Directory | Fifo | Socket | Device | Dangling

  /** `mtime` is in nanoseconds since the epoch. */
  datatype Node = Node(kind: Kind, link: bool, mtime: int, size: nat, writable: bool)

  type Tree = map<Path, Node>

  /** os.path.exists: the name is there and stat succeeds on it. The root
      always exists. */
  predicate Exists(t: Tree, p: Path)
  {
    p == [] || (p in t && t[p].kind != Dangling)
  }

  /** utils._isfile (utils.py:19-23): a regular file that is not a symbolic link. */
  predicate IsFile(t: Tree, p: Path)
  {
    p != [] && p in t && !t[p].link && t[p].kind == Regular
  }

  /** utils._isdir (utils.py:25-29), which is also os.path.isdir: stat follows
      links, and a failing stat answers false. */
  predicate IsDir(t: Tree, p: Path)
  {
    p != [] && p in t && t[p].kind == Directory
  }

  /** os.path.isfile: a regular file, possibly reached through a link. */
  predicate IsFileFollow(t: Tree, p: Path)
  {
    p != [] && p in t && t[p].kind == Regular
  }

  /** A directory at `p`, counting the root of the tree. */
  predicate DirExists(t: Tree, p: Path)
  {
    p == [] || IsDir(t, p)
  }

  lemma IsDirWithoutStat(t: Tree, p: Path)
    requires p != [] && (p !in t || t[p].kind == Dangling)
    ensures !IsDir(t, p) && !IsFile(t, p) && !IsFileFollow(t, p) && !Exists(t, p)
  {
  }

  lemma IsFileNeverLink(t: Tree, p: Path)
    requires p != [] && p in t && t[p].link
    ensures !IsFile(t, p)
    ensures IsFileFollow(t, p) <==> t[p].kind == Regular
  {
  }

  function Pow10(n: nat): (r: nat)
    ensures r >= 1
  {
    if n == 0 then 1 else 10 * Pow10(n - 1)
  }

  /** The length, in nanoseconds, of the last digit kept by
      round(mtime, precision). */
  function Unit(precision: int): (u: nat)
    ensures u >= 1
  {
    if precision >= 9 then 1 else Pow10(9 - precision)
  }

  /** round(st_mtime, precision), as a count of `Unit(precision)` steps:
      the nearest step, halves going away from zero as Python 2's round
      does. */
  function RoundMtime(ns: int, precision: int): int
  {
    RoundSteps(ns, Unit(precision))
  }

  /** `ns` rounded to the nearest multiple of `u`, counted in steps of `u`;
      a half step goes away from zero. */
  function RoundSteps(ns: int, u: nat): int
    requires u >= 1
  {
    if ns >= 0 then (ns + u / 2) / u else -((-ns + u / 2) / u)
  }

  /** utils._cmp_mtime (utils.py:31-44): with `newer`, A's rounded mtime is
      strictly later than B's; without, the rounded mtimes differ. */
  predicate CmpMtime(a: Node, b: Node, precision: int, newer: bool)
  {
    var ra := RoundMtime(a.mtime, precision);
    var rb := RoundMtime(b.mtime, precision);
    if newer then ra > rb else ra != rb
  }

  /** Equal rounded times never count as a change, in either mode. */
  lemma SameRoundedNeverChanged(a: Node, b: Node, precision: int, newer: bool)
    requires RoundMtime(a.mtime, precision) == RoundMtime(b.mtime, precision)
    ensures !CmpMtime(a, b, precision, newer)
  {
  }

  /** "Any difference" is "newer one way or the other": a change under
      `newer` is a change without it, and without it a destination that is
      the newer one also counts. */
  lemma DifferIffNewerEitherWay(a: Node, b: Node, precision: int)
    ensures CmpMtime(a, b, precision, false) <==> CmpMtime(a, b, precision, true) || CmpMtime(b, a, precision, true)
    ensures CmpMtime(a, b, precision, true) ==> CmpMtime(a, b, precision, false)
  {
  }

  lemma DifferSymmetric(a: Node, b: Node, precision: int)
    ensures CmpMtime(a, b, precision, false) == CmpMtime(b, a, precision, false)
  {
  }

  lemma {:induction false} MulAtLeast(k: int, u: int)
    requires k >= 1 && u >= 1
    ensures k * u >= u
  {
    if k > 1 {
      MulAtLeast(k - 1, u);
      assert k * u == (k - 1) * u + u;
    }
  }

  lemma {:induction false} DivMonotone(x: int, y: int, u: int)
    requires x <= y && u >= 1
    ensures x / u <= y / u
  {
    var qx, rx := x / u, x % u;
    var qy, ry := y / u, y % u;
    if qx > qy {
      MulAtLeast(qx - qy, u);
      assert false;
    }
  }

  /** Rounding treats both signs alike: a time before the epoch rounds to
      the negation of its mirror image, so a half step goes away from zero
      on both sides. */
  lemma RoundStepsOdd(x: int, u: nat)
    requires u >= 1
    ensures RoundSteps(-x, u) == -RoundSteps(x, u)
  {
  }

  /** Rounding to steps of `u` keeps the order of its inputs. */
  lemma RoundStepsMonotone(x: int, y: int, u: nat)
    requires x <= y && u >= 1
    ensures RoundSteps(x, u) <= RoundSteps(y, u)
  {
    if 0 <= x {
      DivMonotone(x + u / 2, y + u / 2, u);
    } else if y < 0 {
      DivMonotone(-y + u / 2, -x + u / 2, u);
    } else {
      DivMonotone(0, -x + u / 2, u);
      DivMonotone(0, y + u / 2, u);
    }
  }

  /** Rounding keeps the order of times: a source that is not later than the
      destination at full resolution is never "newer" after rounding. */
  lemma NotLaterNeverNewer(a: Node, b: Node, precision: int)
    requires a.mtime <= b.mtime
    ensures !CmpMtime(a, b, precision, true)
  {
    RoundStepsMonotone(a.mtime, b.mtime, Unit(precision));
  }

  /** Proper descendants of `base` that are keys of `t`: the measure that
      shrinks when the comparison descends into a directory. */
  function Below(t: Tree, base: Path): (r: set<Path>)
    ensures forall q :: q in r <==> q in t && base < q
  {
    set q | q in t && base < q
  }

  lemma BelowShrinks(t: Tree, base: Path, p: Path)
    requires base < p && p in t
    ensures Below(t, p) < Below(t, base)
    ensures p in Below(t, base) - Below(t, p)
  {
  }

  lemma BelowSub(t: Tree, base: Path, p: Path)
    requires base < p
    ensures Below(t, p) <= Below(t, base)
  {
  }
}
