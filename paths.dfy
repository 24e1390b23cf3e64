/** Relative paths, the string order Python's `sorted` uses on path names, and
    the two sorts the engine relies on: sorting a directory listing (a set of
    names) and sorting a list of relative paths.

    A path is the sequence of its components below a root; the root itself is
    the empty path. Paths are rendered with `Sep` between components. */
module Paths {

  type Path = seq<string>

  const Sep: char := '/'

  /** The path rendered as a string, components separated by `Sep`. */
  function Join(p: Path): (s: string)
    ensures |p| == 1 ==> s == p[0]
  {
    if |p| == 0 then "" else if |p| == 1 then p[0] else Join(p[..|p| - 1]) + [Sep] + p[|p| - 1]
  }

  /** os.path.split(path)[0]: the parent directory. */
  function Parent(p: Path): (q: Path)
    requires p != []
    ensures q < p && |q| == |p| - 1
  {
    p[..|p| - 1]
  }

  /** os.path.split(path)[1]: the last component. */
  function Last(p: Path): (name: string)
    requires p != []
    ensures Parent(p) + [name] == p
  {
    p[|p| - 1]
  }

  /** Lexicographic order on strings, character by character; a proper
      prefix comes first. This is the order of Python 2 string comparison. */
  predicate StrLe(a: string, b: string)
  {
    |a| == 0 || (|b| > 0 && (a[0] < b[0] || (a[0] == b[0] && StrLe(a[1..], b[1..]))))
  }

  lemma {:induction false} StrLeRefl(a: string)
    ensures StrLe(a, a)
  {
    if |a| > 0 { StrLeRefl(a[1..]); }
  }

  lemma {:induction false} StrLeTotal(a: string, b: string)
    ensures StrLe(a, b) || StrLe(b, a)
  {
    if |a| > 0 && |b| > 0 && a[0] == b[0] { StrLeTotal(a[1..], b[1..]); }
  }

  lemma {:induction false} StrLeTrans(a: string, b: string, c: string)
    requires StrLe(a, b) && StrLe(b, c)
    ensures StrLe(a, c)
  {
    if |a| > 0 && |b| > 0 && |c| > 0 && a[0] == b[0] && b[0] == c[0] {
      StrLeTrans(a[1..], b[1..], c[1..]);
    }
  }

  lemma {:induction false} StrLeAntisym(a: string, b: string)
    requires StrLe(a, b) && StrLe(b, a)
    ensures a == b
  {
    if |a| > 0 && |b| > 0 {
      StrLeAntisym(a[1..], b[1..]);
      assert a == [a[0]] + a[1..] && b == [b[0]] + b[1..];
    }
  }

  /** `m` is the least element of `s` in string order. */
  predicate IsLeast(m: string, s: set<string>)
  {
    m in s && forall y :: y in s ==> StrLe(m, y)
  }

  lemma {:induction false} LeastExists(s: set<string>)
    requires s != {}
    ensures exists m :: IsLeast(m, s)
    decreases s
  {
    var x :| x in s;
    StrLeRefl(x);
    if s != {x} {
      LeastExists(s - {x});
      var m :| IsLeast(m, s - {x});
      StrLeTotal(x, m);
      if StrLe(x, m) {
        forall y | y in s ensures StrLe(x, y) {
          if y != x { StrLeTrans(x, m, y); }
        }
        assert IsLeast(x, s);
      } else {
        assert IsLeast(m, s);
      }
    } else {
      assert IsLeast(x, s);
    }
  }

  lemma LeastUnique(s: set<string>)
    ensures forall a, b :: IsLeast(a, s) && IsLeast(b, s) ==> a == b
  {
    forall a, b | IsLeast(a, s) && IsLeast(b, s) ensures a == b {
      StrLeAntisym(a, b);
    }
  }

  /** Strictly increasing in string order: sorted, and no name twice. */
  predicate StrictlySorted(r: seq<string>)
  {
    forall i, j :: 0 <= i < j < |r| ==> StrLe(r[i], r[j]) && r[i] != r[j]
  }

  /** sorted() of a set of names: the least name first, then the rest. */
  function SortedNames(s: set<string>): seq<string>
    decreases s
  {
    if s == {} then []
    else
      LeastExists(s);
      LeastUnique(s);
      var m :| IsLeast(m, s);
      [m] + SortedNames(s - {m})
  }

  /** Every name exactly once, in string order. */
  lemma {:induction false} SortedNamesSpec(s: set<string>)
    ensures |SortedNames(s)| == |s|
    ensures forall x :: x in SortedNames(s) <==> x in s
    ensures StrictlySorted(SortedNames(s))
    decreases s
  {
    if s != {} {
      LeastExists(s);
      LeastUnique(s);
      var m :| IsLeast(m, s);
      SortedNamesSpec(s - {m});
      var r, t := SortedNames(s), SortedNames(s - {m});
      assert r == [m] + t;
      forall i, j | 0 <= i < j < |r| ensures StrLe(r[i], r[j]) && r[i] != r[j] {
        if i == 0 {
          assert r[j] == t[j - 1] && t[j - 1] in s - {m};
        } else {
          assert r[i] == t[i - 1] && r[j] == t[j - 1];
        }
      }
    }
  }

  /** The order `sorted` gives to paths: the order of their rendered strings. */
  predicate PathLe(a: Path, b: Path)
  {
    StrLe(Join(a), Join(b))
  }

  predicate SortedPaths(s: seq<Path>)
  {
    forall i, j :: 0 <= i < j < |s| ==> PathLe(s[i], s[j])
  }

  /** A head that precedes every element keeps a sorted list sorted. */
  lemma ConsSorted(h: Path, t: seq<Path>)
    requires SortedPaths(t) && forall k :: 0 <= k < |t| ==> PathLe(h, t[k])
    ensures SortedPaths([h] + t)
  {
  }

  /** A bound on every element of `s` and on `x` bounds every element of any
      arrangement of them. */
  lemma BoundAll(h: Path, s: seq<Path>, x: Path, t: seq<Path>)
    requires forall j :: 0 <= j < |s| ==> PathLe(h, s[j])
    requires PathLe(h, x) && multiset(t) == multiset(s) + multiset{x}
    ensures forall k :: 0 <= k < |t| ==> PathLe(h, t[k])
  {
    forall k | 0 <= k < |t| ensures PathLe(h, t[k]) {
      assert t[k] in multiset(t);
      if t[k] != x {
        assert t[k] in multiset(s);
        var j :| 0 <= j < |s| && s[j] == t[k];
      }
    }
  }

  /** Every non-empty set of paths has a least element in path order. */
  lemma LeastPathExists(s: set<Path>)
    requires s != {}
    ensures exists k :: k in s && forall j :: j in s ==> PathLe(k, j)
  {
    var names := set k | k in s :: Join(k);
    var x :| x in s;
    assert Join(x) in names;
    LeastExists(names);
    var m :| IsLeast(m, names);
    var k :| k in s && Join(k) == m;
    forall j | j in s ensures PathLe(k, j) {
      assert Join(j) in names;
    }
  }

  /** Insert `x` before the first element it does not follow (keeps ties in
      input order, as Python's stable sort does). */
  function InsertPath(x: Path, s: seq<Path>): (r: seq<Path>)
    requires SortedPaths(s)
    ensures SortedPaths(r)
    ensures multiset(r) == multiset(s) + multiset{x}
  {
    if s == [] then [x]
    else if PathLe(x, s[0]) then
      forall j | 0 <= j < |s| ensures PathLe(x, s[j]) {
        if j > 0 { StrLeTrans(Join(x), Join(s[0]), Join(s[j])); }
      }
      ConsSorted(x, s);
      [x] + s
    else
      StrLeTotal(Join(x), Join(s[0]));
      var t := InsertPath(x, s[1..]);
      assert s == [s[0]] + s[1..];
      BoundAll(s[0], s[1..], x, t);
      ConsSorted(s[0], t);
      [s[0]] + t
  }

  /** Sorting keeps exactly the elements it was given. */
  lemma SortPathsMember(s: seq<Path>)
    ensures forall x :: x in SortPaths(s) <==> x in s
  {
    var r := SortPaths(s);
    forall x ensures x in r <==> x in s {
      assert x in r <==> x in multiset(r);
      assert x in s <==> x in multiset(s);
    }
  }

  /** sorted() of a list of paths: a permutation of the input, in path order. */
  function SortPaths(s: seq<Path>): (r: seq<Path>)
    ensures SortedPaths(r)
    ensures multiset(r) == multiset(s)
    ensures |r| == |s|
  {
    if s == [] then []
    else
      assert s == [s[0]] + s[1..];
      InsertPath(s[0], SortPaths(s[1..]))
  }

  /** Sorting a list that is already in order leaves it as it is. */
  lemma {:induction false} SortPathsSorted(s: seq<Path>)
    requires SortedPaths(s)
    ensures SortPaths(s) == s
  {
    if s != [] {
      SortPathsSorted(s[1..]);
      assert s == [s[0]] + s[1..];
    }
  }

  /** The one-component paths `[n]` for the names of `ns`, in the same order. */
  function Singletons(ns: seq<string>): (r: seq<Path>)
    ensures |r| == |ns|
    ensures forall i :: 0 <= i < |ns| ==> r[i] == [ns[i]]
    ensures [] !in r
  {
    if ns == [] then [] else [[ns[0]]] + Singletons(ns[1..])
  }

  lemma SingletonsSorted(ns: seq<string>)
    requires StrictlySorted(ns)
    ensures SortedPaths(Singletons(ns))
  {
    var r := Singletons(ns);
    forall i, j | 0 <= i < j < |r| ensures PathLe(r[i], r[j]) {
      assert Join(r[i]) == ns[i] && Join(r[j]) == ns[j];
    }
  }

  lemma SingletonsTail(ns: seq<string>)
    requires ns != []
    ensures Singletons(ns)[0] == [ns[0]] && Singletons(ns)[1..] == Singletons(ns[1..])
  {
  }

  lemma SingletonsMember(ns: seq<string>)
    ensures forall x :: x in Singletons(ns) <==> |x| == 1 && x[0] in ns
  {
    var r := Singletons(ns);
    forall x | |x| == 1 && x[0] in ns ensures x in r {
      var i :| 0 <= i < |ns| && ns[i] == x[0];
      assert r[i] == x;
    }
  }
}
