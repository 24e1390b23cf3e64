/** What one level of the comparison records under its own directory: the
    reference definitions of the three lists a directory gets, and the proof
    that the recursive comparison files exactly those lists under `base`
    (whatever it records deeper stays under deeper keys). */
module ComparisonLevel {
  import opened Paths
  import opened FileTree
  import opened ChangeSet
  import opened Options
  import opened Filter
  import opened Compare
  import opened Comparison
  import opened ComparisonKeys

  /** The entries a source-only listing `ns` contributes under `base`, in
      listing order: the names that qualify, marked as directories when
      they are. */
  function CreateNames(st: DiffSettings, search: Search, S: Tree, base: Path, ns: seq<string>): seq<Child>
  {
    if ns == [] then [] else CreateHead(st, search, S, base, ns[0]) + CreateNames(st, search, S, base, ns[1..])
  }

  /** What the source-only name `n` contributes under `base`. */
  function CreateHead(st: DiffSettings, search: Search, S: Tree, base: Path, n: string): seq<Child>
  {
    if CreatesEntry(st, search, S, base, [n]) then [Child(n, IsDir(S, base + [n]))] else []
  }

  /** `k` copies of `c`. */
  function Repeat(c: Child, k: nat): (r: seq<Child>)
    ensures |r| == k && forall i :: 0 <= i < k ==> r[i] == c
  {
    if k == 0 then [] else Repeat(c, k - 1) + [c]
  }

  /** The entries a common listing `ns` contributes under `base`: every
      common file present on both sides, as often as UpdateTimes says. */
  function UpdateNames(st: DiffSettings, search: Search, S: Tree, D: Tree, base: Path, ns: seq<string>): seq<Child>
  {
    if ns == [] then [] else UpdateHead(st, search, S, D, base, ns[0]) + UpdateNames(st, search, S, D, base, ns[1..])
  }

  /** What the common name `n` contributes under `base`. */
  function UpdateHead(st: DiffSettings, search: Search, S: Tree, D: Tree, base: Path, n: string): seq<Child>
  {
    if IsFile(S, base + [n]) && Exists(D, base + [n]) then Repeat(Child(n, false), UpdateTimes(st, search, S, D, base, [n])) else []
  }

  /** The entries a destination-only listing `ns` contributes under `base`. */
  function PurgeNames(st: DiffSettings, search: Search, D: Tree, base: Path, ns: seq<string>): seq<Child>
  {
    if ns == [] then [] else PurgeHead(st, search, D, base, ns[0]) + PurgeNames(st, search, D, base, ns[1..])
  }

  /** What the destination-only name `n` contributes under `base`. */
  function PurgeHead(st: DiffSettings, search: Search, D: Tree, base: Path, n: string): seq<Child>
  {
    if PurgesEntry(st, search, D, base, [n]) then [Child(n, IsDir(D, base + [n]))] else []
  }

  lemma ParentOfChild(base: Path, n: string)
    ensures Parent(base + [n]) == base && Last(base + [n]) == n
  {
    assert (base + [n])[..|base|] == base;
  }

  /** Recording `base + [n]` appends one child under `base` and nothing
      anywhere else. */
  lemma AddAtChild(m: Multimap, t: Tree, base: Path, n: string)
    ensures Get(AddAt(m, t, base + [n]), base) == Get(m, base) + [Child(n, IsDir(t, base + [n]))]
    ensures forall k :: k != base ==> Get(AddAt(m, t, base + [n]), k) == Get(m, k)
  {
    ParentOfChild(base, n);
  }

  lemma {:induction false} AddTimesChild(m: Multimap, t: Tree, base: Path, n: string, k: nat)
    ensures Get(AddTimes(m, t, base + [n], k), base) == Get(m, base) + Repeat(Child(n, IsDir(t, base + [n])), k)
    decreases k
  {
    if k > 0 {
      AddAtChild(m, t, base, n);
      AddTimesChild(AddAt(m, t, base + [n]), t, base, n, k - 1);
      var c := Child(n, IsDir(t, base + [n]));
      assert [c] + Repeat(c, k - 1) == Repeat(c, k);
    }
  }

  /** One source-only name: CreateAdd files CreateHead under `base` and
      nothing else there. */
  lemma CreateAddLevel(st: DiffSettings, search: Search, S: Tree, base: Path, n: string, acc: Changes)
    ensures Get(CreateAdd(st, search, S, base, [n], acc).create, base) == Get(acc.create, base) + CreateHead(st, search, S, base, n)
  {
    if CreatesEntry(st, search, S, base, [n]) {
      AddAtChild(acc.create, S, base, n);
    }
  }

  /** One destination-only name: PurgeAdd files PurgeHead under `base`. */
  lemma PurgeAddLevel(st: DiffSettings, search: Search, D: Tree, base: Path, n: string, acc: Changes)
    ensures Get(PurgeAdd(st, search, D, base, [n], acc).purge, base) == Get(acc.purge, base) + PurgeHead(st, search, D, base, n)
  {
    if PurgesEntry(st, search, D, base, [n]) {
      AddAtChild(acc.purge, D, base, n);
    }
  }

  /** A comparison filed from a deeper directory leaves the key `base` alone. */
  lemma DeeperKeysMiss(d: Changes, base: Path, p: Path)
    requires KeysFrom(d, p) && |base| < |p|
    ensures base !in d.create && base !in d.update && base !in d.purge
  {
  }

  lemma MergeMiss(a: Changes, d: Changes, base: Path)
    requires base !in d.create && base !in d.update && base !in d.purge
    ensures Get(Merge(a, d).create, base) == Get(a.create, base)
    ensures Get(Merge(a, d).update, base) == Get(a.update, base)
    ensures Get(Merge(a, d).purge, base) == Get(a.purge, base)
  {
  }

  /** One source-only name files CreateHead under `base`: what the walk
      of a new directory adds lies deeper. */
  lemma CreateStepLevel(st: DiffSettings, search: Search, S: Tree, D: Tree, base: Path, n: string, acc: Changes)
    ensures var r := CreateStep(st, search, S, D, base, [n], acc, false);
      r.Some? ==> Get(r.value.create, base) == Get(acc.create, base) + CreateHead(st, search, S, base, n)
  {
    var p := base + [n];
    CreateAddLevel(st, search, S, base, n, acc);
    if IsDir(S, p) && st.recursive {
      DirDiffKeysFrom(st, search, S, Tmp(p), p);
      match DirDiff(st, search, S, Tmp(p), p)
      case None =>
      case Some(d) => DeeperKeysMiss(d, base, p);
    }
  }

  /** The source-only loop files exactly CreateNames under `base`. */
  lemma {:induction false} CreateEachLevel(st: DiffSettings, search: Search, S: Tree, D: Tree, base: Path, ns: seq<string>, acc: Changes)
    ensures var r := CreateEach(st, search, S, D, base, Singletons(ns), acc, false);
      r.Some? ==> Get(r.value.create, base) == Get(acc.create, base) + CreateNames(st, search, S, base, ns)
    decreases |ns|
  {
    if ns != [] {
      SingletonsTail(ns);
      CreateStepLevel(st, search, S, D, base, ns[0], acc);
      match CreateStep(st, search, S, D, base, [ns[0]], acc, false)
      case None =>
      case Some(a) =>
        CreateEachLevel(st, search, S, D, base, ns[1..], a);
        Assoc(Get(acc.create, base), CreateHead(st, search, S, base, ns[0]), CreateNames(st, search, S, base, ns[1..]));
    }
  }

  /** One common name files UpdateHead under `base` and leaves the other two
      lists of `base` alone: what the comparison of a common directory adds
      lies deeper. */
  lemma UpdateStepLevel(st: DiffSettings, search: Search, S: Tree, D: Tree, base: Path, n: string, acc: Changes)
    ensures var r := UpdateStep(st, search, S, D, base, [n], acc, false);
      r.Some? ==>
        Get(r.value.update, base) == Get(acc.update, base) + UpdateHead(st, search, S, D, base, n)
        && Get(r.value.create, base) == Get(acc.create, base)
        && Get(r.value.purge, base) == Get(acc.purge, base)
  {
    var p := base + [n];
    if IsFile(S, p) {
      if Exists(D, p) {
        AddTimesChild(acc.update, S, base, n, UpdateTimes(st, search, S, D, base, [n]));
      }
    } else if DirExists(S, p) && st.recursive {
      DirDiffKeysFrom(st, search, S, D, p);
      match DirDiff(st, search, S, D, p)
      case None =>
      case Some(d) =>
        DeeperKeysMiss(d, base, p);
        MergeMiss(acc, d, base);
    }
  }

  /** The common loop files exactly UpdateNames under `base`. */
  lemma {:induction false} UpdateEachLevel(st: DiffSettings, search: Search, S: Tree, D: Tree, base: Path, ns: seq<string>, acc: Changes)
    ensures var r := UpdateEach(st, search, S, D, base, Singletons(ns), acc, false);
      r.Some? ==>
        Get(r.value.update, base) == Get(acc.update, base) + UpdateNames(st, search, S, D, base, ns)
        && Get(r.value.create, base) == Get(acc.create, base)
        && Get(r.value.purge, base) == Get(acc.purge, base)
    decreases |ns|
  {
    if ns != [] {
      SingletonsTail(ns);
      UpdateStepLevel(st, search, S, D, base, ns[0], acc);
      match UpdateStep(st, search, S, D, base, [ns[0]], acc, false)
      case None =>
      case Some(b) =>
        UpdateEachLevel(st, search, S, D, base, ns[1..], b);
        Assoc(Get(acc.update, base), UpdateHead(st, search, S, D, base, ns[0]), UpdateNames(st, search, S, D, base, ns[1..]));
    }
  }

  /** One destination-only name files PurgeHead under `base`. */
  lemma PurgeStepLevel(st: DiffSettings, search: Search, S: Tree, D: Tree, base: Path, n: string, acc: Changes)
    ensures var r := PurgeStep(st, search, S, D, base, [n], acc, false);
      r.Some? ==> Get(r.value.purge, base) == Get(acc.purge, base) + PurgeHead(st, search, D, base, n)
  {
    var p := base + [n];
    PurgeAddLevel(st, search, D, base, n, acc);
    if IsDir(D, p) && st.recursive {
      DirDiffKeysFrom(st, search, Tmp(p), D, p);
      match DirDiff(st, search, Tmp(p), D, p)
      case None =>
      case Some(d) => DeeperKeysMiss(d, base, p);
    }
  }

  /** The destination-only loop files exactly PurgeNames under `base`. */
  lemma {:induction false} PurgeEachLevel(st: DiffSettings, search: Search, S: Tree, D: Tree, base: Path, ns: seq<string>, acc: Changes)
    ensures var r := PurgeEach(st, search, S, D, base, Singletons(ns), acc, false);
      r.Some? ==> Get(r.value.purge, base) == Get(acc.purge, base) + PurgeNames(st, search, D, base, ns)
    decreases |ns|
  {
    if ns != [] {
      SingletonsTail(ns);
      PurgeStepLevel(st, search, S, D, base, ns[0], acc);
      match PurgeStep(st, search, S, D, base, [ns[0]], acc, false)
      case None =>
      case Some(b) =>
        PurgeEachLevel(st, search, S, D, base, ns[1..], b);
        Assoc(Get(acc.purge, base), PurgeHead(st, search, D, base, ns[0]), PurgeNames(st, search, D, base, ns[1..]));
    }
  }

  /** After the source-only loop: the common and destination-only loops. */
  lemma UpdateThenPurgeLevel(st: DiffSettings, search: Search, S: Tree, D: Tree, base: Path, m: seq<string>, rt: seq<string>, a: Changes)
    ensures var r := UpdateThenPurge(st, search, S, D, base, Singletons(m), Singletons(rt), a, false);
      r.Some? ==>
        Get(r.value.create, base) == Get(a.create, base)
        && Get(r.value.update, base) == Get(a.update, base) + UpdateNames(st, search, S, D, base, m)
        && Get(r.value.purge, base) == Get(a.purge, base) + PurgeNames(st, search, D, base, rt)
  {
    UpdateEachLevel(st, search, S, D, base, m, a);
    match UpdateEach(st, search, S, D, base, Singletons(m), a, false)
    case None =>
    case Some(b) => PurgeEachLevel(st, search, S, D, base, rt, b);
  }

  lemma Assoc(a: seq<Child>, b: seq<Child>, c: seq<Child>)
    ensures a + (b + c) == (a + b) + c
  {
  }

  /** Sorting a listing that comes sorted changes nothing. */
  lemma SortedListing(s: set<string>)
    ensures SortPaths(Singletons(SortedNames(s))) == Singletons(SortedNames(s))
  {
    SortedNamesSpec(s);
    SingletonsSorted(SortedNames(s));
    SortPathsSorted(Singletons(SortedNames(s)));
  }

  /** What __dirdiff files under the directory it compares: the source-only
      names that qualify for creation, the common files that need an update
      and the destination-only names that qualify for purging, each in
      sorted name order. */
  lemma DirDiffLevel(st: DiffSettings, search: Search, S: Tree, D: Tree, base: Path)
    ensures var r := DirDiff(st, search, S, D, base);
      r.Some? ==>
        var ls, ld := Names(S, base), Names(D, base);
        Get(r.value.create, base) == CreateNames(st, search, S, base, SortedNames(ls - ld))
        && Get(r.value.update, base) == UpdateNames(st, search, S, D, base, SortedNames(ls * ld))
        && Get(r.value.purge, base) == PurgeNames(st, search, D, base, SortedNames(ld - ls))
  {
    if DirExists(S, base) && DirExists(D, base) {
      var ls, ld := Names(S, base), Names(D, base);
      var l, m, rt := SortedNames(ls - ld), SortedNames(ls * ld), SortedNames(ld - ls);
      SortedListing(ls - ld);
      SortedListing(ls * ld);
      SortedListing(ld - ls);
      CreateEachLevel(st, search, S, D, base, l, NoChanges);
      match CreateEach(st, search, S, D, base, Singletons(l), NoChanges, false)
      case None =>
      case Some(a) => UpdateThenPurgeLevel(st, search, S, D, base, m, rt, a);
    }
  }

  /** Which children CreateNames lists: the qualifying names of the
      listing, each marked as a directory exactly when it is one. */
  lemma {:induction false} CreateNamesMember(st: DiffSettings, search: Search, S: Tree, base: Path, ns: seq<string>, c: Child)
    ensures c in CreateNames(st, search, S, base, ns)
        <==> c.name in ns && CreatesEntry(st, search, S, base, [c.name]) && c.dirMark == IsDir(S, base + [c.name])
  {
    if ns != [] {
      CreateNamesMember(st, search, S, base, ns[1..], c);
      assert ns == [ns[0]] + ns[1..];
    }
  }

  lemma {:induction false} RepeatMember(c: Child, k: nat, e: Child)
    ensures e in Repeat(c, k) <==> k > 0 && e == c
  {
    if k > 0 {
      assert Repeat(c, k)[0] == c;
    }
  }

  /** Which children UpdateNames lists: the common names that are files
      on the source side, present on the destination side and recorded at
      least once, never marked as directories. */
  lemma {:induction false} UpdateNamesMember(st: DiffSettings, search: Search, S: Tree, D: Tree, base: Path, ns: seq<string>, c: Child)
    ensures c in UpdateNames(st, search, S, D, base, ns)
        <==> c.name in ns && !c.dirMark && IsFile(S, base + [c.name]) && Exists(D, base + [c.name])
             && UpdateTimes(st, search, S, D, base, [c.name]) > 0
  {
    if ns != [] {
      UpdateNamesMember(st, search, S, D, base, ns[1..], c);
      assert ns == [ns[0]] + ns[1..];
      var p := base + [ns[0]];
      if IsFile(S, p) && Exists(D, p) {
        RepeatMember(Child(ns[0], false), UpdateTimes(st, search, S, D, base, [ns[0]]), c);
      }
    }
  }

  /** Which children PurgeNames lists: the qualifying names of the
      listing, each marked as a directory exactly when it is one. */
  lemma {:induction false} PurgeNamesMember(st: DiffSettings, search: Search, D: Tree, base: Path, ns: seq<string>, c: Child)
    ensures c in PurgeNames(st, search, D, base, ns)
        <==> c.name in ns && PurgesEntry(st, search, D, base, [c.name]) && c.dirMark == IsDir(D, base + [c.name])
  {
    if ns != [] {
      PurgeNamesMember(st, search, D, base, ns[1..], c);
      assert ns == [ns[0]] + ns[1..];
    }
  }

  /** Children in strictly increasing name order: sorted, no name twice. */
  predicate NamesAscending(cs: seq<Child>)
  {
    forall i, j :: 0 <= i < j < |cs| ==> StrLe(cs[i].name, cs[j].name) && cs[i].name != cs[j].name
  }

  /** Children in name order, a name possibly repeated. */
  predicate NamesInOrder(cs: seq<Child>)
  {
    forall i, j :: 0 <= i < j < |cs| ==> StrLe(cs[i].name, cs[j].name)
  }

  lemma ConsAscending(h: seq<Child>, r: seq<Child>, n: string)
    requires |h| <= 1 && (forall c :: c in h ==> c.name == n)
    requires NamesAscending(r) && forall c :: c in r ==> StrLe(n, c.name) && n != c.name
    ensures NamesAscending(h + r)
  {
    var s := h + r;
    forall i, j | 0 <= i < j < |s| ensures StrLe(s[i].name, s[j].name) && s[i].name != s[j].name {
      if i < |h| {
        assert s[i] in h && s[j] == r[j - |h|] && r[j - |h|] in r;
      } else {
        assert s[i] == r[i - |h|] && s[j] == r[j - |h|];
      }
    }
  }

  lemma ConsInOrder(h: seq<Child>, r: seq<Child>, n: string)
    requires forall c :: c in h ==> c.name == n
    requires NamesInOrder(r) && forall c :: c in r ==> StrLe(n, c.name)
    ensures NamesInOrder(h + r)
  {
    var s := h + r;
    forall i, j | 0 <= i < j < |s| ensures StrLe(s[i].name, s[j].name) {
      if j < |h| {
        assert s[i] in h && s[j] in h;
        StrLeRefl(n);
      } else if i < |h| {
        assert s[i] in h && s[j] == r[j - |h|] && r[j - |h|] in r;
      } else {
        assert s[i] == r[i - |h|] && s[j] == r[j - |h|];
      }
    }
  }

  /** The first name of a strictly sorted listing precedes every later one. */
  lemma HeadPrecedes(ns: seq<string>, n: string)
    requires ns != [] && StrictlySorted(ns) && n in ns[1..]
    ensures StrLe(ns[0], n) && ns[0] != n
  {
    var k :| 0 <= k < |ns[1..]| && ns[1..][k] == n;
    assert ns[k + 1] == n;
  }

  lemma {:induction false} CreateNamesAscending(st: DiffSettings, search: Search, S: Tree, base: Path, ns: seq<string>)
    requires StrictlySorted(ns)
    ensures NamesAscending(CreateNames(st, search, S, base, ns))
  {
    if ns != [] {
      var t := ns[1..];
      CreateNamesAscending(st, search, S, base, t);
      var r := CreateNames(st, search, S, base, t);
      forall c | c in r ensures StrLe(ns[0], c.name) && ns[0] != c.name {
        CreateNamesMember(st, search, S, base, t, c);
        HeadPrecedes(ns, c.name);
      }
      ConsAscending(CreateHead(st, search, S, base, ns[0]), r, ns[0]);
    }
  }

  lemma {:induction false} UpdateNamesInOrder(st: DiffSettings, search: Search, S: Tree, D: Tree, base: Path, ns: seq<string>)
    requires StrictlySorted(ns)
    ensures NamesInOrder(UpdateNames(st, search, S, D, base, ns))
  {
    if ns != [] {
      var t := ns[1..];
      UpdateNamesInOrder(st, search, S, D, base, t);
      var r := UpdateNames(st, search, S, D, base, t);
      forall c | c in r ensures StrLe(ns[0], c.name) {
        UpdateNamesMember(st, search, S, D, base, t, c);
        HeadPrecedes(ns, c.name);
      }
      var h := UpdateHead(st, search, S, D, base, ns[0]);
      forall c | c in h ensures c.name == ns[0] {
        if IsFile(S, base + [ns[0]]) && Exists(D, base + [ns[0]]) {
          RepeatMember(Child(ns[0], false), UpdateTimes(st, search, S, D, base, [ns[0]]), c);
        }
      }
      ConsInOrder(h, r, ns[0]);
    }
  }

  lemma {:induction false} PurgeNamesAscending(st: DiffSettings, search: Search, D: Tree, base: Path, ns: seq<string>)
    requires StrictlySorted(ns)
    ensures NamesAscending(PurgeNames(st, search, D, base, ns))
  {
    if ns != [] {
      var t := ns[1..];
      PurgeNamesAscending(st, search, D, base, t);
      var r := PurgeNames(st, search, D, base, t);
      forall c | c in r ensures StrLe(ns[0], c.name) && ns[0] != c.name {
        PurgeNamesMember(st, search, D, base, t, c);
        HeadPrecedes(ns, c.name);
      }
      ConsAscending(PurgeHead(st, search, D, base, ns[0]), r, ns[0]);
    }
  }
}
