/** The change set of diff.py: three multimaps from a parent directory to the
    ordered list of its child names. A child that is a directory is shown
    with a trailing separator (`dirMark`). */
module ChangeSet {
  import opened Paths

  datatype Child = Child(name: string, dirMark: bool)

  type Multimap = map<Path, seq<Child>>

  /** The list stored under `k`, or the empty list when `k` is not a key. */
  function Get(m: Multimap, k: Path): seq<Child>
  {
    if k in m then m[k] else []
  }

  /** `attr.setdefault(k, []).append(c)` (diff.py:152-157): appends even when
      `c` is already listed. */
  function Append(m: Multimap, k: Path, c: Child): (r: Multimap)
    ensures r.Keys == m.Keys + {k}
    ensures Get(r, k) == Get(m, k) + [c]
    ensures forall j :: j != k ==> Get(r, j) == Get(m, j)
  {
    m[k := Get(m, k) + [c]]
  }

  /** The index of the first occurrence of `c`. */
  function FirstIndex(s: seq<Child>, c: Child): (i: nat)
    requires c in s
    ensures i < |s| && s[i] == c && c !in s[..i]
  {
    if s[0] == c then 0
    else
      assert s == [s[0]] + s[1..];
      var j := FirstIndex(s[1..], c);
      assert s[..j + 1] == [s[0]] + s[1..][..j];
      j + 1
  }

  /** list.remove(c): drop the first occurrence of `c`. */
  function RemoveFirst(s: seq<Child>, c: Child): (r: seq<Child>)
    requires c in s
    ensures |r| == |s| - 1
    ensures multiset(r) == multiset(s) - multiset{c}
  {
    if s[0] == c then
      assert s == [s[0]] + s[1..];
      s[1..]
    else
      assert s == [s[0]] + s[1..];
      [s[0]] + RemoveFirst(s[1..], c)
  }

  /** What list.remove leaves: the elements before the first occurrence
      and those after it, both in their order. */
  lemma {:induction false} RemoveFirstOrder(s: seq<Child>, c: Child)
    requires c in s
    ensures RemoveFirst(s, c) == s[..FirstIndex(s, c)] + s[FirstIndex(s, c) + 1..]
  {
    var t := s[1..];
    assert s == [s[0]] + t;
    if s[0] == c {
      assert s[..0] + s[1..] == s[1..];
    } else {
      RemoveFirstOrder(t, c);
      ConsRemoveAt(s[0], t, FirstIndex(t, c));
    }
  }

  /** Dropping index `j` of `t` and then putting `h` in front is dropping
      index `j + 1` of `h` followed by `t`. */
  lemma ConsRemoveAt(h: Child, t: seq<Child>, j: nat)
    requires j < |t|
    ensures [h] + (t[..j] + t[j + 1..]) == ([h] + t)[..j + 1] + ([h] + t)[j + 2..]
  {
    assert ([h] + t)[..j + 1] == [h] + t[..j];
    assert ([h] + t)[j + 2..] == t[j + 1..];
  }

  /** Remove one occurrence of `c` under `k` and drop the key once its list
      is empty (diff.py:187-191); nothing changes when `c` is not listed. */
  function Detach(m: Multimap, k: Path, c: Child): (r: Multimap)
    ensures c !in Get(m, k) ==> r == m
    ensures c in Get(m, k) ==> multiset(Get(r, k)) == multiset(Get(m, k)) - multiset{c}
    ensures c in Get(m, k) ==> Get(r, k) == RemoveFirst(Get(m, k), c)
    ensures c in Get(m, k) ==> (k in r <==> |Get(m, k)| > 1)
    ensures forall j :: j != k ==> (j in r <==> j in m)
    ensures forall j :: j != k ==> Get(r, j) == Get(m, j)
  {
    if k in m && c in m[k] then
      var rest := RemoveFirst(m[k], c);
      if |rest| == 0 then m - {k} else m[k := rest]
    else m
  }

  /** _remove takes out the first occurrence of the child under its key
      and keeps the others in their order, which is the order the run
      later handles them in. */
  lemma DetachKeepsOrder(m: Multimap, k: Path, c: Child)
    requires c in Get(m, k)
    ensures var s, i := Get(m, k), FirstIndex(Get(m, k), c);
      Get(Detach(m, k, c), k) == s[..i] + s[i + 1..]
  {
    RemoveFirstOrder(Get(m, k), c);
  }

  /** No key maps to an empty list. */
  predicate NoEmptyLists(m: Multimap)
  {
    forall k :: k in m ==> m[k] != []
  }

  lemma AppendKeepsNoEmpty(m: Multimap, k: Path, c: Child)
    requires NoEmptyLists(m)
    ensures NoEmptyLists(Append(m, k, c))
  {
  }

  lemma DetachKeepsNoEmpty(m: Multimap, k: Path, c: Child)
    requires NoEmptyLists(m)
    ensures NoEmptyLists(Detach(m, k, c))
  {
  }

  /** One (key, position) pair per stored child. */
  function Entries(m: Multimap): set<(Path, nat)>
  {
    set k, i | k in m && 0 <= i < |m[k]| :: (k, i)
  }

  /** `len([x for y in m.values() for x in y])` (diff.py:407-414): the number
      of children stored under all keys together. */
  function EntryCount(m: Multimap): nat
  {
    |Entries(m)|
  }

  function Row(k: Path, n: nat): set<(Path, nat)>
  {
    set i | 0 <= i < n :: (k, i)
  }

  lemma {:induction false} RowSize(k: Path, n: nat)
    ensures |Row(k, n)| == n
  {
    if n > 0 {
      RowSize(k, n - 1);
      assert Row(k, n) == Row(k, n - 1) + {(k, n - 1)};
    }
  }

  lemma EntriesSplit(m: Multimap, k: Path)
    requires k in m
    ensures Entries(m) == Entries(m - {k}) + Row(k, |m[k]|)
    ensures Entries(m - {k}) !! Row(k, |m[k]|)
  {
  }

  /** The count is a sum over keys: one key's list plus all the others. */
  lemma EntryCountSplit(m: Multimap, k: Path)
    requires k in m
    ensures EntryCount(m) == |m[k]| + EntryCount(m - {k})
  {
    EntriesSplit(m, k);
    RowSize(k, |m[k]|);
  }

  lemma EntryCountEmpty()
    ensures EntryCount(map[]) == 0
  {
    assert Entries(map[]) == {};
  }

  lemma EntryCountUpdate(m: Multimap, k: Path, s: seq<Child>)
    ensures EntryCount(m[k := s]) == EntryCount(m - {k}) + |s|
  {
    var m' := m[k := s];
    EntryCountSplit(m', k);
    assert m' - {k} == m - {k};
  }

  lemma EntryCountRemoveKey(m: Multimap, k: Path)
    ensures EntryCount(m) == |Get(m, k)| + EntryCount(m - {k})
  {
    if k in m {
      EntryCountSplit(m, k);
    } else {
      assert m - {k} == m;
    }
  }

  /** Appending a child adds exactly one to the count. */
  lemma AppendCount(m: Multimap, k: Path, c: Child)
    ensures EntryCount(Append(m, k, c)) == EntryCount(m) + 1
  {
    EntryCountUpdate(m, k, Get(m, k) + [c]);
    EntryCountRemoveKey(m, k);
  }

  /** Removing a listed child takes exactly one from the count. */
  lemma DetachCount(m: Multimap, k: Path, c: Child)
    requires c in Get(m, k)
    ensures EntryCount(Detach(m, k, c)) == EntryCount(m) - 1
  {
    var rest := RemoveFirst(m[k], c);
    EntryCountRemoveKey(m, k);
    if |rest| == 0 {
      assert Detach(m, k, c) == m - {k};
    } else {
      EntryCountUpdate(m, k, rest);
    }
  }

  /** Removing what was just appended restores the multimap when the child
      was not listed before and its key does not hold an empty list (no key
      ever does, see NoEmptyLists). */
  lemma AppendThenDetach(m: Multimap, k: Path, c: Child)
    requires c !in Get(m, k) && (k in m ==> m[k] != [])
    ensures Detach(Append(m, k, c), k, c) == m
  {
    var rest := RemoveFirst(Get(m, k) + [c], c);
    assert rest == Get(m, k) by {
      RemoveLast(Get(m, k), c);
    }
    DetachAppended(m, k, c, rest);
  }

  lemma DetachAppended(m: Multimap, k: Path, c: Child, rest: seq<Child>)
    requires rest == RemoveFirst(Get(m, k) + [c], c) == Get(m, k) && (k in m ==> m[k] != [])
    ensures Detach(Append(m, k, c), k, c) == m
  {
    var a := m[k := Get(m, k) + [c]];
    if k in m {
      assert a[k := rest] == m;
    } else {
      assert a - {k} == m;
    }
  }

  /** In general it restores every list up to order: the first occurrence
      is removed, not the appended one. */
  lemma AppendThenDetachMultiset(m: Multimap, k: Path, c: Child)
    ensures forall j :: multiset(Get(Detach(Append(m, k, c), k, c), j)) == multiset(Get(m, j))
  {
    var a := Append(m, k, c);
    var r := Detach(a, k, c);
    assert c in Get(a, k);
    assert multiset(Get(r, k)) == multiset(Get(m, k)) + multiset{c} - multiset{c};
    forall j ensures multiset(Get(r, j)) == multiset(Get(m, j)) {
      if j != k {
        assert Get(r, j) == Get(a, j) == Get(m, j);
      }
    }
  }

  /** The first occurrence of a child appended to a list without it is the
      appended one. */
  lemma {:induction false} RemoveLast(s: seq<Child>, c: Child)
    requires c !in s
    ensures RemoveFirst(s + [c], c) == s
  {
    if s != [] {
      assert (s + [c])[1..] == s[1..] + [c];
      RemoveLast(s[1..], c);
    }
  }

  /** The three change lists of one comparison. */
  datatype Changes = Changes(create: Multimap, update: Multimap, purge: Multimap)

  const NoChanges: Changes := Changes(map[], map[], map[])
}
