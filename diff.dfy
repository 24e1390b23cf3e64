/** The Diff class of diff.py: the change set of one comparison, held in
    place, edited by _add and _remove, with counts derived from it, and the
    run that fills it.

    A path handed to _add or _remove is relative to the tree it lies in: the
    source tree for `create` and `update`, the destination tree for `purge`.
    Errors that Python raises out of a method are returned as `Error`. */
module Differ {
  import opened Paths
  import opened FileTree
  import opened ChangeSet
  import opened Options
  import opened Filter
  import opened Compare
  import opened Comparison

  /** The operation names _add and _remove accept (diff.py:145, diff.py:176). */
  const Ops: set<string> := {"create", "update", "purge"}

  /** The options of a new Diff: the class attributes, with every keyword it
      knows overriding them and other keywords dropped (diff.py:47-72). */
  function InitialOpts(kwargs: Settings): (r: Settings)
    ensures forall k :: k in r <==> k in DiffDefaults || (k in kwargs && k in DiffOpts)
    ensures forall k :: k in kwargs && k in DiffOpts ==> r[k] == kwargs[k]
    ensures forall k :: k in DiffDefaults && k !in kwargs ==> r[k] == DiffDefaults[k]
    ensures WellTyped(kwargs) ==> WellTyped(r)
  {
    DiffDefaults + Restrict(kwargs, DiffOpts)
  }

  /** run reads every name of Diff.opts (diff.py:383-384); the class gives no
      default for `forceUpdate` and `sizeLimit`, so a Diff can run exactly
      when both were passed as keywords. */
  lemma RunNeedsBoth(kwargs: Settings)
    ensures DiffOpts <= InitialOpts(kwargs).Keys <==> "forceUpdate" in kwargs && "sizeLimit" in kwargs
  {
    DiffDefaultsIncomplete();
    if "forceUpdate" in kwargs && "sizeLimit" in kwargs {
      forall k | k in DiffOpts ensures k in InitialOpts(kwargs) {
        assert k in DiffDefaults || k == "forceUpdate" || k == "sizeLimit";
      }
    } else {
      assert "forceUpdate" !in InitialOpts(kwargs) || "sizeLimit" !in InitialOpts(kwargs);
    }
  }

  /** run uses the file list when it is set and not empty (diff.py:392). */
  predicate Listed(opts: Settings)
    requires WellTyped(opts)
  {
    FileList(opts).Some? && |FileList(opts).value| > 0
  }

  /** A root, or the scratch directory standing in for a missing one
      (diff.py:386-391). */
  function Root(root: Option<Path>, tmp: Path): Path
  {
    if root.Some? then root.value else tmp
  }

  /** makeFileListRelative's result, as a value. */
  function RelativeList(fl: seq<Path>, srcRoot: Path, dstRoot: Path): (r: seq<Path>)
    ensures |r| == |fl|
    ensures forall i :: 0 <= i < |fl| ==> r[i] == Relative(fl[i], srcRoot, dstRoot)
  {
    seq(|fl|, i requires 0 <= i < |fl| => Relative(fl[i], srcRoot, dstRoot))
  }

  /** What run compares once its options are complete and the file list, if
      one is set, can be classified: that list made relative to the two
      roots (diff.py:393-394), or else the two trees from their roots, a
      missing side read as the empty scratch directory (diff.py:396). None is
      the OSError the comparison raises. */
  function Compared(opts: Settings, src: Option<Path>, dst: Option<Path>, S: Tree, D: Tree, search: Search): Option<Changes>
    requires WellTyped(opts) && DiffOpts <= opts.Keys
    requires Listed(opts) ==> src.Some? && dst.Some?
  {
    var st := ToSettings(opts);
    if Listed(opts) then
      FileDiff(st, search, S, D, RelativeList(FileList(opts).value, src.value, dst.value))
    else
      DirDiff(st, search, if src.None? then Tmp([]) else S, if dst.None? then Tmp([]) else D, [])
  }

  /** `p` with one occurrence of its entry removed under its parent. The
      root's parent lies outside the tree, so no key of the map matches it. */
  function Detached(m: Multimap, t: Tree, p: Path): Multimap
  {
    if p == [] then m else Detach(m, Parent(p), Child(Last(p), IsDir(t, p)))
  }

  /** _remove acts only on a known name and a path that exists (diff.py:176, diff.py:183). */
  predicate Hit(op: string, t: Tree, p: Path)
  {
    op in Ops && Exists(t, p)
  }

  class Diff {
    var src: Option<Path>
    var dst: Option<Path>
    /** The options that are set on the instance or its class. */
    var opts: Settings
    var create: Multimap
    var update: Multimap
    var purge: Multimap
    var createcount: int
    var updatecount: int
    var purgecount: int
    var totalcount: int

    predicate Valid()
      reads this
    {
      WellTyped(opts)
    }

    /** The counts agree with the maps, as update_counts leaves them. */
    predicate Counted()
      reads this
    {
      createcount == EntryCount(create) && updatecount == EntryCount(update)
      && purgecount == EntryCount(purge) && totalcount == createcount + updatecount + purgecount
    }

    /** __init__ up to the automatic run (diff.py:58-72), for arguments that
        get that far: the destination is dropped when no source is given. */
    constructor (src: Option<Path>, dst: Option<Path>, kwargs: Settings)
      requires src.Some? ==> dst.Some?
      requires WellTyped(kwargs)
      ensures this.src == src && this.dst == (if src.Some? then dst else None)
      ensures opts == InitialOpts(kwargs) && Valid()
      ensures create == map[] && update == map[] && purge == map[]
      ensures createcount == 0 && updatecount == 0 && purgecount == 0 && totalcount == 0
    {
      this.src := src;
      this.dst := if src.Some? then dst else None;
      create, update, purge := map[], map[], map[];
      createcount, updatecount, purgecount, totalcount := 0, 0, 0, 0;
      opts := InitialOpts(kwargs);
    }

    /** _add (diff.py:142-157): the name of `p`, marked when `p` is a
        directory of `t`, is appended under its parent in the map named by
        `op`, even when already listed; any other name does nothing. No count
        changes. */
    method Add(op: string, t: Tree, p: Path)
      requires p != []
      modifies this
      ensures create == if op == "create" then AddAt(old(create), t, p) else old(create)
      ensures update == if op == "update" then AddAt(old(update), t, p) else old(update)
      ensures purge == if op == "purge" then AddAt(old(purge), t, p) else old(purge)
      ensures src == old(src) && dst == old(dst) && opts == old(opts)
      ensures createcount == old(createcount) && updatecount == old(updatecount)
      ensures purgecount == old(purgecount) && totalcount == old(totalcount)
    {
      if op !in Ops {
        return;
      }
      var dir, child := Parent(p), Child(Last(p), IsDir(t, p));
      if op == "create" {
        create := Append(create, dir, child);
      } else if op == "update" {
        update := Append(update, dir, child);
      } else {
        purge := Append(purge, dir, child);
      }
    }

    /** add_create (diff.py:160-161). */
    method AddCreate(t: Tree, p: Path)
      requires p != []
      modifies this
      ensures create == AddAt(old(create), t, p) && update == old(update) && purge == old(purge)
      ensures src == old(src) && dst == old(dst) && opts == old(opts)
      ensures createcount == old(createcount) && updatecount == old(updatecount)
      ensures purgecount == old(purgecount) && totalcount == old(totalcount)
    {
      Add("create", t, p);
    }

    /** add_update (diff.py:164-165). */
    method AddUpdate(t: Tree, p: Path)
      requires p != []
      modifies this
      ensures update == AddAt(old(update), t, p) && create == old(create) && purge == old(purge)
      ensures src == old(src) && dst == old(dst) && opts == old(opts)
      ensures createcount == old(createcount) && updatecount == old(updatecount)
      ensures purgecount == old(purgecount) && totalcount == old(totalcount)
    {
      Add("update", t, p);
    }

    /** add_purge (diff.py:168-169). */
    method AddPurge(t: Tree, p: Path)
      requires p != []
      modifies this
      ensures purge == AddAt(old(purge), t, p) && create == old(create) && update == old(update)
      ensures src == old(src) && dst == old(dst) && opts == old(opts)
      ensures createcount == old(createcount) && updatecount == old(updatecount)
      ensures purgecount == old(purgecount) && totalcount == old(totalcount)
    {
      Add("purge", t, p);
    }

    /** _remove (diff.py:172-192): when `p` exists, one occurrence of its
        entry goes from under its parent in the map named by `op` (the key
        goes once its list is empty), and that map's count and the total are
        recomputed; the other maps and counts stay. A missing path or
        another name changes nothing. */
    method Remove(op: string, t: Tree, p: Path)
      modifies this
      ensures create == if Hit(op, t, p) && op == "create" then Detached(old(create), t, p) else old(create)
      ensures update == if Hit(op, t, p) && op == "update" then Detached(old(update), t, p) else old(update)
      ensures purge == if Hit(op, t, p) && op == "purge" then Detached(old(purge), t, p) else old(purge)
      ensures createcount == if Hit(op, t, p) && op == "create" then EntryCount(create) else old(createcount)
      ensures updatecount == if Hit(op, t, p) && op == "update" then EntryCount(update) else old(updatecount)
      ensures purgecount == if Hit(op, t, p) && op == "purge" then EntryCount(purge) else old(purgecount)
      ensures totalcount == if Hit(op, t, p) then createcount + updatecount + purgecount else old(totalcount)
      ensures old(Counted()) ==> Counted()
      ensures src == old(src) && dst == old(dst) && opts == old(opts)
    {
      if op !in Ops || !Exists(t, p) {
        return;
      }
      if p != [] {
        var dir, child := Parent(p), Child(Last(p), IsDir(t, p));
        if op == "create" {
          create := Detach(create, dir, child);
        } else if op == "update" {
          update := Detach(update, dir, child);
        } else {
          purge := Detach(purge, dir, child);
        }
      }
      UpdateCounts({op});
    }

    /** remove_create (diff.py:195-196). */
    method RemoveCreate(t: Tree, p: Path)
      modifies this
      ensures create == (if Exists(t, p) then Detached(old(create), t, p) else old(create))
      ensures update == old(update) && purge == old(purge)
      ensures createcount == (if Exists(t, p) then EntryCount(create) else old(createcount))
      ensures updatecount == old(updatecount) && purgecount == old(purgecount)
      ensures totalcount == (if Exists(t, p) then createcount + updatecount + purgecount else old(totalcount))
      ensures old(Counted()) ==> Counted()
      ensures src == old(src) && dst == old(dst) && opts == old(opts)
    {
      Remove("create", t, p);
    }

    /** remove_update (diff.py:199-200). */
    method RemoveUpdate(t: Tree, p: Path)
      modifies this
      ensures update == (if Exists(t, p) then Detached(old(update), t, p) else old(update))
      ensures create == old(create) && purge == old(purge)
      ensures updatecount == (if Exists(t, p) then EntryCount(update) else old(updatecount))
      ensures createcount == old(createcount) && purgecount == old(purgecount)
      ensures totalcount == (if Exists(t, p) then createcount + updatecount + purgecount else old(totalcount))
      ensures old(Counted()) ==> Counted()
      ensures src == old(src) && dst == old(dst) && opts == old(opts)
    {
      Remove("update", t, p);
    }

    /** remove_purge (diff.py:203-204). */
    method RemovePurge(t: Tree, p: Path)
      modifies this
      ensures purge == (if Exists(t, p) then Detached(old(purge), t, p) else old(purge))
      ensures create == old(create) && update == old(update)
      ensures purgecount == (if Exists(t, p) then EntryCount(purge) else old(purgecount))
      ensures createcount == old(createcount) && updatecount == old(updatecount)
      ensures totalcount == (if Exists(t, p) then createcount + updatecount + purgecount else old(totalcount))
      ensures old(Counted()) ==> Counted()
      ensures src == old(src) && dst == old(dst) && opts == old(opts)
    {
      Remove("purge", t, p);
    }

    /** update_counts (diff.py:407-414): the counts of the named maps are
        recomputed, the others kept, and the total is their sum. */
    method UpdateCounts(ops: set<string>)
      modifies this
      ensures createcount == if "create" in ops then EntryCount(create) else old(createcount)
      ensures updatecount == if "update" in ops then EntryCount(update) else old(updatecount)
      ensures purgecount == if "purge" in ops then EntryCount(purge) else old(purgecount)
      ensures totalcount == createcount + updatecount + purgecount
      ensures Ops <= ops ==> Counted()
      ensures create == old(create) && update == old(update) && purge == old(purge)
      ensures src == old(src) && dst == old(dst) && opts == old(opts)
    {
      if "create" in ops {
        createcount := EntryCount(create);
      }
      if "update" in ops {
        updatecount := EntryCount(update);
      }
      if "purge" in ops {
        purgecount := EntryCount(purge);
      }
      totalcount := createcount + updatecount + purgecount;
    }

    /** clearFiles (diff.py:137-140): the maps are emptied; the counts are
        left as they were. */
    method ClearFiles()
      modifies this
      ensures create == map[] && update == map[] && purge == map[]
      ensures createcount == old(createcount) && updatecount == old(updatecount)
      ensures purgecount == old(purgecount) && totalcount == old(totalcount)
      ensures src == old(src) && dst == old(dst) && opts == old(opts)
    {
      create, update, purge := map[], map[], map[];
    }

    /** A Diff holding the values of `x`. */
    constructor Clone(x: Diff)
      ensures src == x.src && dst == x.dst && opts == x.opts
      ensures create == x.create && update == x.update && purge == x.purge
      ensures createcount == x.createcount && updatecount == x.updatecount
      ensures purgecount == x.purgecount && totalcount == x.totalcount
    {
      src, dst, opts := x.src, x.dst, x.opts;
      create, update, purge := x.create, x.update, x.purge;
      createcount, updatecount, purgecount, totalcount := x.createcount, x.updatecount, x.purgecount, x.totalcount;
    }

    /** copy (diff.py:108-113): a new Diff holding equal values. The maps are
        values, so editing either Diff afterwards leaves the other as it was. */
    method Copy() returns (d: Diff)
      ensures fresh(d)
      ensures d.src == src && d.dst == dst && d.opts == opts
      ensures d.create == create && d.update == update && d.purge == purge
      ensures d.createcount == createcount && d.updatecount == updatecount
      ensures d.purgecount == purgecount && d.totalcount == totalcount
    {
      d := new Diff.Clone(this);
    }

    /** run (diff.py:246-404). Reading the options fails unless all of them
        are set; a file list that is set and not empty is first made
        relative to the roots and stored back, and classifying it fails when
        a root is missing (getSrcPath and getDstPath concatenate a missing
        root); otherwise the comparison's result replaces the three maps and
        all counts are recomputed. `tmp` is the scratch directory's path. */
    method Run(S: Tree, D: Tree, search: Search, tmp: Path) returns (err: Option<Error>)
      requires Valid()
      modifies this
      ensures Valid() && src == old(src) && dst == old(dst)
      ensures !(DiffOpts <= old(opts).Keys) ==> err == Some(AttributeError) && opts == old(opts)
      ensures DiffOpts <= old(opts).Keys && !Listed(old(opts)) ==> opts == old(opts)
      ensures DiffOpts <= old(opts).Keys && Listed(old(opts)) ==>
        opts == old(opts)["filelist" := VPaths(RelativeList(FileList(old(opts)).value, Root(src, tmp), Root(dst, tmp)))]
      ensures DiffOpts <= old(opts).Keys && Listed(old(opts)) && (src.None? || dst.None?) ==> err == Some(TypeError)
      ensures DiffOpts <= old(opts).Keys && (Listed(old(opts)) ==> src.Some? && dst.Some?) ==>
        var r := Compared(old(opts), src, dst, S, D, search);
        (r.None? ==> err == Some(OSError)) &&
        (r.Some? ==> err.None? && create == r.value.create && update == r.value.update && purge == r.value.purge && Counted())
      ensures err.Some? ==> create == old(create) && update == old(update) && purge == old(purge)
      ensures err.Some? ==> createcount == old(createcount) && updatecount == old(updatecount)
      ensures err.Some? ==> purgecount == old(purgecount) && totalcount == old(totalcount)
    {
      var newOpts, d;
      newOpts, err, d := Compute(opts, src, dst, S, D, search, tmp);
      opts := newOpts;
      if err.Some? {
        return;
      }
      if d.None? {
        return Some(OSError);
      }
      Take(d.value);
    }

    /** The end of run (diff.py:401-404): the comparison's maps replace the
        instance's and every count is recomputed. */
    method Take(c: Changes)
      modifies this
      ensures create == c.create && update == c.update && purge == c.purge && Counted()
      ensures src == old(src) && dst == old(dst) && opts == old(opts)
    {
      create, update, purge := c.create, c.update, c.purge;
      UpdateCounts(Ops);
    }
  }

  /** The part of run that reads the options and compares (diff.py:248-396),
      on values: the options afterwards, the error raised before the
      comparison starts, and else the comparison's result. */
  method Compute(opts: Settings, src: Option<Path>, dst: Option<Path>, S: Tree, D: Tree, search: Search, tmp: Path)
    returns (newOpts: Settings, err: Option<Error>, d: Option<Changes>)
    requires WellTyped(opts)
    ensures WellTyped(newOpts)
    ensures !(DiffOpts <= opts.Keys) ==> err == Some(AttributeError) && newOpts == opts
    ensures DiffOpts <= opts.Keys && !Listed(opts) ==> newOpts == opts
    ensures DiffOpts <= opts.Keys && Listed(opts) ==>
      newOpts == opts["filelist" := VPaths(RelativeList(FileList(opts).value, Root(src, tmp), Root(dst, tmp)))]
    ensures DiffOpts <= opts.Keys && Listed(opts) && (src.None? || dst.None?) ==> err == Some(TypeError)
    ensures DiffOpts <= opts.Keys && (Listed(opts) ==> src.Some? && dst.Some?) ==>
      err.None? && d == Compared(opts, src, dst, S, D, search)
  {
    if !(DiffOpts <= opts.Keys) {
      return opts, Some(AttributeError), None;
    }
    var st := ToSettings(opts);
    newOpts, err := opts, None;
    if FileList(opts).Some? && |FileList(opts).value| > 0 {
      var rel := MakeFileListRelative(FileList(opts).value, Root(src, tmp), Root(dst, tmp));
      assert rel == RelativeList(FileList(opts).value, Root(src, tmp), Root(dst, tmp));
      SetFileList(opts, rel);
      newOpts := opts["filelist" := VPaths(rel)];
      if src.None? || dst.None? {
        return newOpts, Some(TypeError), None;
      }
      var c := CompareFileList(rel, S, D);
      d := ProcessCmp(st, search, S, D, [], c, true);
    } else {
      d := DirDiff(st, search, if src.None? then Tmp([]) else S, if dst.None? then Tmp([]) else D, []);
    }
  }

  /** Diff(src, dst, **kwargs) (diff.py:58-75). A source without a
      destination fails when the missing destination is normalised
      (diff.py:60); without a source nothing runs and the destination is
      dropped; with both the comparison runs at once, and an error it raises
      escapes the constructor. */
  method New(src: Option<Path>, dst: Option<Path>, kwargs: Settings, S: Tree, D: Tree, search: Search, tmp: Path)
    returns (d: Diff?, err: Option<Error>)
    requires WellTyped(kwargs)
    ensures err.Some? <==> d == null
    ensures src.Some? && dst.None? ==> err == Some(AttributeError)
    ensures src.None? ==> d != null && fresh(d) && d.Valid() && d.src.None? && d.dst.None?
    ensures src.None? ==> d.create == map[] && d.update == map[] && d.purge == map[] && d.Counted()
    ensures src.Some? && dst.Some? && !(DiffOpts <= InitialOpts(kwargs).Keys) ==> err == Some(AttributeError)
    ensures src.Some? && dst.Some? && DiffOpts <= InitialOpts(kwargs).Keys ==>
      var r := Compared(InitialOpts(kwargs), src, dst, S, D, search);
      (r.None? ==> err == Some(OSError)) &&
      (r.Some? ==> d != null && fresh(d) && d.Valid() && d.src == src && d.dst == dst && d.Counted()
                   && d.create == r.value.create && d.update == r.value.update && d.purge == r.value.purge)
  {
    if src.Some? && dst.None? {
      return null, Some(AttributeError);
    }
    d := new Diff(src, dst, kwargs);
    err := None;
    if d.src.Some? && d.dst.Some? {
      err := d.Run(S, D, search, tmp);
      if err.Some? {
        d := null;
      }
    }
  }
}
