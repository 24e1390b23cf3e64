# filesync in Dafny

A verified model of the one-way directory mirroring engine of filesync. The model has three parts.

- **Diff** (`diff.py`) is a change set. It holds three multimaps (`create`, `update`, `purge`), each from a parent directory to the ordered list of child names under it. A directory child carries a mark, the trailing separator. The change set is edited in place by `_add`/`_remove` and has derived counts. `run` fills it with a recursive three-way comparison of a source tree against a destination tree. That comparison filters names by include patterns, exclude patterns and a size threshold, and it uses the modification-time rule `_cmp_mtime` from `utils.py` to decide what is stale.
- **Sync** (`sync.py`) is a session. It routes keyword settings, keeps an untrimmed and a trimmed diff, and applies the chosen diff to the destination in three gated phases, walked in sorted key order. The cancellation check is asked once per parent group. Each handled item is filed at most once, as passed or failed; some are filed nowhere (a purge target that is gone, a failed chmod, a helper that raises). A progress counter goes up with every item the helpers handle.
- **Staleness and node kinds** (`utils.py`): the mtime comparison, plus `_isdir`/`_isfile` as queries on the abstract tree.

## How the system is represented

- **Trees.** A filesystem tree is a `map<Path, Node>`. A `Path` is a sequence of names relative to a root. The source and destination roots are two separate trees. Keys of `create` and `update` are source-relative paths; keys of `purge` are destination-relative. The scratch directory that stands in for a missing side is an empty directory.
- **Regex search** is a parameter `search`. Literal patterns (`regexfilters` off) are modelled as substring search, which is what `re.escape` followed by `search` amounts to.
- **System refusals.** What the operating system refuses is given by a `Faults` value. Its `io` set holds the paths on which the main call of a helper raises. Its `chmod` set holds the paths that cannot be made writable.
- **Cancellation.** The check answers its n-th question with `check(n)`.
- **Errors.** Python exceptions that escape a method are returned as an `Error` value (`AttributeError`, `TypeError`, `OSError`, `ZeroDivisionError`, `SpecialFileError`).
- **Node kinds.** A node is a regular file, a directory, a named pipe, a socket, a device, or a dangling link, and separately records whether its name is a symbolic link.
- **Diff.** `Diff` is a Dafny class whose methods reassign its maps and counts.
- **Comparison.** The comparison (`__dirdiff`, `processCmp`, `__filediff`) is a family of recursive functions: `Comparison.DirDiff`, `Comparison.ProcessCmp`, the `CreateEach`/`UpdateEach`/`PurgeEach` loops and `Comparison.FileDiff`. `ComparisonSubtree.DirDiffSubtree` states what each level merges from the walks into its subdirectories.
- **Sync.** `Sync` is a class. Its run methods loop over sorted keys and children and update `stats` and `progressamt` in place.
- **The run, as a function.** The same run is also defined as a function on values: `Execution.Execute` over `Group`, `Items` and `Item`. Each method's `ensures` ties the new state to that function, and the properties of a run are proved about the function.

### Behaviour that the comments in the code do not suggest (the model follows the code)

- **Purged directories are name-filtered.** A destination-only directory is listed for purging only when its name passes the filter (diff.py:338-341). The comment there says purge directories are always included.
- **The size check reaches directories.** It applies to source-only directories too, whenever a path is passed to the filter (diff.py:302-303, diff.py:275-279).
- **Duplicate update entries.** `forceUpdate` adds a common file once more, without filtering, so the file can be listed twice (diff.py:317-321). `_add` never removes duplicates.
- **`_add` leaves the counts stale.** Only `_remove` and `run` recompute the counts, so "counts always agree with the maps" holds only after `update_counts`.
- **A dry run still makes directories.** `__makedirs` does not look at the dry-run switch (sync.py:206-208, 255-269).

## Model

| member | source | states |
|---|---|---|
| FileTree.IsDirWithoutStat | utils.py:25-29 | When a path cannot be stat'ed (missing or a dangling link), `_isdir` answers false instead of raising; such a path is neither a file nor an existing entry. |
| FileTree.IsFileNeverLink | utils.py:19-23 | `_isfile` is false for a symbolic link, even one that leads to a regular file; `os.path.isfile` follows it. |
| FileTree.SameRoundedNeverChanged | utils.py:31-44 | Equal rounded mtimes never count as a change, whether `newer` is on or off. |
| FileTree.DifferIffNewerEitherWay | utils.py:39-44 | With `newer` off the rule holds iff one side is strictly newer than the other after rounding; a true result with `newer` on implies a true result with it off. |
| FileTree.DifferSymmetric | utils.py:43-44 | With `newer` off the rule is symmetric in its two files. |
| FileTree.NotLaterNeverNewer | utils.py:31-42 | With `newer` on, a file whose raw mtime is not later than the other's is never stale, whatever the precision. |
| FileTree.RoundStepsMonotone | utils.py:39-40 | Rounding keeps the order of times, across the sign change at the epoch too. |
| FileTree.RoundStepsOdd | utils.py:39-40 | Python 2's `round` treats both signs alike: a negative time rounds to the negation of its mirror image, so a half step goes away from zero. |
| Options.SyncDiffDefaultsComplete | sync.py:51-62 | Sync's diff settings are well typed and name exactly the options a Diff accepts (diff.py:54-55). |
| Options.SyncDefaultsDisjoint | sync.py:51-71 | No keyword is both a diff setting and a run setting, so routing is unambiguous. |
| Options.SyncDiffDefaultsRead | sync.py:51-62 | Sync's diff defaults, read as comparison settings: no include patterns; the excludes `.DS_Store`, `Thumbs.db` and `.place-holder`; recursive; precision 3; newer-only; directory entries included; no forced update; no size limit. |
| Options.DiffDefaultsIncomplete | diff.py:47-55 | The class attributes of Diff cover every option except `forceUpdate` and `sizeLimit`. |
| Options.ToSettingsReadsOnlyOpts | diff.py:70-72 | A comparison reads only the options a Diff accepts: settings that agree on those options give the same comparison, whatever other keywords they hold. |
| Options.SetFileList | diff.py:393-394 | Storing a relative file list back into the options keeps them well typed, and the list reads back unchanged. |
| Filter.FilterName | diff.py:260-280 | The step-by-step `__filter` returns exactly `Accepts`: no include patterns or some include pattern matches; no exclude matches; and, when a size is given and `sizeLimit > 0`, at least `sizeLimit` KiB. |
| Filter.ExcludeWins | diff.py:268-273 | A name that matches any exclude is rejected, whatever the include patterns and the size say. |
| Filter.NoPatternsOnlySize | diff.py:262-279 | With no includes and no excludes, only the size rule can reject. |
| Filter.SizeOnlyRestricts | diff.py:275-279 | Giving a size can only reject more: a size-checked accept implies the name-only accept, and the converse holds when the size is big enough. |
| Filter.SizeLimitRule | diff.py:275-279 | With a positive `sizeLimit`, a file of n bytes is too small exactly when n < 1024 * sizeLimit; a limit that is not positive rejects nothing. |
| Filter.FalsySizeLimitNoLimit | diff.py:276 | A `sizeLimit` of None, False or 0 is no limit: no size ever rejects a path. |
| Filter.LiteralExcludeRejectsItself | diff.py:253-273 | Without regex, a name listed among the excludes always rejects itself. |
| Filter.LiteralMatchesContainingNames | diff.py:248-257 | Without regex, a pattern matches every name that contains it, not just the whole name. |
| ChangeSet.Append | diff.py:152-157 | `setdefault(k, []).append(c)`: the key is created if absent, `c` is appended even when it is already listed, and every other key is unchanged. |
| ChangeSet.RemoveFirst | diff.py:189 | `list.remove` takes out one occurrence: the result is one shorter and its multiset loses exactly one `c`. |
| ChangeSet.FirstIndex | diff.py:189 | The index found holds `c`, and no earlier index does. |
| ChangeSet.RemoveFirstOrder | diff.py:189 | `list.remove` leaves the elements before the first occurrence of `c` and those after it, each in their order. |
| ChangeSet.Detach | diff.py:187-191 | The list of `k` becomes `list.remove(c)` of the old list. The key is deleted once its list is empty, other keys are untouched, and nothing changes when `c` is not listed. |
| ChangeSet.DetachKeepsOrder | diff.py:187-191 | `_remove` drops the first occurrence under its key and keeps the other children in their order, which is the order a run later handles them in. |
| ChangeSet.AppendKeepsNoEmpty | diff.py:152-157 | Appending never leaves an empty list under a key. |
| ChangeSet.DetachKeepsNoEmpty | diff.py:187-191 | Removing never leaves an empty list under a key. |
| ChangeSet.AppendCount | diff.py:152-157 | Appending raises the entry count by exactly one. |
| ChangeSet.DetachCount | diff.py:187-192 | Removing a listed child lowers the entry count by exactly one. |
| ChangeSet.AppendThenDetach | diff.py:142-192 | Adding a child that was not listed and then removing it restores the multimap exactly. |
| ChangeSet.AppendThenDetachMultiset | diff.py:142-192 | Adding then removing any child restores every list as a multiset, even when duplicates were present. |
| Compare.NamesMember | diff.py:363 | A directory listing holds exactly the children of the directory, minus dircmp's ignore list (`RCS`, `CVS`, `tags`). |
| Compare.DircmpMember | diff.py:363 | Every listed name is exactly one of source-only, common or destination-only, and nothing is missing. |
| Compare.CompareFileList | diff.py:217-243 | One pass over the list puts each path into the category its existence on the two sides gives, keeping input order. |
| Compare.SelectMember | diff.py:217-243 | A path is in a category's list iff it is in the input and has that category. |
| Compare.SelectCount | diff.py:217-243 | Each category keeps every occurrence of its paths, duplicates included. |
| Compare.SelectPartition | diff.py:217-243 | The four lists together are a permutation of the input, so every path lands in exactly one list. |
| Compare.OneSidedNotRoot | diff.py:217-243 | The root itself is never source-only, destination-only or missing. |
| Compare.MakeFileListRelative | diff.py:78-105 | The result has one entry per input path, in order, each made relative to the source or destination root. |
| Compare.RelativeIsSuffix | diff.py:78-105 | Every result is a suffix of its input path. |
| Compare.RelativeUnderSource | diff.py:89-99 | A path under the source root comes back relative to it. |
| Compare.RelativeKeepsOthers | diff.py:89-102 | A path under neither root is returned unchanged. |
| Comparison.TmpEmpty | diff.py:115-127 | The scratch directory lists nothing and holds nothing below it. |
| Comparison.CreateStep | diff.py:296-308 | A source-only entry only ever adds to `create` and keeps every key it had; `update` and `purge` are left as they were. What the walk contributes is stated by ComparisonSubtree.DirDiffSubtree. |
| Comparison.UpdateStep | diff.py:313-328 | A common entry never drops a key of any of the three maps. |
| Comparison.PurgeStep | diff.py:333-344 | A destination-only entry only ever adds to `purge` and keeps every key it had; `create` and `update` are left as they were. What the walk contributes is stated by ComparisonSubtree.DirDiffSubtree. |
| ComparisonKeys.DirDiffKeysFrom | diff.py:283-364 | Every key of a comparison of `base` is `base` itself or a directory below it. |
| ComparisonSubtree.DirDiffSubtree | diff.py:283-346 | Below an entry `n` of `base`, the comparison of `base` holds: for a common directory, the comparison of that directory in all three maps; for a source-only directory, only the creates of its walk against an empty directory; for a destination-only directory, only the purges of its walk; below anything else, nothing. The walk it depends on succeeded. |
| ComparisonLevel.DirDiffLevel | diff.py:283-364 | Under the compared directory, `__dirdiff` files exactly the qualifying source-only names, the stale or forced common files and the qualifying destination-only names, each in sorted name order. |
| ComparisonLevel.CreateNamesMember | diff.py:294-308 | The one-level create list holds a child iff its name is listed and qualifies (a file, or a directory with `includedirs`, accepted by the filter with its size); the directory mark is set iff it is a directory. |
| ComparisonLevel.UpdateNamesMember | diff.py:311-321 | The one-level update list holds a child iff it is an unmarked common file recorded at least once. |
| ComparisonLevel.PurgeNamesMember | diff.py:331-341 | The one-level purge list holds a child iff it is a destination-only file or directory whose name passes the filter. |
| ComparisonLevel.CreateNamesAscending | diff.py:295 | Creations under one directory are in strictly increasing name order. |
| ComparisonLevel.UpdateNamesInOrder | diff.py:312 | Updates under one directory are in name order; a forced file may repeat. |
| ComparisonLevel.PurgeNamesAscending | diff.py:332 | Purges under one directory are in strictly increasing name order. |
| ComparisonProps.DirDiffCreateMember | diff.py:294-308 | A name is listed for creation under the compared directory iff it exists only in the source, is not ignored, is a file (or a directory with `includedirs`) and passes the filter with its size; directories carry the mark. |
| ComparisonProps.DirDiffUpdateMember | diff.py:311-321 | A name is listed for update iff it is common, is a plain file in the source, exists in the destination and is stale-and-accepted or forced; a directory is never listed. |
| ComparisonProps.DirDiffPurgeMember | diff.py:331-341 | A name is listed for purging iff it exists only in the destination, is not ignored, is a file or a directory, and its name passes the filter; no size is consulted. |
| ComparisonProps.DirDiffOrder | diff.py:295-332 | All three lists of a compared directory are in sorted name order. |
| ComparisonProps.SourceOnlyWalk | diff.py:305-308 | A source-only directory, walked against the scratch directory, always succeeds and proposes creations only. |
| ComparisonProps.DestinationOnlyWalk | diff.py:342-344 | A destination-only directory, walked against the scratch directory, always succeeds and proposes purges only. |
| ComparisonFlat.DirDiffFlat | diff.py:305-344 | Without `recursive`, every key of the result is the compared directory. |
| ComparisonFlat.NonRecursiveComparison | diff.py:283-364 | Without `recursive`, the result is exactly the three one-level lists under the compared directory, and nothing anywhere else. |
| Differ.InitialOpts | diff.py:47-72 | A new Diff's options are the class attributes overridden by every keyword in `opts`; other keywords are dropped; well-typed keywords give well-typed options. |
| Differ.RunNeedsBoth | diff.py:383-384 | `run` finds every option it reads iff the keywords supplied `forceUpdate` and `sizeLimit`. |
| Differ.RelativeList | diff.py:78-105 | The relative file list, entry by entry. |
| Differ.Diff.constructor | diff.py:58-72 | Roots as given (the destination is dropped without a source); options from the keywords; empty maps; zero counts. |
| Differ.Diff.Add | diff.py:142-157 | An unknown op changes nothing. Otherwise the (marked) name is appended under its parent in that op's map only, duplicates are kept, and no count changes. |
| Differ.Diff.AddCreate | diff.py:160-161 | `_add("create")`: `create` grows by the path's entry; everything else is unchanged. |
| Differ.Diff.AddUpdate | diff.py:164-165 | `_add("update")`: `update` grows by the path's entry; everything else is unchanged. |
| Differ.Diff.AddPurge | diff.py:168-169 | `_add("purge")`: `purge` grows by the path's entry; everything else is unchanged. |
| Differ.Diff.Remove | diff.py:172-192 | A path that is missing, or an unknown op, changes nothing. Otherwise one occurrence leaves that op's map, an emptied key is deleted, the other maps are untouched, and that op's count and the total are recomputed; counts that agreed still agree. |
| Differ.Diff.RemoveCreate | diff.py:195-196 | `_remove("create")` on the source tree. |
| Differ.Diff.RemoveUpdate | diff.py:199-200 | `_remove("update")` on the source tree. |
| Differ.Diff.RemovePurge | diff.py:203-204 | `_remove("purge")` on the destination tree. |
| Differ.Diff.UpdateCounts | diff.py:407-414 | Each named count becomes the number of children in its map, the total is the sum of the three counts, and after all three the counts agree with the maps. |
| Differ.Diff.ClearFiles | diff.py:137-140 | The three maps are emptied; the counts are left as they were. |
| Differ.Diff.Copy | diff.py:108-113 | A fresh Diff holding equal roots, options, maps and counts. Being a distinct object, later edits of either one leave the other alone. |
| Differ.Diff.Run | diff.py:246-404 | Options missing: `AttributeError`. A set file list: made relative and stored back, and `TypeError` when a root is missing. A failing comparison: `OSError`, with the maps and counts untouched. Otherwise the maps become the comparison's result and all counts agree with them. |
| Differ.Diff.Take | diff.py:401-404 | The comparison's maps replace the instance's, and every count is recomputed. |
| Differ.Compute | diff.py:248-396 | The option reading and the comparison of `run`, on values, with the same error cases as `Differ.Diff.Run`. |
| Differ.New | diff.py:58-75 | A source without a destination: `AttributeError`. No source: an empty, counted Diff. Both roots: the comparison runs at once; its error escapes, and on success the Diff holds its result. |
| Execution.Passed | sync.py:303-304 | `passes.append(p)` grows only that phase's pass list. |
| Execution.Failed | sync.py:290-291 | `fails.append(p)` grows only that phase's fail list. |
| Execution.Ticked | sync.py:271-276 | With a progress function set, the counter goes up by one; nothing else in the world changes except the status (the division raising). |
| Execution.MadeDirs | sync.py:255-269 | `os.makedirs` keeps every existing entry, adds the directory itself, and adds only new directories on its own ancestry. |
| Execution.Pruned | sync.py:348-350 | `shutil.rmtree` leaves exactly the entries that are not the directory or below it. |
| Execution.Emptied | sync.py:348-354 | `shutil.rmtree` through a linked directory leaves the link and exactly the entries not strictly below it. |
| ExecutionProps.GroupsStopEarly | sync.py:197-253 | Once a group is cancelled or a helper raises, the remaining groups change nothing. |
| ExecutionProps.CancelledAtOnce | sync.py:198-200 | A false first answer of the check cancels the phase before anything is filed or touched. |
| ExecutionProps.ItemFiledOnce | sync.py:209-253 | One item is filed at most once, and only in its own phase's pass or fail list, under its own path. |
| ExecutionProps.DryRunPasses | sync.py:314-372 | A dry run files a pass for a copy, and for a removal whose target is still there. |
| ExecutionProps.PurgeMissFiledNowhere | sync.py:246-253 | A purge target that is neither a directory nor a file lands in neither list. |
| ExecutionProps.ChmodFailFiledNowhere | sync.py:316-324 | A copy whose chmod under forceOwnership fails lands in neither list, and the destination is left as it was. |
| ExecutionProps.GroupsFiled | sync.py:197-253 | A phase appends only paths its map plans (listed children, plus the keys in the create phase), and the other phases' lists stay untouched. |
| ExecutionProps.ExecuteFiled | sync.py:190-253 | After a run, each phase's lists are what they held before followed by planned paths of that phase, and a switched-off phase's lists are unchanged. |
| ExecutionProps.SumIsCount | diff.py:407-414 | Walking every key once visits exactly `EntryCount` children. |
| ExecutionProps.HelpersTick | sync.py:283-366 | Each helper asks `__getProgPercent` exactly once when a progress function is set, and never otherwise. |
| ExecutionProps.GroupsProgress | sync.py:197-253 | A phase advances the counter by at most the number of children it walks, and not at all without a progress function. |
| ExecutionProps.ExecuteProgress | sync.py:190-253 | A run advances the counter by at most the diff's total entry count and never lowers it; without a progress function it does not move. |
| ExecutionProps.DryRunOnlyAddsDirectories | sync.py:190-380 | A dry run deletes nothing and keeps every entry's kind, link flag and size, so no file is written or replaced; it may still change times and permissions of existing entries (copystat and chmod at sync.py:293-302), and all it can add are directories that makedirs made. |
| ExecutionProps.DryRunCopyDirRaises | sync.py:285-302 | In a dry run, copying a directory that is missing from the destination raises OSError from copystat and files nothing. |
| ExecutionProps.CopyStatRefusedRaises | sync.py:285-302 | When copystat is refused on a directory mkdir has just made, the directory stays, nothing is filed, every other entry is unchanged, and the run stops with OSError. |
| ExecutionProps.CopyOntoFifoRaises | sync.py:314-326 | Copying onto a named pipe raises SpecialFileError, which the `except (IOError, OSError)` does not catch: the run stops, nothing is filed, the destination is unchanged. |
| ExecutionProps.CopyOntoSocketFails | sync.py:314-332 | Copying onto a socket is filed as failed and leaves the destination unchanged. |
| ExecutionProps.CopyOntoDeviceWritesThrough | sync.py:314-336 | Copying onto a device passes; the device keeps its kind, link flag and size and takes the source's time; every other entry is unchanged. |
| ExecutionProps.LinkedDirEmptied | sync.py:345-354 | Removing a linked directory: spelled with the trailing separator of a marked purge child, everything strictly below it is deleted and the link stays; spelled without, nothing is deleted. Either way it is filed as failed. |
| ExecutionProps.NothingRemovedWithoutPurge | sync.py:190-253 | With purge switched off, nothing is removed from the destination. |
| ExecutionProps.PurgeOnlyRemoves | sync.py:235-253 | The purge phase only removes: every entry left was there before, unchanged. |
| Synchronizer.Overridden | sync.py:90-94 | The defaults' keys, each taking the keyword's value when one is given. |
| Synchronizer.Route | sync.py:90-94 | The keyword loop: a keyword goes to the diff settings when they know it, else to the run settings when they know it, else nowhere. |
| Synchronizer.RoutedReady | sync.py:51-94 | Settings routed from well-typed keywords are well typed, hold exactly the Diff options, and the two dictionaries share no key. |
| Synchronizer.TrimmedShrinks | sync.py:122-135 | Trimming never raises the entry count of a map. |
| Synchronizer.TrimmedSublists | sync.py:122-135 | Trimming never adds an entry: every trimmed list is a sub-multiset of the original. |
| Synchronizer.SortedKeys | sync.py:196 | `sorted(m.items())`: every key of the map exactly once, in path order. |
| Synchronizer.ModePhases | sync.py:137-152 | After sync/update set the mode, creation is on exactly as the mode says and update is always on, unless a keyword overrides it; purging changes only if a keyword sets it. |
| Synchronizer.OutcomeOf | sync.py:190-253 | The key orders a run walked witness its outcome. |
| Synchronizer.OrderOf | sync.py:196 | Every finite set of keys has a sorted enumeration. This stands in for the phases a stopped run never reaches. |
| Synchronizer.TryCopyDir | sync.py:285-305 | The try block of `__copydir` equals `Execution.DirCopied`, including the OSError that escapes from copystat on a missing directory or one the system refuses to stamp. |
| Synchronizer.TryCopy | sync.py:314-336 | The try block of `__copy` equals `Execution.FileCopied`, including the SpecialFileError that escapes it. |
| Synchronizer.TryRmDir | sync.py:345-358 | The rest of `__rmdir` equals `Execution.DirRemoved`, given whether the path carries a trailing separator. |
| Synchronizer.TryRemove | sync.py:367-380 | The rest of `__remove` equals `Execution.FileRemoved`. |
| Synchronizer.MergedReady | sync.py:117-118 | Keywords merged into complete diff settings keep them well typed and complete. |
| Synchronizer.TrimCreate | sync.py:130-131 | `create` of the trimmed diff becomes the trimmed map; the other maps, roots and options are unchanged; counts that agreed still agree. |
| Synchronizer.TrimUpdate | sync.py:132-133 | As TrimCreate, for `update`. |
| Synchronizer.TrimPurge | sync.py:134-135 | As TrimCreate, for `purge`, with paths looked up in the destination. |
| Synchronizer.BuildDiffs | sync.py:117-120 | The merged settings are returned. On success there are two fresh, counted diffs holding the comparison's result; otherwise there are none and the comparison's error is returned. |
| Synchronizer.Sync.constructor | sync.py:45-94 | Roots as given; keywords routed into the two setting dictionaries; no diffs; empty statistics; counter 0; every flag false. |
| Synchronizer.Sync.GetOpts | sync.py:96-105 | Both dictionaries in one; a run setting wins over a diff setting of the same name. |
| Synchronizer.Sync.Diff | sync.py:107-120 | Without both roots, nothing changes. Otherwise the keywords are merged into the diff settings. On success there are two fresh counted diffs (untrimmed and trimmed copy) holding the comparison's result, and the diff is marked run and current. On failure the error escapes and the old diffs stay. |
| Synchronizer.Sync.KeepSettings | sync.py:116-117 | A failed diff keeps only the merged settings. |
| Synchronizer.Sync.Install | sync.py:117-120 | A successful diff installs the merged settings and the two diffs, and marks them run and current. |
| Synchronizer.Sync.DiffTrim | sync.py:122-135 | Only the trimmed diff loses entries, each map by its own path list. The untrimmed diff is untouched. Without a diff, the first path raises `AttributeError`. |
| Synchronizer.Sync.GetProgPercent | sync.py:271-276 | The counter goes up by one. The division then raises when there is no untrimmed diff or its total is 0. |
| Synchronizer.Sync.MakeDirs | sync.py:255-269 | Equals `Execution.MakeDirs`: the directories are made and the path files as passed, or it files as failed. |
| Synchronizer.Sync.CopyDir | sync.py:278-305 | Equals `Execution.CopyDir` on the destination, the lists, the counter and the status, including a copystat refusal that ends the run. |
| Synchronizer.Sync.Copy | sync.py:307-336 | Equals `Execution.CopyFile`. |
| Synchronizer.Sync.RmDir | sync.py:338-358 | Equals `Execution.RmDir`, given whether the path carries a trailing separator. |
| Synchronizer.Sync.Remove | sync.py:360-380 | Equals `Execution.RemoveFile`. |
| Synchronizer.Sync.Handle | sync.py:209-253 | One child handled by the helper its kind and phase select, as `Execution.Item`. |
| Synchronizer.Sync.RunChildren | sync.py:209-253 | The children in stored order, stopping at the first helper that raises, as `Execution.Items`. |
| Synchronizer.Sync.RunGroup | sync.py:197-215 | The poll, the create-phase makedirs, then the children, as `Execution.Group`. |
| Synchronizer.Sync.RunNextGroup | sync.py:197-253 | One more key extends the fold over the keys walked so far. |
| Synchronizer.Sync.RunPhase | sync.py:194-253 | One phase over its keys, stopping when the check answers false or a helper raises, as `Execution.Groups`. |
| Synchronizer.Sync.RunPhaseIf | sync.py:194-253 | A switched-on phase runs over the sorted keys of its map; a switched-off phase, or one after a stop, changes nothing. |
| Synchronizer.Sync.RunWithDiff | sync.py:190-253 | No diff: `TypeError` and nothing changes. Otherwise create, update and purge run, each when switched on, each over its map in path order (the run's Outcome). |
| Synchronizer.Sync.RunChosen | sync.py:176-188 | The six lists are emptied. The trimmed diff is picked when `trimmed` is set, else the untrimmed one. Without that diff nothing else happens; otherwise it runs. |
| Synchronizer.Sync.Run | sync.py:154-174 | The chosen diff is run. Unless the run raised, the session is marked as run and the diff as not current, and with refresh (or deprecated `no_update` false) the diff is computed again on the new destination. |
| Synchronizer.Sync.Finish | sync.py:171-174 | A run is recorded and the diff is outdated; with refresh the diff is computed again without keywords. |
| Synchronizer.Sync.SetMode | sync.py:142-151 | The run settings get the mode (`create` as given, `update` on), then the keywords on top; nothing else changes. |
| Synchronizer.Sync.Synchronize | sync.py:137-145 | `sync`: creation and update on, keywords applied, then `run`, with all of run's promises. |
| Synchronizer.Sync.Update | sync.py:147-152 | `update`: creation off, update on, keywords applied, then `run`. |

## Left out

- Logging, the `stime`/`etime` clock readings in `stats`, and the deprecation and "diff not current" warnings: they are side effects with no bearing on state.
- The messages and the float percentage handed to `progressfnc`: only whether a progress function is set, and the integer counter, are modelled. The division by the untrimmed diff's total is modelled only for the errors it raises.
- `Diff.report`, `Sync.report`, `diffreport` and `runreport`: they only format text.
- `getSrcPath`/`getDstPath` and `__norm`/`__asdir`: paths are sequences of names, so joining, normalisation, `normcase` and separator handling have no counterpart. A directory child's trailing separator is a boolean mark.
- `__tmpdir` and the scratch-directory cleanup (diff.py:115-127, 397-399): the scratch directory is an empty tree, and its creation and removal are not modelled.
- The `src`-instead-of-`dst` test at diff.py:60: a source without a destination is reported as the AttributeError it raises. A destination without a source is dropped.
- Regular-expression semantics: `search` is a parameter. Literal patterns are substring search.
- Real filesystem effects and their failures: makedirs, mkdir, copy2, copystat, rmtree, remove and chmod act on the abstract tree. The refusals of the run's helpers come from `Faults`: `io` for the main call, `chmod` for the ownership fix, `stat` for the copystat of `__copydir`. Permission bits are reduced to one writable flag, and a new directory gets mtime 0.
- Execution.FileCopied: a refused copy2 is modelled as changing nothing. In the source, copy2's own copystat can fail after the contents are written, leaving the new contents behind.
- Execution.DirRemoved: a refused rmtree is modelled as deleting nothing. In the source, rmtree may already have deleted part of the directory before it raises.
- Comparison.DirDiff: every directory and entry the comparison visits is taken to be readable. In the source, a directory the process cannot list or search makes `os.listdir` in `filecmp.dircmp` (diff.py:363), `os.path.getsize` in `__filter` (diff.py:277), or `os.stat` in `_isfile` (utils.py:21) or `_cmp_mtime` (utils.py:37-38) raise OSError out of `Diff.run`, `Diff.__init__` and `Sync.diff` (sync.py:117). Trees carry no read permission, so the comparison fails only when one side is not a directory.
- Compare.MakeFileListRelative: the model removes a leading root from a path by its names, which is the Windows reading of diff.py:89-102. The source replaces the root followed by a backslash anywhere in the path string, so on POSIX it strips nothing, and a path equal to the stripped prefix comes back whole from `path[-0:]`. Neither is modelled, because paths are sequences of names here.
- Modification times are whole nanoseconds, where the source rounds a float `st_mtime`. Halves go away from zero as in Python 2, but a float that is not exactly representable can round differently from its decimal value.
- Ill-typed settings other than a `sizeLimit` of None (for example `excludes=None` or `timeprecision=None`) are excluded by `WellTyped`. The source stores them and then raises TypeError during `run`.
- Unicode, case folding and path-length limits of names: names are plain strings compared code point by code point.
- `__main__.py`, `watch.py` and `__init__.py`: CLI wiring, the polling thread and logging setup.
- FileTree.Exists: the source and destination roots always exist as directories. In the source, a missing or non-directory root makes `filecmp.dircmp` raise OSError when processCmp first reads it (diff.py:363), in `Diff.__init__` and in `Sync.diff` (sync.py:117); `maketarget` is never read, so syncing into a folder that does not exist raises. In file-list mode, the create phase would instead make a missing destination root and file it under `creates` (sync.py:205-208). Neither is modelled: trees have no representation of an absent root.
- Execution.Emptied: a link's target may lie elsewhere in the destination; deleting through the link does not remove those other names for the same entries, because trees do not model aliasing.
- Synchronizer.TryCopy: shutil.Error for a source and target that are the same file (a hard or symbolic link between the two roots) is not modelled, because trees do not model aliasing.
- FileTree.IsFile: `_isfile` raises on a path that does not exist (utils.py:21), where the model answers false. The comparison only asks it about paths it has just listed.
- Synchronizer.Sync.Run: it promises that the diff is computed again after a run. It does not restate that the recomputed counts agree with the maps; that is stated by Synchronizer.Sync.Diff and Differ.Diff.Run.
- Synchronizer.Sync.Synchronize: the same as Synchronizer.Sync.Run.
- Synchronizer.Sync.Update: the same as Synchronizer.Sync.Run.
- Synchronizer.Sync.Finish: the same as Synchronizer.Sync.Run.
- Synchronizer.OrderOf: a run that stops early never walks its later phases; the model gives those phases some sorted order, which leaves the result unchanged.
- Synchronizer.Sync.GetProgPercent: the percentage it returns is not modelled, only the counter and the errors.
