/** Option values and the settings dictionaries of diff.py and sync.py.

    Python options are dynamically typed; `Value` covers the kinds of value
    the engine reads (booleans, integers, lists of patterns, lists of paths,
    None). Flags are read with Python truthiness. */
module Options {
  import opened Paths

  datatype Option<T> = None | Some(value: T)

  /** The exceptions the engine lets escape to its caller. */
  datatype Error = AttributeError | TypeError | OSError | ZeroDivisionError | SpecialFileError

  datatype Value = VBool(b: bool) | VInt(i: int) | VStrs(strs: seq<string>) | VPaths(paths: seq<Path>) | VNone

  type Settings = map<string, Value>

  /** Python's bool(v). */
  predicate Truthy(v: Value)
  {
    match v
    case VBool(b) => b
    case VInt(i) => i != 0
    case VStrs(s) => s != []
    case VPaths(s) => s != []
    case VNone => false
  }

  /** An integer option; a bool counts as 0 or 1, as it does in Python. */
  function AsInt(v: Value): int
  {
    match v
    case VBool(b) => if b then 1 else 0
    case VInt(i) => i
    case _ => 0
  }

  /** Diff.opts (diff.py:54-55): the keywords a Diff accepts. */
  const DiffOpts: set<string> := {"filters", "excludes", "regexfilters", "includedirs", "timeprecision",
                                  "recursive", "newer", "forceUpdate", "filelist", "sizeLimit"}

  /** The class attributes of Diff (diff.py:47-53) and the instance's
      `filelist = None` (diff.py:69). `forceUpdate` and `sizeLimit` have no
      default: a Diff built without them fails when it runs. */
  const DiffDefaults: Settings := map[
    "filters" := VStrs([]), "excludes" := VStrs([]), "regexfilters" := VBool(true),
    "includedirs" := VBool(true), "timeprecision" := VInt(3), "recursive" := VBool(true),
    "newer" := VBool(true), "filelist" := VNone]

  /** Sync's diff settings (sync.py:51-62). */
  const SyncDiffDefaults: Settings := map[
    "filters" := VStrs([]), "excludes" := VStrs([".DS_Store", "Thumbs.db", ".place-holder"]),
    "filelist" := VPaths([]), "regexfilters" := VBool(false), "includedirs" := VBool(true),
    "timeprecision" := VInt(3), "recursive" := VBool(true), "newer" := VBool(true),
    "forceUpdate" := VBool(false), "sizeLimit" := VInt(0)]

  /** Sync's run settings (sync.py:63-71). */
  const SyncRunDefaults: Settings := map[
    "maketarget" := VBool(true), "trimmed" := VBool(true), "create" := VBool(false),
    "update" := VBool(false), "purge" := VBool(false), "forceOwnership" := VBool(false),
    "errorsToDebug" := VBool(false)]

  /** The entries of `kw` whose key is in `keys`. */
  function Restrict(kw: Settings, keys: set<string>): (r: Settings)
    ensures forall k :: k in r <==> k in kw && k in keys
    ensures forall k :: k in r ==> r[k] == kw[k]
  {
    map k | k in kw && k in keys :: kw[k]
  }

  /** A flag: truthy when present; a missing run setting reads as false. */
  predicate Flag(m: Settings, k: string)
  {
    k in m && Truthy(m[k])
  }

  /** Every value the comparison reads has a type it can use: pattern lists
      are lists of strings, the file list is a list of paths or None,
      precision is a number and the size limit a number or None (no limit,
      since diff.py:276 tests it for truth first). */
  predicate WellTyped(m: Settings)
  {
    ("filters" in m ==> m["filters"].VStrs?) &&
    ("excludes" in m ==> m["excludes"].VStrs?) &&
    ("filelist" in m ==> m["filelist"].VPaths? || m["filelist"].VNone?) &&
    ("timeprecision" in m ==> m["timeprecision"].VInt? || m["timeprecision"].VBool?) &&
    ("sizeLimit" in m ==> m["sizeLimit"].VInt? || m["sizeLimit"].VBool? || m["sizeLimit"].VNone?)
  }

  /** The settings one comparison reads, with their Python meaning. */
  datatype DiffSettings = DiffSettings(
    filters: seq<string>,
    excludes: seq<string>,
    regex: bool,
    includedirs: bool,
    timeprecision: int,
    recursive: bool,
    newer: bool,
    forceUpdate: bool,
    sizeLimit: int)

  /** The attributes of a Diff read as settings; needs every option set. */
  function ToSettings(m: Settings): DiffSettings
    requires WellTyped(m) && DiffOpts <= m.Keys
  {
    DiffSettings(
      m["filters"].strs, m["excludes"].strs, Truthy(m["regexfilters"]), Truthy(m["includedirs"]),
      AsInt(m["timeprecision"]), Truthy(m["recursive"]), Truthy(m["newer"]),
      Truthy(m["forceUpdate"]), AsInt(m["sizeLimit"]))
  }

  /** A comparison reads only the options a Diff accepts: settings that
      agree on those read the same, whatever else they hold (diff.py:70-72
      drops every other keyword). */
  lemma ToSettingsReadsOnlyOpts(m: Settings, m': Settings)
    requires WellTyped(m) && DiffOpts <= m.Keys && WellTyped(m') && DiffOpts <= m'.Keys
    requires forall k :: k in DiffOpts ==> m[k] == m'[k]
    ensures ToSettings(m) == ToSettings(m')
  {
  }

  /** The file list a Diff holds: None or the list of paths. */
  function FileList(m: Settings): (r: Option<seq<Path>>)
    requires WellTyped(m)
    ensures r.Some? <==> "filelist" in m && m["filelist"].VPaths?
  {
    if "filelist" in m && m["filelist"].VPaths? then Some(m["filelist"].paths) else None
  }

  /** Storing a list of paths as the file list keeps the settings well typed. */
  lemma SetFileList(m: Settings, fl: seq<Path>)
    requires WellTyped(m)
    ensures WellTyped(m["filelist" := VPaths(fl)])
    ensures FileList(m["filelist" := VPaths(fl)]) == Some(fl)
  {
  }

  /** Sync's diff defaults are well typed and set every option of a Diff. */
  lemma SyncDiffDefaultsComplete()
    ensures WellTyped(SyncDiffDefaults) && SyncDiffDefaults.Keys == DiffOpts
  {
  }

  /** Sync's two dictionaries share no key, so routing a keyword is never
      ambiguous. */
  lemma SyncDefaultsDisjoint()
    ensures SyncDiffDefaults.Keys !! SyncRunDefaults.Keys
  {
  }

  /** What a comparison with Sync's defaults reads: no filters, the three
      default excludes, literal patterns, directories included. */
  lemma SyncDiffDefaultsRead()
    ensures WellTyped(SyncDiffDefaults) && DiffOpts <= SyncDiffDefaults.Keys
    ensures ToSettings(SyncDiffDefaults) == DiffSettings([], [".DS_Store", "Thumbs.db", ".place-holder"], false, true, 3, true, true, false, 0)
  {
    SyncDiffDefaultsComplete();
  }

  /** A Diff's class defaults lack `forceUpdate` and `sizeLimit`. */
  lemma DiffDefaultsIncomplete()
    ensures WellTyped(DiffDefaults)
    ensures "forceUpdate" !in DiffDefaults && "sizeLimit" !in DiffDefaults
    ensures DiffDefaults.Keys + {"forceUpdate", "sizeLimit"} == DiffOpts
  {
  }
}
