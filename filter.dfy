/** The name filter of Diff.run (diff.py:247-280).

    Pattern matching is a parameter: `search(pattern, name)` answers whether
    `re.search(pattern, name)` finds a match. With `regexfilters` off the
    patterns are escaped first, so a pattern matches exactly when it occurs
    in the name as a substring. */
module Filter {
  import opened Options

  type Search = (string, string) -> bool

  /** `p` occurs in `s` starting at index `i`. */
  predicate OccursAt(p: string, s: string, i: int)
  {
    0 <= i <= |s| - |p| && s[i..i + |p|] == p
  }

  /** `p` occurs somewhere in `s`. */
  predicate IsSubstring(p: string, s: string)
  {
    exists i | 0 <= i <= |s| - |p| :: OccursAt(p, s, i)
  }

  /** f.search(name) for a compiled filter or exclude (diff.py:248-257). */
  predicate Matches(search: Search, regex: bool, pattern: string, name: string)
  {
    if regex then search(pattern, name) else IsSubstring(pattern, name)
  }

  predicate AnyMatches(search: Search, regex: bool, patterns: seq<string>, name: string)
  {
    exists i | 0 <= i < |patterns| :: Matches(search, regex, patterns[i], name)
  }

  /** The size rule: with a positive `sizeLimit`, a path whose size in whole
      kilobytes is below the limit is rejected. */
  predicate TooSmall(st: DiffSettings, size: Option<nat>)
  {
    size.Some? && st.sizeLimit > 0 && size.value / 1024 < st.sizeLimit
  }

  /** What __filter answers: included (no filters, or one matches), not
      excluded, and not too small when a path is given. */
  predicate Accepts(st: DiffSettings, search: Search, name: string, size: Option<nat>)
  {
    (st.filters == [] || AnyMatches(search, st.regex, st.filters, name))
    && !AnyMatches(search, st.regex, st.excludes, name)
    && !TooSmall(st, size)
  }

  /** __filter (diff.py:260-280), step by step: `size` is the size of the
      path when one is passed, None for the name-only check. */
  method FilterName(st: DiffSettings, search: Search, name: string, size: Option<nat>) returns (result: bool)
    ensures result == Accepts(st, search, name, size)
  {
    result := false;
    if |st.filters| == 0 {
      result := true;
    } else {
      for i := 0 to |st.filters|
        invariant result <==> AnyMatches(search, st.regex, st.filters[..i], name)
      {
        if Matches(search, st.regex, st.filters[i], name) {
          result := true;
        }
        assert st.filters[..i + 1] == st.filters[..i] + [st.filters[i]];
      }
      assert st.filters[..|st.filters|] == st.filters;
    }
    ghost var included := result;
    for i := 0 to |st.excludes|
      invariant result <==> included && !AnyMatches(search, st.regex, st.excludes[..i], name)
    {
      if Matches(search, st.regex, st.excludes[i], name) {
        result := false;
      }
      assert st.excludes[..i + 1] == st.excludes[..i] + [st.excludes[i]];
    }
    assert st.excludes[..|st.excludes|] == st.excludes;
    if size.Some? {
      if st.sizeLimit > 0 {
        var kb := size.value / 1024;
        if kb < st.sizeLimit {
          result := false;
        }
      }
    }
  }

  /** A matching exclude rejects, whatever the filters and the size say. */
  lemma ExcludeWins(st: DiffSettings, search: Search, name: string, size: Option<nat>, i: nat)
    requires i < |st.excludes| && Matches(search, st.regex, st.excludes[i], name)
    ensures !Accepts(st, search, name, size)
  {
  }

  /** With no filters and no excludes, only the size rule can reject. */
  lemma NoPatternsOnlySize(st: DiffSettings, search: Search, name: string, size: Option<nat>)
    requires st.filters == [] && st.excludes == []
    ensures Accepts(st, search, name, size) <==> !TooSmall(st, size)
  {
  }

  /** Passing a path can only reject more: the size rule never admits a name
      the name-only check rejects, and the name-only check (used for purges)
      never looks at sizes. */
  lemma SizeOnlyRestricts(st: DiffSettings, search: Search, name: string, size: nat)
    ensures Accepts(st, search, name, Some(size)) ==> Accepts(st, search, name, None)
    ensures Accepts(st, search, name, None) && !TooSmall(st, Some(size)) ==> Accepts(st, search, name, Some(size))
  {
  }

  /** The size rule in whole bytes: with a positive limit a file is too
      small exactly when it holds fewer than `1024 * sizeLimit` bytes (the
      floor division of diff.py:277 changes nothing), and a limit that is
      not positive rejects nothing. */
  lemma SizeLimitRule(st: DiffSettings, n: nat)
    ensures st.sizeLimit > 0 ==> (TooSmall(st, Some(n)) <==> n < 1024 * st.sizeLimit)
    ensures st.sizeLimit <= 0 ==> !TooSmall(st, Some(n))
  {
    if st.sizeLimit > 0 {
      var q, r := n / 1024, n % 1024;
      assert n == 1024 * q + r && 0 <= r < 1024;
      if q < st.sizeLimit {
        assert n < 1024 * (q + 1) <= 1024 * st.sizeLimit;
      } else {
        assert n >= 1024 * q >= 1024 * st.sizeLimit;
      }
    }
  }

  /** A size limit of None, False or 0 is no limit (the truth test of
      diff.py:276): the size of a path never rejects it. */
  lemma FalsySizeLimitNoLimit(m: Settings, size: Option<nat>)
    requires WellTyped(m) && DiffOpts <= m.Keys && !Truthy(m["sizeLimit"])
    ensures !TooSmall(ToSettings(m), size)
  {
  }

  /** In literal mode a name always contains itself. */
  lemma {:induction false} SubstringOfItself(s: string)
    ensures IsSubstring(s, s)
  {
    assert s[0..|s|] == s;
    assert OccursAt(s, s, 0);
  }

  /** In literal mode every name in the exclude list is rejected; with Sync's
      default excludes, ".DS_Store" and "Thumbs.db" are never synchronised. */
  lemma {:induction false} LiteralExcludeRejectsItself(st: DiffSettings, search: Search, name: string, size: Option<nat>)
    requires !st.regex && name in st.excludes
    ensures !Accepts(st, search, name, size)
  {
    SubstringOfItself(name);
    var i :| 0 <= i < |st.excludes| && st.excludes[i] == name;
    assert Matches(search, st.regex, st.excludes[i], name);
  }

  /** A literal pattern matches every name that contains it: "tmp" excludes
      "a.tmp" and "tmpfile" alike. */
  lemma {:induction false} LiteralMatchesContainingNames(search: Search, pattern: string, pre: string, post: string)
    ensures Matches(search, false, pattern, pre + pattern + post)
  {
    var s := pre + pattern + post;
    assert s[|pre|..|pre| + |pattern|] == pattern;
    assert OccursAt(pattern, s, |pre|);
  }
}
