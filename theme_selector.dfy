/** The theme picker: the order in which themes are listed, the match list
    the picker shows, which entry is selected, and the rule that a theme that
    was only previewed is reverted to the original theme exactly when the
    picker closes without a confirmed selection. */
module ThemeSelector {
  import opened Options
  import opened Sequences
  import opened Strings

  /** A theme as the registry lists it. */
  datatype ThemeMeta = ThemeMeta(name: string, isLight: bool)

  /** A loaded theme; only its metadata is visible to the picker. */
  datatype Theme = Theme(meta: ThemeMeta)

  /** An entry of the picker's list: the candidate it came from, the theme
      name, and the highlighted character positions. The score, a floating
      point number that is 0 on every path modelled here, is left out. */
  datatype StringMatch = StringMatch(candidateId: nat, str: string, positions: seq<nat>)

  // ===========================================================================
  // The listing order
  // ===========================================================================

  /** The comparator of `new`, as "not Greater": the `is_light` comparison is
      reversed, so light themes come first, and ties are broken by name. */
  predicate ThemeLe(a: ThemeMeta, b: ThemeMeta) {
    if a.isLight != b.isLight then a.isLight else NameLe(a.name, b.name)
  }

  lemma ThemeLeTotal(a: ThemeMeta, b: ThemeMeta)
    ensures ThemeLe(a, b) || ThemeLe(b, a)
  {
    NameLeTotal(a.name, b.name);
  }

  lemma ThemeLeTransitive(a: ThemeMeta, b: ThemeMeta, c: ThemeMeta)
    requires ThemeLe(a, b) && ThemeLe(b, c)
    ensures ThemeLe(a, c)
  {
    if a.isLight == b.isLight && b.isLight == c.isLight {
      NameLeTransitive(a.name, b.name, c.name);
    }
  }

  lemma ThemeLeAntisymmetric(a: ThemeMeta, b: ThemeMeta)
    requires ThemeLe(a, b) && ThemeLe(b, a)
    ensures a == b
  {
    if a.isLight == b.isLight {
      NameLeAntisymmetric(a.name, b.name);
    }
  }

  predicate SortedThemes(s: seq<ThemeMeta>) {
    forall i, j :: 0 <= i < j < |s| ==> ThemeLe(s[i], s[j])
  }

  /** Sorted order means: every light theme before every dark theme, and names ascending within each group. */
  lemma SortedGroups(s: seq<ThemeMeta>, i: nat, j: nat)
    requires SortedThemes(s) && i < j < |s|
    ensures !s[i].isLight ==> !s[j].isLight
    ensures s[i].isLight == s[j].isLight ==> NameLe(s[i].name, s[j].name)
  {
  }

  lemma PrependSorted(y: ThemeMeta, t: seq<ThemeMeta>)
    requires SortedThemes(t)
    requires forall j :: 0 <= j < |t| ==> ThemeLe(y, t[j])
    ensures SortedThemes([y] + t)
  {
    var r := [y] + t;
    forall i, j | 0 <= i < j < |r| ensures ThemeLe(r[i], r[j]) {
      assert r[j] == t[j - 1];
      if i > 0 {
        assert r[i] == t[i - 1];
      }
    }
  }

  /** A bound below the head of a sorted sequence is a bound below all of it. */
  lemma BelowHead(y: ThemeMeta, s: seq<ThemeMeta>)
    requires SortedThemes(s) && s != [] && ThemeLe(y, s[0])
    ensures forall j :: 0 <= j < |s| ==> ThemeLe(y, s[j])
  {
    forall j | 0 < j < |s| ensures ThemeLe(y, s[j]) {
      ThemeLeTransitive(y, s[0], s[j]);
    }
  }

  /** A bound below `x` and below every element of `s` is a bound below every element of `t`, a permutation of `s` plus `x`. */
  lemma BelowPermutation(y: ThemeMeta, x: ThemeMeta, s: seq<ThemeMeta>, t: seq<ThemeMeta>)
    requires multiset(t) == multiset(s) + multiset{x}
    requires ThemeLe(y, x) && forall k :: 0 <= k < |s| ==> ThemeLe(y, s[k])
    ensures forall j :: 0 <= j < |t| ==> ThemeLe(y, t[j])
  {
    forall j | 0 <= j < |t| ensures ThemeLe(y, t[j]) {
      assert t[j] in multiset(t);
      if t[j] != x {
        assert t[j] in multiset(s);
        var k :| 0 <= k < |s| && s[k] == t[j];
      }
    }
  }

  /** Inserting one theme into a sorted list keeps it sorted and keeps every theme. */
  function InsertTheme(x: ThemeMeta, s: seq<ThemeMeta>): (r: seq<ThemeMeta>)
    requires SortedThemes(s)
    ensures SortedThemes(r)
    ensures multiset(r) == multiset(s) + multiset{x}
  {
    if s == [] then [x]
    else if ThemeLe(x, s[0]) then
      BelowHead(x, s);
      PrependSorted(x, s);
      [x] + s
    else
      var t := InsertTheme(x, s[1..]);
      assert s == [s[0]] + s[1..];
      ThemeLeTotal(x, s[0]);
      BelowPermutation(s[0], x, s[1..], t);
      PrependSorted(s[0], t);
      [s[0]] + t
  }

  /** The themes in the picker's order: sorted, and a permutation of the listed themes. */
  function SortThemes(s: seq<ThemeMeta>): (r: seq<ThemeMeta>)
    ensures SortedThemes(r)
    ensures multiset(r) == multiset(s)
  {
    if s == [] then []
    else
      assert s == [s[0]] + s[1..];
      InsertTheme(s[0], SortThemes(s[1..]))
  }

  lemma SortedTail(s: seq<ThemeMeta>)
    requires SortedThemes(s) && s != []
    ensures SortedThemes(s[1..])
    ensures multiset(s[1..]) == multiset(s) - multiset{s[0]}
  {
    assert s == [s[0]] + s[1..];
    forall i, j | 0 <= i < j < |s| - 1 ensures ThemeLe(s[1..][i], s[1..][j]) {
      assert s[1..][i] == s[i + 1] && s[1..][j] == s[j + 1];
    }
  }

  /** The head of a sorted sequence is below everything in it. */
  lemma HeadIsLeast(s: seq<ThemeMeta>, x: ThemeMeta)
    requires SortedThemes(s) && x in multiset(s)
    ensures ThemeLe(s[0], x)
  {
    var j :| 0 <= j < |s| && s[j] == x;
    if j == 0 {
      NameLeTotal(x.name, x.name);
    }
  }

  /** The order is total on theme metadata, so there is only one sorted
      permutation: the unstable sort of the source gives the same list as
      `SortThemes`, whatever order the registry listed the themes in. */
  lemma {:induction false} SortedPermutationUnique(a: seq<ThemeMeta>, b: seq<ThemeMeta>)
    requires SortedThemes(a) && SortedThemes(b) && multiset(a) == multiset(b)
    ensures a == b
    decreases |a|
  {
    assert |multiset(a)| == |a| && |multiset(b)| == |b|;
    if a != [] {
      HeadIsLeast(b, a[0]);
      HeadIsLeast(a, b[0]);
      ThemeLeAntisymmetric(a[0], b[0]);
      SortedTail(a);
      SortedTail(b);
      SortedPermutationUnique(a[1..], b[1..]);
      assert a == [a[0]] + a[1..] && b == [b[0]] + b[1..];
    }
  }

  lemma SortThemesIsTheOrder(listed: seq<ThemeMeta>, sorted: seq<ThemeMeta>)
    requires SortedThemes(sorted) && multiset(sorted) == multiset(listed)
    ensures sorted == SortThemes(listed)
  {
    SortedPermutationUnique(sorted, SortThemes(listed));
  }

  // ===========================================================================
  // Match lists
  // ===========================================================================

  function ThemeNames(themes: seq<ThemeMeta>): (names: seq<string>)
    ensures |names| == |themes| && forall i :: 0 <= i < |themes| ==> names[i] == themes[i].name
  {
    seq(|themes|, i requires 0 <= i < |themes| => themes[i].name)
  }

  function MatchNames(ms: seq<StringMatch>): (names: seq<string>)
    ensures |names| == |ms| && forall i :: 0 <= i < |ms| ==> names[i] == ms[i].str
  {
    seq(|ms|, i requires 0 <= i < |ms| => ms[i].str)
  }

  /** The list `new` builds: one entry per theme, in order, every one with candidate id 0 and no highlights. */
  function InitialMatches(themes: seq<ThemeMeta>): (ms: seq<StringMatch>)
    ensures MatchNames(ms) == ThemeNames(themes)
    ensures forall i :: 0 <= i < |ms| ==> ms[i].candidateId == 0 && ms[i].positions == []
  {
    seq(|themes|, i requires 0 <= i < |themes| => StringMatch(0, themes[i].name, []))
  }

  /** The list an empty query yields: one entry per theme, in order, entry `i` with candidate id `i` and no highlights. */
  function EmptyQueryMatches(themes: seq<ThemeMeta>): (ms: seq<StringMatch>)
    ensures MatchNames(ms) == ThemeNames(themes)
    ensures forall i :: 0 <= i < |ms| ==> ms[i].candidateId == i && ms[i].positions == []
  {
    seq(|themes|, i requires 0 <= i < |themes| => StringMatch(i, themes[i].name, []))
  }

  /** In the empty-query list every candidate id names the theme of its entry, and no two entries share one. */
  lemma EmptyQueryCandidates(themes: seq<ThemeMeta>)
    ensures var ms := EmptyQueryMatches(themes);
            && (forall i :: 0 <= i < |ms| ==> ms[i].candidateId < |themes| && themes[ms[i].candidateId].name == ms[i].str)
            && (forall i, j :: 0 <= i < j < |ms| ==> ms[i].candidateId != ms[j].candidateId)
  {
  }

  /** Clearing the query shows the same entries, in the same order, as the picker opened with. */
  lemma EmptyQueryRestoresInitialList(themes: seq<ThemeMeta>)
    ensures MatchNames(EmptyQueryMatches(themes)) == MatchNames(InitialMatches(themes))
    ensures forall name :: IndexOf(MatchNames(EmptyQueryMatches(themes)), name) == IndexOf(ThemeNames(themes), name)
  {
  }

  /** The selection `select_if_matching` leaves: the first entry with this
      name, or the current selection when no entry has it. */
  function MatchingIndex(ms: seq<StringMatch>, themeName: string, current: nat): (r: nat)
    ensures themeName in MatchNames(ms) ==>
      r < |ms| && ms[r].str == themeName && forall i :: 0 <= i < r ==> ms[i].str != themeName
    ensures themeName !in MatchNames(ms) ==> r == current
  {
    var names := MatchNames(ms);
    match IndexOf(names, themeName)
    case None => current
    case Some(ix) =>
      assert forall i :: 0 <= i < ix ==> names[i] == names[..ix][i];
      ix
  }

  /** `n.saturating_sub(1)` on `usize`. */
  function SaturatingPred(n: nat): (r: nat)
    ensures n > 0 ==> r == n - 1
    ensures n == 0 ==> r == 0
  {
    if n > 0 then n - 1 else 0
  }

  /** `ix.min(len.saturating_sub(1))`: the selection after the list changes. */
  function ClampIndex(ix: nat, len: nat): (r: nat)
    ensures r <= ix
    ensures len > 0 ==> r < len
    ensures ix < len ==> r == ix
    ensures ix >= len > 0 ==> r == len - 1
    ensures len == 0 ==> r == 0
  {
    var last := SaturatingPred(len);
    if ix < last then ix else last
  }

  /** Clamping twice is clamping once. */
  lemma ClampIdempotent(ix: nat, len: nat)
    ensures ClampIndex(ClampIndex(ix, len), len) == ClampIndex(ix, len)
  {
  }

  // ===========================================================================
  // The picker
  // ===========================================================================

  /** The global settings; the picker only reads and writes the current theme. */
  class Settings {
    var theme: Theme

    constructor (theme: Theme)
      ensures this.theme == theme
    {
      this.theme := theme;
    }
  }

  class ThemeSelector {
    /** Loaded themes by name; a name that is missing stands for a theme that fails to load. */
    const registry: map<string, Theme>
    const settings: Settings
    var themeData: seq<ThemeMeta>
    var matches: seq<StringMatch>
    const originalTheme: Theme
    var selectionCompleted: bool
    var selectedIndex: nat

    /** How many times the original theme has been put back, and whether the
        picker has been released; both only serve the proofs. */
    ghost var reverts: nat
    ghost var released: bool

    /** The original theme is put back at most once, and never while the selection is still open. */
    ghost predicate Valid()
      reads this
    {
      reverts <= (if selectionCompleted || released then 1 else 0)
    }

    /** `new`: the listed themes in the picker's order, one match per theme,
        the original theme remembered, and that theme selected if it is listed. */
    constructor (registry: map<string, Theme>, listed: seq<ThemeMeta>, settings: Settings)
      ensures this.registry == registry && this.settings == settings
      ensures themeData == SortThemes(listed)
      ensures matches == InitialMatches(themeData)
      ensures originalTheme == settings.theme
      ensures !selectionCompleted
      ensures selectedIndex == MatchingIndex(matches, originalTheme.meta.name, 0)
      ensures Valid() && !released && reverts == 0
    {
      this.registry := registry;
      this.settings := settings;
      originalTheme := settings.theme;
      var themeNames := SortThemes(listed);
      themeData := themeNames;
      var initial := InitialMatches(themeNames);
      matches := initial;
      // `select_if_matching` on the original theme's name, from selection 0
      selectedIndex := MatchingIndex(initial, settings.theme.meta.name, 0);
      selectionCompleted := false;
      reverts := 0;
      released := false;
    }

    /** `select_if_matching`: the first entry with this name, or the old selection when there is none. */
    method SelectIfMatching(themeName: string)
      modifies this`selectedIndex
      ensures selectedIndex == MatchingIndex(matches, themeName, old(selectedIndex))
    {
      selectedIndex := MatchingIndex(matches, themeName, selectedIndex);
    }

    /** The theme previewing entry `ix` puts in the settings: none when `ix`
        is past the end of the list or the theme fails to load. */
    function PreviewTheme(ix: nat): (r: Option<Theme>)
      reads this
      ensures r.Some? <==> ix < |matches| && matches[ix].str in registry
      ensures r.Some? ==> r.value == registry[matches[ix].str]
    {
      if ix < |matches| && matches[ix].str in registry then Some(registry[matches[ix].str]) else None
    }

    /** `show_selected_theme`: previews the selected entry, or leaves the settings alone. */
    method ShowSelectedTheme()
      modifies settings`theme
      ensures settings.theme == PreviewTheme(selectedIndex).GetOr(old(settings.theme))
    {
      if selectedIndex < |matches| {
        var name := matches[selectedIndex].str;
        if name in registry {
          settings.theme := registry[name];
        }
      }
    }

    /** `set_selected_index`: stores the index as given and previews it. */
    method SetSelectedIndex(ix: nat)
      modifies this`selectedIndex, settings`theme
      ensures selectedIndex == ix
      ensures settings.theme == PreviewTheme(ix).GetOr(old(settings.theme))
      ensures ix >= |matches| ==> settings.theme == old(settings.theme)
    {
      selectedIndex := ix;
      ShowSelectedTheme();
    }

    /** `update_matches`, once the matching has finished: an empty query lists
        every theme, any other query takes the fuzzy matcher's result (an input
        here); the selection is clamped into the new list and previewed. */
    method UpdateMatches(query: string, fuzzyMatches: seq<StringMatch>)
      modifies this`matches, this`selectedIndex, settings`theme
      ensures matches == if query == [] then EmptyQueryMatches(themeData) else fuzzyMatches
      ensures selectedIndex == ClampIndex(old(selectedIndex), |matches|)
      ensures |matches| > 0 ==> selectedIndex < |matches|
      ensures settings.theme == PreviewTheme(selectedIndex).GetOr(old(settings.theme))
    {
      if query == [] {
        matches := EmptyQueryMatches(themeData);
      } else {
        matches := fuzzyMatches;
      }
      selectedIndex := ClampIndex(selectedIndex, |matches|);
      ShowSelectedTheme();
    }

    /** `confirm`: the previewed theme stays. */
    method Confirm()
      requires Valid() && !released
      modifies this`selectionCompleted
      ensures selectionCompleted
      ensures Valid()
    {
      selectionCompleted := true;
    }

    /** `dismiss`: the original theme is put back unless the selection was
        already completed; either way the selection is completed afterwards. */
    method Dismiss()
      requires Valid() && !released
      modifies this`selectionCompleted, this`reverts, settings`theme
      ensures selectionCompleted
      ensures settings.theme == if old(selectionCompleted) then old(settings.theme) else originalTheme
      ensures reverts == if old(selectionCompleted) then old(reverts) else old(reverts) + 1
      ensures Valid()
    {
      if !selectionCompleted {
        settings.theme := originalTheme;
        reverts := reverts + 1;
        selectionCompleted := true;
      }
    }

    /** `release`, when the picker is dropped: the original theme is put back exactly when the selection was never completed. */
    method Release()
      requires Valid() && !released
      modifies this`released, this`reverts, settings`theme
      ensures released
      ensures settings.theme == if selectionCompleted then old(settings.theme) else originalTheme
      ensures reverts == if selectionCompleted then old(reverts) else old(reverts) + 1
      ensures Valid()
    {
      if !selectionCompleted {
        settings.theme := originalTheme;
        reverts := reverts + 1;
      }
      released := true;
    }
  }
}
