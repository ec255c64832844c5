/** The catalogue page (client/src/pages/ToolsPage.tsx): the tag bar built
    from every tool's tags, and the search-and-tag filter over the listed
    tools. */
module Catalogue {
  import opened Wrappers
  import opened Text
  import opened Schema
  import opened Lists

  // --------------------------------------------------------------- tags

  /** `tools.flatMap((tool) => tool.tags)`. */
  function TagsOf(tools: seq<ToolWithButtons>): (r: seq<string>)
    ensures tools == [] ==> r == []
  {
    if tools == [] then [] else tools[0].tool.tags + TagsOf(tools[1..])
  }

  /** A tag is in the flattened list exactly when some tool carries it. */
  lemma {:induction false} TagsOfMembers(tools: seq<ToolWithButtons>, tag: string)
    ensures tag in TagsOf(tools) <==> exists i :: 0 <= i < |tools| && tag in tools[i].tool.tags
  {
    if tools != [] {
      TagsOfMembers(tools[1..], tag);
      if tag in TagsOf(tools[1..]) {
        var i :| 0 <= i < |tools[1..]| && tag in tools[1..][i].tool.tags;
        assert tag in tools[i + 1].tool.tags;
      }
      if i :| 0 <= i < |tools| && tag in tools[i].tool.tags {
        if i > 0 {
          assert tools[1..][i - 1] == tools[i];
        }
      }
    }
  }

  /** Ascending in the order of JavaScript's default `sort`, with no two
      entries equal. */
  ghost predicate StrictlySorted(s: seq<string>) {
    forall i, j :: 0 <= i < j < |s| ==> StrLess(s[i], s[j])
  }

  /** A strictly sorted list has no duplicates. */
  lemma StrictlySortedDistinct(s: seq<string>, i: int, j: int)
    requires StrictlySorted(s)
    requires 0 <= i < j < |s|
    ensures s[i] != s[j]
  {
    if s[i] == s[j] {
      StrLessIrreflexive(s[i]);
      assert false;
    }
  }

  /** Adds `x` to an ascending list unless it is already there. */
  function InsertUnique(x: string, s: seq<string>): (r: seq<string>)
    ensures |r| <= |s| + 1
  {
    if s == [] then [x]
    else if x == s[0] then s
    else if StrLess(x, s[0]) then [x] + s
    else [s[0]] + InsertUnique(x, s[1..])
  }

  lemma {:induction false} InsertUniqueMembers(x: string, s: seq<string>, y: string)
    ensures y in InsertUnique(x, s) <==> y in s || y == x
  {
    if s != [] && x != s[0] && !StrLess(x, s[0]) {
      InsertUniqueMembers(x, s[1..], y);
      assert y in s <==> y == s[0] || y in s[1..] by {
        assert s == [s[0]] + s[1..];
      }
    }
  }

  lemma {:induction false} InsertUniqueSorted(x: string, s: seq<string>)
    requires StrictlySorted(s)
    ensures StrictlySorted(InsertUnique(x, s))
  {
    if s == [] || x == s[0] {
    } else if StrLess(x, s[0]) {
      var r := [x] + s;
      forall i, j | 0 <= i < j < |r| ensures StrLess(r[i], r[j]) {
        if i == 0 && j > 1 {
          StrLessTransitive(x, s[0], s[j - 1]);
        }
      }
    } else {
      StrLessTrichotomy(x, s[0]);
      var rest := InsertUnique(x, s[1..]);
      assert StrictlySorted(s[1..]) by {
        forall i, j | 0 <= i < j < |s[1..]| ensures StrLess(s[1..][i], s[1..][j]) {
          assert s[1..][i] == s[i + 1] && s[1..][j] == s[j + 1];
        }
      }
      InsertUniqueSorted(x, s[1..]);
      var r := [s[0]] + rest;
      forall i, j | 0 <= i < j < |r| ensures StrLess(r[i], r[j]) {
        if i == 0 {
          assert r[j] == rest[j - 1] && rest[j - 1] in rest;
          InsertUniqueMembers(x, s[1..], rest[j - 1]);
          if rest[j - 1] != x {
            var m :| 0 <= m < |s[1..]| && s[1..][m] == rest[j - 1];
            assert s[m + 1] == rest[j - 1];
          }
        } else {
          assert r[i] == rest[i - 1] && r[j] == rest[j - 1];
        }
      }
    }
  }

  /** The distinct entries of `xs`, ascending (`Array.from(new Set(xs)).sort()`). */
  function SortUnique(xs: seq<string>): (r: seq<string>)
    ensures |r| <= |xs|
  {
    if xs == [] then [] else InsertUnique(xs[0], SortUnique(xs[1..]))
  }

  lemma {:induction false} SortUniqueSpec(xs: seq<string>)
    ensures StrictlySorted(SortUnique(xs))
    ensures forall y :: y in SortUnique(xs) <==> y in xs
  {
    if xs != [] {
      SortUniqueSpec(xs[1..]);
      InsertUniqueSorted(xs[0], SortUnique(xs[1..]));
      forall y ensures y in SortUnique(xs) <==> y in xs {
        InsertUniqueMembers(xs[0], SortUnique(xs[1..]), y);
        assert y in xs <==> y == xs[0] || y in xs[1..] by {
          assert xs == [xs[0]] + xs[1..];
        }
      }
    }
  }

  /** The tag bar: every tag of the loaded tools once, ascending; nothing
      while the tools are not loaded (`tools?.flatMap(...) || []`). */
  function AllTags(tools: Option<seq<ToolWithButtons>>): seq<string> {
    SortUnique(TagsOf(tools.GetOr([])))
  }

  /** The tag bar is strictly ascending (so free of duplicates) and holds
      exactly the tags some loaded tool carries. */
  lemma AllTagsSpec(tools: Option<seq<ToolWithButtons>>, tag: string)
    ensures StrictlySorted(AllTags(tools))
    ensures tag in AllTags(tools) <==>
              tools.Some? && exists i :: 0 <= i < |tools.value| && tag in tools.value[i].tool.tags
  {
    SortUniqueSpec(TagsOf(tools.GetOr([])));
    TagsOfMembers(tools.GetOr([]), tag);
  }

  // ------------------------------------------------------------- filter

  /** Some tag contains the (lower-cased) query, case-insensitively. */
  predicate SomeTagIncludes(tags: seq<string>, query: string) {
    exists k :: 0 <= k < |tags| && Includes(Lower(tags[k]), query)
  }

  /** `matchesSearch`: an empty term matches everything; otherwise the term
      occurs, ignoring case, in the title, the short description or a tag. */
  predicate MatchesSearch(t: Tool, term: string) {
    var q := Lower(term);
    term == "" || Includes(Lower(t.title), q) || Includes(Lower(t.short_desc), q) || SomeTagIncludes(t.tags, q)
  }

  /** `matchesTag`: no tag (or the empty tag, which is falsy) matches
      everything; otherwise the tool carries that tag exactly. */
  predicate MatchesTag(t: Tool, selected: Option<string>) {
    selected.None? || selected.value == "" || selected.value in t.tags
  }

  predicate Matches(t: ToolWithButtons, term: string, selected: Option<string>) {
    MatchesSearch(t.tool, term) && MatchesTag(t.tool, selected)
  }

  /** `filteredTools`: the listed tools that match, in list order. */
  function FilteredTools(tools: seq<ToolWithButtons>, term: string, selected: Option<string>): (r: seq<ToolWithButtons>)
    ensures |r| <= |tools|
    ensures forall i :: 0 <= i < |r| ==> Matches(r[i], term, selected)
  {
    Keep(tools, t => Matches(t, term, selected))
  }

  /** A tool is shown exactly when it is listed and matches both the search
      and the tag filter; the shown tools keep their list order. */
  lemma FilteredToolsSpec(tools: seq<ToolWithButtons>, more: seq<ToolWithButtons>, term: string,
                          selected: Option<string>, t: ToolWithButtons)
    ensures t in FilteredTools(tools, term, selected) <==> t in tools && Matches(t, term, selected)
    ensures FilteredTools(tools + more, term, selected)
            == FilteredTools(tools, term, selected) + FilteredTools(more, term, selected)
  {
    KeepMembers(tools, t => Matches(t, term, selected), t);
    KeepConcat(tools, more, t => Matches(t, term, selected));
  }

  /** With an empty search and no tag selected, every tool is shown. */
  lemma {:induction false} EmptyFilterShowsAll(tools: seq<ToolWithButtons>)
    ensures FilteredTools(tools, "", None) == tools
  {
    if tools != [] {
      EmptyFilterShowsAll(tools[1..]);
      assert tools == [tools[0]] + tools[1..];
    }
  }

  /** Selecting a tag narrows the search result: it is the search result
      filtered again by the tag alone. */
  lemma {:induction false} TagNarrowsSearch(tools: seq<ToolWithButtons>, term: string, tag: string)
    ensures FilteredTools(tools, term, Some(tag)) == FilteredTools(FilteredTools(tools, term, None), "", Some(tag))
  {
    if tools != [] {
      TagNarrowsSearch(tools[1..], term, tag);
      var head := if Matches(tools[0], term, None) then [tools[0]] else [];
      FilteredToolsSpec(head, FilteredTools(tools[1..], term, None), "", Some(tag), tools[0]);
    }
  }

  /** So a tool shown with a tag selected is also shown without it. */
  lemma TagNeverAdds(tools: seq<ToolWithButtons>, term: string, tag: string, t: ToolWithButtons)
    requires t in FilteredTools(tools, term, Some(tag))
    ensures t in FilteredTools(tools, term, None)
  {
    FilteredToolsSpec(tools, [], term, Some(tag), t);
    FilteredToolsSpec(tools, [], term, None, t);
  }

  lemma LowerIdempotent(s: string)
    ensures Lower(Lower(s)) == Lower(s)
  {
  }

  /** The search ignores the case of the term. */
  lemma {:induction false} SearchIgnoresCase(tools: seq<ToolWithButtons>, term: string, selected: Option<string>)
    ensures FilteredTools(tools, Lower(term), selected) == FilteredTools(tools, term, selected)
  {
    LowerIdempotent(term);
    if tools != [] {
      SearchIgnoresCase(tools[1..], term, selected);
    }
  }

  // --------------------------------------------------------------- view

  /** What the page shows below the filters. */
  datatype Listing = Skeleton | NoResults | Showing(tools: seq<ToolWithButtons>, caption: string)

  /** `Showing {n} tool` for one result, `tools` otherwise. */
  function CountCaption(n: nat): (r: string)
    ensures n == 1 ==> r == "Showing 1 tool"
    ensures n != 1 ==> r == "Showing " + NatToString(n) + " tools"
  {
    "Showing " + NatToString(n) + " " + (if n == 1 then "tool" else "tools")
  }

  /** Different counts never share a caption: the count can be read back
      from it. */
  lemma CountCaptionInjective(a: nat, b: nat)
    requires CountCaption(a) == CountCaption(b)
    ensures a == b
  {
    var ca, cb := CountCaption(a), CountCaption(b);
    if a == 1 || b == 1 {
      assert |NatToString(a)| >= 1 && |NatToString(b)| >= 1;
      assert a == 1 && b == 1;
    } else {
      assert NatToString(a) == ca[8..|ca| - 6] == cb[8..|cb| - 6] == NatToString(b);
      NatToStringInjective(a, b);
    }
  }

  /** The skeleton while loading, the grid when some tool matches, and
      "No tools found" otherwise (also when the list failed to load). */
  function ToolsListing(isLoading: bool, tools: Option<seq<ToolWithButtons>>, term: string,
                        selected: Option<string>): (r: Listing)
    ensures isLoading <==> r == Skeleton
    ensures r.Showing? ==> tools.Some? && r.tools == FilteredTools(tools.value, term, selected) && r.tools != []
                           && r.caption == CountCaption(|r.tools|)
    ensures !isLoading && (tools.None? || FilteredTools(tools.value, term, selected) == []) <==> r == NoResults
  {
    if isLoading then Skeleton
    else if tools.Some? && |FilteredTools(tools.value, term, selected)| > 0 then
      var shown := FilteredTools(tools.value, term, selected);
      Showing(shown, CountCaption(|shown|))
    else NoResults
  }

  /** The tag bar is drawn only when some tag exists. */
  predicate ShowTagBar(tools: Option<seq<ToolWithButtons>>) {
    |AllTags(tools)| > 0
  }
}
