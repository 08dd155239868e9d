/** The "All Filters" side panel: seven collapsible sections whose open/closed
    state is kept as a list of the expanded section names. */
module JobFilters {
  import opened Seqs

  /** The seven sections, in display order; all of them start expanded. */
  const Sections: seq<string> :=
    ["workingSchedule", "employmentType", "companyType", "industry", "education", "distance", "skills"]

  const InitialExpanded: seq<string> := Sections

  predicate NoDuplicates(xs: seq<string>) {
    forall i, j :: 0 <= i < j < |xs| ==> xs[i] != xs[j]
  }

  /** `toggleSection`: remove the name if it is in the list, append it otherwise.
      Only that name changes membership. */
  function ToggleSection(expanded: seq<string>, section: string): (r: seq<string>)
    ensures section in r <==> section !in expanded
    ensures forall other :: other != section ==> (other in r <==> other in expanded)
  {
    if section in expanded then
      var kept := Filter(expanded, item => item != section);
      forall other
        ensures other in kept <==> other in expanded && other != section
      {
        FilterMembership(expanded, item => item != section, other);
      }
      kept
    else
      expanded + [section]
  }

  /** Removing keeps the others in order; appending puts the name last. */
  lemma ToggleKeepsOrder(expanded: seq<string>, section: string)
    ensures section in expanded ==> SubsequenceOf(ToggleSection(expanded, section), expanded)
    ensures section !in expanded ==> ToggleSection(expanded, section) == expanded + [section]
  {
  }

  /** A list without duplicates stays without duplicates. */
  lemma ToggleKeepsNoDuplicates(expanded: seq<string>, section: string)
    requires NoDuplicates(expanded)
    ensures NoDuplicates(ToggleSection(expanded, section))
  {
    if section in expanded {
      FilterNoDuplicates(expanded, item => item != section);
    }
  }

  /** Filtering a list without duplicates cannot create any. */
  lemma {:induction false} FilterNoDuplicates(xs: seq<string>, p: string -> bool)
    requires NoDuplicates(xs)
    ensures NoDuplicates(Filter(xs, p))
    decreases |xs|
  {
    if |xs| > 0 {
      FilterNoDuplicates(xs[1..], p);
      var rest := Filter(xs[1..], p);
      if p(xs[0]) {
        FilterMembership(xs[1..], p, xs[0]);
        assert xs[0] !in xs[1..];
        assert Filter(xs, p) == [xs[0]] + rest;
      }
    }
  }

  /** Toggling the same section twice restores every section's membership. */
  lemma ToggleTwiceRestoresMembership(expanded: seq<string>, section: string)
    ensures forall s :: s in ToggleSection(ToggleSection(expanded, section), section) <==> s in expanded
  {
  }

  /** ...but not its position: closing and reopening the first section of a list
      moves it to the end. */
  lemma ToggleTwiceMovesFrontToEnd(section: string, rest: seq<string>)
    requires section !in rest
    ensures ToggleSection(ToggleSection([section] + rest, section), section) == rest + [section]
  {
    var p := item => item != section;
    FilterCons(section, rest, p);
    FilterKeepsAll(rest, p);
  }

  /** On the initial list: closing and reopening "workingSchedule" changes the order. */
  lemma ToggleTwiceMayReorder()
    ensures ToggleSection(ToggleSection(InitialExpanded, "workingSchedule"), "workingSchedule")
         == ["employmentType", "companyType", "industry", "education", "distance", "skills", "workingSchedule"]
    ensures ToggleSection(ToggleSection(InitialExpanded, "workingSchedule"), "workingSchedule") != InitialExpanded
  {
    var rest := ["employmentType", "companyType", "industry", "education", "distance", "skills"];
    assert InitialExpanded == ["workingSchedule"] + rest;
    ToggleTwiceMovesFrontToEnd("workingSchedule", rest);
    assert (rest + ["workingSchedule"])[0] != InitialExpanded[0];
  }

  /** The initial list names each section once, and every section starts open. */
  lemma InitialAllExpanded()
    ensures NoDuplicates(InitialExpanded)
    ensures forall s :: s in Sections ==> s in InitialExpanded
  {
  }

  /** The sections that have a list of options under their header; the other
      three render the header only. */
  const SectionsWithOptions: seq<string> := ["workingSchedule", "employmentType", "companyType", "industry"]

  /** A section's header symbol and whether a list of options is shown under it. */
  datatype SectionView = SectionView(symbol: string, bodyShown: bool)

  function ViewOf(expanded: seq<string>, section: string): (r: SectionView)
    ensures r.symbol == "−" <==> section in expanded
    ensures r.symbol == "+" <==> section !in expanded
    ensures r.bodyShown <==> section in expanded && section in SectionsWithOptions
  {
    SectionView(if section in expanded then "−" else "+", section in expanded && section in SectionsWithOptions)
  }

  /** Clicking a header flips that section's symbol, and its options when it
      has any; no other section's view changes. */
  lemma ToggleFlipsOneView(expanded: seq<string>, section: string, other: string)
    ensures ViewOf(ToggleSection(expanded, section), section).symbol != ViewOf(expanded, section).symbol
    ensures section in SectionsWithOptions ==>
      ViewOf(ToggleSection(expanded, section), section).bodyShown != ViewOf(expanded, section).bodyShown
    ensures section !in SectionsWithOptions ==> !ViewOf(ToggleSection(expanded, section), section).bodyShown
    ensures other != section ==> ViewOf(ToggleSection(expanded, section), other) == ViewOf(expanded, other)
  {
  }
}
