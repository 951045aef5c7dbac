/** The list of recent solutions: one card per constraint worked around,
    with a badge for the kind of solution. */
module SolutionsList {
  import opened Seqs
  import opened DisruptData

  /** The badge for a kind the table does not know. */
  function Fallback(kind: string): SolutionType
  {
    SolutionType(kind, "#a855f7", "🔧")
  }

  /** `typeConfig`: the table's entry for a known kind, else a purple
      wrench badge captioned with the kind itself. */
  function TypeConfig(kind: string): (t: SolutionType)
    ensures kind in SolutionTypes ==> t == SolutionTypes[kind]
    ensures kind !in SolutionTypes ==> t.caption == kind && t.color == "#a855f7" && t.icon == "🔧"
  {
    if kind in SolutionTypes then SolutionTypes[kind] else Fallback(kind)
  }

  /** Caching and feature flags get their own captions. */
  lemma KnownCaptions()
    ensures TypeConfig("cache").caption == "Caching"
    ensures TypeConfig("flag").caption == "Feature Flag"
    ensures TypeConfig("refactor") == SolutionType("refactor", "#a855f7", "🔧")
  {
  }

  datatype Card = Card(icon: string, constraint: string, solution: string,
                       caption: string, color: string, impact: Option<string>)

  function RenderCard(e: Example): Card
  {
    var t := TypeConfig(e.solutionType);
    Card(t.icon, e.constraint, e.solution, t.caption, t.color,
         if e.impact != "" then Some(e.impact) else None)
  }

  /** One card per solution, in order, with its badge and, only when the
      solution names one, its impact line. */
  function Cards(solutions: seq<Example>): (r: seq<Card>)
    ensures |r| == |solutions|
    ensures forall i :: 0 <= i < |solutions| ==>
      r[i].constraint == solutions[i].constraint && r[i].solution == solutions[i].solution &&
      (r[i].icon, r[i].caption, r[i].color) ==
        (TypeConfig(solutions[i].solutionType).icon, TypeConfig(solutions[i].solutionType).caption,
         TypeConfig(solutions[i].solutionType).color) &&
      (r[i].impact.Some? <==> solutions[i].impact != "") &&
      (r[i].impact.Some? ==> r[i].impact.value == solutions[i].impact)
  {
    Map(RenderCard, solutions)
  }

  /** Every example on the Disrupt page has a kind the table knows, so no
      card falls back to the wrench. */
  lemma DisruptCardsKnown()
    ensures forall i :: 0 <= i < |Disrupt.ownership.examples| ==>
      Disrupt.ownership.examples[i].solutionType in SolutionTypes &&
      Cards(Disrupt.ownership.examples)[i].icon != "🔧"
  {
  }
}
