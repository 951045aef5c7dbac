/** The monthly report: the canned report data for the selected team, the
    month's caption and the sprint bars' colouring. */
module Report {
  import opened Seqs
  import opened MockData

  datatype Month = Month(value: string, caption: string)

  /** The month picker's options, in the order offered. */
  const Months: seq<Month> := [
    Month("2026-01", "January 2026"),
    Month("2026-02", "February 2026"),
    Month("2025-12", "December 2025"),
    Month("2025-11", "November 2025")
  ]

  /** Cycle time for one kind of work item, in days. */
  datatype TypeRow = TypeRow(kind: string, avg: real, median: real, count: nat, color: string)

  /** One stage of the pipeline: its mean days and its share in percent. */
  datatype StageRow = StageRow(stage: string, avg: real, pct: real)

  datatype VelocitySection = VelocitySection(sprints: seq<VelocityPoint>, totalPlanned: int, totalCompleted: int,
                                             avgVelocity: real, trend: string, insight: string)

  datatype CycleTimeSection = CycleTimeSection(byType: seq<TypeRow>, byStage: seq<StageRow>, bottleneck: string,
                                               overallMedian: real, overallAvg: real, insight: string)

  datatype MonthlyData = MonthlyData(velocity: VelocitySection, cycleTime: CycleTimeSection)

  /** `isAllTeams`: no key (empty) or the "ALL" key. */
  predicate IsAllTeams(teamKey: string)
  {
    teamKey == "" || teamKey == "ALL"
  }

  /** A sprint's caption: "MEDIAN" for all teams, else the team key. */
  function SprintLabel(teamKey: string, n: string): string
  {
    (if IsAllTeams(teamKey) then "MEDIAN" else teamKey) + " 26-0" + n
  }

  /** Each sprint's planned and completed points and its percentage. */
  const SprintFigures: seq<(int, int, real)> := [(42, 32, 76.0), (38, 30, 79.0), (45, 38, 84.0)]

  const ByStage: seq<StageRow> := [
    StageRow("Development", 4.2, 45.0),
    StageRow("Code Review", 1.8, 19.0),
    StageRow("QA", 2.1, 22.0),
    StageRow("Release", 1.3, 14.0)
  ]

  const ByType: seq<TypeRow> := [
    TypeRow("Bug", 3.2, 2.5, 45, "#ef4444"),
    TypeRow("Task", 5.8, 4.2, 120, "#6366f1"),
    TypeRow("Story", 8.5, 6.8, 35, "#22c55e"),
    TypeRow("Request", 12.4, 9.2, 18, "#eab308")
  ]

  function ReportSprint(teamKey: string, i: nat): (v: VelocityPoint)
    requires i < 3
  {
    VelocityPoint(SprintLabel(teamKey, ["1", "2", "3"][i]), SprintFigures[i].0, SprintFigures[i].1, SprintFigures[i].2)
  }

  /** `getMonthlyData`: a fixed report whose captions and insights depend on
      whether a team is selected; the month argument is not read. */
  function GetMonthlyData(month: string, teamKey: string): (r: MonthlyData)
    ensures |r.velocity.sprints| == 3
    ensures forall i :: 0 <= i < 3 ==>
      r.velocity.sprints[i].sprint == (if IsAllTeams(teamKey) then "MEDIAN" else teamKey) + " 26-0" + ["1", "2", "3"][i] &&
      (r.velocity.sprints[i].planned, r.velocity.sprints[i].completed, r.velocity.sprints[i].pct) == SprintFigures[i]
    ensures r.velocity.totalPlanned == SprintFigures[0].0 + SprintFigures[1].0 + SprintFigures[2].0
    ensures r.velocity.totalCompleted == SprintFigures[0].1 + SprintFigures[1].1 + SprintFigures[2].1
    ensures r.velocity.avgVelocity == 80.0
    ensures r.cycleTime.byStage == ByStage && r.cycleTime.byType == ByType
    ensures r.cycleTime.bottleneck == "Development"
  {
    var all := IsAllTeams(teamKey);
    MonthlyData(
      VelocitySection(
        [ReportSprint(teamKey, 0), ReportSprint(teamKey, 1), ReportSprint(teamKey, 2)],
        125, 100, 80.0, "+8%",
        if all then "Median velocity improved 8% vs previous month. 12 of 16 teams exceeded 60% target."
        else "Team showed consistent improvement across all 3 sprints. Strong finish at 84%."),
      CycleTimeSection(
        ByType, ByStage, "Development", 5.2, 7.5,
        if all then "Development stage takes 45% of cycle time. Consider breaking down large stories."
        else "Code Review improved 0.5d vs last month. QA stage is stable."))
  }

  /** Every month shows the same report. */
  lemma MonthIgnored(m1: string, m2: string, teamKey: string)
    ensures GetMonthlyData(m1, teamKey) == GetMonthlyData(m2, teamKey)
  {
  }

  /** The canned numbers are consistent: each sprint's percentage is its
      completed share rounded, the average is the rounded mean of those and
      also the overall completed share. */
  lemma SprintFiguresConsistent()
    ensures forall i :: 0 <= i < 3 ==>
      SprintFigures[i].2 == Round(100.0 * (SprintFigures[i].1 as real) / (SprintFigures[i].0 as real)) as real
    ensures 80.0 == Round((SprintFigures[0].2 + SprintFigures[1].2 + SprintFigures[2].2) / 3.0) as real
    ensures 80.0 * ((SprintFigures[0].0 + SprintFigures[1].0 + SprintFigures[2].0) as real) ==
            100.0 * ((SprintFigures[0].1 + SprintFigures[1].1 + SprintFigures[2].1) as real)
  {
    assert Round(3200.0 / 42.0) == 76;
    assert Round(3000.0 / 38.0) == 79;
    assert Round(3800.0 / 45.0) == 84;
  }

  /** The stage shares add up to the whole cycle, and the bottleneck is the
      stage with the largest share. */
  lemma StagesConsistent()
    ensures ByStage[0].pct + ByStage[1].pct + ByStage[2].pct + ByStage[3].pct == 100.0
    ensures ByStage[0].stage == "Development"
    ensures forall j :: 0 <= j < |ByStage| ==> ByStage[j].pct <= ByStage[0].pct
  {
  }

  /** `teamKey`: the selected team's key, or "ALL" when none is selected
      (or its key is empty). */
  function TeamKey(selected: Option<Team>): (k: string)
    ensures k != ""
    ensures IsAllTeams(k) <==> selected.None? || selected.value.key in {"", "ALL"}
    ensures !IsAllTeams(k) ==> k == selected.value.key
  {
    if selected.Some? && selected.value.key != "" then selected.value.key else "ALL"
  }

  /** The header's title. */
  function DisplayTitle(selected: Option<Team>): string
  {
    if selected.Some? then selected.value.name else "All Teams (Median)"
  }

  /** `monthLabel`: the caption of the first option with that value, or the
      value itself when no option has it. */
  function MonthLabel(selectedMonth: string): (r: string)
    ensures (forall i :: 0 <= i < |Months| ==> Months[i].value != selectedMonth) ==> r == selectedMonth
    ensures forall i :: 0 <= i < |Months| && Months[i].value == selectedMonth ==> r == Months[i].caption
  {
    var m := Find((m: Month) => m.value == selectedMonth, Months);
    if m.Some? && m.value.caption != "" then m.value.caption else selectedMonth
  }

  lemma MonthLabels()
    ensures MonthLabel("2026-01") == "January 2026"
    ensures MonthLabel("2026-03") == "2026-03"
  {
    assert Months[0].value == "2026-01";
  }

  /** A sprint's bar and figure: green from 60%, red below. */
  function PctColor(pct: real): (c: string)
    ensures c == "#10b981" <==> pct >= 60.0
    ensures c == "#ef4444" <==> pct < 60.0
  {
    if pct >= 60.0 then "#10b981" else "#ef4444"
  }

  /** Every sprint of the canned report clears 60% and is drawn green. */
  lemma ReportSprintsGreen()
    ensures forall i :: 0 <= i < |SprintFigures| ==> PctColor(SprintFigures[i].2) == "#10b981"
  {
  }
}
