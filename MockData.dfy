/** The dashboard's data layer: the team registry, the per-team metric
    series, the summary table, the generator that fills in series for teams
    without hand-written data, and the status helpers every view shares. */
module MockData {
  import opened Seqs
  import opened Strings

  datatype Team = Team(id: nat, name: string, platform: string, key: string)

  /** One sprint: story points planned and completed, and the delivery percentage. */
  datatype VelocityPoint = VelocityPoint(sprint: string, planned: int, completed: int, pct: real)

  /** One week of cycle time, in days. */
  datatype CycleTimePoint = CycleTimePoint(week: string, avg: real, median: real, p90: real)

  /** Time from idea to production for the quarter, in days. */
  datatype Dshb = Dshb(baseline: real, target: real, current: real, progressPct: real, quarter: string)

  datatype SummaryRow = SummaryRow(team: string, velocity: real, cycleTime: real, dshb: real,
                                   trend: string, status: string)

  datatype TeamMetrics = TeamMetrics(velocity: seq<VelocityPoint>, cycleTime: seq<CycleTimePoint>,
                                     dshb: Dshb, avgVelocity: real, avgCycleTime: real)

  /** The team registry, in the order every page lists it. */
  const Teams: seq<Team> := [
    Team(1, "Surf", "iOS", "SURF"),
    Team(2, "Web Production", "Web", "WPROD"),
    Team(3, "Disrupt", "Web", "DISRUPT"),
    Team(4, "Radiocat", "Android", "RADIOCAT"),
    Team(5, "Zvuk Client", "Backend", "ZCL"),
    Team(6, "Acquisition", "Web", "ACQ"),
    Team(7, "Discovery", "Backend", "DISC"),
    Team(8, "Wave", "iOS", "WAVE"),
    Team(9, "Social Intelligence", "DS", "SOCINT"),
    Team(10, "Web Platform", "Web", "WPLT"),
    Team(11, "Zvuk iOS", "iOS", "ZIOS"),
    Team(12, "Zvuk Android", "Android", "ZAND"),
    Team(13, "New Zealand", "Backend", "NZ"),
    Team(14, "Internal Tools", "Web", "INTR"),
    Team(15, "Integrations", "Backend", "INTG"),
    Team(16, "Content & Growth", "DE", "CNG")
  ]

  /** The platform filter options; the first one means "all platforms". */
  const Platforms: seq<string> := ["Все", "iOS", "Android", "Backend", "Web", "DE", "DS"]

  /** The platform option ("all") that imposes no platform constraint. */
  const AllPlatforms: string := "Все"

  /** The all-teams (median) velocity series shown when no team is selected. */
  const DefaultVelocity: seq<VelocityPoint> := [
    VelocityPoint("MEDIAN 26-01", 42, 27, 64.0),
    VelocityPoint("MEDIAN 26-02", 38, 26, 68.0),
    VelocityPoint("MEDIAN 26-03", 40, 30, 75.0),
    VelocityPoint("MEDIAN 26-04", 45, 32, 71.0),
    VelocityPoint("MEDIAN 26-05", 41, 30, 73.0),
    VelocityPoint("MEDIAN 26-06", 43, 32, 74.0)
  ]

  const DefaultCycleTime: seq<CycleTimePoint> := [
    CycleTimePoint("W1", 22.5, 19.2, 38.5),
    CycleTimePoint("W2", 21.8, 18.5, 36.2),
    CycleTimePoint("W3", 20.2, 17.8, 34.8),
    CycleTimePoint("W4", 23.1, 20.4, 40.2),
    CycleTimePoint("W5", 19.8, 17.2, 33.5),
    CycleTimePoint("W6", 18.9, 16.8, 31.2),
    CycleTimePoint("W7", 19.5, 17.5, 32.8),
    CycleTimePoint("W8", 18.2, 16.4, 30.5)
  ]

  const DefaultDshb: Dshb := Dshb(150.0, 135.0, 142.0, 53.3, "Q1 2026")

  /** One summary row per team, in registry order. */
  const SummaryData: seq<SummaryRow> := [
    SummaryRow("Surf", 88.0, 16.2, -18.0, "up", "good"),
    SummaryRow("Web Production", 81.0, 17.8, -15.0, "up", "good"),
    SummaryRow("Disrupt", 85.0, 15.5, -18.0, "up", "good"),
    SummaryRow("Radiocat", 76.0, 19.2, -12.0, "up", "good"),
    SummaryRow("Zvuk Client", 74.0, 20.5, -10.0, "stable", "good"),
    SummaryRow("Acquisition", 78.0, 18.4, -14.0, "up", "good"),
    SummaryRow("Discovery", 62.0, 22.8, -9.0, "stable", "good"),
    SummaryRow("Wave", 83.0, 16.8, -16.0, "up", "good"),
    SummaryRow("Social Intelligence", 58.0, 24.5, -7.0, "stable", "warning"),
    SummaryRow("Web Platform", 79.0, 17.5, -13.0, "up", "good"),
    SummaryRow("Zvuk iOS", 70.0, 21.2, -8.0, "stable", "good"),
    SummaryRow("Zvuk Android", 73.0, 19.8, -11.0, "up", "good"),
    SummaryRow("New Zealand", 55.0, 26.5, -6.0, "down", "warning"),
    SummaryRow("Internal Tools", 75.0, 18.9, -10.0, "stable", "good"),
    SummaryRow("Integrations", 61.0, 23.2, -8.0, "stable", "good"),
    SummaryRow("Content & Growth", 48.0, 28.5, -5.0, "down", "critical")
  ]

  const SurfRecord: TeamMetrics := TeamMetrics(
    [VelocityPoint("SURF 26-01", 35, 28, 80.0),
     VelocityPoint("SURF 26-02", 32, 27, 84.0),
     VelocityPoint("SURF 26-03", 38, 35, 92.0),
     VelocityPoint("SURF 26-04", 40, 36, 90.0),
     VelocityPoint("SURF 26-05", 36, 32, 89.0),
     VelocityPoint("SURF 26-06", 34, 30, 88.0)],
    [CycleTimePoint("W1", 18.2, 15.5, 28.5),
     CycleTimePoint("W2", 17.5, 14.8, 27.2),
     CycleTimePoint("W3", 16.8, 14.2, 26.5),
     CycleTimePoint("W4", 17.2, 15.0, 27.8),
     CycleTimePoint("W5", 16.2, 13.8, 25.5),
     CycleTimePoint("W6", 15.8, 13.5, 24.8),
     CycleTimePoint("W7", 16.5, 14.2, 26.2),
     CycleTimePoint("W8", 16.2, 13.9, 25.8)],
    Dshb(45.0, 38.0, 40.0, 71.4, "Q1 2026"),
    88.0, 16.2)

  const DisruptRecord: TeamMetrics := TeamMetrics(
    [VelocityPoint("DISRUPT 26-01", 42, 34, 81.0),
     VelocityPoint("DISRUPT 26-02", 38, 32, 84.0),
     VelocityPoint("DISRUPT 26-03", 45, 40, 89.0),
     VelocityPoint("DISRUPT 26-04", 40, 34, 85.0),
     VelocityPoint("DISRUPT 26-05", 43, 36, 84.0),
     VelocityPoint("DISRUPT 26-06", 41, 35, 85.0)],
    [CycleTimePoint("W1", 17.5, 14.8, 27.2),
     CycleTimePoint("W2", 16.8, 14.2, 26.5),
     CycleTimePoint("W3", 15.5, 13.2, 24.8),
     CycleTimePoint("W4", 16.2, 13.8, 25.5),
     CycleTimePoint("W5", 15.2, 12.9, 24.2),
     CycleTimePoint("W6", 14.8, 12.5, 23.5),
     CycleTimePoint("W7", 15.5, 13.2, 24.8),
     CycleTimePoint("W8", 15.5, 13.0, 24.5)],
    Dshb(52.0, 42.0, 45.0, 70.0, "Q1 2026"),
    85.0, 15.5)

  const WprodRecord: TeamMetrics := TeamMetrics(
    [VelocityPoint("WPROD 26-01", 38, 30, 79.0),
     VelocityPoint("WPROD 26-02", 35, 28, 80.0),
     VelocityPoint("WPROD 26-03", 40, 34, 85.0),
     VelocityPoint("WPROD 26-04", 42, 34, 81.0),
     VelocityPoint("WPROD 26-05", 38, 31, 82.0),
     VelocityPoint("WPROD 26-06", 36, 29, 81.0)],
    [CycleTimePoint("W1", 19.5, 16.8, 30.2),
     CycleTimePoint("W2", 18.8, 16.2, 29.5),
     CycleTimePoint("W3", 17.5, 15.2, 28.2),
     CycleTimePoint("W4", 18.2, 15.8, 29.0),
     CycleTimePoint("W5", 17.2, 14.8, 27.5),
     CycleTimePoint("W6", 16.8, 14.5, 27.0),
     CycleTimePoint("W7", 17.5, 15.2, 28.2),
     CycleTimePoint("W8", 17.8, 15.4, 28.5)],
    Dshb(48.0, 40.0, 43.0, 62.5, "Q1 2026"),
    81.0, 17.8)

  const RadiocatRecord: TeamMetrics := TeamMetrics(
    [VelocityPoint("RADIOCAT 26-01", 30, 22, 73.0),
     VelocityPoint("RADIOCAT 26-02", 28, 21, 75.0),
     VelocityPoint("RADIOCAT 26-03", 32, 26, 81.0),
     VelocityPoint("RADIOCAT 26-04", 35, 27, 77.0),
     VelocityPoint("RADIOCAT 26-05", 30, 23, 77.0),
     VelocityPoint("RADIOCAT 26-06", 28, 21, 75.0)],
    [CycleTimePoint("W1", 21.2, 18.5, 33.5),
     CycleTimePoint("W2", 20.5, 17.8, 32.2),
     CycleTimePoint("W3", 19.2, 16.8, 30.5),
     CycleTimePoint("W4", 20.0, 17.5, 31.5),
     CycleTimePoint("W5", 18.8, 16.2, 29.8),
     CycleTimePoint("W6", 18.5, 16.0, 29.2),
     CycleTimePoint("W7", 19.2, 16.8, 30.5),
     CycleTimePoint("W8", 19.2, 16.5, 30.2)],
    Dshb(38.0, 32.0, 35.0, 50.0, "Q1 2026"),
    76.0, 19.2)

  const WaveRecord: TeamMetrics := TeamMetrics(
    [VelocityPoint("WAVE 26-01", 32, 26, 81.0),
     VelocityPoint("WAVE 26-02", 30, 25, 83.0),
     VelocityPoint("WAVE 26-03", 35, 31, 89.0),
     VelocityPoint("WAVE 26-04", 38, 32, 84.0),
     VelocityPoint("WAVE 26-05", 34, 28, 82.0),
     VelocityPoint("WAVE 26-06", 32, 27, 84.0)],
    [CycleTimePoint("W1", 18.5, 15.8, 29.2),
     CycleTimePoint("W2", 17.8, 15.2, 28.5),
     CycleTimePoint("W3", 16.5, 14.2, 26.8),
     CycleTimePoint("W4", 17.2, 14.8, 27.5),
     CycleTimePoint("W5", 16.2, 13.8, 26.2),
     CycleTimePoint("W6", 15.8, 13.5, 25.5),
     CycleTimePoint("W7", 16.5, 14.2, 26.8),
     CycleTimePoint("W8", 16.8, 14.5, 27.2)],
    Dshb(42.0, 35.0, 38.0, 57.1, "Q1 2026"),
    83.0, 16.8)

  const CngRecord: TeamMetrics := TeamMetrics(
    [VelocityPoint("CNG 26-01", 25, 11, 44.0),
     VelocityPoint("CNG 26-02", 22, 10, 45.0),
     VelocityPoint("CNG 26-03", 28, 14, 50.0),
     VelocityPoint("CNG 26-04", 30, 15, 50.0),
     VelocityPoint("CNG 26-05", 26, 12, 46.0),
     VelocityPoint("CNG 26-06", 24, 12, 50.0)],
    [CycleTimePoint("W1", 32.5, 28.5, 48.5),
     CycleTimePoint("W2", 31.2, 27.2, 46.2),
     CycleTimePoint("W3", 29.5, 25.8, 44.5),
     CycleTimePoint("W4", 30.2, 26.5, 45.8),
     CycleTimePoint("W5", 28.8, 25.2, 43.8),
     CycleTimePoint("W6", 27.5, 24.2, 42.5),
     CycleTimePoint("W7", 28.2, 24.8, 43.2),
     CycleTimePoint("W8", 28.5, 25.0, 43.5)],
    Dshb(65.0, 55.0, 62.0, 30.0, "Q1 2026"),
    48.0, 28.5)

  /** The hand-written records of `teamMetrics`, before the fill-in loop runs. */
  const HandWrittenMetrics: map<string, TeamMetrics> := map[
    "SURF" := SurfRecord,
    "DISRUPT" := DisruptRecord,
    "WPROD" := WprodRecord,
    "RADIOCAT" := RadiocatRecord,
    "WAVE" := WaveRecord,
    "CNG" := CngRecord
  ]

  /** `Math.round`: the nearest integer, halves rounded towards +infinity. */
  function Round(x: real): (r: int)
    ensures r as real <= x + 0.5 < r as real + 1.0
  {
    (x + 0.5).Floor
  }

  /** Any other integer is strictly farther from `x`, or as far and below it. */
  lemma RoundIsNearest(x: real, n: int)
    ensures n != Round(x) ==>
      (if n < Round(x) then n as real <= x - 0.5 else n as real > x + 0.5)
  {
  }

  /** The velocity percentages of a series, in sprint order. */
  function Pcts(vs: seq<VelocityPoint>): (r: seq<real>)
    ensures |r| == |vs|
    ensures forall i :: 0 <= i < |vs| ==> r[i] == vs[i].pct
  {
    Map((v: VelocityPoint) => v.pct, vs)
  }

  function Medians(cs: seq<CycleTimePoint>): (r: seq<real>)
    ensures |r| == |cs|
    ensures forall i :: 0 <= i < |cs| ==> r[i] == cs[i].median
  {
    Map((c: CycleTimePoint) => c.median, cs)
  }

  function P90s(cs: seq<CycleTimePoint>): (r: seq<real>)
    ensures |r| == |cs|
    ensures forall i :: 0 <= i < |cs| ==> r[i] == cs[i].p90
  {
    Map((c: CycleTimePoint) => c.p90, cs)
  }

  /** Six sprints of `base` delivery with fixed offsets, planned/completed from
      the same percentages, and eight weeks of cycle time around `baseCycleTime`. */
  function GenerateTeamMetrics(teamKey: string, baseVelocity: real, baseCycleTime: real): (m: TeamMetrics)
    ensures |m.velocity| == 6 && |m.cycleTime| == 8
    ensures m.avgVelocity == baseVelocity && m.avgCycleTime == baseCycleTime
    ensures forall i :: 0 <= i < 6 ==> m.velocity[i].sprint == teamKey + [' ', '2', '6', '-', '0', DigitChar(i + 1)]
    ensures Pcts(m.velocity) == [baseVelocity - 5.0, baseVelocity - 3.0, baseVelocity + 5.0,
                                 baseVelocity, baseVelocity - 2.0, baseVelocity]
    ensures forall i :: 0 <= i < 8 ==>
      m.cycleTime[i].median < m.cycleTime[i].avg < m.cycleTime[i].p90
    ensures forall i :: 0 <= i < 8 ==>
      m.cycleTime[i].p90 - m.cycleTime[i].median >= 11.0
    ensures m.dshb == Dshb(50.0, 42.0, 46.0, 50.0, "Q1 2026")
  {
    var v := baseVelocity;
    var c := baseCycleTime;
    TeamMetrics(
      [VelocityPoint(teamKey + " 26-01", 35, Round(35.0 * v / 100.0), v - 5.0),
       VelocityPoint(teamKey + " 26-02", 32, Round(32.0 * v / 100.0), v - 3.0),
       VelocityPoint(teamKey + " 26-03", 38, Round(38.0 * (v + 5.0) / 100.0), v + 5.0),
       VelocityPoint(teamKey + " 26-04", 36, Round(36.0 * v / 100.0), v),
       VelocityPoint(teamKey + " 26-05", 34, Round(34.0 * (v - 2.0) / 100.0), v - 2.0),
       VelocityPoint(teamKey + " 26-06", 35, Round(35.0 * v / 100.0), v)],
      [CycleTimePoint("W1", c + 2.0, c - 1.0, c + 12.0),
       CycleTimePoint("W2", c + 1.5, c - 1.5, c + 11.0),
       CycleTimePoint("W3", c, c - 2.0, c + 10.0),
       CycleTimePoint("W4", c + 1.0, c - 1.2, c + 10.5),
       CycleTimePoint("W5", c - 0.5, c - 2.5, c + 9.0),
       CycleTimePoint("W6", c - 1.0, c - 3.0, c + 8.0),
       CycleTimePoint("W7", c - 0.5, c - 2.5, c + 9.0),
       CycleTimePoint("W8", c, c - 2.0, c + 10.0)],
      Dshb(50.0, 42.0, 46.0, 50.0, "Q1 2026"),
      v, c)
  }

  /** The generated sprints average 5/6 of a point below the base velocity, so
      the stored `avgVelocity` slightly overstates the series it summarises. */
  lemma GeneratedMeanVelocity(teamKey: string, v: real, c: real)
    ensures Mean(Pcts(GenerateTeamMetrics(teamKey, v, c).velocity)) == v - 5.0 / 6.0
  {
    Sum6(v - 5.0, v - 3.0, v + 5.0, v, v - 2.0, v);
  }

  /** From sprint 3 on, `completed` is `planned` times the sprint's own
      percentage, rounded; the first two sprints use the base velocity instead. */
  lemma GeneratedCompletedFollowsPct(teamKey: string, v: real, c: real)
    ensures var vs := GenerateTeamMetrics(teamKey, v, c).velocity;
      (forall i :: 2 <= i < 6 ==> vs[i].completed == Round(vs[i].planned as real * vs[i].pct / 100.0)) &&
      (forall i :: 0 <= i < 2 ==> vs[i].completed == Round(vs[i].planned as real * v / 100.0))
  {
  }

  /** `Object.fromEntries(rows.map(s => [s.team, s]))`: later rows overwrite earlier ones. */
  function SummaryMap(rows: seq<SummaryRow>): (r: map<string, SummaryRow>)
    ensures forall k :: k in r <==> exists i :: 0 <= i < |rows| && rows[i].team == k
    decreases |rows|
  {
    if rows == [] then map[]
    else
      var prefix := rows[..|rows| - 1];
      var r := SummaryMap(prefix);
      assert forall i :: 0 <= i < |prefix| ==> prefix[i] == rows[i];
      r[rows[|rows| - 1].team := rows[|rows| - 1]]
  }

  /** The entry for a name is the LAST row carrying that name. */
  lemma {:induction false} SummaryMapLastWins(rows: seq<SummaryRow>, i: nat)
    requires i < |rows|
    requires forall j :: i < j < |rows| ==> rows[j].team != rows[i].team
    ensures rows[i].team in SummaryMap(rows) && SummaryMap(rows)[rows[i].team] == rows[i]
    decreases |rows|
  {
    if i < |rows| - 1 {
      var prefix := rows[..|rows| - 1];
      SummaryMapLastWins(prefix, i);
    }
  }

  /** One step of the fill-in loop: a team without a record gets a generated
      one, provided the summary table has a row for its name. */
  function FillStep(table: map<string, TeamMetrics>, team: Team, summaries: map<string, SummaryRow>): map<string, TeamMetrics>
  {
    if team.key in table then table
    else if team.name in summaries then
      var s := summaries[team.name];
      table[team.key := GenerateTeamMetrics(team.key, s.velocity, s.cycleTime)]
    else table
  }

  /** The table after the fill-in loop has visited `teams` in order. */
  function Filled(table: map<string, TeamMetrics>, teams: seq<Team>, summaries: map<string, SummaryRow>): map<string, TeamMetrics>
    decreases |teams|
  {
    if teams == [] then table
    else FillStep(Filled(table, teams[..|teams| - 1], summaries), teams[|teams| - 1], summaries)
  }

  /** Filling in never overwrites a record that was already there. */
  lemma {:induction false} FilledKeepsExisting(table: map<string, TeamMetrics>, teams: seq<Team>,
                                               summaries: map<string, SummaryRow>, k: string)
    requires k in table
    ensures k in Filled(table, teams, summaries) && Filled(table, teams, summaries)[k] == table[k]
    decreases |teams|
  {
    if teams != [] {
      FilledKeepsExisting(table, teams[..|teams| - 1], summaries, k);
    }
  }

  /** A key has a record afterwards exactly when it had one before, or some
      visited team with that key has a summary row for its name. */
  lemma {:induction false} FilledKeys(table: map<string, TeamMetrics>, teams: seq<Team>,
                                      summaries: map<string, SummaryRow>, k: string)
    ensures k in Filled(table, teams, summaries) <==>
      k in table || exists i :: 0 <= i < |teams| && teams[i].key == k && teams[i].name in summaries
    decreases |teams|
  {
    if teams != [] {
      var prefix := teams[..|teams| - 1];
      FilledKeys(table, prefix, summaries, k);
      assert forall i :: 0 <= i < |prefix| ==> prefix[i] == teams[i];
      var last := teams[|teams| - 1];
      if last.key == k && last.name in summaries {
        assert k in FillStep(Filled(table, prefix, summaries), last, summaries);
      }
    }
  }

  /** With distinct keys, a team that had no record gets exactly the series
      generated from its own summary row. */
  lemma {:induction false} FilledGenerated(table: map<string, TeamMetrics>, teams: seq<Team>,
                                           summaries: map<string, SummaryRow>, i: nat)
    requires i < |teams|
    requires forall a, b :: 0 <= a < b < |teams| ==> teams[a].key != teams[b].key
    requires teams[i].key !in table && teams[i].name in summaries
    ensures var t := teams[i]; var s := summaries[t.name];
      t.key in Filled(table, teams, summaries) &&
      Filled(table, teams, summaries)[t.key] == GenerateTeamMetrics(t.key, s.velocity, s.cycleTime)
    decreases |teams|
  {
    var prefix := teams[..|teams| - 1];
    var t := teams[i];
    if i == |teams| - 1 {
      assert t.key !in Filled(table, prefix, summaries) by {
        FilledKeys(table, prefix, summaries, t.key);
      }
    } else {
      FilledGenerated(table, prefix, summaries, i);
      assert prefix[i] == t;
    }
  }

  /** The module-level `teamMetrics` object after the fill-in loop ran at load time. */
  function LoadedMetrics(): map<string, TeamMetrics>
  {
    Filled(HandWrittenMetrics, Teams, SummaryMap(SummaryData))
  }

  /** The mutable `teamMetrics` object and the load-time loop that completes it. */
  class MetricsTable {
    var records: map<string, TeamMetrics>

    constructor(initial: map<string, TeamMetrics>)
      ensures records == initial
    {
      records := initial;
    }

    /** `teams.forEach(...)`: visits the teams in order, adding a generated
        record for each team without one whose name has a summary row. */
    method FillIn(teams: seq<Team>, summaryData: seq<SummaryRow>)
      modifies this
      ensures records == Filled(old(records), teams, SummaryMap(summaryData))
    {
      var summaryMap := SummaryMap(summaryData);
      var i := 0;
      while i < |teams|
        invariant 0 <= i <= |teams|
        invariant records == Filled(old(records), teams[..i], summaryMap)
      {
        var team := teams[i];
        if team.key !in records {
          if team.name in summaryMap {
            var summary := summaryMap[team.name];
            records := records[team.key := GenerateTeamMetrics(team.key, summary.velocity, summary.cycleTime)];
          }
        }
        assert teams[..i + 1][..i] == teams[..i];
        i := i + 1;
      }
      assert teams[..|teams|] == teams;
    }

    /** `getTeamData(teamKey)`: the record, or `null`. */
    function GetTeamData(teamKey: string): (r: Option<TeamMetrics>)
      reads this
      ensures r.Some? <==> teamKey in records
      ensures r.Some? ==> r.value == records[teamKey]
    {
      if teamKey in records then Some(records[teamKey]) else None
    }
  }

  /** Loading the module: the hand-written `teamMetrics` object, completed
      by the fill-in loop over the registry and the summary table. */
  method Load() returns (table: MetricsTable)
    ensures fresh(table)
    ensures table.records == LoadedMetrics()
  {
    table := new MetricsTable(HandWrittenMetrics);
    table.FillIn(Teams, SummaryData);
  }

  /** `getTeamData` on the table as loaded: what `Load` followed by
      `MetricsTable.GetTeamData` returns. */
  function GetTeamData(teamKey: string): (r: Option<TeamMetrics>)
    ensures r.Some? <==> teamKey in LoadedMetrics()
    ensures r.Some? ==> r.value == LoadedMetrics()[teamKey]
  {
    var t := LoadedMetrics();
    if teamKey in t then Some(t[teamKey]) else None
  }

  /** Every registered team has a summary row under its own name. */
  lemma SummaryCoversTeams()
    ensures forall i :: 0 <= i < |Teams| ==> Teams[i].name in SummaryMap(SummaryData)
  {
    assert |Teams| == |SummaryData| == 16;
    forall i | 0 <= i < |Teams|
      ensures Teams[i].name in SummaryMap(SummaryData)
    {
      assert SummaryData[i].team == Teams[i].name;
    }
  }

  /** After loading, every registered team has metrics to show. */
  lemma EveryTeamHasMetrics()
    ensures forall i :: 0 <= i < |Teams| ==> GetTeamData(Teams[i].key).Some?
  {
    SummaryCoversTeams();
    forall i | 0 <= i < |Teams|
      ensures GetTeamData(Teams[i].key).Some?
    {
      FilledKeys(HandWrittenMetrics, Teams, SummaryMap(SummaryData), Teams[i].key);
    }
  }

  /** The hand-written records are what the views get for those teams. */
  lemma HandWrittenServed(k: string)
    requires k in HandWrittenMetrics
    ensures GetTeamData(k) == Some(HandWrittenMetrics[k])
  {
    FilledKeepsExisting(HandWrittenMetrics, Teams, SummaryMap(SummaryData), k);
  }

  /** `getTeamStatus`: at least 60 is on track, at least 45 at risk, below that critical. */
  function GetTeamStatus(velocity: real): (r: string)
    ensures r == "good" <==> velocity >= 60.0
    ensures r == "warning" <==> 45.0 <= velocity < 60.0
    ensures r == "critical" <==> velocity < 45.0
  {
    if velocity >= 60.0 then "good"
    else if velocity >= 45.0 then "warning"
    else "critical"
  }

  /** How bad a status is: 0 good, 1 warning, 2 critical. */
  function StatusRank(status: string): nat
  {
    if status == "good" then 0 else if status == "warning" then 1 else 2
  }

  /** A higher velocity never gives a worse status. */
  lemma GetTeamStatusMonotone(v1: real, v2: real)
    requires v1 <= v2
    ensures StatusRank(GetTeamStatus(v2)) <= StatusRank(GetTeamStatus(v1))
  {
  }

  predicate IsKnownStatus(status: string)
  {
    status == "good" || status == "warning" || status == "critical"
  }

  const UnknownColor := "text-zinc-400 bg-zinc-500/10 border-zinc-500/20"

  /** `getStatusColor`: green, yellow and red classes, zinc for anything else. */
  function GetStatusColor(status: string): (r: string)
    ensures r == UnknownColor <==> !IsKnownStatus(status)
  {
    if status == "good" then "text-green-400 bg-green-500/10 border-green-500/20"
    else if status == "warning" then "text-yellow-400 bg-yellow-500/10 border-yellow-500/20"
    else if status == "critical" then "text-red-400 bg-red-500/10 border-red-500/20"
    else UnknownColor
  }

  /** `getStatusLabel`: "On Track", "At Risk", "Critical", "Unknown" otherwise. */
  function GetStatusLabel(status: string): (r: string)
    ensures r == "Unknown" <==> !IsKnownStatus(status)
  {
    if status == "good" then "On Track"
    else if status == "warning" then "At Risk"
    else if status == "critical" then "Critical"
    else "Unknown"
  }

  /** Colour and label tell the known statuses apart, and never tell them from each other wrongly. */
  lemma StatusPresentationInjective(s1: string, s2: string)
    requires IsKnownStatus(s1) && IsKnownStatus(s2) && s1 != s2
    ensures GetStatusColor(s1) != GetStatusColor(s2)
    ensures GetStatusLabel(s1) != GetStatusLabel(s2)
  {
  }

  /** A status computed from a velocity always has a colour and a label. */
  lemma ComputedStatusIsKnown(velocity: real)
    ensures IsKnownStatus(GetTeamStatus(velocity))
    ensures GetStatusLabel(GetTeamStatus(velocity)) != "Unknown"
  {
  }
}
