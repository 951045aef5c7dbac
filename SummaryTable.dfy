/** The all-teams summary table: one row per summary record, with the
    velocity coloured by its own 75/60 tiers, a trend arrow and the shared
    status badge. */
module SummaryTable {
  import opened Seqs
  import opened MockData

  const Green := "text-green-400"
  const Yellow := "text-yellow-400"
  const Red := "text-red-400"
  const Zinc := "text-zinc-500"

  /** The velocity cell's colour: green from 75, yellow from 60, red below. */
  function VelocityColor(velocity: real): (c: string)
    ensures c == Green <==> velocity >= 75.0
    ensures c == Yellow <==> 60.0 <= velocity < 75.0
    ensures c == Red <==> velocity < 60.0
  {
    if velocity >= 75.0 then Green else if velocity >= 60.0 then Yellow else Red
  }

  /** The table's tiers are not the status tiers: red is exactly the
      velocities the status helper does not call "good", while green and
      yellow both lie inside "good". */
  lemma VelocityColorAgainstStatus(velocity: real)
    ensures VelocityColor(velocity) == Red <==> GetTeamStatus(velocity) != "good"
    ensures GetTeamStatus(70.0) == "good" && VelocityColor(70.0) == Yellow
  {
  }

  /** The trend cell: arrow and colour for "up" and "down", a flat zinc
      arrow for every other label. */
  function TrendCell(trend: string): (r: (string, string))
    ensures r == ("↗", Green) <==> trend == "up"
    ensures r == ("↘", Red) <==> trend == "down"
    ensures r == ("→", Zinc) <==> trend != "up" && trend != "down"
  {
    if trend == "up" then ("↗", Green)
    else if trend == "down" then ("↘", Red)
    else ("→", Zinc)
  }

  datatype RowView = RowView(team: string, velocity: real, velocityColor: string, cycleTime: real,
                             dshb: real, arrow: string, trendColor: string,
                             statusLabel: string, statusColor: string)

  function RenderRow(row: SummaryRow): RowView
  {
    RowView(row.team, row.velocity, VelocityColor(row.velocity), row.cycleTime, row.dshb,
            TrendCell(row.trend).0, TrendCell(row.trend).1,
            GetStatusLabel(row.status), GetStatusColor(row.status))
  }

  /** The table body: one row per record, in input order, each showing the
      record's own values and the shared label and colour of its stored status. */
  function Rows(data: seq<SummaryRow>): (r: seq<RowView>)
    ensures |r| == |data|
    ensures forall i :: 0 <= i < |data| ==>
      r[i].team == data[i].team && r[i].velocity == data[i].velocity &&
      r[i].cycleTime == data[i].cycleTime && r[i].dshb == data[i].dshb &&
      (r[i].velocityColor == Green <==> data[i].velocity >= 75.0) &&
      (r[i].velocityColor == Red <==> data[i].velocity < 60.0) &&
      (r[i].arrow == "↗" <==> data[i].trend == "up") &&
      (r[i].arrow == "↘" <==> data[i].trend == "down") &&
      r[i].statusLabel == GetStatusLabel(data[i].status) &&
      r[i].statusColor == GetStatusColor(data[i].status)
  {
    Map(RenderRow, data)
  }

  /** The status badges of the shipped table come from the stored statuses,
      which agree with the status helper for every team but Content &
      Growth: stored "critical", while its velocity 48 classifies as "warning". */
  lemma StoredStatusesAgainstHelper()
    ensures forall i :: 0 <= i < |SummaryData| - 1 ==>
      SummaryData[i].status == GetTeamStatus(SummaryData[i].velocity)
    ensures SummaryData[15].team == "Content & Growth" && SummaryData[15].status == "critical"
    ensures GetTeamStatus(SummaryData[15].velocity) == "warning"
    ensures Rows(SummaryData)[15].statusLabel == "Critical"
  {
  }
}
