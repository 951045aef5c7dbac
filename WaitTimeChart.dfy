/** The wait-time chart: a bar split into flowing and blocked time, the
    comparison with the target, and one bar per source of blocking. */
module WaitTimeChart {
  import opened Seqs
  import opened DisruptData

  /** `flowPct`: the rest of the time, so the two halves fill the bar. */
  function FlowPct(ratio: real): (f: real)
    ensures f + ratio == 100.0
  {
    100.0 - ratio
  }

  /** The line under the bar. */
  datatype TargetLine = OnTrack | Over(excess: real)

  function TargetStatus(ratio: real, target: real): (t: TargetLine)
    ensures t.OnTrack? <==> ratio <= target
    ensures t.Over? ==> t.excess > 0.0 && ratio == target + t.excess
  {
    if ratio <= target then OnTrack else Over(ratio - target)
  }

  /** One row of the breakdown: the source's name, its bar width in percent
      of the blocked time, and its share and hours as given. */
  datatype Row = Row(team: string, width: real, pct: real, hours: real, color: string)

  /** The breakdown, one row per source in input order. The division is
      unguarded, so the ratio must be non-zero. */
  function Breakdown(bySource: seq<Source>, ratio: real): (rows: seq<Row>)
    requires ratio != 0.0
    ensures |rows| == |bySource|
    ensures forall i :: 0 <= i < |rows| ==>
      rows[i].team == bySource[i].team && rows[i].pct == bySource[i].pct &&
      rows[i].hours == bySource[i].hours && rows[i].color == bySource[i].color &&
      rows[i].width * ratio == bySource[i].pct * 100.0
  {
    Map((s: Source) => Row(s.team, s.pct / ratio * 100.0, s.pct, s.hours, s.color), bySource)
  }

  function Shares(bySource: seq<Source>): seq<real>
  {
    Map((s: Source) => s.pct, bySource)
  }

  function Widths(rows: seq<Row>): seq<real>
  {
    Map((r: Row) => r.width, rows)
  }

  /** The bar widths sum to the sources' shares over the ratio, so when the
      sources account for all blocked time the bars sum to 100. */
  lemma {:induction false} BreakdownWidthsSum(bySource: seq<Source>, ratio: real)
    requires ratio != 0.0
    ensures Sum(Widths(Breakdown(bySource, ratio))) * ratio == Sum(Shares(bySource)) * 100.0
    decreases |bySource|
  {
    if bySource != [] {
      var init := bySource[..|bySource| - 1];
      var last := bySource[|bySource| - 1];
      BreakdownWidthsSum(init, ratio);
      var rows := Breakdown(bySource, ratio);
      assert Widths(rows)[..|rows| - 1] == Widths(Breakdown(init, ratio));
      assert Shares(bySource)[..|bySource| - 1] == Shares(init);
      var w := Sum(Widths(Breakdown(init, ratio)));
      var s := Sum(Shares(init));
      assert Sum(Widths(rows)) == w + rows[|rows| - 1].width;
      assert Sum(Shares(bySource)) == s + last.pct;
      assert (w + rows[|rows| - 1].width) * ratio == w * ratio + rows[|rows| - 1].width * ratio;
    }
  }

  lemma BreakdownFillsBar(bySource: seq<Source>, ratio: real)
    requires ratio != 0.0 && Sum(Shares(bySource)) == ratio
    ensures Sum(Widths(Breakdown(bySource, ratio))) == 100.0
  {
    BreakdownWidthsSum(bySource, ratio);
    assert Sum(Widths(Breakdown(bySource, ratio))) * ratio == 100.0 * ratio;
  }

  /** Ratio 18 against target 15: 82% flowing and 3% over target. */
  lemma DisruptWaitTime()
    ensures FlowPct(18.0) == 82.0
    ensures TargetStatus(18.0, 15.0) == Over(3.0)
    ensures TargetStatus(15.0, 15.0) == OnTrack
  {
  }
}
