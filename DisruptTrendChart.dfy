/** The Disrupt six-sprint trend chart's data: one point per sprint with
    the "MEDIAN " prefix taken off its caption. */
module DisruptTrendChart {
  import opened Seqs
  import opened Strings
  import opened DisruptData

  datatype ChartPoint = ChartPoint(sprint: string, t2m: real, waitRatio: real, ownership: real)

  const Prefix := "MEDIAN "

  function ToPoint(s: Sprint): ChartPoint
  {
    ChartPoint(ReplaceFirst(s.name, Prefix, ""), s.t2m, s.waitRatio, s.ownership)
  }

  /** `chartData`: one point per sprint, in order, the three measures copied
      and the caption with its first "MEDIAN " removed. */
  function ChartData(sprints: seq<Sprint>): (r: seq<ChartPoint>)
    ensures |r| == |sprints|
    ensures forall i :: 0 <= i < |sprints| ==>
      r[i].t2m == sprints[i].t2m && r[i].waitRatio == sprints[i].waitRatio && r[i].ownership == sprints[i].ownership
    ensures forall i :: 0 <= i < |sprints| && IndexOf(sprints[i].name, Prefix).None? ==> r[i].sprint == sprints[i].name
    ensures forall i :: 0 <= i < |sprints| && IndexOf(sprints[i].name, Prefix).Some? ==>
      var k := IndexOf(sprints[i].name, Prefix).value;
      r[i].sprint == sprints[i].name[..k] + sprints[i].name[k + |Prefix|..]
  {
    Map(ToPoint, sprints)
  }

  /** A caption that starts with the prefix loses exactly the prefix: putting
      it back gives the caption again. */
  lemma StripsLeadingPrefix(s: Sprint, rest: string)
    requires s.name == Prefix + rest
    ensures ToPoint(s).sprint == rest
    ensures Prefix + ToPoint(s).sprint == s.name
  {
    ReplaceLeadingPrefix(Prefix, rest);
  }

  /** The shipped sprints chart as "26-01" … "26-06". */
  lemma DisruptChartCaptions()
    ensures ChartData(Disrupt.sprints)[0].sprint == "26-01"
    ensures ChartData(Disrupt.sprints)[5].sprint == "26-06"
  {
    StripsLeadingPrefix(Disrupt.sprints[0], "26-01");
    StripsLeadingPrefix(Disrupt.sprints[5], "26-06");
  }
}
