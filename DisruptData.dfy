/** The Disrupt team's delivery dataset and the solution-type table: the
    records the Disrupt page and its components read. */
module DisruptData {

  /** Time to market, in days. */
  datatype T2m = T2m(current: real, previous: real, target: real, trend: seq<real>)

  /** One source of blocked time: its share of development time, in percent. */
  datatype Source = Source(team: string, pct: real, hours: real, color: string)

  /** The share of development time spent waiting on others, in percent. */
  datatype WaitTime = WaitTime(ratio: real, previous: real, target: real, trend: seq<real>, bySource: seq<Source>)

  /** A constraint the team worked around; `impact` may be empty. */
  datatype Example = Example(constraint: string, solution: string, solutionType: string, impact: string)

  datatype Ownership = Ownership(rate: real, baseline: real, delta: real, trend: seq<real>, examples: seq<Example>)

  /** One sprint of the trend chart. */
  datatype Sprint = Sprint(name: string, t2m: real, waitRatio: real, ownership: real)

  datatype DisruptMetrics = DisruptMetrics(team: string, teamName: string, period: string,
                                           t2m: T2m, waitTime: WaitTime, ownership: Ownership, sprints: seq<Sprint>)

  /** A badge of the solution-type table. */
  datatype SolutionType = SolutionType(caption: string, color: string, icon: string)

  const Disrupt: DisruptMetrics := DisruptMetrics(
    "DISRUPT", "Disrupt", "MEDIAN 26-06",
    T2m(14.0, 18.0, 12.0, [22.0, 19.0, 18.0, 16.0, 18.0, 14.0]),
    WaitTime(18.0, 24.0, 15.0, [32.0, 28.0, 25.0, 22.0, 24.0, 18.0],
      [Source("Backend", 8.0, 24.0, "#ef4444"),
       Source("Design", 5.0, 15.0, "#f97316"),
       Source("DevOps", 3.0, 9.0, "#eab308"),
       Source("Legal", 2.0, 6.0, "#8b5cf6")]),
    Ownership(87.0, 80.0, 7.0, [75.0, 78.0, 82.0, 80.0, 84.0, 87.0],
      [Example("Backend API delayed 5 days", "Client-side caching + optimistic UI", "cache", "Shipped on time"),
       Example("Design specs not finalized", "Placeholder UI + feature flag", "flag", "Unblocked 3 devs"),
       Example("Third-party API rate limit", "Request batching + local queue", "optimization", "Reduced calls 80%"),
       Example("Legacy service migration blocked", "Graceful degradation path", "degradation", "Zero downtime")]),
    [Sprint("MEDIAN 26-01", 22.0, 32.0, 75.0),
     Sprint("MEDIAN 26-02", 19.0, 28.0, 78.0),
     Sprint("MEDIAN 26-03", 18.0, 25.0, 82.0),
     Sprint("MEDIAN 26-04", 16.0, 22.0, 80.0),
     Sprint("MEDIAN 26-05", 18.0, 24.0, 84.0),
     Sprint("MEDIAN 26-06", 14.0, 18.0, 87.0)])

  const SolutionTypes: map<string, SolutionType> := map[
    "cache" := SolutionType("Caching", "#06b6d4", "💾"),
    "flag" := SolutionType("Feature Flag", "#8b5cf6", "🚩"),
    "optimization" := SolutionType("Optimization", "#10b981", "⚡"),
    "degradation" := SolutionType("Degradation", "#f59e0b", "📉"),
    "prerender" := SolutionType("Pre-render", "#3b82f6", "🖼️")
  ]
}
