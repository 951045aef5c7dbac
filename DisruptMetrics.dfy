/** The Disrupt team page: the improvement notes beside time to market and
    wait time, the target cell, the ownership delta, and the page's own
    sidebar state. */
module DisruptMetrics {
  import opened Seqs
  import opened MockData
  import opened DisruptData

  /** `t2mDelta`: days saved since the previous sprint. */
  function T2mDelta(t: T2m): (d: real)
    ensures t.current + d == t.previous
  {
    t.previous - t.current
  }

  /** `waitDelta`: points of blocked time removed since the previous sprint. */
  function WaitDelta(w: WaitTime): (d: real)
    ensures w.ratio + d == w.previous
  {
    w.previous - w.ratio
  }

  /** A "vs prev" note is shown only for an improvement, with its size. */
  function ImprovementNote(delta: real): (r: Option<real>)
    ensures r.Some? <==> delta > 0.0
    ensures r.Some? ==> r.value == delta
  {
    if delta > 0.0 then Some(delta) else None
  }

  /** The note under the time-to-market card appears exactly when the
      current time is shorter than the previous one. */
  lemma T2mNoteMeaning(t: T2m)
    ensures ImprovementNote(T2mDelta(t)).Some? <==> t.current < t.previous
  {
  }

  lemma WaitNoteMeaning(w: WaitTime)
    ensures ImprovementNote(WaitDelta(w)).Some? <==> w.ratio < w.previous
  {
  }

  /** The target cell: on track, or the number of days over. */
  datatype TargetNote = OnTrack | DaysOver(days: real)

  function TargetCell(t: T2m): (n: TargetNote)
    ensures n.OnTrack? <==> t.current <= t.target
    ensures n.DaysOver? ==> n.days > 0.0 && t.target + n.days == t.current
  {
    if t.current <= t.target then OnTrack else DaysOver(t.current - t.target)
  }

  /** The ownership delta's sign and colour: "+" and green from zero up. */
  function DeltaStyle(delta: real): (r: (string, string))
    ensures r == ("+", "text-green-400") <==> delta >= 0.0
    ensures r == ("", "text-red-400") <==> delta < 0.0
  {
    if delta >= 0.0 then ("+", "text-green-400") else ("", "text-red-400")
  }

  /** What the shipped dataset shows: 4 days and 6 points better than the
      previous sprint, 2 days over the target, "+7" in green. */
  lemma DisruptDatasetView()
    ensures ImprovementNote(T2mDelta(Disrupt.t2m)) == Some(4.0)
    ensures ImprovementNote(WaitDelta(Disrupt.waitTime)) == Some(6.0)
    ensures TargetCell(Disrupt.t2m) == DaysOver(2.0)
    ensures DeltaStyle(Disrupt.ownership.delta) == ("+", "text-green-400")
  {
  }

  /** The page's sidebar state. Only the collapsed flag is written back to
      storage; the platform is read once and never stored, and picking a
      team leaves for the dashboard. */
  class DisruptPage {
    var collapsed: bool
    var selectedPlatform: string
    var storage: map<string, string>
    var location: string

    predicate Valid()
      reads this
    {
      "sidebarCollapsed" in storage && storage["sidebarCollapsed"] == (if collapsed then "true" else "false")
    }

    /** Mounting: both values read from storage, then the collapsed effect's first run. */
    constructor (initialStorage: map<string, string>, path: string)
      ensures Valid()
      ensures collapsed <==> "sidebarCollapsed" in initialStorage && initialStorage["sidebarCollapsed"] == "true"
      ensures selectedPlatform ==
        (if "selectedPlatform" in initialStorage && initialStorage["selectedPlatform"] != ""
         then initialStorage["selectedPlatform"] else AllPlatforms)
      ensures storage == initialStorage["sidebarCollapsed" := if collapsed then "true" else "false"]
      ensures location == path
    {
      var c := "sidebarCollapsed" in initialStorage && initialStorage["sidebarCollapsed"] == "true";
      collapsed := c;
      selectedPlatform :=
        if "selectedPlatform" in initialStorage && initialStorage["selectedPlatform"] != ""
        then initialStorage["selectedPlatform"] else AllPlatforms;
      storage := initialStorage["sidebarCollapsed" := if c then "true" else "false"];
      location := path;
    }

    /** `setCollapsed` followed by its effect. */
    method SetCollapsed(c: bool)
      requires Valid()
      modifies this
      ensures Valid()
      ensures collapsed == c
      ensures storage == old(storage)["sidebarCollapsed" := if c then "true" else "false"]
      ensures selectedPlatform == old(selectedPlatform) && location == old(location)
    {
      collapsed := c;
      storage := storage["sidebarCollapsed" := if c then "true" else "false"];
    }

    /** `setSelectedPlatform`: no effect stores it. */
    method SelectPlatform(p: string)
      requires Valid()
      modifies this
      ensures Valid()
      ensures selectedPlatform == p
      ensures storage == old(storage) && collapsed == old(collapsed) && location == old(location)
    {
      selectedPlatform := p;
    }

    /** The sidebar's team picker: whatever is picked, go to `/team/ALL`. */
    method SelectTeam(t: Option<Team>)
      requires Valid()
      modifies this`location
      ensures Valid()
      ensures location == "/team/ALL"
    {
      location := "/team/ALL";
    }
  }
}
