/** The team dashboard page: which team is selected when the page opens, the
    metrics it derives from the team's series, the platform filter over the
    summary table, and the selection state the page keeps in the browser's
    storage and in the address bar. Storage is a map from keys to strings;
    the address bar is the path the page last navigated to. */
module Dashboard {
  import opened Seqs
  import opened Strings
  import opened MockData

  /** `localStorage.getItem(key)`: the stored string, or `null`. */
  function GetItem(storage: map<string, string>, key: string): Option<string>
  {
    if key in storage then Some(storage[key]) else None
  }

  /** The first team with key `k`, as `teams.find(t => t.key === k)`. */
  function TeamByKey(teams: seq<Team>, k: string): Option<Team>
  {
    Find((t: Team) => t.key == k, teams)
  }

  /** The first team with id `n`, as `teams.find(t => t.id === n)`. */
  function TeamById(teams: seq<Team>, n: nat): Option<Team>
  {
    Find((t: Team) => t.id == n, teams)
  }

  /** The team selected when the page opens. A key in the address takes
      precedence, and a key that names no team (such as "ALL") selects none
      without looking at storage; without a key the saved id is used when it
      names a team. Empty strings are falsy and count as absent. */
  function InitialSelectedTeam(teams: seq<Team>, teamKey: string, savedTeamId: Option<string>): (r: Option<Team>)
    ensures r.Some? ==> r.value in teams
    ensures teamKey != "" ==>
      (r.Some? <==> exists i :: 0 <= i < |teams| && teams[i].key == teamKey) &&
      (r.Some? ==> r.value.key == teamKey)
    ensures teamKey == "" && r.Some? ==>
      savedTeamId.Some? && ParseNat(savedTeamId.value) == Some(r.value.id)
    ensures teamKey == "" && (savedTeamId.None? || savedTeamId.value == "") ==> r.None?
  {
    if teamKey != "" then TeamByKey(teams, teamKey)
    else if savedTeamId.Some? && savedTeamId.value != "" then
      match ParseNat(savedTeamId.value)
      case Some(n) => TeamById(teams, n)
      case None => None
    else None
  }

  /** The team the page lists: the first one whose key is `k`. With distinct
      keys that is the only one. */
  lemma TeamByKeyUnique(teams: seq<Team>, i: nat)
    requires i < |teams|
    requires forall a, b :: 0 <= a < b < |teams| ==> teams[a].key != teams[b].key
    ensures TeamByKey(teams, teams[i].key) == Some(teams[i])
  {
    var r := TeamByKey(teams, teams[i].key);
    var j :| 0 <= j < |teams| && teams[j] == r.value && teams[j].key == teams[i].key
             && forall m :: 0 <= m < j ==> teams[m].key != teams[i].key;
    assert j == i;
  }

  lemma TeamByIdUnique(teams: seq<Team>, i: nat)
    requires i < |teams|
    requires forall a, b :: 0 <= a < b < |teams| ==> teams[a].id != teams[b].id
    ensures TeamById(teams, teams[i].id) == Some(teams[i])
  {
    var r := TeamById(teams, teams[i].id);
    var j :| 0 <= j < |teams| && teams[j] == r.value && teams[j].id == teams[i].id
             && forall m :: 0 <= m < j ==> teams[m].id != teams[i].id;
    assert j == i;
  }

  /** The series the cards and charts show: the team's own when it has a
      record, the all-teams series otherwise. */
  function ActiveVelocity(teamData: Option<TeamMetrics>): seq<VelocityPoint>
  {
    if teamData.Some? then teamData.value.velocity else DefaultVelocity
  }

  function ActiveCycleTime(teamData: Option<TeamMetrics>): seq<CycleTimePoint>
  {
    if teamData.Some? then teamData.value.cycleTime else DefaultCycleTime
  }

  /** `avgVelocity`: the record's stored average when it is non-zero, else the
      rounded mean delivery percentage; `None` is the NaN of an empty series. */
  function AvgVelocity(teamData: Option<TeamMetrics>): (r: Option<real>)
    ensures teamData.Some? && teamData.value.avgVelocity != 0.0 ==> r == Some(teamData.value.avgVelocity)
    ensures (teamData.None? || teamData.value.avgVelocity == 0.0) ==>
      (r.Some? <==> |ActiveVelocity(teamData)| > 0) &&
      (r.Some? ==> RoundIsNearestTo(r.value, Mean(Pcts(ActiveVelocity(teamData)))))
  {
    if teamData.Some? && teamData.value.avgVelocity != 0.0 then Some(teamData.value.avgVelocity)
    else
      var vs := ActiveVelocity(teamData);
      if |vs| == 0 then None
      else
        Some(Round(Mean(Pcts(vs))) as real)
  }

  /** `r` is a whole number within one half of `x`. */
  predicate RoundIsNearestTo(r: real, x: real)
  {
    r == r.Floor as real && x - 0.5 < r <= x + 0.5
  }

  /** A team whose record came from the generator shows its summary row's velocity. */
  lemma GeneratedAvgVelocity(teamKey: string, v: real, c: real)
    requires v != 0.0
    ensures AvgVelocity(Some(GenerateTeamMetrics(teamKey, v, c))) == Some(v)
  {
  }

  /** `x || 0` on a delivery percentage that may be missing. */
  function OrZero(x: Option<real>): real
  {
    if x.Some? then x.value else 0.0
  }

  /** The `k`-th point from the end, as `vs[vs.length - k]?.pct`. */
  function PctFromEnd(vs: seq<VelocityPoint>, k: nat): (r: Option<real>)
    requires k > 0
    ensures r.Some? <==> k <= |vs|
  {
    if k <= |vs| then Some(vs[|vs| - k].pct) else None
  }

  /** `velocityTrend`: the last percentage minus the one before, a missing one counting as 0. */
  function VelocityTrend(vs: seq<VelocityPoint>): (r: real)
    ensures |vs| >= 2 ==> r == vs[|vs| - 1].pct - vs[|vs| - 2].pct
    ensures |vs| == 1 ==> r == vs[0].pct
    ensures |vs| == 0 ==> r == 0.0
  {
    OrZero(PctFromEnd(vs, 1)) - OrZero(PctFromEnd(vs, 2))
  }

  /** `cycleTimeTrend`: the rounded percentage change of the last week's
      average against the week before, negated so that a faster week reads as
      an improvement. The division is unguarded, so the week before must be
      present and non-zero. */
  function CycleTimeTrend(cs: seq<CycleTimePoint>): (r: int)
    requires |cs| >= 2 && cs[|cs| - 2].avg != 0.0
  {
    var cur := cs[|cs| - 1].avg;
    var prev := cs[|cs| - 2].avg;
    -Round((cur - prev) / prev * 100.0)
  }

  /** With positive times a slower last week never reads as an improvement,
      a faster one never as a regression, and an unchanged one as 0. */
  lemma CycleTimeTrendSign(cs: seq<CycleTimePoint>)
    requires |cs| >= 2 && cs[|cs| - 2].avg > 0.0
    ensures cs[|cs| - 1].avg > cs[|cs| - 2].avg ==> CycleTimeTrend(cs) <= 0
    ensures cs[|cs| - 1].avg < cs[|cs| - 2].avg ==> CycleTimeTrend(cs) >= 0
    ensures cs[|cs| - 1].avg == cs[|cs| - 2].avg ==> CycleTimeTrend(cs) == 0
  {
    var cur := cs[|cs| - 1].avg;
    var prev := cs[|cs| - 2].avg;
    var x := (cur - prev) / prev * 100.0;
    if cur > prev {
      assert (cur - prev) / prev > 0.0;
      assert x > 0.0;
    } else if cur < prev {
      assert (cur - prev) / prev < 0.0;
      assert x < 0.0;
    } else {
      assert x == 0.0;
    }
  }

  /** The hero card's badge and its below-target warning. */
  datatype Hero = Hero(status: string, alert: Option<string>)

  const BelowTargetText := "Velocity below target. Review sprint planning."

  function HeroCard(avgVelocity: real): Hero
  {
    Hero(GetTeamStatus(avgVelocity), if avgVelocity < 60.0 then Some(BelowTargetText) else None)
  }

  /** The warning appears exactly when the badge is not "good"; a critical
      badge always comes with it. */
  lemma HeroCardConsistent(avgVelocity: real)
    ensures HeroCard(avgVelocity).alert.Some? <==> HeroCard(avgVelocity).status != "good"
    ensures HeroCard(avgVelocity).status == "critical" ==> HeroCard(avgVelocity).alert.Some?
    ensures HeroCard(avgVelocity).alert.Some? <==> avgVelocity < 60.0
  {
  }

  /** The row's team is on the platform, the team found by name as `teams.find` does. */
  predicate RowOnPlatform(teams: seq<Team>, platform: string, s: SummaryRow)
  {
    var team := Find((t: Team) => t.name == s.team, teams);
    team.Some? && team.value.platform == platform
  }

  /** `filteredSummaryData`. */
  function FilteredSummaryData(rows: seq<SummaryRow>, teams: seq<Team>, selectedPlatform: string): (r: seq<SummaryRow>)
    ensures selectedPlatform == AllPlatforms ==> r == rows
    ensures selectedPlatform != AllPlatforms ==>
      forall s :: s in r <==> s in rows && RowOnPlatform(teams, selectedPlatform, s)
    ensures IsSubsequence(r, rows)
  {
    if selectedPlatform == AllPlatforms then
      IsSubsequenceReflexive(rows);
      rows
    else
      FilterIsSubsequence((s: SummaryRow) => RowOnPlatform(teams, selectedPlatform, s), rows);
      Filter((s: SummaryRow) => RowOnPlatform(teams, selectedPlatform, s), rows)
  }

  lemma {:induction false} IsSubsequenceReflexive<T>(s: seq<T>)
    ensures IsSubsequence(s, s)
    decreases |s|
  {
    if s != [] {
      IsSubsequenceReflexive(s[1..]);
    }
  }

  /** For a row whose team name is registered once, the filter compares that team's platform. */
  lemma RowPlatformMeaning(teams: seq<Team>, platform: string, s: SummaryRow, i: nat)
    requires i < |teams| && teams[i].name == s.team
    requires forall j :: 0 <= j < |teams| && j != i ==> teams[j].name != s.team
    ensures RowOnPlatform(teams, platform, s) <==> teams[i].platform == platform
  {
    var team := Find((t: Team) => t.name == s.team, teams);
    var j :| 0 <= j < |teams| && teams[j] == team.value && teams[j].name == s.team;
    assert j == i;
  }

  /** A row naming no registered team is never shown under a concrete platform. */
  lemma UnknownRowHidden(teams: seq<Team>, platform: string, s: SummaryRow)
    requires forall j :: 0 <= j < |teams| ==> teams[j].name != s.team
    ensures !RowOnPlatform(teams, platform, s)
  {
  }

  /** The path the page navigates to for a selection. */
  function TeamPath(selected: Option<Team>): string
  {
    if selected.Some? then "/team/" + selected.value.key else "/team/ALL"
  }

  /** How `setItem` writes a boolean. */
  function BoolText(b: bool): string
  {
    if b then "true" else "false"
  }

  /** What the page keeps in storage and the address bar: the storage holds
      the current platform, the collapsed flag, and the selected team's id
      exactly when a team is selected; the path names the selection. */
  predicate Persisted(storage: map<string, string>, location: string, selectedPlatform: string,
                      selectedTeam: Option<Team>, collapsed: bool)
  {
    GetItem(storage, "selectedPlatform") == Some(selectedPlatform) &&
    GetItem(storage, "sidebarCollapsed") == Some(BoolText(collapsed)) &&
    (selectedTeam.Some? ==> GetItem(storage, "selectedTeamId") == Some(NatToString(selectedTeam.value.id))) &&
    (selectedTeam.None? ==> GetItem(storage, "selectedTeamId").None?) &&
    location == TeamPath(selectedTeam)
  }

  /** The page's state with its storage and address bar. */
  class DashboardSession {
    var storage: map<string, string>
    var location: string
    var selectedPlatform: string
    var selectedTeam: Option<Team>
    var collapsed: bool

    predicate Valid()
      reads this
    {
      Persisted(storage, location, selectedPlatform, selectedTeam, collapsed)
    }

    /** The page opening at `/team/<teamKey>` (`teamKey` empty for no key):
        the three pieces of state are read, then the three effects run once. */
    constructor Open(teams: seq<Team>, teamKey: string, initialStorage: map<string, string>)
      ensures Valid()
      ensures selectedTeam == InitialSelectedTeam(teams, teamKey, GetItem(initialStorage, "selectedTeamId"))
      ensures selectedPlatform ==
        (var p := GetItem(initialStorage, "selectedPlatform"); if p.Some? && p.value != "" then p.value else AllPlatforms)
      ensures collapsed == (GetItem(initialStorage, "sidebarCollapsed") == Some("true"))
      ensures forall k :: k in storage && k !in {"selectedPlatform", "sidebarCollapsed", "selectedTeamId"} ==>
        k in initialStorage && storage[k] == initialStorage[k]
    {
      var p := GetItem(initialStorage, "selectedPlatform");
      selectedPlatform := if p.Some? && p.value != "" then p.value else AllPlatforms;
      selectedTeam := InitialSelectedTeam(teams, teamKey, GetItem(initialStorage, "selectedTeamId"));
      collapsed := GetItem(initialStorage, "sidebarCollapsed") == Some("true");
      storage := initialStorage;
      location := "";
      new;
      PersistPlatform();
      PersistTeam();
      PersistCollapsed();
    }

    /** The platform effect. */
    method PersistPlatform()
      modifies this
      ensures storage == old(storage)["selectedPlatform" := selectedPlatform]
      ensures unchanged(this`location, this`selectedPlatform, this`selectedTeam, this`collapsed)
    {
      storage := storage["selectedPlatform" := selectedPlatform];
    }

    /** The selection effect: store the id and go to the team's path, or
        remove the id and go to `/team/ALL`. */
    method PersistTeam()
      modifies this
      ensures selectedTeam.Some? ==> storage == old(storage)["selectedTeamId" := NatToString(selectedTeam.value.id)]
      ensures selectedTeam.None? ==> storage == old(storage) - {"selectedTeamId"}
      ensures location == TeamPath(selectedTeam)
      ensures unchanged(this`selectedPlatform, this`selectedTeam, this`collapsed)
    {
      if selectedTeam.Some? {
        storage := storage["selectedTeamId" := NatToString(selectedTeam.value.id)];
        location := "/team/" + selectedTeam.value.key;
      } else {
        storage := storage - {"selectedTeamId"};
        location := "/team/ALL";
      }
    }

    /** The collapsed-flag effect. */
    method PersistCollapsed()
      modifies this
      ensures storage == old(storage)["sidebarCollapsed" := BoolText(collapsed)]
      ensures unchanged(this`location, this`selectedPlatform, this`selectedTeam, this`collapsed)
    {
      storage := storage["sidebarCollapsed" := BoolText(collapsed)];
    }

    /** `setSelectedTeam` followed by its effect. */
    method SelectTeam(t: Option<Team>)
      requires Valid()
      modifies this
      ensures Valid()
      ensures selectedTeam == t
      ensures unchanged(this`selectedPlatform, this`collapsed)
      ensures t.Some? ==> storage == old(storage)["selectedTeamId" := NatToString(t.value.id)]
      ensures t.None? ==> storage == old(storage) - {"selectedTeamId"}
    {
      selectedTeam := t;
      PersistTeam();
    }

    /** `setSelectedPlatform` followed by its effect; the selection is kept. */
    method SelectPlatform(p: string)
      requires Valid()
      modifies this
      ensures Valid()
      ensures selectedPlatform == p
      ensures unchanged(this`selectedTeam, this`collapsed, this`location)
      ensures storage == old(storage)["selectedPlatform" := p]
    {
      selectedPlatform := p;
      PersistPlatform();
    }

    /** `setCollapsed` followed by its effect. */
    method SetCollapsed(c: bool)
      requires Valid()
      modifies this
      ensures Valid()
      ensures collapsed == c
      ensures unchanged(this`selectedTeam, this`selectedPlatform, this`location)
      ensures storage == old(storage)["sidebarCollapsed" := BoolText(c)]
    {
      collapsed := c;
      PersistCollapsed();
    }
  }

  /** Re-opening the page at the address it left, with the storage it left,
      restores the same selection, platform and collapsed flag. This needs
      distinct keys, and keys other than "ALL" and the empty string. */
  lemma ReloadRestores(teams: seq<Team>, storage: map<string, string>, location: string,
                       selectedPlatform: string, selectedTeam: Option<Team>, collapsed: bool)
    requires Persisted(storage, location, selectedPlatform, selectedTeam, collapsed)
    requires forall a, b :: 0 <= a < b < |teams| ==> teams[a].key != teams[b].key
    requires forall i :: 0 <= i < |teams| ==> teams[i].key != "ALL" && teams[i].key != ""
    requires selectedTeam.Some? ==> selectedTeam.value in teams
    requires selectedPlatform != ""
    ensures var key := if selectedTeam.Some? then selectedTeam.value.key else "ALL";
      InitialSelectedTeam(teams, key, GetItem(storage, "selectedTeamId")) == selectedTeam
    ensures var p := GetItem(storage, "selectedPlatform");
      (if p.Some? && p.value != "" then p.value else AllPlatforms) == selectedPlatform
    ensures (GetItem(storage, "sidebarCollapsed") == Some("true")) == collapsed
  {
    if selectedTeam.Some? {
      var i :| 0 <= i < |teams| && teams[i] == selectedTeam.value;
      TeamByKeyUnique(teams, i);
    } else {
      assert forall i :: 0 <= i < |teams| ==> teams[i].key != "ALL";
    }
  }

  /** Re-opening without a key in the address falls back to the stored id
      and finds the same team, ids being distinct. */
  lemma ReloadBySavedId(teams: seq<Team>, storage: map<string, string>, location: string,
                        selectedPlatform: string, selectedTeam: Option<Team>, collapsed: bool)
    requires Persisted(storage, location, selectedPlatform, selectedTeam, collapsed)
    requires forall a, b :: 0 <= a < b < |teams| ==> teams[a].id != teams[b].id
    requires selectedTeam.Some? ==> selectedTeam.value in teams
    ensures InitialSelectedTeam(teams, "", GetItem(storage, "selectedTeamId")) == selectedTeam
  {
    if selectedTeam.Some? {
      var i :| 0 <= i < |teams| && teams[i] == selectedTeam.value;
      ParseNatToString(selectedTeam.value.id);
      TeamByIdUnique(teams, i);
    }
  }
}
