/** The sidebar: the team list filtered by platform and search text, the
    collapse toggle, the platform icons of the collapsed mode and the
    highlighting of the current page and team. The sidebar holds only the
    search text; the platform, the selection and the collapsed flag belong to
    its parent, which the sidebar changes through setters. */
module Sidebar {
  import opened Seqs
  import opened Strings
  import opened MockData

  /** The first filter: `"Все"` keeps every team, any other platform only its own. */
  predicate OnPlatform(selectedPlatform: string, t: Team)
  {
    selectedPlatform == AllPlatforms || t.platform == selectedPlatform
  }

  /** The second filter: an empty query keeps every team; otherwise the
      lower-cased query must occur in the lower-cased name or key. */
  predicate MatchesQuery(query: string, t: Team)
  {
    query == "" || Includes(Lower(t.name), Lower(query)) || Includes(Lower(t.key), Lower(query))
  }

  /** `filteredTeams`: the two filters chained, in that order. */
  function FilteredTeams(teams: seq<Team>, selectedPlatform: string, query: string): (r: seq<Team>)
    ensures IsSubsequence(r, teams)
    ensures forall t :: t in r <==> t in teams && OnPlatform(selectedPlatform, t) && MatchesQuery(query, t)
  {
    var onPlatform := Filter((t: Team) => OnPlatform(selectedPlatform, t), teams);
    FilterIsSubsequence((t: Team) => OnPlatform(selectedPlatform, t), teams);
    FilterIsSubsequence((t: Team) => MatchesQuery(query, t), onPlatform);
    IsSubsequenceTransitive(Filter((t: Team) => MatchesQuery(query, t), onPlatform), onPlatform, teams);
    Filter((t: Team) => MatchesQuery(query, t), onPlatform)
  }

  /** The two chained filters are the one filter by both conditions. */
  lemma {:induction false} FilteredTeamsIsOneFilter(teams: seq<Team>, selectedPlatform: string, query: string)
    ensures FilteredTeams(teams, selectedPlatform, query) ==
      Filter((t: Team) => OnPlatform(selectedPlatform, t) && MatchesQuery(query, t), teams)
    decreases |teams|
  {
    if teams != [] {
      FilteredTeamsIsOneFilter(teams[1..], selectedPlatform, query);
      var onPlatform := Filter((t: Team) => OnPlatform(selectedPlatform, t), teams);
      var head := if OnPlatform(selectedPlatform, teams[0]) then [teams[0]] else [];
      assert onPlatform == head + Filter((t: Team) => OnPlatform(selectedPlatform, t), teams[1..]);
      FilterAppend((t: Team) => MatchesQuery(query, t), head, Filter((t: Team) => OnPlatform(selectedPlatform, t), teams[1..]));
    }
  }

  /** With a concrete platform every listed team is on it; with `"Все"` and
      an empty query the whole registry is listed. */
  lemma PlatformConstraint(teams: seq<Team>, selectedPlatform: string, query: string)
    ensures selectedPlatform != AllPlatforms ==>
      forall t :: t in FilteredTeams(teams, selectedPlatform, query) ==> t.platform == selectedPlatform
    ensures FilteredTeams(teams, AllPlatforms, "") == teams
  {
    var p := (t: Team) => OnPlatform(AllPlatforms, t);
    FilterKeepsAll(p, teams);
    FilterKeepsAll((t: Team) => MatchesQuery("", t), Filter(p, teams));
  }

  /** An empty query keeps exactly the teams of the platform, in order. */
  lemma EmptyQueryKeepsPlatform(teams: seq<Team>, selectedPlatform: string)
    ensures FilteredTeams(teams, selectedPlatform, "") == Filter((t: Team) => OnPlatform(selectedPlatform, t), teams)
  {
    var onPlatform := Filter((t: Team) => OnPlatform(selectedPlatform, t), teams);
    FilterKeepsAll((t: Team) => MatchesQuery("", t), onPlatform);
  }

  /** A query is matched without regard to case: its lower-cased form lists the same teams. */
  lemma QueryCaseInsensitive(teams: seq<Team>, selectedPlatform: string, query: string)
    requires query != ""
    ensures FilteredTeams(teams, selectedPlatform, query) == FilteredTeams(teams, selectedPlatform, Lower(query))
  {
    LowerIdempotent(query);
    var onPlatform := Filter((t: Team) => OnPlatform(selectedPlatform, t), teams);
    assert Lower(query) != "" by { assert |Lower(query)| == |query|; }
    FilterCongruent((t: Team) => MatchesQuery(query, t), (t: Team) => MatchesQuery(Lower(query), t), onPlatform);
  }

  /** The parent's state that the sidebar shows and changes, and its own
      search text. */
  datatype View = View(selectedPlatform: string, selectedTeam: Option<Team>, collapsed: bool,
                       searchQuery: string, pathname: string)

  /** The clicks and key strokes the sidebar handles. */
  datatype Event =
    | ToggleCollapse                 // the round button on the edge
    | PickPlatform(p: string)        // a platform button of the expanded list
    | PickIcon(p: string)            // a platform icon of the collapsed mode
    | PickTeam(t: Team)              // a team button
    | TypeQuery(q: string)           // the search input
    | GoAlerts                       // the Алерты navigation button
    | GoReport                       // the Отчёт navigation button

  /** The two navigation buttons change only the address; every other event
      leaves the address as it is. */
  function Step(v: View, e: Event): (w: View)
    ensures e.GoAlerts? ==> w == v.(pathname := "/alerts")
    ensures e.GoReport? ==> w == v.(pathname := "/report")
    ensures !e.GoAlerts? && !e.GoReport? ==> w.pathname == v.pathname
  {
    match e
    case GoAlerts => v.(pathname := "/alerts")
    case GoReport => v.(pathname := "/report")
    case ToggleCollapse => v.(collapsed := !v.collapsed)
    case PickPlatform(p) => v.(selectedPlatform := p)
    case PickIcon(p) => v.(selectedPlatform := p, collapsed := false)
    case PickTeam(t) => v.(selectedTeam := Some(t))
    case TypeQuery(q) => v.(searchQuery := q)
  }

  /** The toggle flips the collapsed flag and nothing else, so two clicks undo each other. */
  lemma ToggleMeaning(v: View)
    ensures Step(v, ToggleCollapse).collapsed == !v.collapsed
    ensures Step(v, ToggleCollapse).(collapsed := v.collapsed) == v
    ensures Step(Step(v, ToggleCollapse), ToggleCollapse) == v
  {
  }

  /** Picking a collapsed-mode icon selects its platform and always expands
      the sidebar, whatever the state before; the selection and query stay. */
  lemma PickIconMeaning(v: View, p: string)
    ensures var w := Step(v, PickIcon(p));
      w.selectedPlatform == p && !w.collapsed &&
      w.selectedTeam == v.selectedTeam && w.searchQuery == v.searchQuery
    ensures Step(v, PickIcon(p)) == Step(Step(v, PickPlatform(p)), ToggleCollapse) <==> v.collapsed
  {
  }

  /** The teams the expanded sidebar lists for a view. */
  function Listed(teams: seq<Team>, v: View): seq<Team>
  {
    FilteredTeams(teams, v.selectedPlatform, v.searchQuery)
  }

  /** Selecting a team, toggling the sidebar or navigating does not change
      which teams are listed. */
  lemma ListUnchanged(teams: seq<Team>, v: View, t: Team)
    ensures Listed(teams, Step(v, PickTeam(t))) == Listed(teams, v)
    ensures Listed(teams, Step(v, ToggleCollapse)) == Listed(teams, v)
    ensures Listed(teams, Step(v, GoAlerts)) == Listed(teams, v)
    ensures Listed(teams, Step(v, GoReport)) == Listed(teams, v)
  {
  }

  /** The text of a collapsed-mode icon: `p[0]`, which renders nothing for an empty name. */
  function IconText(p: string): (r: string)
    ensures |r| <= 1
    ensures p != "" ==> r == [p[0]]
  {
    if p == "" then "" else [p[0]]
  }

  /** The collapsed mode offers the first five platforms, one icon each, in order. */
  function CollapsedIcons(platforms: seq<string>): (r: seq<(string, string)>)
    ensures |r| == if |platforms| < 5 then |platforms| else 5
    ensures forall i :: 0 <= i < |r| ==> r[i] == (platforms[i], IconText(platforms[i]))
  {
    var shown := if |platforms| < 5 then platforms else platforms[..5];
    Map((p: string) => (p, IconText(p)), shown)
  }

  /** Over the registry's platforms the icons are В, i, A, B, W; "DE" and "DS"
      cannot be chosen while collapsed. */
  lemma RegistryIcons()
    ensures var icons := CollapsedIcons(Platforms);
      |icons| == 5 &&
      icons[0].1 == "В" && icons[1].1 == "i" && icons[2].1 == "A" && icons[3].1 == "B" && icons[4].1 == "W" &&
      forall i :: 0 <= i < |icons| ==> icons[i].0 != "DE" && icons[i].0 != "DS"
  {
  }

  /** `isAlertsPage` and `isReportPage`: at most one navigation button is highlighted. */
  function ActivePage(pathname: string): (r: (bool, bool))
    ensures r.0 <==> pathname == "/alerts"
    ensures r.1 <==> pathname == "/report"
    ensures !(r.0 && r.1)
  {
    (pathname == "/alerts", pathname == "/report")
  }

  /** After a navigation button is clicked, exactly that button is
      highlighted, and clicking it again changes nothing. */
  lemma NavigationMeaning(v: View)
    ensures ActivePage(Step(v, GoAlerts).pathname) == (true, false)
    ensures ActivePage(Step(v, GoReport).pathname) == (false, true)
    ensures Step(Step(v, GoAlerts), GoAlerts) == Step(v, GoAlerts)
    ensures Step(Step(v, GoReport), GoReport) == Step(v, GoReport)
  {
  }

  /** A team button is highlighted when its id is the selected team's. */
  predicate Highlighted(selected: Option<Team>, t: Team)
  {
    selected.Some? && selected.value.id == t.id
  }

  lemma RegistryIdsDistinct()
    ensures forall i, j :: 0 <= i < j < |Teams| ==> Teams[i].id != Teams[j].id
  {
  }

  /** Since team ids are distinct, at most one listed team is highlighted,
      and a selected team that is listed is highlighted. */
  lemma OneHighlighted(teams: seq<Team>, v: View)
    requires forall i, j :: 0 <= i < j < |teams| ==> teams[i].id != teams[j].id
    ensures forall i, j ::
      0 <= i < |Listed(teams, v)| && 0 <= j < |Listed(teams, v)| &&
      Highlighted(v.selectedTeam, Listed(teams, v)[i]) && Highlighted(v.selectedTeam, Listed(teams, v)[j])
      ==> i == j
    ensures v.selectedTeam.Some? && v.selectedTeam.value in Listed(teams, v) ==>
      exists i :: 0 <= i < |Listed(teams, v)| && Highlighted(v.selectedTeam, Listed(teams, v)[i])
  {
    var l := Listed(teams, v);
    ListedIdsDistinct(teams, v);
    if v.selectedTeam.Some? && v.selectedTeam.value in l {
      var i :| 0 <= i < |l| && l[i] == v.selectedTeam.value;
      assert Highlighted(v.selectedTeam, l[i]);
    }
  }

  /** Filtering keeps the ids distinct. */
  lemma {:induction false} FilterIdsDistinct(p: Team -> bool, teams: seq<Team>)
    requires forall i, j :: 0 <= i < j < |teams| ==> teams[i].id != teams[j].id
    ensures forall i, j :: 0 <= i < j < |Filter(p, teams)| ==> Filter(p, teams)[i].id != Filter(p, teams)[j].id
    decreases |teams|
  {
    if teams != [] {
      var rest := teams[1..];
      FilterIdsDistinct(p, rest);
      var l := Filter(p, teams);
      var lr := Filter(p, rest);
      if p(teams[0]) {
        assert l == [teams[0]] + lr;
        forall j | 0 <= j < |lr| ensures lr[j].id != teams[0].id {
          assert lr[j] in rest;
          var k :| 0 <= k < |rest| && rest[k] == lr[j];
          assert teams[k + 1] == lr[j];
        }
        forall i, j | 0 <= i < j < |l| ensures l[i].id != l[j].id {
          if i == 0 {
            assert l[j] == lr[j - 1];
          } else {
            assert l[i] == lr[i - 1] && l[j] == lr[j - 1];
          }
        }
      }
    }
  }

  lemma ListedIdsDistinct(teams: seq<Team>, v: View)
    requires forall i, j :: 0 <= i < j < |teams| ==> teams[i].id != teams[j].id
    ensures forall i, j :: 0 <= i < j < |Listed(teams, v)| ==> Listed(teams, v)[i].id != Listed(teams, v)[j].id
  {
    FilterIdsDistinct((t: Team) => OnPlatform(v.selectedPlatform, t), teams);
    FilterIdsDistinct((t: Team) => MatchesQuery(v.searchQuery, t), Filter((t: Team) => OnPlatform(v.selectedPlatform, t), teams));
  }

  /** The heading count and the empty-list message. */
  lemma TeamCountMeaning(teams: seq<Team>, v: View)
    ensures |Listed(teams, v)| <= |teams|
    ensures Listed(teams, v) == [] <==>
      forall t :: t in teams ==> !(OnPlatform(v.selectedPlatform, t) && MatchesQuery(v.searchQuery, t))
  {
    FilteredTeamsIsOneFilter(teams, v.selectedPlatform, v.searchQuery);
    if Listed(teams, v) != [] {
      assert Listed(teams, v)[0] in Listed(teams, v);
    }
  }
}
