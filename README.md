# Omniboard delivery-metrics dashboard, modelled in Dafny

Omniboard is a single-page dashboard of delivery metrics for sixteen product
teams. For each team it shows velocity (the share of planned story points
completed per sprint), cycle time (days per work item, by week), the ДШБ bug
scale and a summary table. Its other pages are an alert feed, a monthly
report and a page for the Disrupt team. All data is static. This project
models the logic behind those views:

- `MockData`: the registry of teams and the summary rows. It also covers the
  generator that fills in series for teams without hand-written ones, the
  fill-in loop over the metrics table (a class whose records the loop
  updates), and the status helpers.
- `Alerts`: the nine alert rules, evaluated per team in a fixed order. A
  loop over the teams collects their alerts. The module also models the
  page's filters, severity groups and counters.
- `Dashboard`: the initial team selection from the address or from storage,
  and the derived metrics and trends. It covers the platform filter of the
  summary table and the session class whose effects write the selection to
  storage and the address bar.
- `Sidebar`: the team list filtered by platform and search text, the collapse
  toggle, the collapsed-mode platform icons and the highlighting.
- `StatCard`, `SummaryTable`, `DshbWidget`, `T2MGauge`, `OwnershipRing` and
  `WaitTimeChart`: what each widget shows for its inputs.
- `DisruptTrendChart` and `SolutionsList`: the same, for the Disrupt page's
  chart and solution list.
- `ThemeContext`: the start-up theme, the toggle, and a provider class whose
  effect mirrors the theme into the document and storage.
- `DisruptMetrics`: the Disrupt page's notes and its own sidebar state.
  `DisruptData` holds its dataset.
- `Report`: the canned monthly report, the month caption and the bar colours.
- `Seqs` and `Strings`: generic helpers (filter, map, find, sums,
  lower-casing, substring search, `String.replace` with a string pattern,
  and decimal text for ids).

Numbers are modelled as mathematical reals. `Math.round` is `floor(x + 1/2)`.
The coefficient-of-variation tests compare squares instead of taking a square
root, with the floating-point cases of a zero or negative mean written out.
Browser storage is a `map<string, string>`, and the address bar is the path
last navigated to.

The stored summary rows are not all consistent with `getTeamStatus`. The row
for Content & Growth has velocity 48, which the helper rates "warning", but it
is stored as "critical", and the table shows the stored status.
`SummaryTable.StoredStatusesAgainstHelper` states this. Every other row agrees
with the helper. Since this is data rather than code, the model keeps the data
as written.

Where the code and its written description differ, the model follows the code:
- The top-performer rule compares the summary row's velocity, so Disrupt (85)
  gets that alert.
- The velocity-drop rule is guarded by a previous sprint above 0.
- A team with metrics but no sprints makes the alert generator throw. This is
  modelled as an error result.
- The Disrupt page never stores the selected platform.
- The summary table colours velocity at 75 and 60, and 70 is rated "good" but
  shown yellow.

## Model

| member | source | states |
|---|---|---|
| MockData.GetTeamStatus | src/data/mockData.js:254-258 | "good" exactly from 60, "warning" exactly on [45, 60), "critical" exactly below 45 |
| MockData.GetTeamStatusMonotone | src/data/mockData.js:254-258 | a higher velocity never gets a worse status |
| MockData.GetStatusColor | src/data/mockData.js:260-267 | the zinc fallback class is returned exactly for a status other than good, warning, critical |
| MockData.GetStatusLabel | src/data/mockData.js:269-276 | "Unknown" is returned exactly for an unknown status |
| MockData.StatusPresentationInjective | src/data/mockData.js:260-276 | two different known statuses never share a colour or a label |
| MockData.ComputedStatusIsKnown | src/data/mockData.js:254-276 | every computed status is known, so its label is never "Unknown" |
| MockData.Round | src/data/mockData.js:215-220 | `Math.round`: the integer r with r <= x + 1/2 < r + 1 |
| MockData.RoundIsNearest | src/data/mockData.js:215-220 | no other integer is closer to x than the rounded value |
| MockData.Pcts | src/pages/Dashboard.jsx:69 | the delivery percentages of a series, one per sprint, in order |
| MockData.GenerateTeamMetrics | src/data/mockData.js:213-235 | 6 sprints and 8 weeks; sprint captions "KEY 26-0n"; the percentage offsets -5, -3, +5, 0, -2, 0; each week's median below its average and its average below its 90th percentile, with a tail of at least 11 days; the stored averages are the inputs; the fixed ДШБ record |
| MockData.GeneratedMeanVelocity | src/data/mockData.js:215-220 | the generated percentages average v - 5/6, not v |
| MockData.GeneratedCompletedFollowsPct | src/data/mockData.js:215-220 | from the third sprint on, completed points are planned points times the sprint's own percentage, rounded; the first two use the base velocity |
| MockData.SummaryMap | src/data/mockData.js:238 | the map has a key for exactly the team names of the rows |
| MockData.SummaryMapLastWins | src/data/mockData.js:238 | `Object.fromEntries` keeps the last row with a name |
| MockData.FilledKeepsExisting | src/data/mockData.js:239-240 | a team that already has a record keeps it unchanged |
| MockData.FilledKeys | src/data/mockData.js:239-246 | after filling in, a key has a record exactly when it had one or names a listed team with a summary row |
| MockData.FilledGenerated | src/data/mockData.js:240-244 | a team without a record gets the generator's record from its summary row's velocity and cycle time |
| MockData.MetricsTable.constructor | src/data/mockData.js:71 | the table starts with the records it is given (the hand-written ones on load) |
| MockData.MetricsTable.FillIn | src/data/mockData.js:238-246 | the loop leaves the table equal to the fill-in of the old table over the teams |
| MockData.MetricsTable.GetTeamData | src/data/mockData.js:249-251 | the record for a key, or none exactly when the key has no record |
| MockData.Load | src/data/mockData.js:71-246 | loading the module leaves the hand-written table completed by the fill-in loop |
| MockData.GetTeamData | src/data/mockData.js:249-251 | on the loaded table: the record for a key, or none exactly when the loaded table has no record for it |
| MockData.SummaryCoversTeams | src/data/mockData.js:1-18 | every registered team's name has a summary row |
| MockData.EveryTeamHasMetrics | src/data/mockData.js:237-251 | after loading, every registered team has metrics |
| MockData.HandWrittenServed | src/data/mockData.js:71-210 | a hand-written record is served as written; filling in never replaces it |
| Alerts.LastTwo | src/pages/Alerts.jsx:20 | `slice(-2)`: the last two sprints, or all when fewer |
| Alerts.LowVelocityStreakMeaning | src/pages/Alerts.jsx:19-22 | rule 1 holds exactly when the last two sprints (or the only one) are below 60, and holds for an empty history |
| Alerts.VelDropMeaning | src/pages/Alerts.jsx:37-41 | a drop above 20% means at least two sprints, a positive previous one, and a current one below 80% of it |
| Alerts.Variance | src/pages/Alerts.jsx:59 | the mean squared deviation is non-negative |
| Alerts.CvMeaning | src/pages/Alerts.jsx:56-61 | for a non-zero mean, the square-free tests agree with sd / mean * 100 above or below k for the standard deviation sd |
| Alerts.StableExcludesUnstable | src/pages/Alerts.jsx:61-164 | a series stable enough for rule 9 (CV below 15) is never unstable for rule 3 (CV above 25) |
| Alerts.CtIncreaseMeaning | src/pages/Alerts.jsx:110-114 | rule 6 holds exactly when the first four weeks' total is positive and the last four's exceeds it by more than 30% |
| Alerts.ShortHistoryNoIncrease | src/pages/Alerts.jsx:111-113 | with four weeks or fewer the two windows coincide and rule 6 cannot fire |
| Alerts.BelowTargetCount | src/pages/Alerts.jsx:130 | the count is at most the number of sprints, and 0 exactly when no sprint is below 60 |
| Alerts.CarryoverMeaning | src/pages/Alerts.jsx:146-148 | rule 8 holds exactly below a summary velocity of 62.5 |
| Alerts.Measure | src/pages/Alerts.jsx:16-164 | the statistics of a team; a stable series is never also unstable |
| Alerts.LowStreakSuppresses | src/pages/Alerts.jsx:41-131 | when rule 1 fires, rules 2, 3 and 7 do not |
| Alerts.MakeAlert | src/pages/Alerts.jsx:23-34 | an alert carries the team's key, name and platform, and its rule's type, severity and title |
| Alerts.RuleOrderComplete | src/pages/Alerts.jsx:19-177 | every one of the nine rules is evaluated |
| Alerts.RuleOrderDistinct | src/pages/Alerts.jsx:19-177 | each rule is evaluated once |
| Alerts.FiredAlerts | src/pages/Alerts.jsx:19-177 | at most one alert per rule |
| Alerts.FiredAlertsMembers | src/pages/Alerts.jsx:19-177 | a team's alerts are exactly the alerts of its rules that fire |
| Alerts.SuffixTailInjective | src/pages/Alerts.jsx:24-166 | the last four characters of the id suffixes differ from rule to rule |
| Alerts.AlertIdInjective | src/pages/Alerts.jsx:24-166 | an alert id determines its team key and its rule |
| Alerts.FiredAlertsIdsDistinct | src/pages/Alerts.jsx:19-177 | one team's alerts have pairwise distinct ids |
| Alerts.RuleAlertPresent | src/pages/Alerts.jsx:19-177 | the alert of a rule is in the list exactly when the rule fires |
| Alerts.TeamAlertPresent | src/pages/Alerts.jsx:10-177 | a team with sprints gets the alert of a rule exactly when the rule fires |
| Alerts.NoAlertOf | src/pages/Alerts.jsx:19-177 | a rule that does not fire contributes no alert |
| Alerts.LowStreakSuppressesAlerts | src/pages/Alerts.jsx:41-131 | a team on a low streak gets no drop, instability or below-target alert |
| Alerts.GenerateAlerts | src/pages/Alerts.jsx:7-181 | the loop over the teams yields the alerts of every team with metrics and a summary row, in team order, or the error of the first team that throws |
| Alerts.AllAlertsErrPersists | src/pages/Alerts.jsx:10-32 | once one team throws, the whole generator throws |
| Alerts.AllAlertsMembers | src/pages/Alerts.jsx:7-181 | every generated alert is a rule's alert for one of the teams |
| Alerts.AlertsForFrom | src/pages/Alerts.jsx:10-177 | every alert of a team's contribution is a rule's alert for that team |
| Alerts.AlertsForIdsDistinct | src/pages/Alerts.jsx:10-177 | one team's contribution has distinct ids |
| Alerts.AllAlertsIdsDistinct | src/pages/Alerts.jsx:7-181 | with distinct team keys, all alert ids (the list keys of the page) are distinct |
| Alerts.AllAlertsOk | src/pages/Alerts.jsx:10-32 | when every team with metrics has a sprint, the generator does not throw |
| Alerts.EmptyHistoryThrows | src/pages/Alerts.jsx:20-32 | a team with metrics and a summary row but no sprints makes the generator throw |
| Alerts.SeverityConfig | src/pages/Alerts.jsx:183-205 | a style exists exactly for critical, warning and success |
| Alerts.TypeLabel | src/pages/Alerts.jsx:207-211 | a label exists exactly for velocity, cycletime and health |
| Alerts.RuleIsPresentable | src/pages/Alerts.jsx:183-211 | every rule's severity has a style and its type has a label |
| Alerts.GeneratedAlertsPresentable | src/pages/Alerts.jsx:183-211 | every generated alert can be rendered without an undefined style or label |
| Alerts.FilterAlerts | src/pages/Alerts.jsx:225-233 | an alert is kept exactly when it passes the type, severity and platform filters |
| Alerts.FilterAlertsOrdered | src/pages/Alerts.jsx:225-233 | filtering keeps the generator's order and only drops alerts |
| Alerts.NoFiltersKeepAll | src/pages/Alerts.jsx:225-233 | with every filter at "all" and the platform at "Все", every alert is kept |
| Alerts.PlatformFilterMeaning | src/pages/Alerts.jsx:228-231 | for a team with a unique key, the platform filter compares that team's platform |
| Alerts.Group | src/pages/Alerts.jsx:236-238 | a group holds exactly the alerts of its severity |
| Alerts.GroupsPartition | src/pages/Alerts.jsx:236-238 | the three groups together hold every alert exactly once |
| Alerts.PageGroupsPartition | src/pages/Alerts.jsx:222-238 | the page's filtered alerts are split completely by the groups |
| Alerts.PageCountsMeaning | src/pages/Alerts.jsx:292-304 | the total ignores the filters; the three counters add up to the filtered count; unfiltered they add up to the total |
| Alerts.EmptyStateMeaning | src/pages/Alerts.jsx:358 | the empty state shows exactly when all three groups are empty |
| Alerts.FilledVelocityNonEmpty | src/data/mockData.js:237-246 | filling in keeps every velocity series non-empty |
| Alerts.PageAlertsOk | src/pages/Alerts.jsx:222 | on the loaded data the generator does not throw |
| Alerts.TeamKeysDistinct | src/data/mockData.js:1-18 | the registry's keys are distinct |
| Alerts.PageAlertsWellFormed | src/pages/Alerts.jsx:222 | on the loaded data every alert has its own id, a severity style and a type label |
| Alerts.GeneratedHasShape | src/data/mockData.js:213-235 | generated records have the fixed percentage offsets and the fixed week offsets |
| Alerts.ShapeMoments | src/data/mockData.js:215-220 | generated percentages have mean v - 5/6 and variance 353/36 |
| Alerts.ShapeStreakAndDrop | src/pages/Alerts.jsx:19-41 | for generated sprints, rule 1 holds exactly below 60 and the last sprint never drops |
| Alerts.ShapeDispersion | src/pages/Alerts.jsx:56-164 | generated sprints are unstable only below a base of 60 and stable from 85 |
| Alerts.ShapeBelowTarget | src/pages/Alerts.jsx:129-131 | at least three generated sprints are below 60 exactly when the base is below 62 |
| Alerts.WeeksRules | src/pages/Alerts.jsx:76-114 | for generated weeks, rule 4 holds exactly above a base of 15.9625, rule 5 above 20.0625, and rule 6 never |
| Alerts.GeneratedTeamRules | src/pages/Alerts.jsx:19-177 | which rules fire for a team whose series come from its summary row, as conditions on its velocity and cycle time |
| Alerts.SteadyTopTeamRules | src/pages/Alerts.jsx:19-177 | a steady team at 85 or more gets the top-performer alert and otherwise only the cycle-time alerts its weeks call for |
| Alerts.StrugglingTeamRules | src/pages/Alerts.jsx:19-177 | a struggling team with slow weeks gets exactly rules 1, 4, 5 and 8 |
| Alerts.SurfAlerts | src/data/mockData.js:72-94 | Surf gets exactly the high-median and top-performer alerts |
| Alerts.DisruptAlerts | src/data/mockData.js:95-117 | Disrupt gets exactly the top-performer alert |
| Alerts.CngAlerts | src/data/mockData.js:187-209 | Content & Growth gets exactly rules 1, 4, 5 and 8 |
| Dashboard.InitialSelectedTeam | src/pages/Dashboard.jsx:27-36 | an address key wins, and selects a team exactly when one has that key; without a key, a selected team has the saved id; with no saved id nothing is selected |
| Dashboard.TeamByKeyUnique | src/pages/Dashboard.jsx:29 | with distinct keys, looking up a team's key finds that team |
| Dashboard.TeamByIdUnique | src/pages/Dashboard.jsx:33 | with distinct ids, looking up a team's id finds that team |
| Dashboard.AvgVelocity | src/pages/Dashboard.jsx:63-70 | the stored average when non-zero; otherwise the integer nearest the series' mean percentage, missing exactly for an empty series |
| Dashboard.GeneratedAvgVelocity | src/pages/Dashboard.jsx:68-70 | a generated record shows its summary row's velocity |
| Dashboard.PctFromEnd | src/pages/Dashboard.jsx:78-79 | the k-th percentage from the end is present exactly when the series has k sprints |
| Dashboard.VelocityTrend | src/pages/Dashboard.jsx:78-80 | the last percentage minus the one before, a missing one counting as 0 |
| Dashboard.CycleTimeTrendSign | src/pages/Dashboard.jsx:82-84 | a slower last week never reads as an improvement, a faster one never as a regression, an unchanged one as 0 |
| Dashboard.HeroCardConsistent | src/pages/Dashboard.jsx:86-128 | the below-target warning appears exactly when the status is not "good", which is exactly below 60 |
| Dashboard.FilteredSummaryData | src/pages/Dashboard.jsx:89-94 | "Все" keeps every row; otherwise a row is kept exactly when its team is on the platform; order is kept |
| Dashboard.RowPlatformMeaning | src/pages/Dashboard.jsx:91-93 | for a team name registered once, the filter compares that team's platform |
| Dashboard.UnknownRowHidden | src/pages/Dashboard.jsx:92-93 | a row naming no registered team is hidden under any concrete platform |
| Dashboard.DashboardSession.Open | src/pages/Dashboard.jsx:24-58 | opening reads the three values from the address and storage, then the effects store them; other storage keys are kept |
| Dashboard.DashboardSession.PersistPlatform | src/pages/Dashboard.jsx:42-44 | storage holds the platform; nothing else changes |
| Dashboard.DashboardSession.PersistTeam | src/pages/Dashboard.jsx:46-54 | the id is stored and the address names the team, or the id is removed and the address is /team/ALL |
| Dashboard.DashboardSession.PersistCollapsed | src/pages/Dashboard.jsx:56-58 | storage holds "true" or "false" for the flag |
| Dashboard.DashboardSession.SelectTeam | src/pages/Dashboard.jsx:46-54 | selecting a team keeps storage and address in step with the selection and keeps platform and flag |
| Dashboard.DashboardSession.SelectPlatform | src/pages/Dashboard.jsx:42-44 | picking a platform stores it and keeps the selection |
| Dashboard.DashboardSession.SetCollapsed | src/pages/Dashboard.jsx:56-58 | toggling stores the flag and keeps the selection |
| Dashboard.ReloadRestores | src/pages/Dashboard.jsx:24-58 | opening again at the stored address with the stored storage restores the selection, the platform and the flag |
| Dashboard.ReloadBySavedId | src/pages/Dashboard.jsx:31-48 | opening without a key restores the selection from the saved id |
| Sidebar.FilteredTeams | src/components/Sidebar.jsx:33-39 | a team is listed exactly when it is on the platform and matches the query; order is kept |
| Sidebar.FilteredTeamsIsOneFilter | src/components/Sidebar.jsx:33-39 | the two chained filters equal one filter by both conditions |
| Sidebar.PlatformConstraint | src/components/Sidebar.jsx:34 | under a concrete platform every listed team is on it; "Все" with no query lists the registry |
| Sidebar.EmptyQueryKeepsPlatform | src/components/Sidebar.jsx:35-36 | an empty query keeps exactly the platform's teams |
| Sidebar.QueryCaseInsensitive | src/components/Sidebar.jsx:37-38 | a query and its lower-cased form list the same teams |
| Sidebar.Step | src/components/Sidebar.jsx:51-182 | the Алерты and Отчёт buttons set the address to /alerts and /report and change nothing else; every other click or key stroke keeps the address |
| Sidebar.NavigationMeaning | src/components/Sidebar.jsx:30-81 | after a navigation button is clicked exactly that button is highlighted, and clicking it again changes nothing |
| Sidebar.ToggleMeaning | src/components/Sidebar.jsx:51 | the toggle flips only the collapsed flag; two toggles undo each other |
| Sidebar.PickIconMeaning | src/components/Sidebar.jsx:179-182 | a collapsed-mode icon selects its platform and always expands the sidebar |
| Sidebar.ListUnchanged | src/components/Sidebar.jsx:33-154 | selecting a team, toggling or navigating does not change the list |
| Sidebar.IconText | src/components/Sidebar.jsx:190 | an icon shows the first character of its platform |
| Sidebar.CollapsedIcons | src/components/Sidebar.jsx:176 | the collapsed mode offers the first five platforms, in order |
| Sidebar.RegistryIcons | src/components/Sidebar.jsx:176-190 | over the registry the icons are В, i, A, B, W, and DE and DS cannot be chosen |
| Sidebar.ActivePage | src/components/Sidebar.jsx:30-31 | the alerts and report buttons are highlighted exactly on their paths, never both |
| Sidebar.OneHighlighted | src/components/Sidebar.jsx:156 | with distinct ids at most one listed team is highlighted, and a listed selected team is |
| Sidebar.ListedIdsDistinct | src/components/Sidebar.jsx:153 | the listed teams' ids (the list keys) are distinct |
| Sidebar.TeamCountMeaning | src/components/Sidebar.jsx:146 | the list is never longer than the registry; "Нет команд" shows exactly when no team passes both filters |
| Strings.LowerIdempotent | src/components/Sidebar.jsx:37-38 | lower-casing twice is lower-casing once |
| Strings.LowerMatchesAccents | src/components/Sidebar.jsx:37-38 | an accented or Cyrillic capital in a name matches its small letter in a query |
| Strings.ReplaceFirst | src/components/DisruptTrendChart.jsx:32 | `String.replace` with a string pattern removes the first occurrence only |
| Strings.ParseNatToString | src/pages/Dashboard.jsx:33-48 | `Number` reads back the id that `setItem` wrote |
| StatCard.TrendView | src/components/StatCard.jsx:43-49 | a badge exactly when a trend is given; the arrow and colour follow its sign; the magnitude is non-negative |
| StatCard.TrendViewRecoversTrend | src/components/StatCard.jsx:47 | the arrow and magnitude give back the trend |
| StatCard.StatusView | src/components/StatCard.jsx:32-36 | a status badge exactly for a non-empty status, with the helper's label and colour |
| StatCard.ComputedStatusBadge | src/components/StatCard.jsx:32-36 | a computed status always gets a known badge |
| StatCard.AlertView | src/components/StatCard.jsx:58-62 | the warning line exactly for a non-empty alert, prefixed with the sign |
| StatCard.SizeClasses | src/components/StatCard.jsx:19-40 | hero padding and type size exactly for size "hero" |
| StatCard.GradientClass | src/components/StatCard.jsx:13-26 | a gradient class exactly for green, blue and purple |
| SummaryTable.VelocityColor | src/components/SummaryTable.jsx:32-36 | green from 75, yellow on [60, 75), red below 60 |
| SummaryTable.VelocityColorAgainstStatus | src/components/SummaryTable.jsx:32-36 | red exactly when the status helper would not say "good"; 70 is "good" yet yellow |
| SummaryTable.TrendCell | src/components/SummaryTable.jsx:47-53 | up and down get their arrows and colours; any other value the flat arrow |
| SummaryTable.Rows | src/components/SummaryTable.jsx:25-63 | one row per summary row, in order, with its velocity colour, trend cell and stored status's label and colour |
| SummaryTable.StoredStatusesAgainstHelper | src/data/mockData.js:51-68 | the stored status agrees with the helper for fifteen rows; Content & Growth is stored "critical" though the helper says "warning" |
| DshbWidget.Progress | src/components/DshbWidget.jsx:2 | the count lies the progress share of the way from baseline to target |
| DshbWidget.Badge | src/components/DshbWidget.jsx:13-19 | "On Track" exactly from 50, "At Risk" exactly below |
| DshbWidget.BarWidth | src/components/DshbWidget.jsx:45 | the bar is the progress capped at 100, not at 0 |
| DshbWidget.Render | src/components/DshbWidget.jsx:2-55 | reduced and remaining add up to the whole span; nothing remains exactly at target |
| DshbWidget.OnTrackIsHalfWay | src/components/DshbWidget.jsx:2-14 | "On Track" exactly when the count is at or below the midpoint of baseline and target |
| DshbWidget.PastTarget | src/components/DshbWidget.jsx:2-45 | progress is 100 at target and above past it, with a full bar; above baseline it is negative |
| DshbWidget.DefaultRecord | src/data/mockData.js:43-48 | the default record shows 160/3 %, "On Track", 8 reduced and 7 remaining |
| T2MGauge.Percentage | src/components/T2MGauge.jsx:5 | the share of the scale, capped at 100 |
| T2MGauge.Segments | src/components/T2MGauge.jsx:15-18 | the two arcs fill the gauge and the empty one is never negative |
| T2MGauge.TargetPctUnclamped | src/components/T2MGauge.jsx:6 | a target beyond the scale puts the marker past the end |
| T2MGauge.GetColor | src/components/T2MGauge.jsx:9-13 | green at or under target, yellow up to a quarter over, red beyond |
| T2MGauge.GetColorMonotone | src/components/T2MGauge.jsx:9-13 | a longer time never gets a better colour |
| T2MGauge.DisruptGauge | src/components/T2MGauge.jsx:3-13 | the Disrupt gauge (14 against 12 on 30) is yellow and 140/3 % full |
| OwnershipRing.Segments | src/components/OwnershipRing.jsx:4-7 | the ring's segments are the rate and the rest of 100 |
| OwnershipRing.GetColor | src/components/OwnershipRing.jsx:10-15 | four bands of five points around the baseline, each stated as an exact range |
| OwnershipRing.GetColorTiers | src/components/OwnershipRing.jsx:10-15 | every rate gets one of the four colours and a higher rate never a worse one |
| OwnershipRing.DisruptRing | src/components/OwnershipRing.jsx:10-15 | 87 against 80 is green, 82 against 80 is cyan |
| WaitTimeChart.FlowPct | src/components/WaitTimeChart.jsx:2 | flowing and blocked time fill the bar |
| WaitTimeChart.TargetStatus | src/components/WaitTimeChart.jsx:31-35 | on track exactly at or under target; otherwise the positive excess over it |
| WaitTimeChart.Breakdown | src/components/WaitTimeChart.jsx:41-56 | one bar per source, in order, with its fields and a width of its share over the ratio |
| WaitTimeChart.BreakdownWidthsSum | src/components/WaitTimeChart.jsx:48 | the widths sum to the shares' total over the ratio |
| WaitTimeChart.BreakdownFillsBar | src/components/WaitTimeChart.jsx:48 | when the sources account for all blocked time, the bars sum to 100 |
| WaitTimeChart.DisruptWaitTime | src/components/WaitTimeChart.jsx:2-35 | 18% blocked against 15 reads 82% flowing and 3% over |
| ThemeContext.GetInitialTheme | src/context/ThemeContext.jsx:5-21 | dark without a window or readable storage; a non-empty stored value as stored; else light exactly when the system prefers it |
| ThemeContext.Toggle | src/context/ThemeContext.jsx:38-40 | light exactly from dark, dark from anything else |
| ThemeContext.ToggleTwice | src/context/ThemeContext.jsx:38-40 | two toggles restore a known theme; an unknown theme becomes dark, then light |
| ThemeContext.ThemeProvider.constructor | src/context/ThemeContext.jsx:23-36 | the provider starts with the theme read from the storage it is mounted with, and its effect has run |
| ThemeContext.ThemeProvider.ApplyTheme | src/context/ThemeContext.jsx:26-36 | the document shows the theme; storage holds it where it can be written |
| ThemeContext.ThemeProvider.SetTheme | src/context/ThemeContext.jsx:24-36 | any value becomes the theme and is mirrored |
| ThemeContext.ThemeProvider.ToggleTheme | src/context/ThemeContext.jsx:38-40 | the theme becomes its toggle and is mirrored |
| ThemeContext.ReloadKeepsTheme | src/context/ThemeContext.jsx:11-32 | a reload reads back the stored theme |
| ThemeContext.UseTheme | src/context/ThemeContext.jsx:49-54 | the context when inside a provider, otherwise the error with its message |
| DisruptMetrics.T2mDelta | src/pages/DisruptMetrics.jsx:26 | the days saved since the previous sprint |
| DisruptMetrics.WaitDelta | src/pages/DisruptMetrics.jsx:27 | the points of blocked time removed since the previous sprint |
| DisruptMetrics.ImprovementNote | src/pages/DisruptMetrics.jsx:93-141 | a note exactly for a positive delta, showing it |
| DisruptMetrics.T2mNoteMeaning | src/pages/DisruptMetrics.jsx:26-95 | the time note appears exactly when time to market got shorter |
| DisruptMetrics.WaitNoteMeaning | src/pages/DisruptMetrics.jsx:27-141 | the wait note appears exactly when the blocked share got smaller |
| DisruptMetrics.TargetCell | src/pages/DisruptMetrics.jsx:103-105 | on track exactly at or under target; otherwise the positive days over |
| DisruptMetrics.DeltaStyle | src/pages/DisruptMetrics.jsx:165-166 | "+" and green exactly from zero, no sign and red below |
| DisruptMetrics.DisruptDatasetView | src/data/disruptData.js:1-78 | the dataset shows 4 days and 6 points saved, 2 days over target, and a green plus |
| DisruptMetrics.DisruptPage.constructor | src/pages/DisruptMetrics.jsx:15-24 | both values are read from storage and the flag is then written back |
| DisruptMetrics.DisruptPage.SetCollapsed | src/pages/DisruptMetrics.jsx:22-24 | the flag is stored; the platform and address are kept |
| DisruptMetrics.DisruptPage.SelectPlatform | src/pages/DisruptMetrics.jsx:18-33 | the platform changes and storage does not |
| DisruptMetrics.DisruptPage.SelectTeam | src/pages/DisruptMetrics.jsx:35 | any team pick goes to /team/ALL |
| Report.GetMonthlyData | src/pages/Report.jsx:27-66 | three sprints captioned by team key or MEDIAN, the fixed figures, totals equal to their sums, average 80, the fixed stage and type tables, bottleneck Development |
| Report.MonthIgnored | src/pages/Report.jsx:27 | every month shows the same report |
| Report.SprintFiguresConsistent | src/pages/Report.jsx:33-39 | each percentage is the rounded completed share; 80 is both the rounded mean and the overall completed share |
| Report.StagesConsistent | src/pages/Report.jsx:52-58 | the stage shares add up to 100 and the bottleneck has the largest |
| Report.TeamKey | src/pages/Report.jsx:28-92 | the key is never empty, and means all teams exactly when no team (or a keyless one) is selected |
| Report.MonthLabel | src/pages/Report.jsx:19-95 | a known month's caption, otherwise the value itself |
| Report.MonthLabels | src/pages/Report.jsx:19-95 | "2026-01" reads January 2026; an unlisted month reads as itself |
| Report.PctColor | src/pages/Report.jsx:167-178 | green exactly from 60, red below |
| Report.ReportSprintsGreen | src/pages/Report.jsx:33-167 | every sprint of the canned report is drawn green |
| DisruptTrendChart.ChartData | src/components/DisruptTrendChart.jsx:31-36 | one point per sprint, in order, measures copied, the first "MEDIAN " removed from the caption |
| DisruptTrendChart.StripsLeadingPrefix | src/components/DisruptTrendChart.jsx:32 | a caption starting with the prefix loses exactly it |
| DisruptTrendChart.DisruptChartCaptions | src/data/disruptData.js:1-78 | the dataset's sprints chart as 26-01 to 26-06 |
| SolutionsList.TypeConfig | src/components/SolutionsList.jsx:7-11 | the table's badge for a known kind, else a purple wrench captioned with the kind |
| SolutionsList.KnownCaptions | src/data/disruptData.js:81-87 | cache and flag have their captions; an unknown kind falls back |
| SolutionsList.Cards | src/components/SolutionsList.jsx:6-49 | one card per solution, in order, with its badge and an impact line exactly when it names one |
| SolutionsList.DisruptCardsKnown | src/data/disruptData.js:1-87 | every solution on the Disrupt page has a known kind |

## Left out

- Rendering is not modelled: JSX layout, Tailwind classes other than those the logic chooses, recharts drawing, animations and the tooltip components (Report's `CustomTooltip` included). `InfoButton`, `ThemeSwitcher` and `Header` are presentational and are not part of this model.
- VelocityChart and CycleTimeChart only hand their series to recharts. They are not part of this model.
- Routing is reduced to the path last navigated to. `App.jsx`'s route table is not part of this model.
- React scheduling is reduced to running each effect right after the state change it depends on. Re-renders, `StrictMode` double runs and effect ordering across components are not modelled.
- Browser APIs become parameters: storage is a map, `matchMedia` a boolean, and `document` an attribute field. A storage write that throws is a flag fixed for the provider's lifetime.
- Numbers are mathematical reals, not IEEE doubles. Text formatting (`toFixed`, `Math.abs` in text, string interpolation of numbers) is not modelled.
- Alerts.Measure: the coefficient of variation is compared through squares, because `Math.sqrt` is not available on reals; `CvMeaning` ties this to any square root.
- Alerts.MakeAlert: the description and metric strings of each alert are not modelled (they are interpolated text). Its value is kept as a number or the pair behind the CV.
- Dashboard.CycleTimeTrend: a series of fewer than two weeks, or a previous week of 0, makes the source divide by zero (Infinity or NaN in floating point). The function requires two weeks and a non-zero previous week.
- Dashboard.CycleTimeTrendSign: the sign of the trend is stated only for a positive previous week; a negative average time cannot occur in the data.
- Dashboard.InitialSelectedTeam: only a saved id written as decimal digits, the form the dashboard itself stores, is read back. `Number` also reads surrounding blanks, a leading `+`, a zero fraction, an exponent and `0x`/`0o`/`0b` forms as an integer; the model treats such a hand-edited value as naming no team.
- Sidebar.FilteredTeams: `toLowerCase` is modelled for the Latin (A–Z, Latin-1 and Latin Extended-A), Greek (Α–Ω) and Cyrillic (А–Я, Ѐ–Џ) capitals and the Kelvin and Ångström signs. Other capitals (accented Greek, Latin Extended-B and beyond, Armenian, Georgian, Cyrillic beyond U+045F and others) and İ, whose lower case is two characters, are left as they are, so a query differing from a name only in those letters is not matched. Σ is always lowered to σ, where JavaScript gives ς at the end of a word.
- Dashboard.AvgVelocity: an empty series gives NaN in the source. The model returns no value.
- Dashboard: `avgCycleTime` and `medianCycleTime` are `toFixed(1)` means for display. They are not modelled.
- The Alerts and Report pages keep their own platform, selection and collapsed flag. They store nothing and do only what the Sidebar model covers, so they are not modelled separately.
- The static datasets are transcribed where a lemma needs them: teams, summary rows, the SURF, DISRUPT and CNG records, the default series, the Disrupt dataset and the solution types. The WPROD, RADIOCAT and WAVE records are transcribed for the fill-in but not analysed rule by rule.
- The time-to-market breakdown entries of the Disrupt dataset are not shown by any modelled logic and are left out of `DisruptData.T2m`.
- Expectations in the repository's test files that disagree with the code are not encoded: status thresholds at 75/60, a ДШБ widget showing "-8" and "Риск", and the route table. The model follows the code.
