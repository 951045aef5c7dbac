/** The alerts page: nine rules evaluated over every team's velocity and
    cycle-time history, the filters by type, severity and platform, and the
    grouping of what remains by severity. */
module Alerts {
  import opened Seqs
  import opened Strings
  import opened MockData

  /** The nine rules, in the order the generator evaluates them. */
  datatype Rule =
    | VelocityLow | VelocityDrop | VelocityUnstable
    | CycleTimeHigh | CycleTimeP90 | CycleTimeIncrease
    | BelowTarget | Carryover | TopPerformer

  const RuleOrder: seq<Rule> := [VelocityLow, VelocityDrop, VelocityUnstable,
                                 CycleTimeHigh, CycleTimeP90, CycleTimeIncrease,
                                 BelowTarget, Carryover, TopPerformer]

  /** What is appended to the team key to form the alert id. */
  function Suffix(r: Rule): string
  {
    match r
    case VelocityLow => "-vel-low"
    case VelocityDrop => "-vel-drop"
    case VelocityUnstable => "-vel-unstable"
    case CycleTimeHigh => "-ct-high"
    case CycleTimeP90 => "-ct-p90"
    case CycleTimeIncrease => "-ct-increase"
    case BelowTarget => "-health-below"
    case Carryover => "-health-carryover"
    case TopPerformer => "-health-top"
  }

  /** The alert's `type` (also its `metric`). */
  function Category(r: Rule): string
  {
    match r
    case VelocityLow | VelocityDrop | VelocityUnstable => "velocity"
    case CycleTimeHigh | CycleTimeP90 | CycleTimeIncrease => "cycletime"
    case BelowTarget | Carryover | TopPerformer => "health"
  }

  function Severity(r: Rule): string
  {
    match r
    case VelocityLow | CycleTimeHigh | BelowTarget => "critical"
    case VelocityDrop | VelocityUnstable | CycleTimeP90 | CycleTimeIncrease | Carryover => "warning"
    case TopPerformer => "success"
  }

  function Title(r: Rule): string
  {
    match r
    case VelocityLow => "Velocity < 60% (2+ спринта)"
    case VelocityDrop => "Velocity резко упал"
    case VelocityUnstable => "Velocity нестабильный"
    case CycleTimeHigh => "Cycle Time > 14 дней"
    case CycleTimeP90 => "P90 > 30 дней"
    case CycleTimeIncrease => "Cycle Time вырос"
    case BelowTarget => "Ниже target 3+ спринта"
    case Carryover => "Высокий Carryover"
    case TopPerformer => "Топ перформер"
  }

  /** An alert's numeric `value`. The coefficient of variation involves a square
      root, so it is kept as the variance and mean it is computed from:
      its value is `sqrt(variance) / mean * 100`. */
  datatype AlertValue = Amount(x: real) | Dispersion(variance: real, mean: real)

  datatype Alert = Alert(id: string, team: string, teamKey: string, platform: string,
                         category: string, severity: string, title: string, value: AlertValue)

  // ---------------------------------------------------------------------
  // The statistics the rules look at.

  /** `velocityHistory.slice(-2)`: the last two sprints, or all of them when fewer. */
  function LastTwo(vs: seq<VelocityPoint>): (r: seq<VelocityPoint>)
    ensures |r| == if |vs| < 2 then |vs| else 2
    ensures forall i :: 0 <= i < |r| ==> r[i] == vs[|vs| - |r| + i]
  {
    if |vs| <= 2 then vs else vs[|vs| - 2..]
  }

  /** `lastTwoSprints.every(s => s.pct < 60)`; true of an empty history. */
  predicate LowVelocityStreak(vs: seq<VelocityPoint>)
  {
    var last := LastTwo(vs);
    forall i :: 0 <= i < |last| ==> last[i].pct < 60.0
  }

  /** `velocityHistory[length - 1]?.pct || 0`. */
  function CurrentVel(vs: seq<VelocityPoint>): real
  {
    if |vs| >= 1 then vs[|vs| - 1].pct else 0.0
  }

  /** `velocityHistory[length - 2]?.pct || 0`. */
  function PrevVel(vs: seq<VelocityPoint>): real
  {
    if |vs| >= 2 then vs[|vs| - 2].pct else 0.0
  }

  /** The drop from the previous sprint in percent of it; 0 unless the previous one is positive. */
  function VelDrop(vs: seq<VelocityPoint>): real
  {
    var prev := PrevVel(vs);
    if prev > 0.0 then (prev - CurrentVel(vs)) / prev * 100.0 else 0.0
  }

  /** The population variance: the mean squared distance from the mean. */
  function Variance(xs: seq<real>): (r: real)
    requires |xs| > 0
    ensures r >= 0.0
  {
    SquaredDeviations(xs, Mean(xs)) / (|xs| as real)
  }

  /** `xs.reduce((sum, v) => sum + Math.pow(v - m, 2), 0)`. */
  function SquaredDeviations(xs: seq<real>, m: real): (r: real)
    ensures r >= 0.0
    decreases |xs|
  {
    if xs == [] then 0.0
    else
      var d := xs[|xs| - 1] - m;
      SquaredDeviations(xs[..|xs| - 1], m) + d * d
  }

  /** `velCV > k`, where `velCV = sqrt(variance) / mean * 100` in floating point:
      a non-positive mean gives a CV of at most 0, a zero mean with spread gives
      +Infinity, and a zero mean without spread (or an empty series) gives NaN. */
  predicate CvAbove(xs: seq<real>, k: real)
    requires k > 0.0
  {
    if |xs| == 0 then false
    else
      var m := Mean(xs);
      var v := Variance(xs);
      if m > 0.0 then 10000.0 * v > k * k * m * m
      else if m < 0.0 then false
      else v > 0.0
  }

  /** `velCV < k`, with the same floating-point cases as `CvAbove`. */
  predicate CvBelow(xs: seq<real>, k: real)
    requires k > 0.0
  {
    if |xs| == 0 then false
    else
      var m := Mean(xs);
      var v := Variance(xs);
      if m > 0.0 then 10000.0 * v < k * k * m * m
      else if m < 0.0 then true
      else false
  }

  function Avgs(cs: seq<CycleTimePoint>): (r: seq<real>)
    ensures |r| == |cs|
    ensures forall i :: 0 <= i < |cs| ==> r[i] == cs[i].avg
  {
    Map((c: CycleTimePoint) => c.avg, cs)
  }

  /** Mean of the weekly medians above 14 days; an empty history gives NaN, which is not. */
  predicate HighMedian(cs: seq<CycleTimePoint>)
  {
    |cs| > 0 && Mean(Medians(cs)) > 14.0
  }

  /** Mean of the weekly 90th percentiles above 30 days. */
  predicate LongTail(cs: seq<CycleTimePoint>)
  {
    |cs| > 0 && Mean(P90s(cs)) > 30.0
  }

  /** `cycleTimeHistory.slice(-4)`. */
  function LastFour(cs: seq<CycleTimePoint>): seq<CycleTimePoint>
  {
    if |cs| <= 4 then cs else cs[|cs| - 4..]
  }

  /** `cycleTimeHistory.slice(0, 4)`. */
  function FirstFour(cs: seq<CycleTimePoint>): seq<CycleTimePoint>
  {
    if |cs| <= 4 then cs else cs[..4]
  }

  /** Both windows are always divided by 4, however many weeks they hold. */
  function RecentCT(cs: seq<CycleTimePoint>): real
  {
    Sum(Avgs(LastFour(cs))) / 4.0
  }

  function OlderCT(cs: seq<CycleTimePoint>): real
  {
    Sum(Avgs(FirstFour(cs))) / 4.0
  }

  /** Growth of the recent window over the older one, in percent; 0 unless the older one is positive. */
  function CtIncrease(cs: seq<CycleTimePoint>): real
  {
    var older := OlderCT(cs);
    if older > 0.0 then (RecentCT(cs) - older) / older * 100.0 else 0.0
  }

  /** `filter(v => v.pct < 60).length`: how many sprints delivered below 60%. */
  function BelowTargetCount(vs: seq<VelocityPoint>): (n: nat)
    ensures n <= |vs|
    ensures n == 0 <==> forall i :: 0 <= i < |vs| ==> vs[i].pct >= 60.0
    decreases |vs|
  {
    if vs == [] then 0
    else
      var prefix := vs[..|vs| - 1];
      assert forall i :: 0 <= i < |prefix| ==> prefix[i] == vs[i];
      BelowTargetCount(prefix) + (if vs[|vs| - 1].pct < 60.0 then 1 else 0)
  }

  /** `Math.max(0, 100 - velocity) * 0.8`. */
  function EstimatedCarryover(velocity: real): real
  {
    (if 100.0 - velocity > 0.0 then 100.0 - velocity else 0.0) * 0.8
  }

  // ---------------------------------------------------------------------
  // The rules.

  /** The quantities the generator computes once per team before testing the rules. */
  datatype Stats = Stats(
    lowVelocityStreak: bool, lastPct: real, velDrop: real,
    unstable: bool, stable: bool, velVariance: real, velAvg: real,
    highMedian: bool, avgMedian: real, longTail: bool, avgP90: real,
    ctIncrease: real, belowTargetCount: nat, estimatedCarryover: real, summaryVelocity: real)

  /** The statistics of a team with at least one sprint. The cycle-time means
      of an empty history are NaN in the source; they are only reported by
      rules that then do not fire, so 0 stands in for them. */
  function Measure(vs: seq<VelocityPoint>, cs: seq<CycleTimePoint>, s: SummaryRow): (st: Stats)
    requires |vs| > 0
    ensures st.stable ==> !st.unstable
  {
    StableExcludesUnstable(Pcts(vs));
    Stats(LowVelocityStreak(vs), vs[|vs| - 1].pct, VelDrop(vs),
          CvAbove(Pcts(vs), 25.0), CvBelow(Pcts(vs), 15.0), Variance(Pcts(vs)), Mean(Pcts(vs)),
          HighMedian(cs), if |cs| > 0 then Mean(Medians(cs)) else 0.0,
          LongTail(cs), if |cs| > 0 then Mean(P90s(cs)) else 0.0,
          CtIncrease(cs), BelowTargetCount(vs), EstimatedCarryover(s.velocity), s.velocity)
  }

  /** Whether rule `r` raises an alert. Rules 2, 3 and 7 are suppressed when rule 1 fires. */
  predicate Fires(r: Rule, st: Stats)
  {
    match r
    case VelocityLow => st.lowVelocityStreak
    case VelocityDrop => st.velDrop > 20.0 && !st.lowVelocityStreak
    case VelocityUnstable => st.unstable && !st.lowVelocityStreak
    case CycleTimeHigh => st.highMedian
    case CycleTimeP90 => st.longTail
    case CycleTimeIncrease => st.ctIncrease > 30.0
    case BelowTarget => st.belowTargetCount >= 3 && !st.lowVelocityStreak
    case Carryover => st.estimatedCarryover > 30.0
    case TopPerformer => st.summaryVelocity >= 85.0 && st.stable
  }

  /** The `value` rule `r` reports. */
  function Value(r: Rule, st: Stats): AlertValue
  {
    match r
    case VelocityLow => Amount(st.lastPct)
    case VelocityDrop => Amount(st.velDrop)
    case VelocityUnstable => Dispersion(st.velVariance, st.velAvg)
    case CycleTimeHigh => Amount(st.avgMedian)
    case CycleTimeP90 => Amount(st.avgP90)
    case CycleTimeIncrease => Amount(st.ctIncrease)
    case BelowTarget => Amount(st.belowTargetCount as real)
    case Carryover => Amount(st.estimatedCarryover)
    case TopPerformer => Amount(st.summaryVelocity)
  }

  function MakeAlert(team: Team, r: Rule, value: AlertValue): (a: Alert)
    ensures a.teamKey == team.key && a.team == team.name && a.platform == team.platform
    ensures a.category == Category(r) && a.severity == Severity(r) && a.title == Title(r)
  {
    Alert(team.key + Suffix(r), team.name, team.key, team.platform, Category(r), Severity(r), Title(r), value)
  }

  /** The alert rule `r` contributes: one when it fires, none otherwise. */
  function Emit(team: Team, r: Rule, st: Stats): seq<Alert>
  {
    if Fires(r, st) then [MakeAlert(team, r, Value(r, st))] else []
  }

  /** The alerts of the rules in `rules` that fire, in the order of `rules`. */
  function FiredAlerts(team: Team, st: Stats, rules: seq<Rule>): (r: seq<Alert>)
    ensures |r| <= |rules|
    decreases |rules|
  {
    if rules == [] then [] else Emit(team, rules[0], st) + FiredAlerts(team, st, rules[1..])
  }

  const UndefinedPct := "TypeError: Cannot read properties of undefined (reading 'pct')"

  /** One team's alerts. With no sprints at all, rule 1 holds vacuously and
      reading the last sprint's percentage throws. */
  function TeamAlerts(team: Team, m: TeamMetrics, s: SummaryRow): Result<seq<Alert>>
  {
    if |m.velocity| == 0 then Err(UndefinedPct)
    else Ok(FiredAlerts(team, Measure(m.velocity, m.cycleTime, s), RuleOrder))
  }

  /** The team's contribution: nothing unless it has metrics and a summary row
      (the FIRST row with its name). */
  function AlertsFor(team: Team, metrics: map<string, TeamMetrics>, summaryData: seq<SummaryRow>): Result<seq<Alert>>
  {
    var summary := Find((s: SummaryRow) => s.team == team.name, summaryData);
    if team.key !in metrics || summary.None? then Ok([])
    else TeamAlerts(team, metrics[team.key], summary.value)
  }

  /** `generateAlerts()`, as the result of visiting `teams` in order. */
  function AllAlerts(teams: seq<Team>, metrics: map<string, TeamMetrics>, summaryData: seq<SummaryRow>): Result<seq<Alert>>
    decreases |teams|
  {
    if teams == [] then Ok([])
    else
      match AllAlerts(teams[..|teams| - 1], metrics, summaryData)
      case Err(e) => Err(e)
      case Ok(earlier) =>
        match AlertsFor(teams[|teams| - 1], metrics, summaryData)
        case Err(e) => Err(e)
        case Ok(mine) => Ok(earlier + mine)
  }

  /** Once one team throws, so does the whole generator. */
  lemma {:induction false} AllAlertsErrPersists(teams: seq<Team>, metrics: map<string, TeamMetrics>,
                                                summaryData: seq<SummaryRow>, n: nat)
    requires n <= |teams|
    requires AllAlerts(teams[..n], metrics, summaryData).Err?
    ensures AllAlerts(teams, metrics, summaryData) == AllAlerts(teams[..n], metrics, summaryData)
    decreases |teams| - n
  {
    if n < |teams| {
      assert teams[..n + 1][..n] == teams[..n];
      AllAlertsErrPersists(teams, metrics, summaryData, n + 1);
    } else {
      assert teams[..n] == teams;
    }
  }

  /** The generator as the page runs it: a loop over the teams that skips
      those without metrics or a summary row and appends the rest's alerts. */
  method GenerateAlerts(teams: seq<Team>, teamMetrics: map<string, TeamMetrics>, summaryData: seq<SummaryRow>)
    returns (r: Result<seq<Alert>>)
    ensures r == AllAlerts(teams, teamMetrics, summaryData)
  {
    var alerts: seq<Alert> := [];
    var i := 0;
    while i < |teams|
      invariant 0 <= i <= |teams|
      invariant AllAlerts(teams[..i], teamMetrics, summaryData) == Ok(alerts)
    {
      var team := teams[i];
      assert teams[..i + 1][..i] == teams[..i];
      var summary := Find((s: SummaryRow) => s.team == team.name, summaryData);
      if team.key in teamMetrics && summary.Some? {
        var mine := TeamAlerts(team, teamMetrics[team.key], summary.value);
        if mine.Err? {
          r := mine;
          AllAlertsErrPersists(teams, teamMetrics, summaryData, i + 1);
          return;
        }
        alerts := alerts + mine.value;
      } else {
        assert alerts + [] == alerts;
      }
      i := i + 1;
    }
    assert teams[..|teams|] == teams;
    r := Ok(alerts);
  }

  // ---------------------------------------------------------------------
  // What each rule's condition means.

  /** Rule 1 looks at the last two sprints, or at the only one. */
  lemma LowVelocityStreakMeaning(vs: seq<VelocityPoint>)
    ensures |vs| >= 2 ==>
      (LowVelocityStreak(vs) <==> vs[|vs| - 1].pct < 60.0 && vs[|vs| - 2].pct < 60.0)
    ensures |vs| == 1 ==> (LowVelocityStreak(vs) <==> vs[0].pct < 60.0)
    ensures |vs| == 0 ==> LowVelocityStreak(vs)
  {
    var last := LastTwo(vs);
    if |vs| >= 2 {
      assert last[0] == vs[|vs| - 2] && last[1] == vs[|vs| - 1];
    } else if |vs| == 1 {
      assert last[0] == vs[0];
    }
  }

  /** A drop of more than 20% means the current sprint delivered less than 80%
      of a positive previous one. */
  lemma VelDropMeaning(vs: seq<VelocityPoint>)
    ensures VelDrop(vs) > 20.0 <==>
      |vs| >= 2 && PrevVel(vs) > 0.0 && CurrentVel(vs) < 0.8 * PrevVel(vs)
  {
    var prev := PrevVel(vs);
    var cur := CurrentVel(vs);
    if prev > 0.0 {
      var q := (prev - cur) / prev;
      assert q * prev == prev - cur;
      PositiveScale(q - 0.2, prev);
    }
  }

  /** The sign of `x * p` is the sign of `x` for positive `p`. */
  lemma PositiveScale(x: real, p: real)
    requires p > 0.0
    ensures x > 0.0 <==> x * p > 0.0
    ensures x < 0.0 <==> x * p < 0.0
  {
    if x > 0.0 {
      assert x * p > 0.0;
    } else if x < 0.0 {
      assert (-x) * p > 0.0;
    }
  }

  /** For non-negative numbers, order is the order of their squares. */
  lemma SquareOrder(a: real, b: real)
    requires a >= 0.0 && b >= 0.0
    ensures a > b <==> a * a > b * b
    ensures a < b <==> a * a < b * b
  {
    if a > b {
      assert a * a - b * b == (a - b) * (a + b);
      PositiveScale(a - b, a + b);
    } else if a < b {
      assert b * b - a * a == (b - a) * (a + b);
      PositiveScale(b - a, a + b);
    }
  }

  /** For a non-zero mean, the square-free tests agree with the coefficient of
      variation `sd / mean * 100` computed from any standard deviation `sd`
      (a non-negative square root of the variance). */
  lemma CvMeaning(xs: seq<real>, k: real, sd: real)
    requires k > 0.0 && |xs| > 0 && Mean(xs) != 0.0
    requires sd >= 0.0 && sd * sd == Variance(xs)
    ensures CvAbove(xs, k) <==> sd / Mean(xs) * 100.0 > k
    ensures CvBelow(xs, k) <==> sd / Mean(xs) * 100.0 < k
  {
    var m := Mean(xs);
    var cv := sd / m * 100.0;
    assert cv * m == 100.0 * sd;
    if m > 0.0 {
      SquareOrder(100.0 * sd, k * m);
      assert (100.0 * sd) * (100.0 * sd) == 10000.0 * Variance(xs);
      assert (k * m) * (k * m) == k * k * m * m;
      PositiveScale(cv - k, m);
    } else {
      PositiveScale(sd, -m);
      assert cv <= 0.0 by {
        if cv > 0.0 {
          PositiveScale(cv, -m);
        }
      }
    }
  }

  /** A series whose CV is below 15 does not have one above 25, so a top
      performer is never also flagged unstable. */
  lemma StableExcludesUnstable(xs: seq<real>)
    ensures CvBelow(xs, 15.0) ==> !CvAbove(xs, 25.0)
  {
    if |xs| > 0 && Mean(xs) > 0.0 {
      var m := Mean(xs);
      assert m * m > 0.0 by { PositiveScale(m, m); }
      assert 15.0 * 15.0 * m * m < 25.0 * 25.0 * m * m;
    }
  }

  /** Rule 6 compares the first four weeks with the last four, both over 4. */
  lemma CtIncreaseMeaning(cs: seq<CycleTimePoint>)
    ensures CtIncrease(cs) > 30.0 <==>
      var older := Sum(Avgs(FirstFour(cs)));
      var recent := Sum(Avgs(LastFour(cs)));
      older > 0.0 && 10.0 * recent > 13.0 * older
  {
    var older := OlderCT(cs);
    var recent := RecentCT(cs);
    if older > 0.0 {
      var q := (recent - older) / older;
      assert q * older == recent - older;
      PositiveScale(q - 0.3, older);
    }
  }

  /** With four weeks or fewer both windows are the same weeks, so rule 6 cannot fire. */
  lemma ShortHistoryNoIncrease(cs: seq<CycleTimePoint>)
    requires |cs| <= 4
    ensures CtIncrease(cs) == 0.0
  {
  }

  /** The simulated carryover exceeds 30% exactly below 62.5% summary velocity. */
  lemma CarryoverMeaning(velocity: real)
    ensures EstimatedCarryover(velocity) > 30.0 <==> velocity < 62.5
  {
  }

  /** Rules 2, 3 and 7 never fire together with rule 1. */
  lemma LowStreakSuppresses(st: Stats)
    requires Fires(VelocityLow, st)
    ensures !Fires(VelocityDrop, st) && !Fires(VelocityUnstable, st) && !Fires(BelowTarget, st)
  {
  }

  // ---------------------------------------------------------------------
  // Alerts and their ids.

  /** Every rule is evaluated, and each exactly once. */
  lemma RuleOrderComplete(r: Rule)
    ensures exists i :: 0 <= i < |RuleOrder| && RuleOrder[i] == r
  {
    match r
    case VelocityLow => assert RuleOrder[0] == r;
    case VelocityDrop => assert RuleOrder[1] == r;
    case VelocityUnstable => assert RuleOrder[2] == r;
    case CycleTimeHigh => assert RuleOrder[3] == r;
    case CycleTimeP90 => assert RuleOrder[4] == r;
    case CycleTimeIncrease => assert RuleOrder[5] == r;
    case BelowTarget => assert RuleOrder[6] == r;
    case Carryover => assert RuleOrder[7] == r;
    case TopPerformer => assert RuleOrder[8] == r;
  }

  predicate Distinct<T(==)>(xs: seq<T>)
  {
    forall i, j :: 0 <= i < j < |xs| ==> xs[i] != xs[j]
  }

  lemma RuleOrderDistinct()
    ensures Distinct(RuleOrder)
  {
  }

  /** The alerts of a rule list are exactly the alerts of its rules that fire. */
  lemma {:induction false} FiredAlertsMembers(team: Team, st: Stats, rules: seq<Rule>, a: Alert)
    ensures a in FiredAlerts(team, st, rules) <==>
      exists i :: 0 <= i < |rules| && Fires(rules[i], st) && a == MakeAlert(team, rules[i], Value(rules[i], st))
    decreases |rules|
  {
    if rules != [] {
      FiredAlertsMembers(team, st, rules[1..], a);
      if exists i :: 1 <= i < |rules| && Fires(rules[i], st) && a == MakeAlert(team, rules[i], Value(rules[i], st)) {
        var i :| 1 <= i < |rules| && Fires(rules[i], st) && a == MakeAlert(team, rules[i], Value(rules[i], st));
        assert rules[1..][i - 1] == rules[i];
      }
      if exists i :: 0 <= i < |rules| - 1 && Fires(rules[1..][i], st) &&
                     a == MakeAlert(team, rules[1..][i], Value(rules[1..][i], st)) {
        var i :| 0 <= i < |rules| - 1 && Fires(rules[1..][i], st) &&
                 a == MakeAlert(team, rules[1..][i], Value(rules[1..][i], st));
        assert rules[i + 1] == rules[1..][i];
      }
    }
  }

  /** The last four characters of a rule's id suffix already identify the rule. */
  function SuffixTail(r: Rule): string
  {
    match r
    case VelocityLow => "-low"
    case VelocityDrop => "drop"
    case VelocityUnstable => "able"
    case CycleTimeHigh => "high"
    case CycleTimeP90 => "-p90"
    case CycleTimeIncrease => "ease"
    case BelowTarget => "elow"
    case Carryover => "over"
    case TopPerformer => "-top"
  }

  lemma SuffixTailIsTail(r: Rule)
    ensures |Suffix(r)| >= 4 && SuffixTail(r) == Suffix(r)[|Suffix(r)| - 4..]
  {
  }

  lemma SuffixTailInjective(r1: Rule, r2: Rule)
    requires SuffixTail(r1) == SuffixTail(r2)
    ensures r1 == r2
  {
  }

  /** An alert id determines the team key and the rule. */
  lemma AlertIdInjective(k1: string, r1: Rule, k2: string, r2: Rule)
    requires k1 + Suffix(r1) == k2 + Suffix(r2)
    ensures k1 == k2 && r1 == r2
  {
    var a := Suffix(r1);
    var b := Suffix(r2);
    SuffixTailIsTail(r1);
    SuffixTailIsTail(r2);
    EndsWithTail(k1, a);
    EndsWithTail(k2, b);
    SuffixTailInjective(r1, r2);
    StartsWithKey(k1, a);
    StartsWithKey(k2, b);
  }

  lemma EndsWithTail(k: string, a: string)
    requires |a| >= 4
    ensures (k + a)[|k + a| - 4..] == a[|a| - 4..]
  {
  }

  lemma StartsWithKey(k: string, a: string)
    ensures (k + a)[..|k|] == k
  {
  }

  /** Alert ids are pairwise distinct (they are the list keys of the page). */
  predicate IdsDistinct(alerts: seq<Alert>)
  {
    forall i, j :: 0 <= i < j < |alerts| ==> alerts[i].id != alerts[j].id
  }

  lemma IdsDistinctAppend(a: seq<Alert>, b: seq<Alert>)
    requires IdsDistinct(a) && IdsDistinct(b)
    requires forall x, y :: x in a && y in b ==> x.id != y.id
    ensures IdsDistinct(a + b)
  {
    var ab := a + b;
    forall i, j | 0 <= i < j < |ab| ensures ab[i].id != ab[j].id {
      if j < |a| {
        assert ab[i] == a[i] && ab[j] == a[j];
      } else if i >= |a| {
        assert ab[i] == b[i - |a|] && ab[j] == b[j - |a|];
      } else {
        assert ab[i] in a && ab[j] in b;
      }
    }
  }

  /** `a` is the alert of rule `r` for `team`, up to its value. */
  predicate FromTeamRule(a: Alert, team: Team, r: Rule)
  {
    a.id == team.key + Suffix(r) && a.teamKey == team.key && a.team == team.name &&
    a.platform == team.platform && a.category == Category(r) && a.severity == Severity(r) &&
    a.title == Title(r)
  }

  /** Every alert of a rule list is the alert of one of its rules that fires. */
  lemma FiredAlertsFrom(team: Team, st: Stats, rules: seq<Rule>, a: Alert)
    requires a in FiredAlerts(team, st, rules)
    ensures exists r :: r in rules && Fires(r, st) && FromTeamRule(a, team, r)
  {
    FiredAlertsMembers(team, st, rules, a);
    var i :| 0 <= i < |rules| && Fires(rules[i], st) && a == MakeAlert(team, rules[i], Value(rules[i], st));
    assert FromTeamRule(a, team, rules[i]);
  }

  /** A team's alerts carry distinct ids, since the rules are distinct. */
  lemma {:induction false} FiredAlertsIdsDistinct(team: Team, st: Stats, rules: seq<Rule>)
    requires Distinct(rules)
    ensures IdsDistinct(FiredAlerts(team, st, rules))
    decreases |rules|
  {
    if rules != [] {
      var rest := rules[1..];
      assert Distinct(rest) by {
        forall i, j | 0 <= i < j < |rest| ensures rest[i] != rest[j] {
          assert rest[i] == rules[i + 1] && rest[j] == rules[j + 1];
        }
      }
      FiredAlertsIdsDistinct(team, st, rest);
      var head := Emit(team, rules[0], st);
      var tail := FiredAlerts(team, st, rest);
      forall a, b | a in head && b in tail
        ensures a.id != b.id
      {
        FiredAlertsFrom(team, st, rest, b);
        var r :| r in rest && Fires(r, st) && FromTeamRule(b, team, r);
        if a.id == b.id {
          AlertIdInjective(team.key, rules[0], team.key, r);
        }
      }
      IdsDistinctAppend(head, tail);
    }
  }

  /** The alert of rule `r` (recognised by its id) is among the alerts of a
      list holding `r` exactly when `r` fires. */
  lemma RuleAlertPresent(team: Team, st: Stats, rules: seq<Rule>, r: Rule)
    requires r in rules
    ensures (exists a :: a in FiredAlerts(team, st, rules) && a.id == team.key + Suffix(r)) <==> Fires(r, st)
  {
    var alerts := FiredAlerts(team, st, rules);
    if Fires(r, st) {
      var i :| 0 <= i < |rules| && rules[i] == r;
      var a := MakeAlert(team, r, Value(r, st));
      FiredAlertsMembers(team, st, rules, a);
      assert a in alerts;
    }
    if exists a :: a in alerts && a.id == team.key + Suffix(r) {
      var a :| a in alerts && a.id == team.key + Suffix(r);
      FiredAlertsFrom(team, st, rules, a);
      var r' :| r' in rules && Fires(r', st) && FromTeamRule(a, team, r');
      AlertIdInjective(team.key, r', team.key, r);
    }
  }

  /** A team with at least one sprint gets the alert of rule `r` exactly when `r` fires. */
  lemma TeamAlertPresent(team: Team, m: TeamMetrics, s: SummaryRow, r: Rule)
    requires |m.velocity| > 0
    ensures TeamAlerts(team, m, s).Ok?
    ensures (exists a :: a in TeamAlerts(team, m, s).value && a.id == team.key + Suffix(r)) <==>
            Fires(r, Measure(m.velocity, m.cycleTime, s))
  {
    RuleOrderComplete(r);
    RuleAlertPresent(team, Measure(m.velocity, m.cycleTime, s), RuleOrder, r);
  }

  /** A rule that does not fire has no alert in the list. */
  lemma NoAlertOf(team: Team, st: Stats, rules: seq<Rule>, r: Rule)
    requires !Fires(r, st)
    ensures forall a :: a in FiredAlerts(team, st, rules) ==> a.id != team.key + Suffix(r)
  {
    forall a | a in FiredAlerts(team, st, rules)
      ensures a.id != team.key + Suffix(r)
    {
      FiredAlertsFrom(team, st, rules, a);
      var r' :| r' in rules && Fires(r', st) && FromTeamRule(a, team, r');
      if a.id == team.key + Suffix(r) {
        AlertIdInjective(team.key, r', team.key, r);
      }
    }
  }

  /** Under a low streak, no list of rules yields a drop, instability or below-target alert. */
  lemma StreakSuppressesAlerts(team: Team, st: Stats, rules: seq<Rule>)
    requires st.lowVelocityStreak
    ensures forall a :: a in FiredAlerts(team, st, rules) ==>
      a.id != team.key + Suffix(VelocityDrop) &&
      a.id != team.key + Suffix(VelocityUnstable) &&
      a.id != team.key + Suffix(BelowTarget)
  {
    NoAlertOf(team, st, rules, VelocityDrop);
    NoAlertOf(team, st, rules, VelocityUnstable);
    NoAlertOf(team, st, rules, BelowTarget);
  }

  /** On the page, a team flagged for two low sprints in a row gets no drop,
      instability or below-target alert on top of it. */
  lemma LowStreakSuppressesAlerts(team: Team, m: TeamMetrics, s: SummaryRow)
    requires |m.velocity| > 0 && LowVelocityStreak(m.velocity)
    ensures TeamAlerts(team, m, s).Ok?
    ensures forall a :: a in TeamAlerts(team, m, s).value ==>
      a.id != team.key + Suffix(VelocityDrop) &&
      a.id != team.key + Suffix(VelocityUnstable) &&
      a.id != team.key + Suffix(BelowTarget)
  {
    StreakSuppressesAlerts(team, Measure(m.velocity, m.cycleTime, s), RuleOrder);
  }

  /** Whatever the generator produces is the alert of a rule for a visited team. */
  lemma {:induction false} AllAlertsMembers(teams: seq<Team>, metrics: map<string, TeamMetrics>,
                                            summaryData: seq<SummaryRow>, a: Alert)
    requires AllAlerts(teams, metrics, summaryData).Ok?
    requires a in AllAlerts(teams, metrics, summaryData).value
    ensures exists i, r :: 0 <= i < |teams| && FromTeamRule(a, teams[i], r)
    decreases |teams|
  {
    var prefix := teams[..|teams| - 1];
    var last := teams[|teams| - 1];
    var earlier := AllAlerts(prefix, metrics, summaryData).value;
    var mine := AlertsFor(last, metrics, summaryData).value;
    if a in earlier {
      AllAlertsMembers(prefix, metrics, summaryData, a);
      var i, r :| 0 <= i < |prefix| && FromTeamRule(a, prefix[i], r);
      assert prefix[i] == teams[i];
    } else {
      AlertsForFrom(last, metrics, summaryData, a);
      var r :| FromTeamRule(a, last, r);
      assert FromTeamRule(a, teams[|teams| - 1], r);
    }
  }

  /** Every alert of one team is the alert of one of the rules for that team. */
  lemma AlertsForFrom(team: Team, metrics: map<string, TeamMetrics>, summaryData: seq<SummaryRow>, a: Alert)
    requires AlertsFor(team, metrics, summaryData).Ok?
    requires a in AlertsFor(team, metrics, summaryData).value
    ensures exists r :: FromTeamRule(a, team, r)
  {
    var summary := Find((s: SummaryRow) => s.team == team.name, summaryData);
    var md := metrics[team.key];
    FiredAlertsFrom(team, Measure(md.velocity, md.cycleTime, summary.value), RuleOrder, a);
  }

  /** A team's alerts on their own have distinct ids. */
  lemma AlertsForIdsDistinct(team: Team, metrics: map<string, TeamMetrics>, summaryData: seq<SummaryRow>)
    requires AlertsFor(team, metrics, summaryData).Ok?
    ensures IdsDistinct(AlertsFor(team, metrics, summaryData).value)
  {
    var summary := Find((s: SummaryRow) => s.team == team.name, summaryData);
    if team.key in metrics && summary.Some? {
      var md := metrics[team.key];
      RuleOrderDistinct();
      FiredAlertsIdsDistinct(team, Measure(md.velocity, md.cycleTime, summary.value), RuleOrder);
    }
  }

  /** With distinct team keys, every alert on the page has its own id. */
  lemma {:induction false} AllAlertsIdsDistinct(teams: seq<Team>, metrics: map<string, TeamMetrics>,
                                                summaryData: seq<SummaryRow>)
    requires AllAlerts(teams, metrics, summaryData).Ok?
    requires forall i, j :: 0 <= i < j < |teams| ==> teams[i].key != teams[j].key
    ensures IdsDistinct(AllAlerts(teams, metrics, summaryData).value)
    decreases |teams|
  {
    if teams != [] {
      var prefix := teams[..|teams| - 1];
      var last := teams[|teams| - 1];
      AllAlertsIdsDistinct(prefix, metrics, summaryData);
      var earlier := AllAlerts(prefix, metrics, summaryData).value;
      var mine := AlertsFor(last, metrics, summaryData).value;
      AlertsForIdsDistinct(last, metrics, summaryData);
      forall x, y | x in earlier && y in mine ensures x.id != y.id {
        AllAlertsMembers(prefix, metrics, summaryData, x);
        var i, r1 :| 0 <= i < |prefix| && FromTeamRule(x, prefix[i], r1);
        AlertsForFrom(last, metrics, summaryData, y);
        var r2 :| FromTeamRule(y, last, r2);
        assert prefix[i] == teams[i];
        if x.id == y.id {
          AlertIdInjective(prefix[i].key, r1, last.key, r2);
        }
      }
      IdsDistinctAppend(earlier, mine);
    }
  }

  /** The generator only throws for a team that has metrics and a summary row
      but no sprints at all. */
  lemma {:induction false} AllAlertsOk(teams: seq<Team>, metrics: map<string, TeamMetrics>,
                                       summaryData: seq<SummaryRow>)
    requires forall k :: k in metrics ==> |metrics[k].velocity| > 0
    ensures AllAlerts(teams, metrics, summaryData).Ok?
    decreases |teams|
  {
    if teams != [] {
      AllAlertsOk(teams[..|teams| - 1], metrics, summaryData);
    }
  }

  /** A team with metrics but no sprints makes the whole page throw. */
  lemma EmptyHistoryThrows(teams: seq<Team>, metrics: map<string, TeamMetrics>,
                           summaryData: seq<SummaryRow>, i: nat)
    requires i < |teams| && teams[i].key in metrics && |metrics[teams[i].key].velocity| == 0
    requires exists j :: 0 <= j < |summaryData| && summaryData[j].team == teams[i].name
    ensures AllAlerts(teams, metrics, summaryData).Err?
  {
    var prefix := teams[..i + 1];
    assert prefix[..i] == teams[..i];
    assert AlertsFor(teams[i], metrics, summaryData).Err?;
    assert AllAlerts(prefix, metrics, summaryData).Err?;
    AllAlertsErrPersists(teams, metrics, summaryData, i + 1);
  }

  // ---------------------------------------------------------------------
  // Presentation lookups.

  datatype SeverityStyle = SeverityStyle(bg: string, border: string, text: string, icon: string, caption: string)

  /** `severityConfig[severity]`; `undefined` for any other key. */
  function SeverityConfig(severity: string): (r: Option<SeverityStyle>)
    ensures r.Some? <==> severity in {"critical", "warning", "success"}
  {
    if severity == "critical" then
      Some(SeverityStyle("bg-red-500/10", "border-red-500/30", "text-red-400", "🔴", "Критично"))
    else if severity == "warning" then
      Some(SeverityStyle("bg-yellow-500/10", "border-yellow-500/30", "text-yellow-400", "🟡", "Внимание"))
    else if severity == "success" then
      Some(SeverityStyle("bg-green-500/10", "border-green-500/30", "text-green-400", "🟢", "Отлично"))
    else None
  }

  /** `typeLabels[type]`. */
  function TypeLabel(category: string): (r: Option<string>)
    ensures r.Some? <==> category in {"velocity", "cycletime", "health"}
  {
    if category == "velocity" then Some("Velocity")
    else if category == "cycletime" then Some("Cycle Time")
    else if category == "health" then Some("Team Health")
    else None
  }

  /** Every rule has a style and a type label, so no alert card reads `undefined`. */
  lemma RuleIsPresentable(r: Rule)
    ensures SeverityConfig(Severity(r)).Some? && TypeLabel(Category(r)).Some?
  {
  }

  /** Every alert the generator produces can be rendered as a card. */
  lemma GeneratedAlertsPresentable(teams: seq<Team>, metrics: map<string, TeamMetrics>,
                                   summaryData: seq<SummaryRow>, a: Alert)
    requires AllAlerts(teams, metrics, summaryData).Ok?
    requires a in AllAlerts(teams, metrics, summaryData).value
    ensures SeverityConfig(a.severity).Some? && TypeLabel(a.category).Some?
  {
    AllAlertsMembers(teams, metrics, summaryData, a);
    var i, r :| 0 <= i < |teams| && FromTeamRule(a, teams[i], r);
    RuleIsPresentable(r);
  }

  // ---------------------------------------------------------------------
  // Filters and severity groups.

  /** The drop-down filters of the page: `"all"` and `"Все"` switch a filter off. */
  datatype Filters = Filters(filterType: string, filterSeverity: string, selectedPlatform: string)

  const NoFilters := Filters("all", "all", AllPlatforms)

  /** The page's filter callback. The platform is the one of the FIRST team with
      the alert's key; an alert whose key names no team is dropped by a platform filter. */
  predicate Matches(f: Filters, teams: seq<Team>, a: Alert)
  {
    (f.filterType == "all" || a.category == f.filterType) &&
    (f.filterSeverity == "all" || a.severity == f.filterSeverity) &&
    (f.selectedPlatform == AllPlatforms ||
      var team := Find((t: Team) => t.key == a.teamKey, teams);
      team.Some? && team.value.platform == f.selectedPlatform)
  }

  function FilterAlerts(f: Filters, teams: seq<Team>, alerts: seq<Alert>): (r: seq<Alert>)
    ensures forall a :: a in r <==> a in alerts && Matches(f, teams, a)
  {
    Filter((a: Alert) => Matches(f, teams, a), alerts)
  }

  /** Filtering keeps the generator's order and only drops alerts. */
  lemma FilterAlertsOrdered(f: Filters, teams: seq<Team>, alerts: seq<Alert>)
    ensures IsSubsequence(FilterAlerts(f, teams, alerts), alerts)
    ensures |FilterAlerts(f, teams, alerts)| <= |alerts|
  {
    FilterIsSubsequence((a: Alert) => Matches(f, teams, a), alerts);
  }

  /** With every filter switched off, the page lists every alert. */
  lemma NoFiltersKeepAll(teams: seq<Team>, alerts: seq<Alert>)
    ensures FilterAlerts(NoFilters, teams, alerts) == alerts
  {
    FilterKeepsAll((a: Alert) => Matches(NoFilters, teams, a), alerts);
  }

  /** For the alert of a team whose key no other team shares, the platform
      filter compares the platform recorded on the alert. */
  lemma PlatformFilterMeaning(f: Filters, teams: seq<Team>, i: nat, r: Rule, a: Alert)
    requires i < |teams| && FromTeamRule(a, teams[i], r)
    requires forall j :: 0 <= j < |teams| && j != i ==> teams[j].key != teams[i].key
    ensures Matches(f, teams, a) <==>
      (f.filterType == "all" || a.category == f.filterType) &&
      (f.filterSeverity == "all" || a.severity == f.filterSeverity) &&
      (f.selectedPlatform == AllPlatforms || a.platform == f.selectedPlatform)
  {
    var team := Find((t: Team) => t.key == a.teamKey, teams);
    assert teams[i].key == a.teamKey;
    var j :| 0 <= j < |teams| && teams[j] == team.value && teams[j].key == a.teamKey;
    assert j == i;
  }

  /** The three groups the page shows. */
  function Group(severity: string, alerts: seq<Alert>): (r: seq<Alert>)
    ensures forall a :: a in r <==> a in alerts && a.severity == severity
  {
    Filter((a: Alert) => a.severity == severity, alerts)
  }

  /** When every alert has one of the three severities, the groups hold all
      filtered alerts between them, each exactly once; in particular the empty
      state is shown exactly when all three groups are empty. */
  lemma GroupsPartition(alerts: seq<Alert>)
    requires forall a :: a in alerts ==> a.severity in {"critical", "warning", "success"}
    ensures multiset(Group("critical", alerts)) + multiset(Group("warning", alerts)) +
            multiset(Group("success", alerts)) == multiset(alerts)
    ensures |Group("critical", alerts)| + |Group("warning", alerts)| + |Group("success", alerts)| == |alerts|
  {
    FilterPartition3((a: Alert) => a.severity == "critical", (a: Alert) => a.severity == "warning",
                     (a: Alert) => a.severity == "success", alerts);
  }

  /** The filtered alerts of the page are split completely by the groups. */
  lemma PageGroupsPartition(f: Filters, teams: seq<Team>, metrics: map<string, TeamMetrics>,
                            summaryData: seq<SummaryRow>)
    requires AllAlerts(teams, metrics, summaryData).Ok?
    ensures var shown := FilterAlerts(f, teams, AllAlerts(teams, metrics, summaryData).value);
      |Group("critical", shown)| + |Group("warning", shown)| + |Group("success", shown)| == |shown|
  {
    var all := AllAlerts(teams, metrics, summaryData).value;
    var shown := FilterAlerts(f, teams, all);
    forall a | a in shown ensures a.severity in {"critical", "warning", "success"} {
      GeneratedAlertsPresentable(teams, metrics, summaryData, a);
    }
    GroupsPartition(shown);
  }

  /** The four counters above the lists. */
  datatype Counts = Counts(total: nat, critical: nat, warning: nat, success: nat)

  function PageCounts(f: Filters, teams: seq<Team>, all: seq<Alert>): Counts
  {
    var shown := FilterAlerts(f, teams, all);
    Counts(|all|, |Group("critical", shown)|, |Group("warning", shown)|, |Group("success", shown)|)
  }

  /** The total ignores the filters; the three severity counters add up to the
      filtered list, so they reach the total exactly when nothing is filtered out. */
  lemma PageCountsMeaning(f: Filters, teams: seq<Team>, all: seq<Alert>)
    requires forall a :: a in all ==> a.severity in {"critical", "warning", "success"}
    ensures var c := PageCounts(f, teams, all);
      c.total == |all| &&
      c.critical + c.warning + c.success == |FilterAlerts(f, teams, all)| <= c.total &&
      PageCounts(NoFilters, teams, all).critical + PageCounts(NoFilters, teams, all).warning +
        PageCounts(NoFilters, teams, all).success == |all|
  {
    GroupsPartition(FilterAlerts(f, teams, all));
    FilterAlertsOrdered(f, teams, all);
    NoFiltersKeepAll(teams, all);
    GroupsPartition(all);
  }

  /** The empty state shows exactly when all three groups are empty. */
  lemma EmptyStateMeaning(shown: seq<Alert>)
    requires forall a :: a in shown ==> a.severity in {"critical", "warning", "success"}
    ensures shown == [] <==> Group("critical", shown) == [] && Group("warning", shown) == [] && Group("success", shown) == []
  {
    GroupsPartition(shown);
  }

  // ---------------------------------------------------------------------
  // The page over the loaded data.

  /** Filling in keeps every series non-empty. */
  lemma {:induction false} FilledVelocityNonEmpty(table: map<string, TeamMetrics>, teams: seq<Team>,
                                                  summaries: map<string, SummaryRow>)
    requires forall k :: k in table ==> |table[k].velocity| > 0
    ensures forall k :: k in Filled(table, teams, summaries) ==> |Filled(table, teams, summaries)[k].velocity| > 0
    decreases |teams|
  {
    if teams != [] {
      var prefix := teams[..|teams| - 1];
      var team := teams[|teams| - 1];
      FilledVelocityNonEmpty(table, prefix, summaries);
      var before := Filled(table, prefix, summaries);
      var after := Filled(table, teams, summaries);
      assert after == FillStep(before, team, summaries);
      forall k | k in after ensures |after[k].velocity| > 0 {
        if team.key !in before && team.name in summaries && k == team.key {
          var s := summaries[team.name];
          assert after[k] == GenerateTeamMetrics(team.key, s.velocity, s.cycleTime);
          assert |after[k].velocity| == 6;
        } else {
          assert k in before && after[k] == before[k];
          assert |before[k].velocity| > 0;
        }
      }
    }
  }

  lemma HandWrittenNonEmpty()
    ensures forall k :: k in HandWrittenMetrics ==> |HandWrittenMetrics[k].velocity| > 0
  {
  }

  /** On the loaded data the generator never throws. */
  lemma PageAlertsOk()
    ensures AllAlerts(Teams, LoadedMetrics(), SummaryData).Ok?
  {
    HandWrittenNonEmpty();
    FilledVelocityNonEmpty(HandWrittenMetrics, Teams, SummaryMap(SummaryData));
    AllAlertsOk(Teams, LoadedMetrics(), SummaryData);
  }

  /** The registry's keys are distinct. */
  lemma TeamKeysDistinct()
    ensures forall i, j :: 0 <= i < j < |Teams| ==> Teams[i].key != Teams[j].key
  {
  }

  /** Every alert on the page has its own id, its severity group and its type label. */
  lemma PageAlertsWellFormed()
    ensures AllAlerts(Teams, LoadedMetrics(), SummaryData).Ok?
    ensures var all := AllAlerts(Teams, LoadedMetrics(), SummaryData).value;
      IdsDistinct(all) &&
      forall a :: a in all ==> SeverityConfig(a.severity).Some? && TypeLabel(a.category).Some?
  {
    PageAlertsOk();
    TeamKeysDistinct();
    AllAlertsIdsDistinct(Teams, LoadedMetrics(), SummaryData);
    var all := AllAlerts(Teams, LoadedMetrics(), SummaryData).value;
    forall a | a in all ensures SeverityConfig(a.severity).Some? && TypeLabel(a.category).Some? {
      GeneratedAlertsPresentable(Teams, LoadedMetrics(), SummaryData, a);
    }
  }

  // ---------------------------------------------------------------------
  // Which rules fire for a team whose series were generated from its summary row.

  /** Squared deviations of six values, spelled out. */
  lemma SquaredDeviations6(a: real, b: real, c: real, d: real, e: real, f: real, m: real)
    ensures SquaredDeviations([a, b, c, d, e, f], m) ==
      (a - m) * (a - m) + (b - m) * (b - m) + (c - m) * (c - m) +
      (d - m) * (d - m) + (e - m) * (e - m) + (f - m) * (f - m)
  {
    var s1, s2, s3, s4, s5 := [a], [a, b], [a, b, c], [a, b, c, d], [a, b, c, d, e];
    assert s1[..0] == [];
    assert SquaredDeviations(s1, m) == (a - m) * (a - m);
    assert s2[..1] == s1;
    assert SquaredDeviations(s2, m) == SquaredDeviations(s1, m) + (b - m) * (b - m);
    assert s3[..2] == s2;
    assert SquaredDeviations(s3, m) == SquaredDeviations(s2, m) + (c - m) * (c - m);
    assert s4[..3] == s3;
    assert SquaredDeviations(s4, m) == SquaredDeviations(s3, m) + (d - m) * (d - m);
    assert s5[..4] == s4;
    assert SquaredDeviations(s5, m) == SquaredDeviations(s4, m) + (e - m) * (e - m);
    assert [a, b, c, d, e, f][..5] == s5;
  }

  /** The delivery percentages the generator writes for base velocity `v`. */
  predicate GeneratedShape(vs: seq<VelocityPoint>, v: real)
  {
    |vs| == 6 && vs[0].pct == v - 5.0 && vs[1].pct == v - 3.0 && vs[2].pct == v + 5.0 &&
    vs[3].pct == v && vs[4].pct == v - 2.0 && vs[5].pct == v
  }

  /** The weekly figures the generator writes for base cycle time `c`. */
  predicate GeneratedWeeks(cs: seq<CycleTimePoint>, c: real)
  {
    Medians(cs) == [c - 1.0, c - 1.5, c - 2.0, c - 1.2, c - 2.5, c - 3.0, c - 2.5, c - 2.0] &&
    P90s(cs) == [c + 12.0, c + 11.0, c + 10.0, c + 10.5, c + 9.0, c + 8.0, c + 9.0, c + 10.0] &&
    Avgs(FirstFour(cs)) == [c + 2.0, c + 1.5, c, c + 1.0] &&
    Avgs(LastFour(cs)) == [c - 0.5, c - 1.0, c - 0.5, c]
  }

  lemma GeneratedHasShape(key: string, v: real, c: real)
    ensures GeneratedShape(GenerateTeamMetrics(key, v, c).velocity, v)
    ensures GeneratedWeeks(GenerateTeamMetrics(key, v, c).cycleTime, c)
  {
    var m := GenerateTeamMetrics(key, v, c);
    assert forall i :: 0 <= i < 6 ==> Pcts(m.velocity)[i] == m.velocity[i].pct;
    var cs := m.cycleTime;
    assert Medians(cs) == [c - 1.0, c - 1.5, c - 2.0, c - 1.2, c - 2.5, c - 3.0, c - 2.5, c - 2.0];
    assert P90s(cs) == [c + 12.0, c + 11.0, c + 10.0, c + 10.5, c + 9.0, c + 8.0, c + 9.0, c + 10.0];
    assert Avgs(FirstFour(cs)) == [c + 2.0, c + 1.5, c, c + 1.0];
    assert Avgs(LastFour(cs)) == [c - 0.5, c - 1.0, c - 0.5, c];
  }

  /** The generated percentages always have mean `v - 5/6` and variance 353/36. */
  lemma ShapeMoments(vs: seq<VelocityPoint>, v: real)
    requires GeneratedShape(vs, v)
    ensures Mean(Pcts(vs)) == v - 5.0 / 6.0
    ensures Variance(Pcts(vs)) == 353.0 / 36.0
  {
    var xs := Pcts(vs);
    assert xs == [v - 5.0, v - 3.0, v + 5.0, v, v - 2.0, v];
    Sum6(v - 5.0, v - 3.0, v + 5.0, v, v - 2.0, v);
    SquaredDeviations6(v - 5.0, v - 3.0, v + 5.0, v, v - 2.0, v, v - 5.0 / 6.0);
  }

  /** Rule 1 fires exactly below 60, and the last sprint never drops. */
  lemma ShapeStreakAndDrop(vs: seq<VelocityPoint>, v: real)
    requires GeneratedShape(vs, v)
    ensures LowVelocityStreak(vs) <==> v < 60.0
    ensures VelDrop(vs) <= 0.0
  {
    LowVelocityStreakMeaning(vs);
    if v - 2.0 > 0.0 {
      var q := (v - 2.0 - v) / (v - 2.0);
      assert q * (v - 2.0) == -2.0;
      PositiveScale(q, v - 2.0);
    }
  }

  /** The spread is only large relative to a mean below 16, and small for a base of 85 or more. */
  lemma ShapeDispersion(vs: seq<VelocityPoint>, v: real)
    requires GeneratedShape(vs, v)
    ensures CvAbove(Pcts(vs), 25.0) ==> v < 60.0
    ensures v >= 85.0 ==> CvBelow(Pcts(vs), 15.0)
  {
    var xs := Pcts(vs);
    ShapeMoments(vs, v);
    var m := Mean(xs);
    assert 25.0 * 25.0 * m * m == 625.0 * (m * m);
    assert 15.0 * 15.0 * m * m == 225.0 * (m * m);
    assert 25.0 * 25.0 * m * m == (625.0 * m) * m == 625.0 * (m * m);
    if CvAbove(xs, 25.0) && m > 0.0 {
      assert 10000.0 * Variance(xs) > 25.0 * 25.0 * m * m;
      assert 10000.0 * (353.0 / 36.0) > 625.0 * (m * m);
      assert m * m < 16.0 * 16.0;
      SquareOrder(m, 16.0);
      assert m < 16.0;
    }
    if v >= 85.0 {
      assert m * m >= 84.0 * 84.0 by { SquareOrder(m, 84.0); }
    }
  }

  /** At least three sprints are below 60 exactly when the base is below 62. */
  lemma ShapeBelowTarget(vs: seq<VelocityPoint>, v: real)
    requires GeneratedShape(vs, v)
    ensures BelowTargetCount(vs) >= 3 <==> v < 62.0
  {
    assert BelowTargetCount(vs[..2]) == (if v < 63.0 then 1 else 0) + (if v < 65.0 then 1 else 0) by {
      assert vs[..2][..1] == vs[..1];
      assert vs[..1][..0] == [];
    }
    assert BelowTargetCount(vs[..4]) == BelowTargetCount(vs[..2]) + (if v < 55.0 then 1 else 0) + (if v < 60.0 then 1 else 0) by {
      assert vs[..4][..3] == vs[..3];
      assert vs[..3][..2] == vs[..2];
    }
    assert vs[..5][..4] == vs[..4];
    assert vs[..5] == vs[..|vs| - 1];
  }

  /** Generated weeks: the medians average `c - 1.9625`, the 90th percentiles
      `c + 9.9375`, and the last four weeks are faster than the first four. */
  lemma WeeksRules(cs: seq<CycleTimePoint>, c: real)
    requires GeneratedWeeks(cs, c)
    ensures HighMedian(cs) <==> c > 15.9625
    ensures LongTail(cs) <==> c > 20.0625
    ensures CtIncrease(cs) <= 0.0
  {
    Sum8(c - 1.0, c - 1.5, c - 2.0, c - 1.2, c - 2.5, c - 3.0, c - 2.5, c - 2.0);
    Sum8(c + 12.0, c + 11.0, c + 10.0, c + 10.5, c + 9.0, c + 8.0, c + 9.0, c + 10.0);
    Sum4(c + 2.0, c + 1.5, c, c + 1.0);
    Sum4(c - 0.5, c - 1.0, c - 0.5, c);
    var older := OlderCT(cs);
    if older > 0.0 {
      var q := (RecentCT(cs) - older) / older;
      assert q * older == RecentCT(cs) - older;
      PositiveScale(q, older);
    }
  }

  /** The velocity rules over generated sprints. */
  lemma ShapeVelocityRules(vs: seq<VelocityPoint>, cs: seq<CycleTimePoint>, s: SummaryRow)
    requires GeneratedShape(vs, s.velocity)
    ensures var st := Measure(vs, cs, s);
      var v := s.velocity;
      (Fires(VelocityLow, st) <==> v < 60.0) &&
      !Fires(VelocityDrop, st) && !Fires(VelocityUnstable, st) &&
      (Fires(BelowTarget, st) <==> 60.0 <= v < 62.0) &&
      (Fires(TopPerformer, st) <==> v >= 85.0)
  {
    ShapeStreakAndDrop(vs, s.velocity);
    ShapeDispersion(vs, s.velocity);
    ShapeBelowTarget(vs, s.velocity);
  }

  /** The cycle-time and carryover rules over generated weeks. */
  lemma WeeksSummaryRules(vs: seq<VelocityPoint>, cs: seq<CycleTimePoint>, s: SummaryRow)
    requires |vs| > 0 && GeneratedWeeks(cs, s.cycleTime)
    ensures var st := Measure(vs, cs, s);
      var c := s.cycleTime;
      (Fires(CycleTimeHigh, st) <==> c > 15.9625) &&
      (Fires(CycleTimeP90, st) <==> c > 20.0625) &&
      !Fires(CycleTimeIncrease, st) &&
      (Fires(Carryover, st) <==> s.velocity < 62.5)
  {
    WeeksRules(cs, s.cycleTime);
    CarryoverMeaning(s.velocity);
  }

  /** A team whose series were generated from its own summary row gets
      these alerts: only rules 1, 4, 5, 7, 8 and 9 can fire, at these thresholds. */
  lemma GeneratedTeamRules(key: string, s: SummaryRow)
    ensures var m := GenerateTeamMetrics(key, s.velocity, s.cycleTime);
      var st := Measure(m.velocity, m.cycleTime, s);
      var v, c := s.velocity, s.cycleTime;
      (Fires(VelocityLow, st) <==> v < 60.0) &&
      !Fires(VelocityDrop, st) && !Fires(VelocityUnstable, st) &&
      (Fires(CycleTimeHigh, st) <==> c > 15.9625) &&
      (Fires(CycleTimeP90, st) <==> c > 20.0625) &&
      !Fires(CycleTimeIncrease, st) &&
      (Fires(BelowTarget, st) <==> 60.0 <= v < 62.0) &&
      (Fires(Carryover, st) <==> v < 62.5) &&
      (Fires(TopPerformer, st) <==> v >= 85.0)
  {
    var m := GenerateTeamMetrics(key, s.velocity, s.cycleTime);
    GeneratedHasShape(key, s.velocity, s.cycleTime);
    ShapeVelocityRules(m.velocity, m.cycleTime, s);
    WeeksSummaryRules(m.velocity, m.cycleTime, s);
  }

  // ---------------------------------------------------------------------
  // The hand-written records of Surf, Disrupt and Content & Growth.

  /** A team that streaks, drops, wavers and misses target in none of its
      sprints, at a summary velocity of 85 or more, gets the top-performer
      alert and, besides it, at most the cycle-time level alerts. */
  lemma SteadyTopTeamRules(vs: seq<VelocityPoint>, cs: seq<CycleTimePoint>, s: SummaryRow, r: Rule)
    requires |vs| > 0 && !LowVelocityStreak(vs) && VelDrop(vs) <= 20.0 && BelowTargetCount(vs) < 3
    requires CvBelow(Pcts(vs), 15.0) && CtIncrease(cs) <= 30.0
    requires s.velocity >= 85.0
    ensures Fires(r, Measure(vs, cs, s)) <==>
      r == TopPerformer || (r == CycleTimeHigh && HighMedian(cs)) || (r == CycleTimeP90 && LongTail(cs))
  {
  }

  /** A team on a low streak below 62.5% summary velocity, with high medians and
      a long tail that does not grow, gets exactly the alerts of rules 1, 4, 5 and 8. */
  lemma StrugglingTeamRules(vs: seq<VelocityPoint>, cs: seq<CycleTimePoint>, s: SummaryRow, r: Rule)
    requires |vs| > 0 && LowVelocityStreak(vs) && HighMedian(cs) && LongTail(cs) && CtIncrease(cs) <= 30.0
    requires s.velocity < 62.5
    ensures Fires(r, Measure(vs, cs, s)) <==> r in {VelocityLow, CycleTimeHigh, CycleTimeP90, Carryover}
  {
    CarryoverMeaning(s.velocity);
  }

  lemma SurfSeries()
    ensures Pcts(SurfRecord.velocity) == [80.0, 84.0, 92.0, 90.0, 89.0, 88.0]
  {
    var vs := SurfRecord.velocity;
    assert |vs| == 6;
    assert vs[0].pct == 80.0 && vs[1].pct == 84.0 && vs[2].pct == 92.0 &&
           vs[3].pct == 90.0 && vs[4].pct == 89.0 && vs[5].pct == 88.0;
  }

  lemma SurfMedians()
    ensures Medians(SurfRecord.cycleTime) == [15.5, 14.8, 14.2, 15.0, 13.8, 13.5, 14.2, 13.9]
  {
  }

  lemma SurfP90s()
    ensures P90s(SurfRecord.cycleTime) == [28.5, 27.2, 26.5, 27.8, 25.5, 24.8, 26.2, 25.8]
  {
  }

  lemma SurfWindows()
    ensures Avgs(FirstFour(SurfRecord.cycleTime)) == [18.2, 17.5, 16.8, 17.2]
    ensures Avgs(LastFour(SurfRecord.cycleTime)) == [16.2, 15.8, 16.5, 16.2]
  {
  }

  /** The mean and variance of the sprint percentages. */
  lemma SurfMoments(vs: seq<VelocityPoint>)
    requires Pcts(vs) == [80.0, 84.0, 92.0, 90.0, 89.0, 88.0]
    ensures Mean(Pcts(vs)) == 523.0 / 6.0 && Variance(Pcts(vs)) == 581.0 / 36.0
  {
    Sum6(80.0, 84.0, 92.0, 90.0, 89.0, 88.0);
    SquaredDeviations6(80.0, 84.0, 92.0, 90.0, 89.0, 88.0, 523.0 / 6.0);
  }

  lemma DisruptSeries()
    ensures Pcts(DisruptRecord.velocity) == [81.0, 84.0, 89.0, 85.0, 84.0, 85.0]
  {
    var vs := DisruptRecord.velocity;
    assert |vs| == 6;
    assert vs[0].pct == 81.0 && vs[1].pct == 84.0 && vs[2].pct == 89.0 &&
           vs[3].pct == 85.0 && vs[4].pct == 84.0 && vs[5].pct == 85.0;
  }

  lemma DisruptMedians()
    ensures Medians(DisruptRecord.cycleTime) == [14.8, 14.2, 13.2, 13.8, 12.9, 12.5, 13.2, 13.0]
  {
  }

  lemma DisruptP90s()
    ensures P90s(DisruptRecord.cycleTime) == [27.2, 26.5, 24.8, 25.5, 24.2, 23.5, 24.8, 24.5]
  {
  }

  lemma DisruptWindows()
    ensures Avgs(FirstFour(DisruptRecord.cycleTime)) == [17.5, 16.8, 15.5, 16.2]
    ensures Avgs(LastFour(DisruptRecord.cycleTime)) == [15.2, 14.8, 15.5, 15.5]
  {
  }

  /** The mean and variance of the sprint percentages. */
  lemma DisruptMoments(vs: seq<VelocityPoint>)
    requires Pcts(vs) == [81.0, 84.0, 89.0, 85.0, 84.0, 85.0]
    ensures Mean(Pcts(vs)) == 254.0 / 3.0 && Variance(Pcts(vs)) == 50.0 / 9.0
  {
    Sum6(81.0, 84.0, 89.0, 85.0, 84.0, 85.0);
    SquaredDeviations6(81.0, 84.0, 89.0, 85.0, 84.0, 85.0, 254.0 / 3.0);
  }

  lemma CngSeries()
    ensures Pcts(CngRecord.velocity) == [44.0, 45.0, 50.0, 50.0, 46.0, 50.0]
  {
    var vs := CngRecord.velocity;
    assert |vs| == 6;
    assert vs[0].pct == 44.0 && vs[1].pct == 45.0 && vs[2].pct == 50.0 &&
           vs[3].pct == 50.0 && vs[4].pct == 46.0 && vs[5].pct == 50.0;
  }

  lemma CngMedians()
    ensures Medians(CngRecord.cycleTime) == [28.5, 27.2, 25.8, 26.5, 25.2, 24.2, 24.8, 25.0]
  {
  }

  lemma CngP90s()
    ensures P90s(CngRecord.cycleTime) == [48.5, 46.2, 44.5, 45.8, 43.8, 42.5, 43.2, 43.5]
  {
  }

  lemma CngWindows()
    ensures Avgs(FirstFour(CngRecord.cycleTime)) == [32.5, 31.2, 29.5, 30.2]
    ensures Avgs(LastFour(CngRecord.cycleTime)) == [28.8, 27.5, 28.2, 28.5]
  {
  }

  /** The mean and variance of the sprint percentages. */
  lemma CngMoments(vs: seq<VelocityPoint>)
    requires Pcts(vs) == [44.0, 45.0, 50.0, 50.0, 46.0, 50.0]
    ensures Mean(Pcts(vs)) == 95.0 / 2.0 && Variance(Pcts(vs)) == 79.0 / 12.0
  {
    Sum6(44.0, 45.0, 50.0, 50.0, 46.0, 50.0);
    SquaredDeviations6(44.0, 45.0, 50.0, 50.0, 46.0, 50.0, 95.0 / 2.0);
  }

  /** Surf's sprints hold steady near 87%. */
  lemma SurfVelocityFacts(vs: seq<VelocityPoint>)
    requires Pcts(vs) == [80.0, 84.0, 92.0, 90.0, 89.0, 88.0]
    ensures !LowVelocityStreak(vs) && VelDrop(vs) <= 20.0 && BelowTargetCount(vs) == 0 && CvBelow(Pcts(vs), 15.0)
  {
    assert forall i :: 0 <= i < 6 ==> vs[i].pct == Pcts(vs)[i];
    LowVelocityStreakMeaning(vs);
    VelDropMeaning(vs);
    SurfMoments(vs);
  }

  /** Surf's weekly medians average 14.3625 days, above the 14-day line; its tail and trend are fine. */
  lemma SurfWeekFacts(cs: seq<CycleTimePoint>)
    requires Medians(cs) == [15.5, 14.8, 14.2, 15.0, 13.8, 13.5, 14.2, 13.9]
    requires P90s(cs) == [28.5, 27.2, 26.5, 27.8, 25.5, 24.8, 26.2, 25.8]
    requires Avgs(FirstFour(cs)) == [18.2, 17.5, 16.8, 17.2] && Avgs(LastFour(cs)) == [16.2, 15.8, 16.5, 16.2]
    ensures Mean(Medians(cs)) == 14.3625 && HighMedian(cs) && !LongTail(cs) && CtIncrease(cs) <= 30.0
  {
    Sum8(15.5, 14.8, 14.2, 15.0, 13.8, 13.5, 14.2, 13.9);
    Sum8(28.5, 27.2, 26.5, 27.8, 25.5, 24.8, 26.2, 25.8);
    Sum4(18.2, 17.5, 16.8, 17.2);
    Sum4(16.2, 15.8, 16.5, 16.2);
  }

  lemma SurfRecordVelocity()
    ensures var vs := SurfRecord.velocity; |vs| > 0 && !LowVelocityStreak(vs) && VelDrop(vs) <= 20.0 && BelowTargetCount(vs) == 0 && CvBelow(Pcts(vs), 15.0)
  {
    SurfSeries();
    SurfVelocityFacts(SurfRecord.velocity);
  }

  lemma SurfRecordWeeks()
    ensures var cs := SurfRecord.cycleTime; Mean(Medians(cs)) == 14.3625 && HighMedian(cs) && !LongTail(cs) && CtIncrease(cs) <= 30.0
  {
    SurfMedians();
    SurfP90s();
    SurfWindows();
    SurfWeekFacts(SurfRecord.cycleTime);
  }

  /** Disrupt's sprints hold steady near 85%. */
  lemma DisruptVelocityFacts(vs: seq<VelocityPoint>)
    requires Pcts(vs) == [81.0, 84.0, 89.0, 85.0, 84.0, 85.0]
    ensures !LowVelocityStreak(vs) && VelDrop(vs) <= 20.0 && BelowTargetCount(vs) == 0 && CvBelow(Pcts(vs), 15.0)
  {
    assert forall i :: 0 <= i < 6 ==> vs[i].pct == Pcts(vs)[i];
    LowVelocityStreakMeaning(vs);
    VelDropMeaning(vs);
    DisruptMoments(vs);
  }

  /** Disrupt's cycle time stays below both lines and does not grow. */
  lemma DisruptWeekFacts(cs: seq<CycleTimePoint>)
    requires Medians(cs) == [14.8, 14.2, 13.2, 13.8, 12.9, 12.5, 13.2, 13.0]
    requires P90s(cs) == [27.2, 26.5, 24.8, 25.5, 24.2, 23.5, 24.8, 24.5]
    requires Avgs(FirstFour(cs)) == [17.5, 16.8, 15.5, 16.2] && Avgs(LastFour(cs)) == [15.2, 14.8, 15.5, 15.5]
    ensures !HighMedian(cs) && !LongTail(cs) && CtIncrease(cs) <= 30.0
  {
    Sum8(14.8, 14.2, 13.2, 13.8, 12.9, 12.5, 13.2, 13.0);
    Sum8(27.2, 26.5, 24.8, 25.5, 24.2, 23.5, 24.8, 24.5);
    Sum4(17.5, 16.8, 15.5, 16.2);
    Sum4(15.2, 14.8, 15.5, 15.5);
  }

  lemma DisruptRecordVelocity()
    ensures var vs := DisruptRecord.velocity; |vs| > 0 && !LowVelocityStreak(vs) && VelDrop(vs) <= 20.0 && BelowTargetCount(vs) == 0 && CvBelow(Pcts(vs), 15.0)
  {
    DisruptSeries();
    DisruptVelocityFacts(DisruptRecord.velocity);
  }

  lemma DisruptRecordWeeks()
    ensures var cs := DisruptRecord.cycleTime; !HighMedian(cs) && !LongTail(cs) && CtIncrease(cs) <= 30.0
  {
    DisruptMedians();
    DisruptP90s();
    DisruptWindows();
    DisruptWeekFacts(DisruptRecord.cycleTime);
  }

  /** Content & Growth's last two sprints are below 60%. */
  lemma CngVelocityFacts(vs: seq<VelocityPoint>)
    requires Pcts(vs) == [44.0, 45.0, 50.0, 50.0, 46.0, 50.0]
    ensures LowVelocityStreak(vs)
  {
    assert forall i :: 0 <= i < 6 ==> vs[i].pct == Pcts(vs)[i];
    LowVelocityStreakMeaning(vs);
  }

  /** Content & Growth's medians and 90th percentiles are both high, and do not grow. */
  lemma CngWeekFacts(cs: seq<CycleTimePoint>)
    requires Medians(cs) == [28.5, 27.2, 25.8, 26.5, 25.2, 24.2, 24.8, 25.0]
    requires P90s(cs) == [48.5, 46.2, 44.5, 45.8, 43.8, 42.5, 43.2, 43.5]
    requires Avgs(FirstFour(cs)) == [32.5, 31.2, 29.5, 30.2] && Avgs(LastFour(cs)) == [28.8, 27.5, 28.2, 28.5]
    ensures HighMedian(cs) && LongTail(cs) && CtIncrease(cs) <= 30.0
  {
    Sum8(28.5, 27.2, 25.8, 26.5, 25.2, 24.2, 24.8, 25.0);
    Sum8(48.5, 46.2, 44.5, 45.8, 43.8, 42.5, 43.2, 43.5);
    Sum4(32.5, 31.2, 29.5, 30.2);
    Sum4(28.8, 27.5, 28.2, 28.5);
  }

  lemma CngRecordVelocity()
    ensures var vs := CngRecord.velocity; |vs| > 0 && LowVelocityStreak(vs)
  {
    CngSeries();
    CngVelocityFacts(CngRecord.velocity);
  }

  lemma CngRecordWeeks()
    ensures var cs := CngRecord.cycleTime; HighMedian(cs) && LongTail(cs) && CtIncrease(cs) <= 30.0
  {
    CngMedians();
    CngP90s();
    CngWindows();
    CngWeekFacts(CngRecord.cycleTime);
  }

  /** Surf's summary row (88%) and record meet `SteadyTopTeamRules` with high
      medians and no long tail: it gets the alerts of rules 4 and 9. */
  lemma SurfAlerts(r: Rule)
    ensures SummaryData[0].team == "Surf" && SummaryData[0].velocity == 88.0
    ensures Fires(r, Measure(SurfRecord.velocity, SurfRecord.cycleTime, SummaryData[0])) <==>
      r in {CycleTimeHigh, TopPerformer}
  {
    SurfRecordVelocity();
    SurfRecordWeeks();
    SteadyTopTeamRules(SurfRecord.velocity, SurfRecord.cycleTime, SummaryData[0], r);
  }

  /** A team with Disrupt's recorded series (which `DisruptSeries`, `DisruptMedians`,
      `DisruptP90s` and `DisruptWindows` show the record has) at Disrupt's 85%
      summary velocity meets `SteadyTopTeamRules` with neither cycle-time alert:
      it gets the top-performer alert and no other. */
  lemma DisruptAlerts(vs: seq<VelocityPoint>, cs: seq<CycleTimePoint>, s: SummaryRow, r: Rule)
    requires Pcts(vs) == [81.0, 84.0, 89.0, 85.0, 84.0, 85.0]
    requires Medians(cs) == [14.8, 14.2, 13.2, 13.8, 12.9, 12.5, 13.2, 13.0]
    requires P90s(cs) == [27.2, 26.5, 24.8, 25.5, 24.2, 23.5, 24.8, 24.5]
    requires Avgs(FirstFour(cs)) == [17.5, 16.8, 15.5, 16.2] && Avgs(LastFour(cs)) == [15.2, 14.8, 15.5, 15.5]
    requires s.velocity == SummaryData[2].velocity
    ensures SummaryData[2].team == "Disrupt" && SummaryData[2].velocity == 85.0
    ensures Fires(r, Measure(vs, cs, s)) <==> r == TopPerformer
  {
    DisruptVelocityFacts(vs);
    DisruptWeekFacts(cs);
    SteadyTopTeamRules(vs, cs, s, r);
  }

  /** Content & Growth's summary row (48%) and record meet `StrugglingTeamRules`:
      it gets the alerts of rules 1, 4, 5 and 8. */
  lemma CngAlerts(r: Rule)
    ensures SummaryData[15].team == "Content & Growth" && SummaryData[15].velocity == 48.0
    ensures Fires(r, Measure(CngRecord.velocity, CngRecord.cycleTime, SummaryData[15])) <==>
      r in {VelocityLow, CycleTimeHigh, CycleTimeP90, Carryover}
  {
    CngRecordVelocity();
    CngRecordWeeks();
    StrugglingTeamRules(CngRecord.velocity, CngRecord.cycleTime, SummaryData[15], r);
  }
}
