/** The metric card: a title, a value, an optional trend arrow, an optional
    status badge, an optional warning box, in a normal or a hero size. */
module StatCard {
  import opened Seqs
  import opened MockData

  /** The trend block: arrow, colour class and the magnitude shown. */
  datatype TrendBadge = TrendBadge(arrow: string, color: string, magnitude: real)

  /** The status badge: its text and its colour classes. */
  datatype StatusBadge = StatusBadge(caption: string, color: string)

  /** A prop that JavaScript tests for truthiness: absent or empty is falsy. */
  predicate Truthy(s: Option<string>)
  {
    s.Some? && s.value != ""
  }

  function Abs(x: real): real
  {
    if x < 0.0 then -x else x
  }

  /** The trend block, present exactly when `trend` was passed: a rising
      arrow in green, a falling one in red, or a flat one in zinc, always
      followed by the absolute value. */
  function TrendView(trend: Option<real>): (r: Option<TrendBadge>)
    ensures r.Some? <==> trend.Some?
    ensures r.Some? ==> r.value.magnitude >= 0.0
    ensures r.Some? ==> (r.value.arrow == "↗" <==> trend.value > 0.0)
    ensures r.Some? ==> (r.value.arrow == "↘" <==> trend.value < 0.0)
    ensures r.Some? ==> (r.value.arrow == "→" <==> trend.value == 0.0)
    ensures r.Some? ==> (r.value.color == "text-green-400" <==> r.value.arrow == "↗")
    ensures r.Some? ==> (r.value.color == "text-red-400" <==> r.value.arrow == "↘")
    ensures r.Some? ==> (r.value.color == "text-zinc-500" <==> r.value.arrow == "→")
  {
    match trend
    case None => None
    case Some(t) =>
      var arrow := if t > 0.0 then "↗" else if t < 0.0 then "↘" else "→";
      var color := if t > 0.0 then "text-green-400" else if t < 0.0 then "text-red-400" else "text-zinc-500";
      Some(TrendBadge(arrow, color, Abs(t)))
  }

  /** Arrow and magnitude together give back the trend: nothing is lost by
      showing the absolute value. */
  lemma TrendViewRecoversTrend(t: real)
    ensures var b := TrendView(Some(t)).value;
      t == (if b.arrow == "↗" then b.magnitude else if b.arrow == "↘" then -b.magnitude else 0.0)
  {
  }

  /** The status badge, present exactly when `status` is truthy, with the
      shared label and colour. */
  function StatusView(status: Option<string>): (r: Option<StatusBadge>)
    ensures r.Some? <==> Truthy(status)
    ensures r.Some? ==> r.value.caption == GetStatusLabel(status.value) && r.value.color == GetStatusColor(status.value)
  {
    if Truthy(status) then Some(StatusBadge(GetStatusLabel(status.value), GetStatusColor(status.value))) else None
  }

  /** A card given a status computed from a velocity shows a known label,
      never "Unknown". */
  lemma ComputedStatusBadge(velocity: real)
    ensures var b := StatusView(Some(GetTeamStatus(velocity)));
      b.Some? && b.value.caption in {"On Track", "At Risk", "Critical"}
  {
  }

  /** The warning box, present exactly when `alert` is truthy, showing its text. */
  function AlertView(alert: Option<string>): (r: Option<string>)
    ensures r.Some? <==> Truthy(alert)
    ensures r.Some? ==> r.value == "⚠️ " + alert.value
  {
    if Truthy(alert) then Some("⚠️ " + alert.value) else None
  }

  /** The card's padding and value size: large only for `size == 'hero'`. */
  function SizeClasses(size: string): (r: (string, string))
    ensures r == ("p-8", "text-5xl") <==> size == "hero"
    ensures r == ("p-5", "text-3xl") <==> size != "hero"
  {
    if size == "hero" then ("p-8", "text-5xl") else ("p-5", "text-3xl")
  }

  /** The top gradient line's class for a colour name; other names have none
      (the class list then reads `undefined`). */
  function GradientClass(color: string): (r: Option<string>)
    ensures r.Some? <==> color in {"green", "blue", "purple"}
    ensures r.Some? ==> r.value == "before:via-" + color + "-500"
  {
    if color == "green" then Some("before:via-green-500")
    else if color == "blue" then Some("before:via-blue-500")
    else if color == "purple" then Some("before:via-purple-500")
    else None
  }
}
