/** The time-to-market gauge: a half ring filled by the current time over
    the scale's maximum, with a target marker and a traffic-light colour
    (lower is better). */
module T2MGauge {

  /** The scale's maximum when the caller gives none. */
  const DefaultMax: real := 30.0

  /** `percentage`: the filled share of the ring, capped at 100. The
      division is unguarded, so the maximum must be non-zero. */
  function Percentage(current: real, max: real): (p: real)
    requires max != 0.0
    ensures p <= 100.0
    ensures p == 100.0 || p == current / max * 100.0
    ensures current / max * 100.0 <= 100.0 ==> p == current / max * 100.0
  {
    if current / max * 100.0 < 100.0 then current / max * 100.0 else 100.0
  }

  /** The value arc's two segments: filled and empty. */
  function Segments(current: real, max: real): (s: (real, real))
    requires max != 0.0
    ensures s.0 + s.1 == 100.0
    ensures s.1 >= 0.0
  {
    var p := Percentage(current, max);
    (p, 100.0 - p)
  }

  /** `targetPct`: where the target marker sits, not capped. */
  function TargetPct(target: real, max: real): real
    requires max != 0.0
  {
    target / max * 100.0
  }

  /** A target beyond the scale puts the marker past the end of the ring. */
  lemma TargetPctUnclamped(target: real, max: real)
    requires max > 0.0 && target > max
    ensures TargetPct(target, max) > 100.0
  {
    assert target / max > 1.0;
  }

  const Green := "#10b981"
  const Yellow := "#eab308"
  const Red := "#ef4444"

  /** `getColor`: green at or under target, yellow up to a quarter over, red beyond. */
  function GetColor(current: real, target: real): (c: string)
    ensures c == Green <==> current <= target
    ensures c == Yellow <==> target < current <= target * 1.25
    ensures c == Red <==> current > target && current > target * 1.25
    ensures c == Green || c == Yellow || c == Red
  {
    if current <= target then Green
    else if current <= target * 1.25 then Yellow
    else Red
  }

  function Badness(c: string): nat
  {
    if c == Green then 0 else if c == Yellow then 1 else 2
  }

  /** For a non-negative target a longer time never gets a better colour. */
  lemma GetColorMonotone(c1: real, c2: real, target: real)
    requires target >= 0.0 && c1 <= c2
    ensures Badness(GetColor(c1, target)) <= Badness(GetColor(c2, target))
  {
  }

  /** The page's gauge (14 days, target 12, scale 30): yellow, 46.6…% filled. */
  lemma DisruptGauge()
    ensures GetColor(14.0, 12.0) == Yellow
    ensures Percentage(14.0, DefaultMax) == 140.0 / 3.0
  {
  }
}
