/** The solution-ownership ring: the rate as a full ring and a colour that
    compares it with the company baseline. */
module OwnershipRing {

  /** The ring's two segments. */
  function Segments(rate: real): (s: (real, real))
    ensures s.0 + s.1 == 100.0
    ensures s.0 == rate
  {
    (rate, 100.0 - rate)
  }

  const Green := "#10b981"
  const Cyan := "#06b6d4"
  const Yellow := "#eab308"
  const Red := "#ef4444"

  /** `getColor`: four bands of five points around the baseline. */
  function GetColor(rate: real, baseline: real): (c: string)
    ensures c == Green <==> rate >= baseline + 5.0
    ensures c == Cyan <==> baseline <= rate < baseline + 5.0
    ensures c == Yellow <==> baseline - 5.0 <= rate < baseline
    ensures c == Red <==> rate < baseline - 5.0
  {
    if rate >= baseline + 5.0 then Green
    else if rate >= baseline then Cyan
    else if rate >= baseline - 5.0 then Yellow
    else Red
  }

  function Rank(c: string): nat
  {
    if c == Green then 3 else if c == Cyan then 2 else if c == Yellow then 1 else 0
  }

  /** Every rate gets exactly one of the four colours, and a higher rate
      never a worse one. */
  lemma GetColorTiers(r1: real, r2: real, baseline: real)
    requires r1 <= r2
    ensures GetColor(r1, baseline) in {Green, Cyan, Yellow, Red}
    ensures Rank(GetColor(r1, baseline)) <= Rank(GetColor(r2, baseline))
  {
  }

  /** The page's ring (87 against 80) is green. */
  lemma DisruptRing()
    ensures GetColor(87.0, 80.0) == Green
    ensures GetColor(82.0, 80.0) == Cyan
  {
  }
}
