/** The bug-count widget: how far the quarter has come from the baseline
    bug count towards the target, its badge, its bar and its two counters. */
module DshbWidget {
  import opened MockData

  /** `progress`: the distance covered from baseline towards target, in
      percent of the whole distance. The division is unguarded, so baseline
      and target must differ. */
  function Progress(d: Dshb): (p: real)
    requires d.baseline != d.target
    ensures d.current == d.baseline - p / 100.0 * (d.baseline - d.target)
  {
    (d.baseline - d.current) / (d.baseline - d.target) * 100.0
  }

  /** The badge: "On Track" from half way on. */
  function Badge(progress: real): (r: string)
    ensures r == "On Track" <==> progress >= 50.0
    ensures r == "At Risk" <==> progress < 50.0
  {
    if progress >= 50.0 then "On Track" else "At Risk"
  }

  /** The filled width of the bar, in percent: capped at 100 but not at 0. */
  function BarWidth(progress: real): (w: real)
    ensures w <= 100.0
    ensures w == progress || w == 100.0
    ensures progress <= 100.0 ==> w == progress
  {
    if progress < 100.0 then progress else 100.0
  }

  /** What the widget shows for a record. */
  datatype View = View(progress: real, badge: string, barWidth: real, reduced: real, remaining: real)

  function Render(d: Dshb): (v: View)
    requires d.baseline != d.target
    ensures v.reduced + v.remaining == d.baseline - d.target
    ensures v.remaining == 0.0 <==> d.current == d.target
    ensures v.reduced == 0.0 <==> v.progress == 0.0
  {
    var p := Progress(d);
    View(p, Badge(p), BarWidth(p), d.baseline - d.current, d.current - d.target)
  }

  /** With fewer bugs wanted than at the baseline, the badge says "On Track"
      exactly when the count is at or below the midpoint of baseline and target. */
  lemma OnTrackIsHalfWay(d: Dshb)
    requires d.baseline > d.target
    ensures Render(d).badge == "On Track" <==> d.current <= (d.baseline + d.target) / 2.0
  {
    var span := d.baseline - d.target;
    var p := Progress(d);
    assert d.current == d.baseline - p / 100.0 * span;
    var q := p / 100.0 - 0.5;
    assert p / 100.0 * span == q * span + 0.5 * span;
    ScaleKeepsSign(q, span);
    assert Render(d).badge == "On Track" <==> q >= 0.0;
    assert q >= 0.0 <==> d.baseline - d.current >= 0.5 * span;
  }

  /** Multiplying by a positive number keeps the sign. */
  lemma ScaleKeepsSign(q: real, span: real)
    requires span > 0.0
    ensures q >= 0.0 <==> q * span >= 0.0
  {
    if q < 0.0 {
      assert (-q) * span > 0.0;
    }
  }

  /** Reaching the target is exactly 100%; going below it runs past 100%,
      keeps the badge at "On Track" and the bar full. */
  lemma PastTarget(d: Dshb)
    requires d.baseline > d.target
    ensures d.current == d.target ==> Progress(d) == 100.0
    ensures d.current < d.target ==>
      Progress(d) > 100.0 && Render(d).badge == "On Track" && Render(d).barWidth == 100.0
    ensures d.current > d.baseline ==> Progress(d) < 0.0 && Render(d).barWidth < 0.0
  {
    var span := d.baseline - d.target;
    var p := Progress(d);
    assert d.current == d.baseline - p / 100.0 * span;
    if d.current < d.target {
      assert p / 100.0 * span > span;
    }
    if d.current > d.baseline {
      assert p / 100.0 * span < 0.0;
    }
  }

  /** For the quarter's record (150, 135, 142): 8 bugs removed of 15, so
      53.3…%, "On Track", 7 left. */
  lemma DefaultRecord()
    ensures var v := Render(DefaultDshb);
      v.progress == 160.0 / 3.0 && v.badge == "On Track" && v.reduced == 8.0 && v.remaining == 7.0
  {
  }
}
