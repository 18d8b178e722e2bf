/**
 * The risk gauge: the colour band picked from the risk score, the value shown
 * on the dial, and the dial's fixed background steps. The score is a real;
 * the comparisons with 0.3 and 0.7 and the scaling by 100 are exact.
 */
module RiskGauge {
  import opened Wrappers

  datatype Band = Emerald | Amber | Red

  const LowThreshold: real := 0.3
  const HighThreshold: real := 0.7

  /** The if/else chain on the score: below 0.3, below 0.7, otherwise; nothing is clamped. */
  function BandOf(riskScore: real): (b: Band)
    ensures b == Emerald <==> riskScore < LowThreshold
    ensures b == Amber <==> LowThreshold <= riskScore < HighThreshold
    ensures b == Red <==> HighThreshold <= riskScore
  {
    if riskScore < LowThreshold then Emerald
    else if riskScore < HighThreshold then Amber
    else Red
  }

  /** The bar colour of a band. */
  function BarColor(b: Band): string
  {
    match b
    case Emerald => "#10b981"
    case Amber => "#f59e0b"
    case Red => "#ef4444"
  }

  /**
   * The gradient the component computes for a band. It is assigned but never
   * rendered: the card's background is plain white.
   */
  function Gradient(b: Band): string
  {
    match b
    case Emerald => "linear-gradient(135deg, #ecfdf5 0%, #d1fae5 100%)"
    case Amber => "linear-gradient(135deg, #fffbeb 0%, #fef3c7 100%)"
    case Red => "linear-gradient(135deg, #fef2f2 0%, #fee2e2 100%)"
  }

  /** The bands in increasing order of risk. */
  function Rank(b: Band): (r: nat)
    ensures r < 3
  {
    match b
    case Emerald => 0
    case Amber => 1
    case Red => 2
  }

  /** A higher score never gets a lower band. */
  lemma BandMonotone(s: real, t: real)
    requires s <= t
    ensures Rank(BandOf(s)) <= Rank(BandOf(t))
  {
  }

  /** The three bands have three different bar colours, so the colour tells the band. */
  lemma ColorsTellBands(a: Band, b: Band)
    requires BarColor(a) == BarColor(b)
    ensures a == b
  {
  }

  /** pct: the number on the dial, the score times 100 with no clamping. */
  function GaugeValue(riskScore: real): (pct: real)
    ensures pct / 100.0 == riskScore
  {
    riskScore * 100.0
  }

  /** The band read off the dial value: below 30 and below 70. */
  lemma BandFromGauge(riskScore: real)
    ensures BandOf(riskScore) == Emerald <==> GaugeValue(riskScore) < 30.0
    ensures BandOf(riskScore) == Red <==> 70.0 <= GaugeValue(riskScore)
  {
  }

  /** Scores above 1 stay red and the dial value goes past the end of its axis. */
  lemma NoClamping(riskScore: real)
    requires riskScore > 1.0
    ensures BandOf(riskScore) == Red && GaugeValue(riskScore) > AxisMax
  {
  }

  /** One background step of the dial: [from, to] in the step colour. */
  datatype Step = Step(from: real, to: real, color: string)

  const AxisMin: real := 0.0
  const AxisMax: real := 100.0
  const ThresholdValue: real := 90.0

  const Steps: seq<Step> := [Step(0.0, 30.0, "#d1fae5"), Step(30.0, 70.0, "#fde68a"), Step(70.0, 100.0, "#fecaca")]

  /** The steps cover the axis from end to end, each one starting where the last one stopped. */
  lemma StepsTileAxis()
    ensures |Steps| == 3
    ensures Steps[0].from == AxisMin && Steps[|Steps| - 1].to == AxisMax
    ensures forall i :: 0 <= i < |Steps| ==> Steps[i].from < Steps[i].to
    ensures forall i :: 0 < i < |Steps| ==> Steps[i].from == Steps[i - 1].to
  {
  }

  /** The inner step boundaries are the two colour thresholds times 100. */
  lemma StepBoundariesAreThresholds()
    ensures Steps[0].to == GaugeValue(LowThreshold)
    ensures Steps[1].to == GaugeValue(HighThreshold)
  {
  }

  /** The index of the step a dial value falls in (the last step includes its end). */
  function StepOf(v: real): (r: Option<nat>)
    ensures r.Some? <==> AxisMin <= v <= AxisMax
    ensures r.Some? ==> r.value < |Steps| && Steps[r.value].from <= v <= Steps[r.value].to
  {
    if v < AxisMin || v > AxisMax then None
    else if v < Steps[0].to then Some(0)
    else if v < Steps[1].to then Some(1)
    else Some(2)
  }

  /** For a score in [0, 1] the bar's band is the band of the background step under the needle. */
  lemma BandMatchesStep(riskScore: real)
    requires 0.0 <= riskScore <= 1.0
    ensures StepOf(GaugeValue(riskScore)) == Some(Rank(BandOf(riskScore)))
  {
  }

  /** The red threshold line sits inside the red step. */
  lemma ThresholdInRedStep()
    ensures StepOf(ThresholdValue) == Some(Rank(Red))
  {
  }
}
