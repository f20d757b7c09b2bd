/** The MAGERIT risk arithmetic of the assessment page: the fixed frequency
    and impact tables, the intrinsic/residual risk formula and the four
    severity bands that colour a risk figure. Amounts are `real`; the
    page computes them in IEEE doubles, whose rounding is not modelled. */
module Risk {
  import opened Seqs

  /** A frequency class: its code, its title and the yearly multiplier. */
  datatype FrequencyClass = FrequencyClass(code: string, title: string, multiplier: real)

  /** An impact level: its code, its title and the share of the asset value lost. */
  datatype ImpactLevel = ImpactLevel(code: string, title: string, percentage: real)

  const Frequencies: seq<FrequencyClass> := [
    FrequencyClass("FMA", "Muy Alta", 1.0),
    FrequencyClass("FA", "Alta", 0.071),
    FrequencyClass("FM", "Media", 0.016),
    FrequencyClass("FB", "Baja", 0.0016),
    FrequencyClass("FMB", "Muy Baja", 0.00016)
  ]

  const ImpactLevels: seq<ImpactLevel> := [
    ImpactLevel("MA", "Muy Alto", 100.0),
    ImpactLevel("A", "Alto", 75.0),
    ImpactLevel("M", "Medio", 50.0),
    ImpactLevel("B", "Bajo", 25.0),
    ImpactLevel("MB", "Muy Bajo", 10.0)
  ]

  predicate IsFrequencyCode(code: string) {
    exists i :: 0 <= i < |Frequencies| && Frequencies[i].code == code
  }

  predicate IsImpactCode(code: string) {
    exists i :: 0 <= i < |ImpactLevels| && ImpactLevels[i].code == code
  }

  /** The multiplier shown for a frequency code; an unknown code yields 0. */
  function FrequencyValue(code: string): (f: real)
    ensures forall i :: 0 <= i < |Frequencies| && Frequencies[i].code == code ==> f == Frequencies[i].multiplier
    ensures !IsFrequencyCode(code) ==> f == 0.0
    ensures 0.0 <= f <= 1.0
  {
    match FindIndex(Frequencies, (row: FrequencyClass) => row.code == code)
    case Some(i) => Frequencies[i].multiplier
    case None => 0.0
  }

  /** The percentage of an impact code; an unknown code yields 0. */
  function ImpactPercentage(code: string): (p: real)
    ensures forall i :: 0 <= i < |ImpactLevels| && ImpactLevels[i].code == code ==> p == ImpactLevels[i].percentage
    ensures !IsImpactCode(code) ==> p == 0.0
    ensures 0.0 <= p <= 100.0
  {
    match FindIndex(ImpactLevels, (row: ImpactLevel) => row.code == code)
    case Some(i) => ImpactLevels[i].percentage
    case None => 0.0
  }

  /** Every tabled multiplier is a positive fraction and every tabled
      impact a positive percentage, and codes do not repeat. */
  lemma TablesAreFractions()
    ensures forall i :: 0 <= i < |Frequencies| ==> 0.0 < Frequencies[i].multiplier <= 1.0
    ensures forall i :: 0 <= i < |ImpactLevels| ==> 0.0 < ImpactLevels[i].percentage <= 100.0
    ensures forall i, j :: 0 <= i < j < |Frequencies| ==> Frequencies[i].code != Frequencies[j].code
    ensures forall i, j :: 0 <= i < j < |ImpactLevels| ==> ImpactLevels[i].code != ImpactLevels[j].code
  {
  }

  lemma NonNegativeProduct(a: real, b: real)
    requires 0.0 <= a && 0.0 <= b
    ensures 0.0 <= a * b
  {
  }

  lemma FractionOfAmount(amount: real, factor: real)
    requires 0.0 <= amount && 0.0 <= factor <= 1.0
    ensures 0.0 <= amount * factor <= amount
  {
    NonNegativeProduct(amount, factor);
    NonNegativeProduct(amount, 1.0 - factor);
    assert amount - amount * factor == amount * (1.0 - factor);
  }

  /** `amount` times `factor`: the one multiplication the risk formula is
      built from. A fraction in [0, 1] of a non-negative amount stays in
      [0, amount]; a zero factor or amount gives zero. */
  function Scale(amount: real, factor: real): (r: real)
    ensures 0.0 <= amount && 0.0 <= factor <= 1.0 ==> 0.0 <= r <= amount
    ensures amount == 0.0 || factor == 0.0 ==> r == 0.0
    ensures factor == 1.0 ==> r == amount
  {
    var r := amount * factor;
    if 0.0 <= amount && 0.0 <= factor <= 1.0 then
      FractionOfAmount(amount, factor);
      r
    else
      r
  }

  /** Potential loss before controls: value × frequency × impact/100,
      multiplied in that order. */
  function IntrinsicRisk(value: real, frequency: real, impact: real): (r: real)
    ensures 0.0 <= value && 0.0 <= frequency <= 1.0 && 0.0 <= impact <= 100.0 ==> 0.0 <= r <= value
    ensures frequency == 0.0 || impact == 0.0 || value == 0.0 ==> r == 0.0
  {
    Scale(Scale(value, frequency), impact / 100.0)
  }

  /** Loss left after controls that are `control` percent effective. */
  function ResidualRisk(intrinsic: real, control: real): (r: real)
    ensures control == 0.0 ==> r == intrinsic
    ensures control == 100.0 ==> r == 0.0
    ensures 0.0 <= intrinsic && 0.0 <= control <= 100.0 ==> 0.0 <= r <= intrinsic
  {
    Scale(intrinsic, 1.0 - control / 100.0)
  }

  datatype Risks = Risks(intrinsic: real, residual: real)

  /** The risk pair of an assessment (calculateRisks). */
  function CalculateRisks(value: real, frequency: real, impact: real, control: real): (r: Risks)
    ensures 0.0 <= value && 0.0 <= frequency <= 1.0 && 0.0 <= impact <= 100.0 && 0.0 <= control <= 100.0
            ==> 0.0 <= r.residual <= r.intrinsic <= value
    ensures control == 0.0 ==> r.residual == r.intrinsic
    ensures control == 100.0 ==> r.residual == 0.0
  {
    var intrinsic := IntrinsicRisk(value, frequency, impact);
    Risks(intrinsic, ResidualRisk(intrinsic, control))
  }

  /** With a tabled frequency and impact the hypotheses of the bounds above
      hold, so intrinsic risk never exceeds the asset value. */
  lemma TabledRiskBounded(value: real, frequencyCode: string, impactCode: string, control: real)
    requires 0.0 <= value
    requires 0.0 <= control <= 100.0
    ensures var r := CalculateRisks(value, FrequencyValue(frequencyCode), ImpactPercentage(impactCode), control);
            0.0 <= r.residual <= r.intrinsic <= value
  {
  }

  /** More value at stake means no less intrinsic risk. */
  lemma IntrinsicMonotoneInValue(v1: real, v2: real, frequency: real, impact: real)
    requires v1 <= v2
    requires 0.0 <= frequency
    requires 0.0 <= impact
    ensures IntrinsicRisk(v1, frequency, impact) <= IntrinsicRisk(v2, frequency, impact)
  {
    var share := impact / 100.0;
    NonNegativeProduct(v2 - v1, frequency);
    NonNegativeProduct((v2 - v1) * frequency, share);
    assert v2 * frequency * share - v1 * frequency * share == (v2 - v1) * frequency * share;
  }

  /** A heavier impact means no less intrinsic risk. */
  lemma IntrinsicMonotoneInImpact(value: real, frequency: real, i1: real, i2: real)
    requires i1 <= i2
    requires 0.0 <= value
    requires 0.0 <= frequency
    ensures IntrinsicRisk(value, frequency, i1) <= IntrinsicRisk(value, frequency, i2)
  {
    var scaled := value * frequency;
    NonNegativeProduct(value, frequency);
    NonNegativeProduct(scaled, (i2 - i1) / 100.0);
    assert scaled * (i2 / 100.0) - scaled * (i1 / 100.0) == scaled * ((i2 - i1) / 100.0);
  }

  /** More effective controls never leave more residual risk. */
  lemma ResidualAntitoneInControl(intrinsic: real, c1: real, c2: real)
    requires 0.0 <= intrinsic
    requires c1 <= c2
    ensures ResidualRisk(intrinsic, c2) <= ResidualRisk(intrinsic, c1)
  {
    NonNegativeProduct(intrinsic, (c2 - c1) / 100.0);
    assert intrinsic * (1.0 - c1 / 100.0) - intrinsic * (1.0 - c2 / 100.0) == intrinsic * ((c2 - c1) / 100.0);
  }

  /** The worked example of the methodology: value 10,000,000, frequency FA,
      impact A, control 50%. */
  lemma WorkedExample()
    ensures CalculateRisks(10000000.0, FrequencyValue("FA"), ImpactPercentage("A"), 50.0)
            == Risks(532500.0, 266250.0)
  {
    assert FrequencyValue("FA") == Frequencies[1].multiplier;
    assert ImpactPercentage("A") == ImpactLevels[1].percentage;
  }

  /** The four severity bands of a risk figure. */
  datatype Band = Low | Medium | High | Critical

  const MediumFloor: real := 1000000.0
  const HighFloor: real := 5000000.0
  const CriticalFloor: real := 10000000.0

  /** The half-open interval of risk figures each band covers. */
  predicate InBand(risk: real, b: Band) {
    match b
    case Low => risk < MediumFloor
    case Medium => MediumFloor <= risk < HighFloor
    case High => HighFloor <= risk < CriticalFloor
    case Critical => CriticalFloor <= risk
  }

  function Rank(b: Band): nat {
    match b
    case Low => 0
    case Medium => 1
    case High => 2
    case Critical => 3
  }

  /** The band of a risk figure, by the thresholds tested in order. */
  function Severity(risk: real): (b: Band)
    ensures InBand(risk, b)
  {
    if risk < 1000000.0 then Low
    else if risk < 5000000.0 then Medium
    else if risk < 10000000.0 then High
    else Critical
  }

  /** The bands are disjoint: a figure lies in exactly one of them. */
  lemma BandsDisjoint(risk: real, b: Band, c: Band)
    requires InBand(risk, b) && InBand(risk, c)
    ensures b == c
  {
  }

  /** A larger risk never falls in a lower band. */
  lemma SeverityMonotone(r1: real, r2: real)
    requires r1 <= r2
    ensures Rank(Severity(r1)) <= Rank(Severity(r2))
  {
  }

  function BandColor(b: Band): string {
    match b
    case Low => "text-green-500"
    case Medium => "text-yellow-500"
    case High => "text-orange-500"
    case Critical => "text-red-500"
  }

  /** getRiskColor: the text colour of a risk figure. */
  function RiskColor(risk: real): (c: string)
    ensures forall b :: c == BandColor(b) <==> InBand(risk, b)
  {
    if risk < 1000000.0 then "text-green-500"
    else if risk < 5000000.0 then "text-yellow-500"
    else if risk < 10000000.0 then "text-orange-500"
    else "text-red-500"
  }

  datatype Icon = CheckCircle | AlertCircle | XCircle

  /** getRiskIcon: the icon beside a risk figure; medium and high share one. */
  function RiskIcon(risk: real): (i: Icon)
    ensures i == CheckCircle <==> InBand(risk, Low)
    ensures i == AlertCircle <==> InBand(risk, Medium) || InBand(risk, High)
    ensures i == XCircle <==> InBand(risk, Critical)
  {
    if risk < 1000000.0 then CheckCircle
    else if risk < 5000000.0 then AlertCircle
    else if risk < 10000000.0 then AlertCircle
    else XCircle
  }

  /** The icon is a function of the colour: two figures of the same colour
      always get the same icon. */
  lemma IconFollowsColor(r1: real, r2: real)
    requires RiskColor(r1) == RiskColor(r2)
    ensures RiskIcon(r1) == RiskIcon(r2)
  {
    assert InBand(r1, Severity(r1));
    assert RiskColor(r1) == BandColor(Severity(r1));
    assert InBand(r2, Severity(r1));
  }
}
