/** The "risk distribution" pie chart: assessments counted into four slices
    by residual risk, each slice tested with its own bounds. */
module Charts {
  import opened Risk
  import opened Ledger

  datatype Slice = Slice(name: string, value: nat)

  /** The filter test of each slice, as the chart writes it. */
  predicate InSlice(b: Band, risk: real) {
    match b
    case Low => risk < 1000000.0
    case Medium => risk >= 1000000.0 && risk < 5000000.0
    case High => risk >= 5000000.0 && risk < 10000000.0
    case Critical => risk >= 10000000.0
  }

  /** A slice's test holds exactly when the risk lies in that band, so each
      slice agrees with the colour bands and no risk is in two slices. */
  lemma SliceMatchesBand(b: Band, risk: real)
    ensures InSlice(b, risk) <==> Severity(risk) == b
  {
  }

  /** `assessments.filter(test).length` for the test of slice `b`: it
      counts exactly the assessments whose residual risk has severity `b`. */
  function SliceCount(assessments: seq<Assessment>, b: Band): (n: nat)
    ensures n == BandCount(assessments, b)
  {
    if |assessments| == 0 then 0
    else
      SliceMatchesBand(b, assessments[0].residualRisk);
      (if InSlice(b, assessments[0].residualRisk) then 1 else 0) + SliceCount(assessments[1..], b)
  }

  /** The number of assessments whose residual risk has severity `b`: the
      reference count the slices are measured against. */
  function BandCount(assessments: seq<Assessment>, b: Band): nat {
    if |assessments| == 0 then 0
    else (if Severity(assessments[0].residualRisk) == b then 1 else 0) + BandCount(assessments[1..], b)
  }

  /** Every assessment lands in exactly one slice, so the slices add up to
      the number of assessments. */
  lemma {:induction false} SlicesCoverAll(assessments: seq<Assessment>)
    ensures SliceCount(assessments, Low) + SliceCount(assessments, Medium)
            + SliceCount(assessments, High) + SliceCount(assessments, Critical) == |assessments|
  {
    if |assessments| > 0 {
      SlicesCoverAll(assessments[1..]);
    }
  }

  function BandAt(i: nat): Band {
    if i == 0 then Low else if i == 1 then Medium else if i == 2 then High else Critical
  }

  /** The chart's data: the four slices in order, Bajo to Crítico. */
  function PieData(assessments: seq<Assessment>): (d: seq<Slice>)
    ensures |d| == 4
    ensures d[0].name == "Bajo" && d[1].name == "Medio" && d[2].name == "Alto" && d[3].name == "Crítico"
    ensures forall i :: 0 <= i < 4 ==> d[i].value == BandCount(assessments, BandAt(i))
    ensures d[0].value + d[1].value + d[2].value + d[3].value == |assessments|
  {
    SlicesCoverAll(assessments);
    [ Slice("Bajo", SliceCount(assessments, Low)),
      Slice("Medio", SliceCount(assessments, Medium)),
      Slice("Alto", SliceCount(assessments, High)),
      Slice("Crítico", SliceCount(assessments, Critical)) ]
  }
}
