/** The four risk levels shared by the composite score and the IDRS. */
module Risk {

  datatype RiskLevel = LowRisk | ModerateRisk | HighRisk | VeryHighRisk

  /** The `level` text of a risk record, also sent as `risk_category`. */
  function Label(r: RiskLevel): (s: string)
    ensures s != ""
  {
    match r
    case LowRisk => "Low Risk"
    case ModerateRisk => "Moderate Risk"
    case HighRisk => "High Risk"
    case VeryHighRisk => "Very High Risk"
  }

  /** Severity order of the levels. */
  function Severity(r: RiskLevel): nat {
    match r
    case LowRisk => 0
    case ModerateRisk => 1
    case HighRisk => 2
    case VeryHighRisk => 3
  }

  /** Distinct levels carry distinct labels, so the label identifies the level. */
  lemma LabelInjective(r: RiskLevel, q: RiskLevel)
    requires Label(r) == Label(q)
    ensures r == q
  {
  }
}
