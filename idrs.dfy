/**
 * The Indian Diabetes Risk Score of the results view
 * (frontend/app/page.tsx, calculateIDRS and getIDRSRisk).  It is computed
 * from the stored `formData` only: age, waist, gender, activity and family
 * history.
 */
module Idrs {
  import opened Wrappers
  import opened Inputs
  import opened Risk
  import opened Records

  function AgePoints(age: int): (p: int)
    ensures p in {0, 20, 30}
    ensures p == 0 <==> age < 35
    ensures p == 30 <==> age >= 50
  {
    if age < 35 then 0 else if age < 50 then 20 else 30
  }

  /** Male cut-offs 90/100 only for "male", 80/90 otherwise. */
  function WaistPoints(gender: Gender, waist: real): (p: int)
    ensures p in {0, 10, 20}
    ensures gender.Male? ==> (p == 0 <==> waist < 90.0) && (p == 20 <==> waist >= 100.0)
    ensures gender.Female? ==> (p == 0 <==> waist < 80.0) && (p == 20 <==> waist >= 90.0)
  {
    if gender.Male? then
      if waist < 90.0 then 0 else if waist < 100.0 then 10 else 20
    else
      if waist < 80.0 then 0 else if waist < 90.0 then 10 else 20
  }

  /** An activity value other than the four levels adds nothing. */
  function ActivityPoints(a: Activity): (p: int)
    ensures p in {0, 10, 20, 30}
    ensures p == 10 <==> a.Moderate?
    ensures p == 20 <==> a.Mild?
    ensures p == 30 <==> a.Sedentary?
  {
    match a
    case Vigorous => 0
    case Moderate => 10
    case Mild => 20
    case Sedentary => 30
    case _ => 0
  }

  function FamilyPoints(h: FamilyHistory): (p: int)
    ensures p in {0, 10, 20}
    ensures p == 10 <==> h.SecondDegree?
    ensures p == 20 <==> h.FirstDegree?
  {
    match h
    case NoHistory => 0
    case SecondDegree => 10
    case FirstDegree => 20
    case _ => 0
  }

  /** The IDRS of the stored form data; 0 when there is none.  A multiple
      of 10 between 0 and 100. */
  function IdrsScore(data: Option<ResultForm>): (s: int)
    ensures 0 <= s <= 100
    ensures s % 10 == 0
    ensures data.None? ==> s == 0
  {
    match data
    case None => 0
    case Some(d) =>
      AgePoints(d.age) + WaistPoints(d.gender, d.waist)
      + ActivityPoints(d.physicalActivity) + FamilyPoints(d.familyHistory)
  }

  /** 100 is reached, so it is the exact maximum. */
  lemma IdrsMaximumAttained()
    ensures exists d :: IdrsScore(Some(d)) == 100
  {
    var d := ResultForm(60, 0.0, 120.0, Male, Sedentary, FirstDegree, 0.0, 0.0, 0.0, 0.0);
    assert IdrsScore(Some(d)) == 100;
  }

  /** getIDRSRisk: exclusive upper bounds 30, 50 and 70. */
  function IdrsRisk(score: int): (r: RiskLevel)
    ensures r == LowRisk <==> score < 30
    ensures r == ModerateRisk <==> 30 <= score < 50
    ensures r == HighRisk <==> 50 <= score < 70
    ensures r == VeryHighRisk <==> score >= 70
  {
    if score < 30 then LowRisk
    else if score < 50 then ModerateRisk
    else if score < 70 then HighRisk
    else VeryHighRisk
  }

  lemma IdrsRiskMonotone(a: int, b: int)
    requires a <= b
    ensures Severity(IdrsRisk(a)) <= Severity(IdrsRisk(b))
  {
  }

  lemma AgePointsMonotone(a: int, b: int)
    requires a <= b
    ensures AgePoints(a) <= AgePoints(b)
  {
  }

  lemma WaistPointsMonotone(g: Gender, a: real, b: real)
    requires a <= b
    ensures WaistPoints(g, a) <= WaistPoints(g, b)
  {
  }

  /** BMI, fasting glucose and the vital signs play no part in the IDRS. */
  lemma IdrsIgnoresOtherFields(d: ResultForm, e: ResultForm)
    requires d.age == e.age && d.waist == e.waist && d.gender == e.gender
    requires d.physicalActivity == e.physicalActivity && d.familyHistory == e.familyHistory
    ensures IdrsScore(Some(d)) == IdrsScore(Some(e))
  {
  }

  /** Boundary values of the IDRS tables. */
  lemma BoundaryExamples()
    ensures AgePoints(34) == 0 && AgePoints(35) == 20 && AgePoints(49) == 20 && AgePoints(50) == 30
    ensures WaistPoints(Male, 89.0) == 0 && WaistPoints(Male, 90.0) == 10
    ensures WaistPoints(Male, 99.0) == 10 && WaistPoints(Male, 100.0) == 20
  {
  }

  /** The state of the results view that calculateIDRS updates. */
  class ResultsView {
    const formData: Option<ResultForm>
    var idrsScore: int

    constructor (formData: Option<ResultForm>)
      ensures this.formData == formData && idrsScore == 0
    {
      this.formData := formData;
      idrsScore := 0;
    }

    /** calculateIDRS: accumulates the four factors into a local score. */
    method CalculateIdrs()
      modifies this
      ensures idrsScore == IdrsScore(formData)
    {
      if formData.None? {
        idrsScore := 0;
        return;
      }
      var d := formData.value;
      var score := 0;
      var age := d.age;
      var waist := d.waist;

      if age < 35 { score := score + 0; }
      else if age >= 35 && age < 50 { score := score + 20; }
      else if age >= 50 { score := score + 30; }

      if d.gender == Male {
        if waist < 90.0 { score := score + 0; }
        else if waist >= 90.0 && waist < 100.0 { score := score + 10; }
        else if waist >= 100.0 { score := score + 20; }
      } else {
        if waist < 80.0 { score := score + 0; }
        else if waist >= 80.0 && waist < 90.0 { score := score + 10; }
        else if waist >= 90.0 { score := score + 20; }
      }

      if d.physicalActivity == Vigorous { score := score + 0; }
      else if d.physicalActivity == Moderate { score := score + 10; }
      else if d.physicalActivity == Mild { score := score + 20; }
      else if d.physicalActivity == Sedentary { score := score + 30; }

      if d.familyHistory == NoHistory { score := score + 0; }
      else if d.familyHistory == SecondDegree { score := score + 10; }
      else if d.familyHistory == FirstDegree { score := score + 20; }

      idrsScore := score;
    }
  }
}
