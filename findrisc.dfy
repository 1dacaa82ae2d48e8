/**
 * The composite FINDRISC + fasting-glucose score of the form
 * (frontend/app/page.tsx: the nine get*Score getters, totalScore and
 * getRiskCategory).  Every getter is a step function of one input; an
 * input that does not parse contributes 0.
 */
module Findrisc {
  import opened Wrappers
  import opened Inputs
  import opened Measurements
  import opened Risk

  /** getAgeScore over `parseInt(age)`: NaN and 0 score 0. */
  function AgeScore(age: Option<int>): (p: int)
    ensures p in {0, 2, 3, 4}
    ensures p == 0 <==> age.None? || age.value < 45
    ensures p == 4 <==> age.Some? && age.value >= 65
  {
    match age
    case None => 0
    case Some(n) =>
      if n == 0 then 0
      else if n < 45 then 0
      else if n <= 54 then 2
      else if n <= 64 then 3
      else 4
  }

  /** getBMIScore over effectiveBMI. */
  function BmiScore(bmi: real): (p: int)
    ensures p in {0, 1, 3}
    ensures p == 0 <==> bmi < 25.0
    ensures p == 3 <==> bmi >= 30.0
  {
    if bmi == 0.0 then 0
    else if bmi < 25.0 then 0
    else if bmi < 30.0 then 1
    else 3
  }

  /** getWaistScore: the male cut-offs only for "male", 80/88 otherwise. */
  function WaistScore(gender: Gender, waist: real): (p: int)
    ensures p in {0, 3, 4}
    ensures gender.Male? ==> (p == 0 <==> waist < 94.0) && (p == 4 <==> waist > 102.0)
    ensures gender.Female? ==> (p == 0 <==> waist < 80.0) && (p == 4 <==> waist > 88.0)
  {
    if waist == 0.0 then 0
    else if gender.Male? then
      if waist < 94.0 then 0 else if waist <= 102.0 then 3 else 4
    else
      if waist < 80.0 then 0 else if waist <= 88.0 then 3 else 4
  }

  /** getActivityScore: an unknown value scores 0 like vigorous. */
  function ActivityScore(a: Activity): (p: int)
    ensures p in {0, 1, 2}
    ensures p == 1 <==> a.Mild?
    ensures p == 2 <==> a.Sedentary?
  {
    match a
    case Vigorous => 0
    case Moderate => 0
    case Mild => 1
    case Sedentary => 2
    case _ => 0
  }

  /** getFruitVegScore: 1 point for "no". */
  function FruitVegScore(a: Answer): (p: int)
    ensures p in {0, 1} && (p == 1 <==> a.No?)
  {
    if a.No? then 1 else 0
  }

  /** getBPScore: 2 points for taking blood-pressure medication. */
  function BpScore(a: Answer): (p: int)
    ensures p in {0, 2} && (p == 2 <==> a.Yes?)
  {
    if a.Yes? then 2 else 0
  }

  /** getHighSugarScore: 5 points for a history of high blood sugar. */
  function HighSugarScore(a: Answer): (p: int)
    ensures p in {0, 5} && (p == 5 <==> a.Yes?)
  {
    if a.Yes? then 5 else 0
  }

  /** getFamilyScore: an unknown value, the placeholder included, scores 0. */
  function FamilyScore(h: FamilyHistory): (p: int)
    ensures p in {0, 3, 5}
    ensures p == 3 <==> h.SecondDegree?
    ensures p == 5 <==> h.FirstDegree?
  {
    match h
    case NoHistory => 0
    case SecondDegree => 3
    case FirstDegree => 5
    case _ => 0
  }

  /** getFBSScore over `parseFloat(fbs)`: NaN scores 0; the 100 and 126 mg/dL
      cut-offs are the ADA fasting-plasma-glucose thresholds, 110 is an
      extra tier. */
  function FbsScore(fbs: Option<real>): (p: int)
    ensures p in {0, 2, 4, 6}
    ensures p == 0 <==> fbs.None? || fbs.value < 100.0
    ensures p == 2 <==> fbs.Some? && 100.0 <= fbs.value < 110.0
    ensures p == 4 <==> fbs.Some? && 110.0 <= fbs.value < 126.0
    ensures p == 6 <==> fbs.Some? && fbs.value >= 126.0
  {
    match fbs
    case None => 0
    case Some(x) =>
      if x < 100.0 then 0
      else if x < 110.0 then 2
      else if x < 126.0 then 4
      else 6
  }

  /** The `breakdown` record of the results. */
  datatype Breakdown = Breakdown(
    age: int, bmi: int, waist: int, activity: int, fruitVeg: int,
    bpMed: int, highSugar: int, family: int, fbs: int)

  function Sum(b: Breakdown): int {
    b.age + b.bmi + b.waist + b.activity + b.fruitVeg + b.bpMed + b.highSugar + b.family + b.fbs
  }

  /** The nine getters evaluated on one snapshot of the form; each is capped
      by its own table, and the caps add up to 32. */
  function Scores(f: Form): (b: Breakdown)
    ensures 0 <= b.age <= 4 && 0 <= b.bmi <= 3 && 0 <= b.waist <= 4
    ensures 0 <= b.activity <= 2 && 0 <= b.fruitVeg <= 1 && 0 <= b.bpMed <= 2
    ensures 0 <= b.highSugar <= 5 && 0 <= b.family <= 5 && 0 <= b.fbs <= 6
  {
    Breakdown(
      AgeScore(f.age.asInt),
      BmiScore(EffectiveBmi(f)),
      WaistScore(f.gender, WaistInCm(f)),
      ActivityScore(f.physicalActivity),
      FruitVegScore(f.fruitVeg),
      BpScore(f.bpMedication),
      HighSugarScore(f.highBloodSugar),
      FamilyScore(f.familyHistory),
      FbsScore(f.fbs.asFloat))
  }

  /** The largest total the getters can produce: 4+3+4+2+1+2+5+5+6. */
  const MaxTotal: int := 32

  /** The denominator the result card prints next to the total. */
  const DisplayedMaximum: int := 34

  /** totalScore: the sum of the nine sub-scores, between 0 and 32. */
  function TotalScore(f: Form): (t: int)
    ensures t == Sum(Scores(f))
    ensures 0 <= t <= MaxTotal
  {
    AgeScore(f.age.asInt)
    + BmiScore(EffectiveBmi(f))
    + WaistScore(f.gender, WaistInCm(f))
    + ActivityScore(f.physicalActivity)
    + FruitVegScore(f.fruitVeg)
    + BpScore(f.bpMedication)
    + HighSugarScore(f.highBloodSugar)
    + FamilyScore(f.familyHistory)
    + FbsScore(f.fbs.asFloat)
  }

  /** A form the controls can produce that scores every maximum: age 70,
      150 cm and 100 kg, waist 110 cm, sedentary, no fruit, both medical
      toggles on, a first-degree relative and a glucose of 130. */
  function TopForm(): Form {
    Form(
      Typed(70), Calculate, Empty, Centimetres, Typed(150), Empty, Empty, Typed(100),
      Male, WaistCentimetres, Typed(110), Empty,
      Sedentary, No, Yes, Yes, FirstDegree, Typed(130), Typed(120), Typed(80), Typed(70))
  }

  lemma TopFormScoresMaxTotal()
    ensures TotalScore(TopForm()) == MaxTotal
  {
    var f := TopForm();
    assert HeightInCm(f) == 150.0 && PositiveWeight(f);
    assert Quetelet(150.0, 100.0) > 44.0;
    assert BmiScore(EffectiveBmi(f)) == 3;
    assert WaistScore(Male, WaistInCm(f)) == 4;
  }

  /** 32 is reached by a form the controls can produce, so it is the exact
      maximum; the printed "/ 34" is never reached. */
  lemma MaxTotalAttained()
    ensures exists f :: Reachable(f) && TotalScore(f) == MaxTotal
    ensures forall f :: TotalScore(f) < DisplayedMaximum
  {
    TopFormScoresMaxTotal();
    assert Reachable(TopForm());
  }

  /** getRiskCategory: inclusive upper bounds 7, 14 and 20. */
  function RiskCategory(total: int): (r: RiskLevel)
    ensures r == LowRisk <==> total <= 7
    ensures r == ModerateRisk <==> 8 <= total <= 14
    ensures r == HighRisk <==> 15 <= total <= 20
    ensures r == VeryHighRisk <==> total > 20
  {
    if total <= 7 then LowRisk
    else if total <= 14 then ModerateRisk
    else if total <= 20 then HighRisk
    else VeryHighRisk
  }

  /** The advice line of each category. */
  function Advice(r: RiskLevel): string {
    match r
    case LowRisk => "Lifestyle advice only"
    case ModerateRisk => "Recomended Screening within 1 year"
    case HighRisk => "High probability of prediabetes"
    case VeryHighRisk => "Strongly suggest Diagnostic testing"
  }

  /** Each category has its own advice line. */
  lemma AdviceDistinct(r: RiskLevel, q: RiskLevel)
    requires r != q
    ensures Advice(r) != Advice(q)
  {
  }

  /** A higher total never gives a lower category. */
  lemma RiskCategoryMonotone(a: int, b: int)
    requires a <= b
    ensures Severity(RiskCategory(a)) <= Severity(RiskCategory(b))
  {
  }

  /** The numeric getters never decrease as their input rises. */
  lemma AgeScoreMonotone(a: int, b: int)
    requires a <= b
    ensures AgeScore(Some(a)) <= AgeScore(Some(b))
  {
  }

  lemma BmiScoreMonotone(a: real, b: real)
    requires a <= b
    ensures BmiScore(a) <= BmiScore(b)
  {
  }

  lemma WaistScoreMonotone(g: Gender, a: real, b: real)
    requires a <= b
    ensures WaistScore(g, a) <= WaistScore(g, b)
  {
  }

  lemma FbsScoreMonotone(a: real, b: real)
    requires a <= b
    ensures FbsScore(Some(a)) <= FbsScore(Some(b))
  {
  }

  /** The female waist cut-offs are never more lenient than the male ones. */
  lemma WaistFemaleAtLeastMale(w: real)
    ensures WaistScore(Male, w) <= WaistScore(Female, w)
  {
  }

  /** Each sub-score depends on its own inputs only: two forms that agree on
      age, BMI, waist, gender and the selects have the same total. */
  lemma TotalDependsOnScoredInputs(f: Form, g: Form)
    requires f.age.asInt == g.age.asInt && EffectiveBmi(f) == EffectiveBmi(g)
    requires f.gender == g.gender && WaistInCm(f) == WaistInCm(g)
    requires f.physicalActivity == g.physicalActivity && f.fruitVeg == g.fruitVeg
    requires f.bpMedication == g.bpMedication && f.highBloodSugar == g.highBloodSugar
    requires f.familyHistory == g.familyHistory && f.fbs.asFloat == g.fbs.asFloat
    ensures TotalScore(f) == TotalScore(g)
  {
  }

  /** Boundary values of the tier tables. */
  lemma BoundaryExamples()
    ensures AgeScore(Some(44)) == 0 && AgeScore(Some(45)) == 2 && AgeScore(Some(54)) == 2
    ensures AgeScore(Some(55)) == 3 && AgeScore(Some(64)) == 3 && AgeScore(Some(65)) == 4
    ensures BmiScore(24.9) == 0 && BmiScore(25.0) == 1 && BmiScore(29.9) == 1 && BmiScore(30.0) == 3
    ensures WaistScore(Male, 93.0) == 0 && WaistScore(Male, 94.0) == 3
    ensures WaistScore(Male, 102.0) == 3 && WaistScore(Male, 103.0) == 4
    ensures FbsScore(Some(99.0)) == 0 && FbsScore(Some(100.0)) == 2 && FbsScore(Some(109.0)) == 2
    ensures FbsScore(Some(110.0)) == 4 && FbsScore(Some(125.0)) == 4 && FbsScore(Some(126.0)) == 6
  {
  }
}
