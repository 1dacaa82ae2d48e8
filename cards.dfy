/**
 * The display-only classifiers of the result cards (frontend/app/page.tsx):
 * fasting glucose, BMI, blood pressure and pulse.  They feed no score and
 * use their own cut-offs, which differ from the scoring tables.
 */
module Cards {
  import opened Wrappers
  import Findrisc

  datatype GlucoseBand = NormalGlucose | PrediabetesRisk | DiabetesRange

  function GlucoseCard(fbs: real): (b: GlucoseBand)
    ensures b == NormalGlucose <==> fbs < 140.0
    ensures b == PrediabetesRisk <==> 140.0 <= fbs < 200.0
    ensures b == DiabetesRange <==> fbs >= 200.0
  {
    if fbs < 140.0 then NormalGlucose
    else if fbs < 200.0 then PrediabetesRisk
    else DiabetesRange
  }

  datatype BmiBand = Underweight | NormalWeight | Overweight | Obesity

  function BmiCard(bmi: real): (b: BmiBand)
    ensures b == Underweight <==> bmi < 18.0
    ensures b == NormalWeight <==> 18.0 <= bmi < 23.0
    ensures b == Overweight <==> 23.0 <= bmi < 25.0
    ensures b == Obesity <==> bmi >= 25.0
  {
    if bmi < 18.0 then Underweight
    else if bmi < 23.0 then NormalWeight
    else if bmi < 25.0 then Overweight
    else Obesity
  }

  datatype PressureBand = NormalPressure | PreHypertension | Hypertension

  /** Normal needs both readings low; past that only the systolic counts. */
  function PressureCard(systolic: real, diastolic: real): (b: PressureBand)
    ensures b == NormalPressure <==> systolic < 120.0 && diastolic < 80.0
    ensures b == Hypertension <==> systolic >= 140.0
  {
    if systolic < 120.0 && diastolic < 80.0 then NormalPressure
    else if systolic < 140.0 then PreHypertension
    else Hypertension
  }

  datatype PulseBand = NormalPulse | LowPulse | HighPulse

  function PulseCard(pulse: real): (b: PulseBand)
    ensures b == NormalPulse <==> 60.0 <= pulse <= 100.0
    ensures b == LowPulse <==> pulse < 60.0
    ensures b == HighPulse <==> pulse > 100.0
  {
    if 60.0 <= pulse <= 100.0 then NormalPulse
    else if pulse < 60.0 then LowPulse
    else HighPulse
  }

  function GlucoseRank(b: GlucoseBand): nat {
    match b
    case NormalGlucose => 0
    case PrediabetesRisk => 1
    case DiabetesRange => 2
  }

  function BmiRank(b: BmiBand): nat {
    match b
    case Underweight => 0
    case NormalWeight => 1
    case Overweight => 2
    case Obesity => 3
  }

  function PressureRank(b: PressureBand): nat {
    match b
    case NormalPressure => 0
    case PreHypertension => 1
    case Hypertension => 2
  }

  lemma GlucoseCardMonotone(a: real, b: real)
    requires a <= b
    ensures GlucoseRank(GlucoseCard(a)) <= GlucoseRank(GlucoseCard(b))
  {
  }

  lemma BmiCardMonotone(a: real, b: real)
    requires a <= b
    ensures BmiRank(BmiCard(a)) <= BmiRank(BmiCard(b))
  {
  }

  /** Raising either reading never lowers the blood-pressure band. */
  lemma PressureCardMonotone(s1: real, d1: real, s2: real, d2: real)
    requires s1 <= s2 && d1 <= d2
    ensures PressureRank(PressureCard(s1, d1)) <= PressureRank(PressureCard(s2, d2))
  {
  }

  /** Once the systolic reading is 120 or more the diastolic one is ignored,
      and a diastolic of 100 with a systolic of 110 shows as pre-hypertension. */
  lemma PressureCardDiastolicOnlyForNormal(s: real, d1: real, d2: real)
    requires s >= 120.0
    ensures PressureCard(s, d1) == PressureCard(s, d2)
    ensures PressureCard(110.0, 100.0) == PreHypertension
  {
  }

  /** The glucose card is looser than the glucose score: every reading the
      card flags already has the top score, and 130 mg/dL shows as normal
      while it scores 6. */
  lemma GlucoseCardLooserThanScore(fbs: real)
    ensures GlucoseCard(fbs) != NormalGlucose ==> Findrisc.FbsScore(Some(fbs)) == 6
    ensures GlucoseCard(130.0) == NormalGlucose && Findrisc.FbsScore(Some(130.0)) == 6
  {
  }

  /** The card's obesity band starts where the BMI score turns positive. */
  lemma BmiCardAgreesWithScore(bmi: real)
    ensures BmiCard(bmi) == Obesity <==> Findrisc.BmiScore(bmi) > 0
  {
  }
}
