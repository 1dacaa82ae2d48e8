/**
 * The form component DiabetesRiskCalculator (frontend/app/page.tsx): its
 * state cells, the records handleCalculate builds from the getters, and the
 * calculate / clear / recalculate / back transitions.
 */
module Calculator {
  import opened Wrappers
  import opened Inputs
  import opened Measurements
  import opened Risk
  import opened Findrisc
  import opened Records
  import opened Validation

  /** The state cells as the component starts: a state the controls can
      produce, with the fruit-and-vegetable toggle on "no". */
  function InitialForm(): (f: Form)
    ensures Reachable(f) && f.fruitVeg == No
  {
    Form(
      Empty, Calculate, Empty, Centimetres, Empty, Empty, Empty, Empty,
      Male, WaistInches, Empty, Empty,
      ActivityUnset, No, No, No, FamilyUnset,
      Empty, Empty, Empty, Empty)
  }

  /** The state cells after clearAllFields: as at the start, except that the
      fruit-and-vegetable toggle is set to "yes". */
  function ClearedForm(): (f: Form)
    ensures f == InitialForm().(fruitVeg := Yes)
    ensures Reachable(f)
  {
    Form(
      Empty, Calculate, Empty, Centimetres, Empty, Empty, Empty, Empty,
      Male, WaistInches, Empty, Empty,
      ActivityUnset, Yes, No, No, FamilyUnset,
      Empty, Empty, Empty, Empty)
  }

  /** The fruit/vegetable reset shows in the live total: a fresh form scores
      1 (the "no" default), a cleared one 0. */
  lemma ClearedFormDiffersFromInitial()
    ensures TotalScore(InitialForm()) == 1
    ensures TotalScore(ClearedForm()) == 0
  {
    EmptyFormScoresOnlyFruitVeg(InitialForm());
    EmptyFormScoresOnlyFruitVeg(ClearedForm());
  }

  /** With every input empty and the selects unset, only the fruit and
      vegetable toggle can score. */
  lemma EmptyFormScoresOnlyFruitVeg(f: Form)
    requires f.age == Empty && f.bmiInput.Calculate? && f.heightUnit.Centimetres?
    requires f.heightCm == Empty && f.weight == Empty && f.waistCm == Empty && f.waistInch == Empty
    requires f.physicalActivity.ActivityUnset? && f.bpMedication.No? && f.highBloodSugar.No?
    requires f.familyHistory.FamilyUnset? && f.fbs == Empty
    ensures TotalScore(f) == FruitVegScore(f.fruitVeg)
  {
    assert HeightInCm(f) == 0.0;
    assert EffectiveBmi(f) == 0.0;
    assert WaistInCm(f) == 0.0;
  }

  /** Neither a fresh nor a cleared form passes validation: age is required. */
  lemma EmptyFormsRejected()
    ensures Errors(InitialForm()) != [] && Errors(ClearedForm()) != []
  {
    ErrorsExactly(InitialForm(), AgeRequired);
    ErrorsExactly(ClearedForm(), AgeRequired);
  }

  /** In centimetre mode an accepted form has a positive height and weight
      whenever both parse, so its BMI is the rounded quotient, never the 0
      fallback. */
  lemma AcceptedCmFormHasQuetelet(f: Form)
    requires Errors(f) == [] && f.bmiInput.Calculate? && f.heightUnit.Centimetres?
    requires f.heightCm.asFloat.Some? && f.weight.asFloat.Some?
    ensures HeightInCm(f) > 0.0 && PositiveWeight(f)
    ensures var q := Quetelet(HeightInCm(f), f.weight.asFloat.value);
      q - 0.05 < CalculatedBmi(f) <= q + 0.05
  {
    ErrorsEmptyIffAcceptable(f);
  }

  /** Feet-and-inches mode only asks for two non-empty fields: 0 ft 0 in is
      accepted, and the BMI then falls back to 0. */
  lemma FeetModeAcceptsZeroHeight(f: Form)
    requires Errors(f) == [] && f.bmiInput.Calculate? && f.heightUnit.FeetInches?
    requires f.heightFeet == Entry("0", Some(0), Some(0.0))
    requires f.heightInches == Entry("0", Some(0), Some(0.0))
    ensures HeightInCm(f) == 0.0 && CalculatedBmi(f) == 0.0 && EffectiveBmi(f) == 0.0
  {
  }

  /** Such a form passes every rule: FeetModeAcceptsZeroHeight is not vacuous. */
  lemma ZeroHeightFormExists()
    ensures exists f: Form :: (Errors(f) == [] && f.bmiInput.Calculate? && f.heightUnit.FeetInches?
      && f.heightFeet == Entry("0", Some(0), Some(0.0)) && f.heightInches == Entry("0", Some(0), Some(0.0)))
  {
    var zero := Entry("0", Some(0), Some(0.0));
    var one := Entry("1", Some(1), Some(1.0));
    var f := Form(
      Entry("40", Some(40), Some(40.0)), Calculate, Empty, FeetInches, Empty, zero, zero,
      Entry("70", Some(70), Some(70.0)), Male, WaistCentimetres, Entry("90", Some(90), Some(90.0)), Empty,
      Mild, Yes, No, No, NoHistory, Entry("95", Some(95), Some(95.0)), one, one, one);
    assert !IsSpace(f.age.text[0]) && !IsSpace(f.weight.text[0]) && !IsSpace(f.waistCm.text[0]);
    ErrorsEmptyIffAcceptable(f);
    assert Errors(f) == [];
  }

  /** `parseInt(age) || 0`: NaN becomes 0, which the age table scores as it
      scores NaN. */
  function AgeValue(f: Form): (n: int)
    ensures f.age.asInt.Some? ==> n == f.age.asInt.value
    ensures f.age.asInt.None? ==> n == 0
    ensures AgeScore(Some(n)) == AgeScore(f.age.asInt)
  {
    match f.age.asInt
    case None => 0
    case Some(n) => n
  }

  /** The results record handleCalculate stores for the results view. */
  function BuildResults(f: Form): (r: Results)
    ensures r.breakdown == Scores(f) && r.totalScore == TotalScore(f)
    ensures r.totalScore == Sum(r.breakdown) && 0 <= r.totalScore <= MaxTotal
    ensures r.risk == RiskCategory(TotalScore(f))
    ensures r.formData.age == AgeValue(f) && r.formData.bmi == EffectiveBmi(f)
    ensures r.formData.waist == WaistInCm(f) && r.formData.gender == f.gender
    ensures r.formData.physicalActivity == f.physicalActivity
    ensures r.formData.familyHistory == f.familyHistory
    ensures r.formData.fbs == OrZero(f.fbs.asFloat) && r.formData.systolic == OrZero(f.systolic.asFloat)
    ensures r.formData.diastolic == OrZero(f.diastolic.asFloat) && r.formData.pulse == OrZero(f.pulse.asFloat)
  {
    var total := TotalScore(f);
    Results(
      total,
      Scores(f),
      RiskCategory(total),
      ResultForm(
        AgeValue(f), EffectiveBmi(f), WaistInCm(f), f.gender,
        f.physicalActivity, f.familyHistory,
        OrZero(f.fbs.asFloat), OrZero(f.systolic.asFloat),
        OrZero(f.diastolic.asFloat), OrZero(f.pulse.asFloat)))
  }

  /** The body posted to the backend. */
  function BuildPayload(f: Form): (p: Payload)
    ensures p.totalScore == TotalScore(f) && 0 <= p.totalScore <= MaxTotal
    ensures p.riskCategory == Label(RiskCategory(TotalScore(f)))
    ensures p.age == AgeValue(f) && p.heightCm == HeightInCm(f)
    ensures p.weightKg == OrZero(f.weight.asFloat) && p.bmi == EffectiveBmi(f)
    ensures p.waistCm == WaistInCm(f) && p.sexAssignedAtBirth == GenderText(f.gender)
    ensures p.physicalActivity == ActivityText(f.physicalActivity)
    ensures p.familyHistory == FamilyText(f.familyHistory)
    ensures p.dailyFruitVeg <==> f.fruitVeg == Yes
    ensures p.bpMedication <==> f.bpMedication == Yes
    ensures p.highBloodSugarHistory <==> f.highBloodSugar == Yes
    ensures p.fbs == OrZero(f.fbs.asFloat) && p.systolic == OrZero(f.systolic.asFloat)
    ensures p.diastolic == OrZero(f.diastolic.asFloat) && p.pulse == OrZero(f.pulse.asFloat)
  {
    Payload(
      AgeValue(f),
      HeightInCm(f),
      OrZero(f.weight.asFloat),
      EffectiveBmi(f),
      WaistInCm(f),
      GenderText(f.gender),
      ActivityText(f.physicalActivity),
      f.fruitVeg == Yes,
      f.bpMedication == Yes,
      f.highBloodSugar == Yes,
      FamilyText(f.familyHistory),
      OrZero(f.fbs.asFloat),
      OrZero(f.systolic.asFloat),
      OrZero(f.diastolic.asFloat),
      OrZero(f.pulse.asFloat),
      TotalScore(f),
      Label(RiskCategory(TotalScore(f))))
  }

  /** What is stored and what is sent describe the same evaluation. */
  lemma PayloadAgreesWithResults(f: Form)
    ensures var r, p := BuildResults(f), BuildPayload(f);
      && p.totalScore == r.totalScore
      && p.riskCategory == Label(r.risk)
      && p.age == r.formData.age && p.bmi == r.formData.bmi && p.waistCm == r.formData.waist
      && p.fbs == r.formData.fbs && p.systolic == r.formData.systolic
      && p.diastolic == r.formData.diastolic && p.pulse == r.formData.pulse
      && p.sexAssignedAtBirth == GenderText(r.formData.gender)
      && p.physicalActivity == ActivityText(r.formData.physicalActivity)
      && p.familyHistory == FamilyText(r.formData.familyHistory)
  {
  }

  /* validateForm, one section at a time: each method pushes that section's
     messages onto `errors` with the source's if-chains. */

  method CheckAge(f: Form, errors: seq<Violation>) returns (pushed: seq<Violation>)
    ensures pushed == AgeChecks(f, errors)
  {
    pushed := errors;
    if Blank(f.age) { pushed := pushed + [AgeRequired]; }
    else if f.age.asInt.Some? && f.age.asInt.value <= 0 { pushed := pushed + [AgeNotPositive]; }
    else if f.age.asInt.Some? && f.age.asInt.value > 120 { pushed := pushed + [AgeTooLarge]; }
  }

  method CheckBody(f: Form, errors: seq<Violation>) returns (pushed: seq<Violation>)
    ensures pushed == BodyChecks(f, errors)
  {
    pushed := errors;
    if f.bmiInput == Direct {
      if Blank(f.bmi) { pushed := pushed + [BmiRequired]; }
      else if f.bmi.asFloat.Some? && f.bmi.asFloat.value <= 0.0 { pushed := pushed + [BmiNotPositive]; }
    } else {
      if f.heightUnit == Centimetres {
        if Blank(f.heightCm) { pushed := pushed + [HeightCmRequired]; }
        else if f.heightCm.asFloat.Some? && f.heightCm.asFloat.value <= 0.0 {
          pushed := pushed + [HeightNotPositive];
        }
      } else {
        if f.heightFeet.text == "" { pushed := pushed + [HeightFeetRequired]; }
        if f.heightInches.text == "" { pushed := pushed + [HeightInchesRequired]; }
      }
      assert pushed == HeightChecks(f, errors);
      if Blank(f.weight) { pushed := pushed + [WeightRequired]; }
      else if f.weight.asFloat.Some? && f.weight.asFloat.value <= 0.0 {
        pushed := pushed + [WeightNotPositive];
      }
    }
  }

  method CheckWaist(f: Form, errors: seq<Violation>) returns (pushed: seq<Violation>)
    ensures pushed == WaistChecks(f, errors)
  {
    pushed := errors;
    if f.waistUnit == WaistCentimetres {
      if Blank(f.waistCm) { pushed := pushed + [WaistRequired]; }
      else if f.waistCm.asFloat.Some? && f.waistCm.asFloat.value <= 0.0 {
        pushed := pushed + [WaistNotPositive];
      }
    } else {
      if Blank(f.waistInch) { pushed := pushed + [WaistRequired]; }
      else if f.waistInch.asFloat.Some? && f.waistInch.asFloat.value <= 0.0 {
        pushed := pushed + [WaistNotPositive];
      }
    }
  }

  method CheckSelects(f: Form, errors: seq<Violation>) returns (pushed: seq<Violation>)
    ensures pushed == SelectChecks(f, errors)
  {
    pushed := errors;
    if f.physicalActivity == ActivityUnset { pushed := pushed + [ActivityNotSelected]; }
    if f.familyHistory == FamilyUnset { pushed := pushed + [FamilyNotSelected]; }
  }

  method CheckFbs(f: Form, errors: seq<Violation>) returns (pushed: seq<Violation>)
    ensures pushed == FbsChecks(f, errors)
  {
    pushed := errors;
    if f.fbs.text == "" { pushed := pushed + [FbsRequired]; }
    else if f.fbs.asFloat.Some? && f.fbs.asFloat.value < 0.0 { pushed := pushed + [FbsNegative]; }
  }

  method CheckVitals(f: Form, errors: seq<Violation>) returns (pushed: seq<Violation>)
    ensures pushed == VitalsChecks(f, errors)
  {
    pushed := errors;
    if f.systolic.text == "" { pushed := pushed + [SystolicRequired]; }
    if f.diastolic.text == "" { pushed := pushed + [DiastolicRequired]; }
    if f.pulse.text == "" { pushed := pushed + [PulseRequired]; }
  }

  /** The component's state: the form's input cells as one record (React
      applies the setters called by one handler together, at the next
      render), the view flags, the session slot the results are written to
      and the payloads posted so far. */
  class RiskCalculator {
    var form: Form
    var showResults: bool
    var validationErrors: seq<Violation>
    var showErrorModal: bool

    /** The "diabetesResults" session-storage slot. */
    var stored: Option<Results>
    /** Every payload posted to `/api/save/`, oldest first. */
    var sent: seq<Payload>

    /** The live total the form shows while it is being filled in. */
    function Total(): (t: int)
      reads this
      ensures 0 <= t <= MaxTotal
    {
      TotalScore(form)
    }

    /** While the results view is on, the session slot holds results, so the
        render that reads them back never falls back to the form. */
    predicate ResultsAvailable()
      reads this
    {
      showResults ==> stored.Some?
    }

    constructor ()
      ensures form == InitialForm()
      ensures !showResults && validationErrors == [] && !showErrorModal
      ensures stored == None && sent == []
      ensures ResultsAvailable()
    {
      form := InitialForm();
      showResults, validationErrors, showErrorModal := false, [], false;
      stored, sent := None, [];
    }

    /** validateForm: checks every rule in turn and collects the broken ones. */
    method ValidateForm() returns (errors: seq<Violation>)
      ensures errors == Errors(form)
      ensures forall v :: v in errors <==> Violated(form, v)
    {
      var f := form;
      errors := [];
      errors := CheckAge(f, errors);
      errors := CheckBody(f, errors);
      errors := CheckWaist(f, errors);
      errors := CheckSelects(f, errors);
      errors := CheckFbs(f, errors);
      errors := CheckVitals(f, errors);
      forall v ensures v in errors <==> Violated(f, v) {
        ErrorsExactly(f, v);
      }
    }

    /** clearAllFields: empties every text input and resets the selects and
        toggles; the views and what was stored or sent stay as they were. */
    method ClearAllFields()
      modifies this
      ensures form == ClearedForm()
      ensures showResults == old(showResults) && validationErrors == old(validationErrors)
      ensures showErrorModal == old(showErrorModal)
      ensures stored == old(stored) && sent == old(sent)
      ensures old(ResultsAvailable()) ==> ResultsAvailable()
    {
      form := form.(
        age := Empty, bmi := Empty, heightCm := Empty, heightFeet := Empty,
        heightInches := Empty, weight := Empty, waistCm := Empty, waistInch := Empty,
        fbs := Empty, bmiInput := Calculate, heightUnit := Centimetres,
        waistUnit := WaistInches, gender := Male, physicalActivity := ActivityUnset,
        fruitVeg := Yes, bpMedication := No, highBloodSugar := No,
        familyHistory := FamilyUnset, systolic := Empty, diastolic := Empty, pulse := Empty);
    }

    /** handleCalculate: on a broken rule, shows the errors and stores and
        sends nothing; otherwise stores the results, posts the payload and
        switches to the results view.  The form itself is left as it was. */
    method HandleCalculate()
      modifies this
      ensures form == old(form)
      ensures var f := old(form);
        if Errors(f) != [] then
          && validationErrors == Errors(f) && showErrorModal
          && showResults == old(showResults)
          && stored == old(stored) && sent == old(sent)
        else
          && validationErrors == old(validationErrors) && showErrorModal == old(showErrorModal)
          && showResults
          && stored == Some(BuildResults(f))
          && sent == old(sent) + [BuildPayload(f)]
      ensures old(ResultsAvailable()) ==> ResultsAvailable()
    {
      var errors := ValidateForm();
      if |errors| > 0 {
        validationErrors := errors;
        showErrorModal := true;
        return;
      }
      var f := form;
      stored := Some(BuildResults(f));
      sent := sent + [BuildPayload(f)];
      showResults := true;
    }

    /** handleRecalculate: clears the form and returns to it. */
    method HandleRecalculate()
      modifies this
      ensures form == ClearedForm() && !showResults
      ensures validationErrors == old(validationErrors) && showErrorModal == old(showErrorModal)
      ensures stored == old(stored) && sent == old(sent)
      ensures ResultsAvailable()
    {
      ClearAllFields();
      showResults := false;
    }

    /** handleBack: returns to the form, which keeps its contents. */
    method HandleBack()
      modifies this
      ensures form == old(form) && !showResults
      ensures validationErrors == old(validationErrors) && showErrorModal == old(showErrorModal)
      ensures stored == old(stored) && sent == old(sent)
      ensures ResultsAvailable()
    {
      showResults := false;
    }
  }
}
