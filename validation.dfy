/**
 * validateForm (frontend/app/page.tsx): every rule is checked, none stops
 * the others, and the broken ones are reported in the order of the form.
 */
module Validation {
  import opened Wrappers
  import opened Inputs
  import opened Texts

  /** One message of the error list; Message gives its text. */
  datatype Violation =
    | AgeRequired | AgeNotPositive | AgeTooLarge
    | BmiRequired | BmiNotPositive
    | HeightCmRequired | HeightNotPositive | HeightFeetRequired | HeightInchesRequired
    | WeightRequired | WeightNotPositive
    | WaistRequired | WaistNotPositive
    | ActivityNotSelected | FamilyNotSelected
    | FbsRequired | FbsNegative
    | SystolicRequired | DiastolicRequired | PulseRequired

  function Message(v: Violation): string {
    match v
    case AgeRequired => "Age is required"
    case AgeNotPositive => "Age must be greater than 0"
    case AgeTooLarge => "Age cannot be greater than 120"
    case BmiRequired => "BMI is required"
    case BmiNotPositive => "BMI must be greater than 0"
    case HeightCmRequired => "Height in cm is required"
    case HeightNotPositive => "Height must be greater than 0"
    case HeightFeetRequired => "Height in feet is required"
    case HeightInchesRequired => "Height in inches is required"
    case WeightRequired => "Weight is required"
    case WeightNotPositive => "Weight must be greater than 0"
    case WaistRequired => "Waist circumference is required"
    case WaistNotPositive => "Waist must be greater than 0"
    case ActivityNotSelected => "Please select your Physical Activity"
    case FamilyNotSelected => "Please select your family history"
    case FbsRequired => "Fasting Blood Sugar is required"
    case FbsNegative => "FBS cannot be negative"
    case SystolicRequired => "Systolic BP is required"
    case DiastolicRequired => "Diastolic BP is required"
    case PulseRequired => "Pulse Rate is required"
  }

  /** The violation with a given signature, if any.  Each code is
      Signature(Message(v)), the message's length times 256 plus the code of
      its first letter: "Age is required" has 15 characters and starts with
      'A' (65), so 15 * 256 + 65 = 3905.  MessageReadsBack checks every code
      against its text. */
  function ViolationOf(code: int): Option<Violation> {
    if code == 3905 then Some(AgeRequired)
    else if code == 6721 then Some(AgeNotPositive)
    else if code == 7745 then Some(AgeTooLarge)
    else if code == 3906 then Some(BmiRequired)
    else if code == 6722 then Some(BmiNotPositive)
    else if code == 6216 then Some(HeightCmRequired)
    else if code == 7496 then Some(HeightNotPositive)
    else if code == 6728 then Some(HeightFeetRequired)
    else if code == 7240 then Some(HeightInchesRequired)
    else if code == 4695 then Some(WeightRequired)
    else if code == 7511 then Some(WeightNotPositive)
    else if code == 8023 then Some(WaistRequired)
    else if code == 7255 then Some(WaistNotPositive)
    else if code == 9296 then Some(ActivityNotSelected)
    else if code == 8528 then Some(FamilyNotSelected)
    else if code == 8006 then Some(FbsRequired)
    else if code == 5702 then Some(FbsNegative)
    else if code == 5971 then Some(SystolicRequired)
    else if code == 6212 then Some(DiastolicRequired)
    else if code == 5712 then Some(PulseRequired)
    else None
  }

  /** A message's length and first letter already tell which violation it
      reports. */
  lemma MessageReadsBack(v: Violation)
    ensures ViolationOf(Signature(Message(v))) == Some(v)
  {
    match v
    case _ =>
  }

  /** Each violation has its own text, so the modal's lines identify the
      broken rules. */
  lemma MessageInjective(v: Violation, w: Violation)
    requires Message(v) == Message(w)
    ensures v == w
  {
    MessageReadsBack(v);
    MessageReadsBack(w);
  }

  /** The position of each check in validateForm. */
  function Rank(v: Violation): nat {
    match v
    case AgeRequired => 0
    case AgeNotPositive => 1
    case AgeTooLarge => 2
    case BmiRequired => 3
    case BmiNotPositive => 4
    case HeightCmRequired => 5
    case HeightNotPositive => 6
    case HeightFeetRequired => 7
    case HeightInchesRequired => 8
    case WeightRequired => 9
    case WeightNotPositive => 10
    case WaistRequired => 11
    case WaistNotPositive => 12
    case ActivityNotSelected => 13
    case FamilyNotSelected => 14
    case FbsRequired => 15
    case FbsNegative => 16
    case SystolicRequired => 17
    case DiastolicRequired => 18
    case PulseRequired => 19
  }

  /** `parseInt(s) <= 0` and `parseFloat(s) <= 0` (NaN compares false). */
  predicate IntAtMostZero(e: Entry) {
    e.asInt.Some? && e.asInt.value <= 0
  }

  predicate AtMostZero(e: Entry) {
    e.asFloat.Some? && e.asFloat.value <= 0.0
  }

  /** The waist input of the selected unit. */
  function WaistEntry(f: Form): Entry {
    if f.waistUnit.WaistCentimetres? then f.waistCm else f.waistInch
  }

  /** Whether form `f` breaks the rule behind `v`, rule by rule. */
  predicate Violated(f: Form, v: Violation) {
    var direct := f.bmiInput.Direct?;
    var cm := f.heightUnit.Centimetres?;
    match v
    case AgeRequired => Blank(f.age)
    case AgeNotPositive => !Blank(f.age) && IntAtMostZero(f.age)
    case AgeTooLarge => !Blank(f.age) && f.age.asInt.Some? && f.age.asInt.value > 120
    case BmiRequired => direct && Blank(f.bmi)
    case BmiNotPositive => direct && !Blank(f.bmi) && AtMostZero(f.bmi)
    case HeightCmRequired => !direct && cm && Blank(f.heightCm)
    case HeightNotPositive => !direct && cm && !Blank(f.heightCm) && AtMostZero(f.heightCm)
    case HeightFeetRequired => !direct && !cm && f.heightFeet.text == ""
    case HeightInchesRequired => !direct && !cm && f.heightInches.text == ""
    case WeightRequired => !direct && Blank(f.weight)
    case WeightNotPositive => !direct && !Blank(f.weight) && AtMostZero(f.weight)
    case WaistRequired => Blank(WaistEntry(f))
    case WaistNotPositive => !Blank(WaistEntry(f)) && AtMostZero(WaistEntry(f))
    case ActivityNotSelected => f.physicalActivity.ActivityUnset?
    case FamilyNotSelected => f.familyHistory.FamilyUnset?
    case FbsRequired => f.fbs.text == ""
    case FbsNegative => f.fbs.text != "" && f.fbs.asFloat.Some? && f.fbs.asFloat.value < 0.0
    case SystolicRequired => f.systolic.text == ""
    case DiastolicRequired => f.diastolic.text == ""
    case PulseRequired => f.pulse.text == ""
  }

  /** validateForm pushes onto one list, section by section; each function
      below is the list after one section's checks, given the list before. */
  function AgeChecks(f: Form, errors: seq<Violation>): (pushed: seq<Violation>)
    ensures errors <= pushed && |pushed| <= |errors| + 1
  {
    if Blank(f.age) then errors + [AgeRequired]
    else if IntAtMostZero(f.age) then errors + [AgeNotPositive]
    else if f.age.asInt.Some? && f.age.asInt.value > 120 then errors + [AgeTooLarge]
    else errors
  }

  function BmiChecks(f: Form, errors: seq<Violation>): (pushed: seq<Violation>)
    ensures errors <= pushed && |pushed| <= |errors| + 1
  {
    if Blank(f.bmi) then errors + [BmiRequired]
    else if AtMostZero(f.bmi) then errors + [BmiNotPositive]
    else errors
  }

  function HeightChecks(f: Form, errors: seq<Violation>): (pushed: seq<Violation>)
    ensures errors <= pushed && |pushed| <= |errors| + 2
  {
    if f.heightUnit.Centimetres? then
      if Blank(f.heightCm) then errors + [HeightCmRequired]
      else if AtMostZero(f.heightCm) then errors + [HeightNotPositive]
      else errors
    else
      var feet := if f.heightFeet.text == "" then errors + [HeightFeetRequired] else errors;
      if f.heightInches.text == "" then feet + [HeightInchesRequired] else feet
  }

  function WeightChecks(f: Form, errors: seq<Violation>): (pushed: seq<Violation>)
    ensures errors <= pushed && |pushed| <= |errors| + 1
  {
    if Blank(f.weight) then errors + [WeightRequired]
    else if AtMostZero(f.weight) then errors + [WeightNotPositive]
    else errors
  }

  /** The typed BMI, or the height and the weight it is calculated from. */
  function BodyChecks(f: Form, errors: seq<Violation>): (pushed: seq<Violation>)
    ensures errors <= pushed && |pushed| <= |errors| + 3
  {
    if f.bmiInput.Direct? then BmiChecks(f, errors)
    else WeightChecks(f, HeightChecks(f, errors))
  }

  function WaistChecks(f: Form, errors: seq<Violation>): (pushed: seq<Violation>)
    ensures errors <= pushed && |pushed| <= |errors| + 1
  {
    var w := WaistEntry(f);
    if Blank(w) then errors + [WaistRequired]
    else if AtMostZero(w) then errors + [WaistNotPositive]
    else errors
  }

  function SelectChecks(f: Form, errors: seq<Violation>): (pushed: seq<Violation>)
    ensures errors <= pushed && |pushed| <= |errors| + 2
  {
    var activity := if f.physicalActivity.ActivityUnset? then errors + [ActivityNotSelected] else errors;
    if f.familyHistory.FamilyUnset? then activity + [FamilyNotSelected] else activity
  }

  function FbsChecks(f: Form, errors: seq<Violation>): (pushed: seq<Violation>)
    ensures errors <= pushed && |pushed| <= |errors| + 1
  {
    if f.fbs.text == "" then errors + [FbsRequired]
    else if f.fbs.asFloat.Some? && f.fbs.asFloat.value < 0.0 then errors + [FbsNegative]
    else errors
  }

  function VitalsChecks(f: Form, errors: seq<Violation>): (pushed: seq<Violation>)
    ensures errors <= pushed && |pushed| <= |errors| + 3
  {
    var systolic := if f.systolic.text == "" then errors + [SystolicRequired] else errors;
    var diastolic := if f.diastolic.text == "" then systolic + [DiastolicRequired] else systolic;
    if f.pulse.text == "" then diastolic + [PulseRequired] else diastolic
  }

  /** The list validateForm returns: at most one message per if-chain. */
  function Errors(f: Form): (errors: seq<Violation>)
    ensures |errors| <= 11
  {
    VitalsChecks(f, FbsChecks(f, SelectChecks(f, WaistChecks(f, BodyChecks(f, AgeChecks(f, []))))))
  }

  /** Ranks strictly increase along `s`, all below `hi`. */
  predicate RankedBelow(s: seq<Violation>, hi: nat) {
    && (forall i :: 0 <= i < |s| ==> Rank(s[i]) < hi)
    && (forall i, j :: 0 <= i < j < |s| ==> Rank(s[i]) < Rank(s[j]))
  }

  lemma RankedPush(s: seq<Violation>, v: Violation, lo: nat)
    requires RankedBelow(s, lo) && lo <= Rank(v)
    ensures RankedBelow(s + [v], Rank(v) + 1)
  {
    var t := s + [v];
    forall i, j | 0 <= i < j < |t|
      ensures Rank(t[i]) < Rank(t[j])
    {
      assert t[i] == s[i];
    }
  }

  /* Each section pushes only its own messages, in form order, and pushes
     nothing exactly when its inputs are acceptable. */

  lemma AgeSection(f: Form, errors: seq<Violation>)
    requires RankedBelow(errors, 0)
    ensures RankedBelow(AgeChecks(f, errors), 3)
    ensures |AgeChecks(f, errors)| <= |errors| + 1
    ensures AgeChecks(f, errors) == errors <==> AgeOk(f)
  {
    if AgeChecks(f, errors) != errors {
      var v := AgeChecks(f, errors)[|errors|];
      RankedPush(errors, v, 0);
    }
  }

  lemma BodySection(f: Form, errors: seq<Violation>)
    requires RankedBelow(errors, 3)
    ensures RankedBelow(BodyChecks(f, errors), 11)
    ensures BodyChecks(f, errors) == errors <==> BodyOk(f)
  {
    if f.bmiInput.Direct? {
      if BmiChecks(f, errors) != errors {
        RankedPush(errors, BmiChecks(f, errors)[|errors|], 3);
      }
    } else {
      HeightSection(f, errors);
      WeightSection(f, HeightChecks(f, errors));
    }
  }

  lemma HeightSection(f: Form, errors: seq<Violation>)
    requires RankedBelow(errors, 3)
    ensures RankedBelow(HeightChecks(f, errors), 9)
    ensures |HeightChecks(f, errors)| >= |errors|
    ensures HeightChecks(f, errors) == errors <==>
      if f.heightUnit.Centimetres? then !Blank(f.heightCm) && !AtMostZero(f.heightCm)
      else f.heightFeet.text != "" && f.heightInches.text != ""
  {
    if f.heightUnit.Centimetres? {
      var h := HeightChecks(f, errors);
      if h != errors {
        RankedPush(errors, h[|errors|], 3);
      }
    } else {
      var feet := if f.heightFeet.text == "" then errors + [HeightFeetRequired] else errors;
      if f.heightFeet.text == "" {
        RankedPush(errors, HeightFeetRequired, 3);
      }
      if f.heightInches.text == "" {
        RankedPush(feet, HeightInchesRequired, if feet == errors then 3 else 8);
      }
    }
  }

  lemma WeightSection(f: Form, errors: seq<Violation>)
    requires RankedBelow(errors, 9)
    ensures RankedBelow(WeightChecks(f, errors), 11)
    ensures WeightChecks(f, errors) == errors <==> !Blank(f.weight) && !AtMostZero(f.weight)
  {
    if WeightChecks(f, errors) != errors {
      RankedPush(errors, WeightChecks(f, errors)[|errors|], 9);
    }
  }

  lemma WaistSection(f: Form, errors: seq<Violation>)
    requires RankedBelow(errors, 11)
    ensures RankedBelow(WaistChecks(f, errors), 13)
    ensures WaistChecks(f, errors) == errors <==> WaistOk(f)
  {
    if WaistChecks(f, errors) != errors {
      RankedPush(errors, WaistChecks(f, errors)[|errors|], 11);
    }
  }

  lemma SelectSection(f: Form, errors: seq<Violation>)
    requires RankedBelow(errors, 13)
    ensures RankedBelow(SelectChecks(f, errors), 15)
    ensures SelectChecks(f, errors) == errors <==> SelectsOk(f)
  {
    var activity := if f.physicalActivity.ActivityUnset? then errors + [ActivityNotSelected] else errors;
    if f.physicalActivity.ActivityUnset? {
      RankedPush(errors, ActivityNotSelected, 13);
    }
    if f.familyHistory.FamilyUnset? {
      RankedPush(activity, FamilyNotSelected, if activity == errors then 13 else 14);
    }
  }

  lemma FbsSection(f: Form, errors: seq<Violation>)
    requires RankedBelow(errors, 15)
    ensures RankedBelow(FbsChecks(f, errors), 17)
    ensures FbsChecks(f, errors) == errors <==> FbsOk(f)
  {
    if FbsChecks(f, errors) != errors {
      RankedPush(errors, FbsChecks(f, errors)[|errors|], 15);
    }
  }

  lemma VitalsSection(f: Form, errors: seq<Violation>)
    requires RankedBelow(errors, 17)
    ensures RankedBelow(VitalsChecks(f, errors), 20)
    ensures VitalsChecks(f, errors) == errors <==> VitalsOk(f)
  {
    var systolic := if f.systolic.text == "" then errors + [SystolicRequired] else errors;
    var diastolic := if f.diastolic.text == "" then systolic + [DiastolicRequired] else systolic;
    if f.systolic.text == "" {
      RankedPush(errors, SystolicRequired, 17);
    }
    if f.diastolic.text == "" {
      RankedPush(systolic, DiastolicRequired, if systolic == errors then 17 else 18);
    }
    if f.pulse.text == "" {
      RankedPush(diastolic, PulseRequired, if diastolic == systolic then
        (if systolic == errors then 17 else 18) else 19);
    }
  }

  /* What each section adds: exactly the broken rules of its own range. */

  lemma AgeAdds(f: Form, errors: seq<Violation>, v: Violation)
    ensures v in AgeChecks(f, errors) <==> v in errors || (0 <= Rank(v) < 3 && Violated(f, v))
  {
    match v
    case _ =>
  }

  lemma BodyAdds(f: Form, errors: seq<Violation>, v: Violation)
    ensures v in BodyChecks(f, errors) <==> v in errors || (3 <= Rank(v) < 11 && Violated(f, v))
  {
    if f.bmiInput.Calculate? {
      HeightAdds(f, errors, v);
      WeightAdds(f, HeightChecks(f, errors), v);
    } else {
      match v
      case _ =>
    }
  }

  lemma HeightAdds(f: Form, errors: seq<Violation>, v: Violation)
    requires f.bmiInput.Calculate?
    ensures v in HeightChecks(f, errors) <==> v in errors || (3 <= Rank(v) < 9 && Violated(f, v))
  {
    match v
    case _ =>
  }

  lemma WeightAdds(f: Form, errors: seq<Violation>, v: Violation)
    requires f.bmiInput.Calculate?
    ensures v in WeightChecks(f, errors) <==> v in errors || (9 <= Rank(v) < 11 && Violated(f, v))
  {
    match v
    case _ =>
  }

  lemma WaistAdds(f: Form, errors: seq<Violation>, v: Violation)
    ensures v in WaistChecks(f, errors) <==> v in errors || (11 <= Rank(v) < 13 && Violated(f, v))
  {
    match v
    case _ =>
  }

  lemma SelectAdds(f: Form, errors: seq<Violation>, v: Violation)
    ensures v in SelectChecks(f, errors) <==> v in errors || (13 <= Rank(v) < 15 && Violated(f, v))
  {
    match v
    case _ =>
  }

  lemma FbsAdds(f: Form, errors: seq<Violation>, v: Violation)
    ensures v in FbsChecks(f, errors) <==> v in errors || (15 <= Rank(v) < 17 && Violated(f, v))
  {
    match v
    case _ =>
  }

  lemma VitalsAdds(f: Form, errors: seq<Violation>, v: Violation)
    ensures v in VitalsChecks(f, errors) <==> v in errors || (17 <= Rank(v) < 20 && Violated(f, v))
  {
    match v
    case _ =>
  }

  /** Every broken rule is reported, and nothing else: no check stops the
      others. */
  lemma ErrorsExactly(f: Form, v: Violation)
    ensures v in Errors(f) <==> Violated(f, v)
  {
    var a := AgeChecks(f, []);
    var b := BodyChecks(f, a);
    var w := WaistChecks(f, b);
    var s := SelectChecks(f, w);
    var g := FbsChecks(f, s);
    AgeAdds(f, [], v);
    BodyAdds(f, a, v);
    WaistAdds(f, b, v);
    SelectAdds(f, w, v);
    FbsAdds(f, s, v);
    VitalsAdds(f, g, v);
  }

  /** The messages come in the order of the form, so none is repeated. */
  lemma ErrorsInFormOrder(f: Form)
    ensures forall i, j :: 0 <= i < j < |Errors(f)| ==> Rank(Errors(f)[i]) < Rank(Errors(f)[j])
  {
    var a := AgeChecks(f, []);
    var b := BodyChecks(f, a);
    var w := WaistChecks(f, b);
    var s := SelectChecks(f, w);
    var g := FbsChecks(f, s);
    AgeSection(f, []);
    BodySection(f, a);
    WaistSection(f, b);
    SelectSection(f, w);
    FbsSection(f, s);
    VitalsSection(f, g);
  }

  /** Every required input present and, where it parses, in range. */
  predicate Acceptable(f: Form) {
    AgeOk(f) && BodyOk(f) && WaistOk(f) && SelectsOk(f) && FbsOk(f) && VitalsOk(f)
  }

  predicate AgeOk(f: Form) {
    !Blank(f.age) && (f.age.asInt.None? || 1 <= f.age.asInt.value <= 120)
  }

  /** A positive typed BMI, or a positive height and weight. */
  predicate BodyOk(f: Form) {
    if f.bmiInput.Direct? then
      !Blank(f.bmi) && !AtMostZero(f.bmi)
    else
      && (if f.heightUnit.Centimetres? then !Blank(f.heightCm) && !AtMostZero(f.heightCm)
          else f.heightFeet.text != "" && f.heightInches.text != "")
      && !Blank(f.weight) && !AtMostZero(f.weight)
  }

  predicate WaistOk(f: Form) {
    !Blank(WaistEntry(f)) && !AtMostZero(WaistEntry(f))
  }

  predicate SelectsOk(f: Form) {
    !f.physicalActivity.ActivityUnset? && !f.familyHistory.FamilyUnset?
  }

  predicate FbsOk(f: Form) {
    f.fbs.text != "" && (f.fbs.asFloat.None? || f.fbs.asFloat.value >= 0.0)
  }

  predicate VitalsOk(f: Form) {
    f.systolic.text != "" && f.diastolic.text != "" && f.pulse.text != ""
  }

  /** The error list is empty exactly when the form is acceptable. */
  lemma ErrorsEmptyIffAcceptable(f: Form)
    ensures Errors(f) == [] <==> Acceptable(f)
  {
    var a := AgeChecks(f, []);
    var b := BodyChecks(f, a);
    var w := WaistChecks(f, b);
    var s := SelectChecks(f, w);
    var g := FbsChecks(f, s);
    AgeSection(f, []);
    BodySection(f, a);
    WaistSection(f, b);
    SelectSection(f, w);
    FbsSection(f, s);
    VitalsSection(f, g);
    // a section never removes a message, so a non-empty list stays non-empty
    assert |a| <= |b| <= |w| <= |s| <= |g| <= |Errors(f)|;
  }
}
