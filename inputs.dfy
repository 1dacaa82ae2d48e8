/**
 * The raw state of the risk-assessment form (frontend/app/page.tsx): every
 * text input keeps the string the user typed, every select or toggle keeps
 * the string value it was set to.  `Form` is one snapshot of all of them.
 */
module Inputs {
  import opened Wrappers

  /** One text input: the typed string together with what `parseInt` and
      `parseFloat` make of it.  None stands for NaN; the parsers themselves
      are not modelled. */
  datatype Entry = Entry(text: string, asInt: Option<int>, asFloat: Option<real>)

  /** A cleared text input. */
  const Empty: Entry := Entry("", None, None)

  /** The characters JavaScript's `String.prototype.trim` removes
      (WhiteSpace and LineTerminator of ECMA-262). */
  predicate IsSpace(c: char) {
    || c == ' ' || c == '\t' || c == '\n' || c == '\r'
    || c == '\U{000B}' || c == '\U{000C}' || c == '\U{00A0}' || c == '\U{FEFF}'
    || c == '\U{1680}' || ('\U{2000}' <= c <= '\U{200A}') || c == '\U{2028}'
    || c == '\U{2029}' || c == '\U{202F}' || c == '\U{205F}' || c == '\U{3000}'
  }

  /** `!s || s.trim() === ""`: the input is empty or holds only white space. */
  predicate Blank(e: Entry) {
    forall i :: 0 <= i < |e.text| ==> IsSpace(e.text[i])
  }

  /** The two gender buttons store "male" or "female". */
  datatype Gender = Male | Female

  /** The height unit buttons store "cm" or "feet"; every value other than
      "cm" takes the feet-and-inches branch. */
  datatype HeightUnit = Centimetres | FeetInches

  /** The waist unit buttons store "inch" or "cm". */
  datatype WaistUnit = WaistCentimetres | WaistInches

  /** `bmiInput`: "direct" takes a typed BMI, anything else computes it. */
  datatype BmiMode = Calculate | Direct

  /** A yes/no toggle flips between exactly these two strings. */
  datatype Answer = Yes | No

  /** The physical-activity select; ActivityUnset is the "none" placeholder. */
  datatype Activity =
    | ActivityUnset | Vigorous | Moderate | Mild | Sedentary
    | ActivityOther(text: string)

  /** The family-history select; FamilyUnset is the "none" placeholder,
      NoHistory is "zero". */
  datatype FamilyHistory =
    | FamilyUnset | NoHistory | SecondDegree | FirstDegree
    | FamilyOther(text: string)

  function GenderText(g: Gender): (s: string)
    ensures s != ""
  {
    match g
    case Male => "male"
    case Female => "female"
  }

  /** The option values of the activity select, the placeholder first. */
  const ActivityOptions: seq<string> := ["none", "vigorous", "moderate", "mild", "sedentary"]

  /** The family-history select's option values, the placeholder first. */
  const FamilyOptions: seq<string> := ["none", "zero", "second", "first"]

  /** The string the activity select holds: a named value is one of the
      select's options, and of a canonical value only a named one is. */
  function ActivityText(a: Activity): (t: string)
    ensures !a.ActivityOther? ==> t in ActivityOptions
    ensures CanonicalActivity(a) ==> (t in ActivityOptions <==> !a.ActivityOther?)
  {
    match a
    case ActivityUnset => "none"
    case Vigorous => "vigorous"
    case Moderate => "moderate"
    case Mild => "mild"
    case Sedentary => "sedentary"
    case ActivityOther(s) => s
  }

  /** The string the family-history select holds, as for activities. */
  function FamilyText(h: FamilyHistory): (t: string)
    ensures !h.FamilyOther? ==> t in FamilyOptions
    ensures CanonicalFamily(h) ==> (t in FamilyOptions <==> !h.FamilyOther?)
  {
    match h
    case FamilyUnset => "none"
    case NoHistory => "zero"
    case SecondDegree => "second"
    case FirstDegree => "first"
    case FamilyOther(s) => s
  }

  /** An Other value never spells one of the named options. */
  predicate CanonicalActivity(a: Activity) {
    a.ActivityOther? ==> a.text !in ActivityOptions
  }

  predicate CanonicalFamily(h: FamilyHistory) {
    h.FamilyOther? ==> h.text !in FamilyOptions
  }

  /** The value a select's change handler stores, read as an Activity. */
  function ParseActivity(s: string): (a: Activity)
    ensures ActivityText(a) == s
    ensures CanonicalActivity(a)
  {
    if s == "none" then ActivityUnset
    else if s == "vigorous" then Vigorous
    else if s == "moderate" then Moderate
    else if s == "mild" then Mild
    else if s == "sedentary" then Sedentary
    else ActivityOther(s)
  }

  function ParseFamily(s: string): (h: FamilyHistory)
    ensures FamilyText(h) == s
    ensures CanonicalFamily(h)
  {
    if s == "none" then FamilyUnset
    else if s == "zero" then NoHistory
    else if s == "second" then SecondDegree
    else if s == "first" then FirstDegree
    else FamilyOther(s)
  }

  /** Reading back the string of a canonical value gives the value again. */
  lemma ActivityRoundTrip(a: Activity)
    requires CanonicalActivity(a)
    ensures ParseActivity(ActivityText(a)) == a
  {
  }

  lemma FamilyRoundTrip(h: FamilyHistory)
    requires CanonicalFamily(h)
    ensures ParseFamily(FamilyText(h)) == h
  {
  }

  /** What parseInt and parseFloat can make of a text: a blank text is NaN
      to both, and parseInt finds a number only where parseFloat does. */
  predicate Parses(e: Entry) {
    && (Blank(e) ==> e.asInt.None? && e.asFloat.None?)
    && (e.asInt.Some? ==> e.asFloat.Some?)
  }

  /** The decimal digits of `n`. */
  function Digits(n: nat): (s: string)
    ensures |s| > 0
    ensures forall i :: 0 <= i < |s| ==> '0' <= s[i] <= '9'
  {
    if n < 10 then [('0' as int + n) as char]
    else Digits(n / 10) + [('0' as int + n % 10) as char]
  }

  /** The input after the user types the whole number `n`. */
  function Typed(n: nat): (e: Entry)
    ensures Parses(e) && !Blank(e)
    ensures e.asInt == Some(n) && e.asFloat == Some(n as real)
  {
    var e := Entry(Digits(n), Some(n), Some(n as real));
    assert !IsSpace(e.text[0]);
    e
  }

  /** One snapshot of the form's state cells. */
  datatype Form = Form(
    age: Entry,
    bmiInput: BmiMode,
    bmi: Entry,
    heightUnit: HeightUnit,
    heightCm: Entry,
    heightFeet: Entry,
    heightInches: Entry,
    weight: Entry,
    gender: Gender,
    waistUnit: WaistUnit,
    waistCm: Entry,
    waistInch: Entry,
    physicalActivity: Activity,
    fruitVeg: Answer,
    bpMedication: Answer,
    highBloodSugar: Answer,
    familyHistory: FamilyHistory,
    fbs: Entry,
    systolic: Entry,
    diastolic: Entry,
    pulse: Entry)

  /** A state the controls can produce: each input's parses fit its text,
      each select holds one of its options, and the BMI is calculated (the
      BMI field is read-only, and no control selects direct entry). */
  predicate Reachable(f: Form) {
    && Parses(f.age) && Parses(f.bmi) && Parses(f.heightCm) && Parses(f.heightFeet)
    && Parses(f.heightInches) && Parses(f.weight) && Parses(f.waistCm) && Parses(f.waistInch)
    && Parses(f.fbs) && Parses(f.systolic) && Parses(f.diastolic) && Parses(f.pulse)
    && !f.physicalActivity.ActivityOther? && !f.familyHistory.FamilyOther?
    && f.bmiInput.Calculate?
  }
}
