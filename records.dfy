/**
 * The records handleCalculate builds (frontend/app/page.tsx): the results
 * kept for the results view and the payload posted to the backend.
 */
module Records {
  import opened Inputs
  import opened Risk
  import opened Findrisc

  /** `formData` of the results: normalised numbers and the raw selects. */
  datatype ResultForm = ResultForm(
    age: int,
    bmi: real,
    waist: real,
    gender: Gender,
    physicalActivity: Activity,
    familyHistory: FamilyHistory,
    fbs: real,
    systolic: real,
    diastolic: real,
    pulse: real)

  datatype Results = Results(
    totalScore: int,
    breakdown: Breakdown,
    risk: RiskLevel,
    formData: ResultForm)

  /** The body of the POST to `/api/save/`, field for field. */
  datatype Payload = Payload(
    age: int,
    heightCm: real,
    weightKg: real,
    bmi: real,
    waistCm: real,
    sexAssignedAtBirth: string,
    physicalActivity: string,
    dailyFruitVeg: bool,
    bpMedication: bool,
    highBloodSugarHistory: bool,
    familyHistory: string,
    fbs: real,
    systolic: real,
    diastolic: real,
    pulse: real,
    totalScore: int,
    riskCategory: string)
}
