/**
 * The POST from handleCalculate (frontend/app/page.tsx) as save_record
 * (backend/health/views.py) receives it: the payload serialised as a JSON
 * object with the backend's snake_case keys.
 */
module Wire {
  import opened Wrappers
  import opened Inputs
  import opened Records
  import opened HealthViews
  import Calculator

  /** The seventeen keys of the payload. */
  const PayloadKeys: set<Key> :=
    {Age, HeightCm, WeightKg, Bmi, WaistCm, SexAssignedAtBirth, PhysicalActivity,
     DailyFruitVeg, BpMedication, HighBloodSugarHistory, FamilyHistory, Fbs, Systolic,
     Diastolic, Pulse, TotalScore, RiskCategory}

  /** The JSON value sent under key `k`. */
  function Field(p: Payload, k: Key): Value {
    match k
    case Age => Number(p.age as real)
    case HeightCm => Number(p.heightCm)
    case WeightKg => Number(p.weightKg)
    case Bmi => Number(p.bmi)
    case WaistCm => Number(p.waistCm)
    case SexAssignedAtBirth => Str(p.sexAssignedAtBirth)
    case PhysicalActivity => Str(p.physicalActivity)
    case DailyFruitVeg => Bool(p.dailyFruitVeg)
    case BpMedication => Bool(p.bpMedication)
    case HighBloodSugarHistory => Bool(p.highBloodSugarHistory)
    case FamilyHistory => Str(p.familyHistory)
    case Fbs => Number(p.fbs)
    case Systolic => Number(p.systolic)
    case Diastolic => Number(p.diastolic)
    case Pulse => Number(p.pulse)
    case TotalScore => Number(p.totalScore as real)
    case RiskCategory => Str(p.riskCategory)
  }

  /** `JSON.stringify(payload)`, decoded on the server into `request.data`. */
  function Encode(p: Payload): (data: Request)
    ensures data.Keys == PayloadKeys
  {
    map k | k in PayloadKeys :: Field(p, k)
  }

  predicate IsInt(v: Value) {
    v.Number? && v.n.Floor as real == v.n
  }

  /** The `data.get(...)` of the seventeen keys save_record hands to the
      database, read back into a payload when each has the type sent. */
  function Decode(data: Request): (r: Option<Payload>)
    ensures r.Some? ==> PayloadKeys <= data.Keys
    ensures r.Some? ==> forall k :: k in PayloadKeys ==> data[k] == Field(r.value, k)
  {
    if && PayloadKeys <= data.Keys
       && IsInt(data[Age]) && data[HeightCm].Number? && data[WeightKg].Number?
       && data[Bmi].Number? && data[WaistCm].Number? && data[SexAssignedAtBirth].Str?
       && data[PhysicalActivity].Str? && data[DailyFruitVeg].Bool? && data[BpMedication].Bool?
       && data[HighBloodSugarHistory].Bool? && data[FamilyHistory].Str? && data[Fbs].Number?
       && data[Systolic].Number? && data[Diastolic].Number? && data[Pulse].Number?
       && IsInt(data[TotalScore]) && data[RiskCategory].Str?
    then
      Some(Payload(
        data[Age].n.Floor, data[HeightCm].n, data[WeightKg].n, data[Bmi].n, data[WaistCm].n,
        data[SexAssignedAtBirth].s, data[PhysicalActivity].s, data[DailyFruitVeg].b,
        data[BpMedication].b, data[HighBloodSugarHistory].b, data[FamilyHistory].s,
        data[Fbs].n, data[Systolic].n, data[Diastolic].n, data[Pulse].n,
        data[TotalScore].n.Floor, data[RiskCategory].s))
    else None
  }

  /** Every key of the payload is sent, with its field's value. */
  lemma EncodeFields(p: Payload)
    ensures Encode(p).Keys == PayloadKeys
    ensures forall k :: k in PayloadKeys ==> Encode(p)[k] == Field(p, k)
  {
  }

  /** Nothing is lost on the way: the server reads back every field sent. */
  lemma DecodeEncode(p: Payload)
    ensures Decode(Encode(p)) == Some(p)
  {
    EncodeFields(p);
    var data := Encode(p);
    assert data[Age] == Number(p.age as real) && (p.age as real).Floor == p.age;
    assert data[TotalScore] == Number(p.totalScore as real) && (p.totalScore as real).Floor == p.totalScore;
    assert Decode(data).Some?;
  }

  /** A payload with a sex and a risk label passes the view's presence check:
      numbers, even 0, are never absent. */
  lemma EncodedPayloadComplete(p: Payload)
    requires p.sexAssignedAtBirth != "" && p.riskCategory != ""
    ensures Missing(Encode(p)) == []
  {
    EncodeFields(p);
    forall k | k in Required
      ensures !Absent(Encode(p), k)
    {
      assert k in PayloadKeys;
    }
    MissingEmptyIff(Encode(p));
  }

  /** Every payload handleCalculate posts is complete, so the view answers
      201 exactly when the create call succeeds.  With the record's fields as
      declared it never does (HealthViews.InsertAsWrittenAlwaysRaises); this
      lemma describes the view with the vitals declared as fields
      (HealthViews.InsertWithVitalsFields). */
  lemma SentPayloadAccepted(f: Form, db: DbResult)
    ensures Missing(Encode(Calculator.BuildPayload(f))) == []
    ensures SaveRecord(Encode(Calculator.BuildPayload(f)), db).status == Created <==> db.Inserted?
  {
    EncodedPayloadComplete(Calculator.BuildPayload(f));
  }

  /** An empty risk label fails the presence check (an empty sex does too;
      every other key carries a number or a boolean).  The form never sends
      such a payload, since every label is non-empty; this is what the check
      guards against for other clients. */
  lemma EmptyLabelRejected(p: Payload, db: DbResult)
    requires p.riskCategory == ""
    ensures Missing(Encode(p)) != []
    ensures SaveRecord(Encode(p), db).status == BadRequest
  {
    var m := Missing(Encode(p));
    assert RiskCategory in m;
  }
}
