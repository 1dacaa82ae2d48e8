/**
 * The save_record view (backend/health/views.py): a POST is refused with
 * 400 when a required key is absent, null or the empty string, or when the
 * database refuses the row; otherwise it answers 201 with the new id.
 */
module HealthViews {
  import opened Wrappers
  import opened Texts

  /** A decoded JSON value of the request body. */
  datatype Value = Null | Bool(b: bool) | Number(n: real) | Str(s: string)

  /** The keys of the request body the view reads and hands to
      `DiabetesRecord.objects.create` as keyword arguments.  No other key is
      ever looked at.  Not every one of them is a field of the record: see
      RecordFields. */
  datatype Key =
    | Age | HeightCm | WeightKg | Bmi | WaistCm | SexAssignedAtBirth
    | PhysicalActivity | DailyFruitVeg | BpMedication | HighBloodSugarHistory
    | FamilyHistory | Fbs | Systolic | Diastolic | Pulse | TotalScore | RiskCategory

  /** The key as it is spelt in the JSON body. */
  function Name(k: Key): string {
    match k
    case Age => "age"
    case HeightCm => "height_cm"
    case WeightKg => "weight_kg"
    case Bmi => "bmi"
    case WaistCm => "waist_cm"
    case SexAssignedAtBirth => "sex_assigned_at_birth"
    case PhysicalActivity => "physical_activity"
    case DailyFruitVeg => "daily_fruit_veg"
    case BpMedication => "bp_medication"
    case HighBloodSugarHistory => "high_blood_sugar_history"
    case FamilyHistory => "family_history"
    case Fbs => "fbs"
    case Systolic => "systolic"
    case Diastolic => "diastolic"
    case Pulse => "pulse"
    case TotalScore => "total_score"
    case RiskCategory => "risk_category"
  }

  /** The key with a given signature, if any.  Each code is
      Signature(Name(k)), the name's length times 256 plus the code of its
      first letter: "age" has 3 characters and starts with 'a' (97), so
      3 * 256 + 97 = 865.  NameReadsBack checks every code against its
      name. */
  function KeyOf(code: int): Option<Key> {
    if code == 865 then Some(Age)
    else if code == 2408 then Some(HeightCm)
    else if code == 2423 then Some(WeightKg)
    else if code == 866 then Some(Bmi)
    else if code == 2167 then Some(WaistCm)
    else if code == 5491 then Some(SexAssignedAtBirth)
    else if code == 4464 then Some(PhysicalActivity)
    else if code == 3940 then Some(DailyFruitVeg)
    else if code == 3426 then Some(BpMedication)
    else if code == 6248 then Some(HighBloodSugarHistory)
    else if code == 3686 then Some(FamilyHistory)
    else if code == 870 then Some(Fbs)
    else if code == 2163 then Some(Systolic)
    else if code == 2404 then Some(Diastolic)
    else if code == 1392 then Some(Pulse)
    else if code == 2932 then Some(TotalScore)
    else if code == 3442 then Some(RiskCategory)
    else None
  }

  /** A key name's length and first letter already tell which key it is. */
  lemma NameReadsBack(k: Key)
    ensures KeyOf(Signature(Name(k))) == Some(k)
  {
    match k
    case _ =>
  }

  /** Distinct keys have distinct names. */
  lemma NameInjective(k: Key, j: Key)
    requires Name(k) == Name(j)
    ensures k == j
  {
    NameReadsBack(k);
    NameReadsBack(j);
  }

  /** No key name contains a quote. */
  lemma NameUnquoted(k: Key)
    ensures '\'' !in Name(k)
  {
    match k
    case _ =>
  }

  /** `request.data`, on the keys the view reads. */
  type Request = map<Key, Value>

  const Required: seq<Key> :=
    [Age, HeightCm, WeightKg, Bmi, WaistCm, SexAssignedAtBirth, Fbs, TotalScore, RiskCategory]

  /** `k not in data or data.get(k) in [None, ""]`: only a missing key, null and
      the empty string count as absent; 0 and false are present. */
  predicate Absent(data: Request, k: Key)
    ensures k in data && (data[k].Number? || data[k].Bool?) ==> !Absent(data, k)
    ensures k in data && data[k].Str? ==> (Absent(data, k) <==> data[k].s == "")
  {
    k !in data || data[k] == Null || data[k] == Str("")
  }

  /** The list comprehension over `keys`: the absent ones, in order. */
  function MissingFrom(keys: seq<Key>, data: Request): (m: seq<Key>)
    ensures forall k :: k in m <==> k in keys && Absent(data, k)
    ensures |m| <= |keys|
  {
    if keys == [] then []
    else
      var rest := MissingFrom(keys[1..], data);
      if Absent(data, keys[0]) then [keys[0]] + rest else rest
  }

  /** `missing` in save_record: the absent required keys. */
  function Missing(data: Request): (m: seq<Key>)
    ensures forall k :: k in m <==> k in Required && Absent(data, k)
  {
    MissingFrom(Required, data)
  }

  /** `a` is `b` with some elements dropped, the rest in their order. */
  predicate IsSubsequence(a: seq<Key>, b: seq<Key>)
    decreases |b|
  {
    a == [] ||
    (b != [] && ((a[0] == b[0] && IsSubsequence(a[1..], b[1..])) || IsSubsequence(a, b[1..])))
  }

  predicate Distinct(s: seq<Key>) {
    forall i, j :: 0 <= i < j < |s| ==> s[i] != s[j]
  }

  /** The missing keys are reported in the order of `required`. */
  lemma {:induction false} MissingIsSubsequence(keys: seq<Key>, data: Request)
    ensures IsSubsequence(MissingFrom(keys, data), keys)
  {
    if keys != [] {
      MissingIsSubsequence(keys[1..], data);
      var rest := MissingFrom(keys[1..], data);
      if Absent(data, keys[0]) {
        assert ([keys[0]] + rest)[1..] == rest;
      }
    }
  }

  /** No key is reported twice. */
  lemma {:induction false} MissingDistinct(keys: seq<Key>, data: Request)
    requires Distinct(keys)
    ensures Distinct(MissingFrom(keys, data))
  {
    if keys != [] {
      assert Distinct(keys[1..]);
      MissingDistinct(keys[1..], data);
      var rest := MissingFrom(keys[1..], data);
      assert keys[0] !in keys[1..];
      assert keys[0] !in rest;
    }
  }

  lemma RequiredDistinct()
    ensures Distinct(Required)
  {
  }

  /** A body whose every required key holds a non-empty value misses nothing;
      and `missing` is empty exactly then. */
  lemma MissingEmptyIff(data: Request)
    ensures Missing(data) == [] <==> forall k :: k in Required ==> !Absent(data, k)
  {
    var m := Missing(data);
    if m != [] {
      assert m[0] in m;
    }
  }

  /** Keys outside `required` never affect the verdict. */
  lemma OnlyRequiredKeysMatter(data: Request, other: Request)
    requires forall k :: k in Required ==> (k in data <==> k in other)
    requires forall k :: k in Required && k in data ==> data[k] == other[k]
    ensures Missing(data) == Missing(other)
  {
    RequiredAgree(Required, data, other);
  }

  lemma {:induction false} RequiredAgree(keys: seq<Key>, data: Request, other: Request)
    requires forall k :: k in keys ==> (k in data <==> k in other)
    requires forall k :: k in keys && k in data ==> data[k] == other[k]
    ensures MissingFrom(keys, data) == MissingFrom(keys, other)
  {
    if keys != [] {
      assert keys[0] in keys;
      RequiredAgree(keys[1..], data, other);
    }
  }

  /** Zero and false are present values: an all-zero body misses nothing. */
  lemma ZeroAndFalseArePresent(data: Request)
    requires forall k :: k in Required ==> k in data && (data[k] == Number(0.0) || data[k] == Bool(false))
    ensures Missing(data) == []
  {
    MissingEmptyIff(data);
  }

  /** Python's `repr` of a list of key names, between the brackets:
      `'age', 'fbs'`. */
  function Quoted(keys: seq<Key>): (s: string)
    ensures s == [] <==> keys == []
  {
    if keys == [] then ""
    else "'" + Name(keys[0]) + "'" + (if |keys| == 1 then "" else ", " + Quoted(keys[1..]))
  }

  /** The position of the first quote in `s`; `|s|` when there is none. */
  function QuoteAt(s: string): nat {
    if s == [] || s[0] == '\'' then 0 else 1 + QuoteAt(s[1..])
  }

  lemma {:induction false} QuoteAfter(x: string, s: string)
    requires '\'' !in x
    ensures QuoteAt(x + "'" + s) == |x|
  {
    if x != [] {
      assert (x + "'" + s)[1..] == x[1..] + "'" + s;
      assert forall i :: 0 <= i < |x[1..]| ==> x[1..][i] == x[i + 1];
      QuoteAfter(x[1..], s);
    }
  }

  /** A quoted name can be read off the front of a text unambiguously. */
  lemma SplitQuoted(x: string, y: string, s: string, t: string)
    requires '\'' !in x && '\'' !in y
    requires "'" + x + "'" + s == "'" + y + "'" + t
    ensures x == y && s == t
  {
    var l := "'" + x + "'" + s;
    var r := "'" + y + "'" + t;
    assert l[1..] == x + "'" + s;
    assert r[1..] == y + "'" + t;
    QuoteAfter(x, s);
    QuoteAfter(y, t);
    assert x == l[1..|x| + 1];
    assert y == r[1..|y| + 1];
    assert s == l[|x| + 2..];
    assert t == r[|y| + 2..];
  }

  /** Distinct lists of keys are quoted differently. */
  lemma {:induction false} QuotedInjective(a: seq<Key>, b: seq<Key>)
    requires Quoted(a) == Quoted(b)
    ensures a == b
    decreases |a|
  {
    if a != [] {
      var ra := if |a| == 1 then "" else ", " + Quoted(a[1..]);
      var rb := if |b| == 1 then "" else ", " + Quoted(b[1..]);
      NameUnquoted(a[0]);
      NameUnquoted(b[0]);
      SplitQuoted(Name(a[0]), Name(b[0]), ra, rb);
      NameInjective(a[0], b[0]);
      if |a| > 1 {
        assert Quoted(a[1..]) == ra[2..] && Quoted(b[1..]) == rb[2..];
        QuotedInjective(a[1..], b[1..]);
      }
      assert a == [a[0]] + a[1..] && b == [b[0]] + b[1..];
    }
  }

  /** The error text of the first 400 answer: `f"Missing fields: {missing}"`. */
  function MissingMessage(missing: seq<Key>): (s: string)
    ensures |s| >= |"Missing fields: []"|
    ensures s[..|"Missing fields: ["|] == "Missing fields: ["
    ensures s[|s| - 1] == ']'
  {
    "Missing fields: [" + Quoted(missing) + "]"
  }

  /** The text names the missing keys, in order: different lists of missing
      keys never give the same message. */
  lemma MissingMessageInjective(a: seq<Key>, b: seq<Key>)
    requires MissingMessage(a) == MissingMessage(b)
    ensures a == b
  {
    var n := |"Missing fields: ["|;
    assert Quoted(a) == MissingMessage(a)[n..|MissingMessage(a)| - 1];
    assert Quoted(b) == MissingMessage(b)[n..|MissingMessage(b)| - 1];
    QuotedInjective(a, b);
  }

  lemma MissingMessageExample()
    ensures MissingMessage([Age, Fbs]) == "Missing fields: ['age', 'fbs']"
  {
  }

  /** What `DiabetesRecord.objects.create` does with the row: the id of the
      inserted row, or the text of the exception it raised. */
  datatype DbResult = Inserted(id: int) | Raised(message: string)

  /** The JSON body of the answer. */
  datatype Body = ErrorBody(error: string) | SavedBody(message: string, id: int)

  datatype Response = Response(status: int, body: Body)

  const BadRequest: int := 400
  const Created: int := 201

  /** The keyword arguments of the create call in save_record: all seventeen
      keys, each with `data.get(key)`. */
  const CreateKeywords: set<Key> :=
    {Age, HeightCm, WeightKg, Bmi, WaistCm, SexAssignedAtBirth, PhysicalActivity,
     DailyFruitVeg, BpMedication, HighBloodSugarHistory, FamilyHistory, Fbs,
     Systolic, Diastolic, Pulse, TotalScore, RiskCategory}

  /** The fields DiabetesRecord declares (backend/health/models.py), as the
      keys that name them; the id and created_at are filled in by Django.
      There is no systolic, diastolic or pulse field. */
  const RecordFields: set<Key> :=
    {Age, HeightCm, WeightKg, Bmi, WaistCm, SexAssignedAtBirth, PhysicalActivity,
     DailyFruitVeg, BpMedication, HighBloodSugarHistory, FamilyHistory, Fbs,
     TotalScore, RiskCategory}

  /** The create call on a model with the given fields.  Django's model
      constructor raises a TypeError for a keyword that names no field, before
      the database is reached; otherwise the outcome is the database's, `db`.
      The TypeError's text depends on the Django version and is a parameter. */
  function Insert(fields: set<Key>, db: DbResult, typeError: string): (r: DbResult)
    ensures !(CreateKeywords <= fields) ==> r == Raised(typeError)
    ensures CreateKeywords <= fields ==> r == db
  {
    if CreateKeywords <= fields then db else Raised(typeError)
  }

  /** As written, the create call names three fields the record does not have,
      so it raises whatever the database would do, and save_record can never
      answer 201. */
  lemma InsertAsWrittenAlwaysRaises(data: Request, db: DbResult, typeError: string)
    ensures Insert(RecordFields, db, typeError) == Raised(typeError)
    ensures SaveRecord(data, Insert(RecordFields, db, typeError)).status == BadRequest
  {
    assert Systolic in CreateKeywords && Systolic !in RecordFields;
  }

  /** With the three vitals declared as fields, as the form and the view
      evidently intend, the create call reaches the database, and save_record
      answers as the database does: the `db` parameter of SaveRecord. */
  lemma InsertWithVitalsFields(data: Request, db: DbResult, typeError: string)
    ensures Insert(RecordFields + {Systolic, Diastolic, Pulse}, db, typeError) == db
    ensures SaveRecord(data, Insert(RecordFields + {Systolic, Diastolic, Pulse}, db, typeError))
            == SaveRecord(data, db)
  {
    assert CreateKeywords <= RecordFields + {Systolic, Diastolic, Pulse};
  }

  /** save_record.  The database is a parameter: `db` is what the insert of
      this request's values would give. */
  function SaveRecord(data: Request, db: DbResult): (r: Response)
    ensures r.status == Created <==> Missing(data) == [] && db.Inserted?
    ensures r.status == Created || r.status == BadRequest
    ensures Missing(data) != [] ==> r.body == ErrorBody(MissingMessage(Missing(data)))
    ensures Missing(data) == [] && db.Raised? ==> r.body == ErrorBody(db.message)
    ensures r.status == Created ==> r.body == SavedBody("saved", db.id)
  {
    var missing := Missing(data);
    if missing != [] then
      Response(BadRequest, ErrorBody(MissingMessage(missing)))
    else
      match db
      case Raised(e) => Response(BadRequest, ErrorBody(e))
      case Inserted(id) => Response(Created, SavedBody("saved", id))
  }

  /** A request is saved only when every required key holds a value that is
      neither null nor the empty string; and the database is consulted only
      then: when a key is missing, the answer does not depend on it. */
  lemma SavedOnlyWhenComplete(data: Request, db: DbResult, db': DbResult)
    ensures SaveRecord(data, db).status == Created ==>
      forall k :: k in Required ==> k in data && data[k] != Null && data[k] != Str("")
    ensures Missing(data) != [] ==> SaveRecord(data, db) == SaveRecord(data, db')
  {
    MissingEmptyIff(data);
  }
}
