# Diabetes risk calculator: a Dafny model

This is a model of the diabetes risk calculator. It has a single-page form (`frontend/app/page.tsx`) and a Django endpoint that stores each assessment (`backend/health/views.py`).

The form collects these inputs:

- age;
- height and weight, or a typed BMI;
- waist circumference, in centimetres or inches, and gender;
- physical activity and family history (selects);
- three yes/no toggles;
- fasting blood sugar;
- blood pressure and pulse.

From these inputs the form computes two scores:

- a composite FINDRISC-style score: nine sub-scores, total 0 to 32, four risk categories;
- on the results page, an Indian Diabetes Risk Score (IDRS): 0 to 100 in steps of 10, four risk categories.

Four result cards classify glucose, BMI, blood pressure and pulse for display only.

"Calculate" does the following:

- It validates the form.
- It shows an error list, or else stores the results in session storage.
- It POSTs a 17-key payload to `save_record`.
- `save_record` answers 400 when a required key is absent, null or empty, or when the insert raises. Otherwise it answers 201. As written, the insert always raises, because it passes three fields the record does not declare (see "## Findings").

Modules:

- `Inputs`: the raw state cells. Each text input is an `Entry`, which holds the typed text plus what `parseInt` and `parseFloat` make of it. Selects and toggles are datatypes.
- `Measurements`: unit conversion and BMI.
- `Findrisc`: the nine getters, `totalScore` and `getRiskCategory`.
- `Idrs`: `calculateIDRS` and `getIDRSRisk`. `ResultsView` is the results page's state.
- `Cards`: the four result-card classifiers.
- `Validation`: `validateForm`. Each section becomes a function that pushes onto the error list.
- `Calculator`: the records built by `handleCalculate`. The class `RiskCalculator` is the component's state, with `validateForm`, `clearAllFields`, `handleCalculate`, `handleRecalculate` and `handleBack`.
- `HealthViews`: `save_record`.
- `Wire`: the JSON body the form sends and the view reads.

The model keeps these behaviours of the code, though a reader might expect otherwise:

- The BMI card's "Underweight" band ends at 18, not at the usual 18.5.
- The composite total can be at most 32, while the result card prints it as "/ 34".
- `clearAllFields` resets the fruit/vegetable toggle to "yes", while the form starts at "no". The same empty form therefore scores 1 before clearing and 0 after.
- In feet-and-inches mode, validation only asks that both fields are non-empty. So 0 ft 0 in is accepted, and the BMI then falls back to 0.

## Model

| member | source | states |
|---|---|---|
| Inputs.GenderText | frontend/app/page.tsx:1540-1551 | the stored gender string is never empty |
| Inputs.ActivityText | frontend/app/page.tsx:1710-1714 | a named activity is stored as one of the select's five option values, and a canonical activity is stored as an option value only when it is a named one |
| Inputs.FamilyText | frontend/app/page.tsx:1724-1727 | the same for the four option values of the family-history select |
| Inputs.ParseActivity | frontend/app/page.tsx:1705-1715 | reading a select value gives back an activity whose text is that value, and never an "other" that spells a named option |
| Inputs.ParseFamily | frontend/app/page.tsx:1719-1728 | the same for the family-history select |
| Inputs.ActivityRoundTrip | frontend/app/page.tsx:1705-1715 | text then parse is the identity on canonical activities |
| Inputs.FamilyRoundTrip | frontend/app/page.tsx:1719-1728 | text then parse is the identity on canonical family histories |
| Inputs.Typed | frontend/app/page.tsx:1527-1530 | a whole number typed into an input is not blank, parses to itself under both parsers, and is a text the parsers could give those results for |
| Measurements.OrZero | frontend/app/page.tsx:1386-1394 | `parseFloat(x) \|\| 0` keeps a parsed number and gives 0 exactly for NaN and for a parsed 0 |
| Measurements.HeightInCm | frontend/app/page.tsx:1385-1390 | cm mode passes `parseFloat(heightCm) \|\| 0` through; feet mode gives (12·feet + inches)·2.54 |
| Measurements.WaistInCm | frontend/app/page.tsx:1392-1395 | cm mode passes the value through; inch mode multiplies by 2.54 |
| Measurements.Round1 | frontend/app/page.tsx:1401 | `toFixed(1)` lands within 0.05 of x and on a multiple of 0.1 |
| Measurements.CalculatedBmi | frontend/app/page.tsx:1397-1404 | 0 unless height and weight are both positive; otherwise weight/height² rounded to one decimal; never negative |
| Measurements.EffectiveBmi | frontend/app/page.tsx:1406-1407 | direct mode yields `parseFloat(bmi) \|\| 0`; calculate mode yields the calculated BMI (the one-decimal rounding of weight over height squared, or 0), never negative |
| Measurements.QueteletPositive | frontend/app/page.tsx:1397-1404 | a positive height and weight give a positive quotient before rounding (the rounded BMI can still be 0.0 for extreme inputs) |
| Measurements.EffectiveBmiSource | frontend/app/page.tsx:1406-1407 | direct mode uses only the typed BMI; calculate mode uses only height and weight |
| Measurements.ConversionExamples | frontend/app/page.tsx:1385-1395 | 5 ft 8 in is 172.72 cm; 35 in is 88.9 cm |
| Measurements.BmiExample | frontend/app/page.tsx:1397-1404 | 170 cm and 70 kg give 24.2 |
| Risk.Label | frontend/app/page.tsx:1477-1513 | every level's label is non-empty |
| Risk.LabelInjective | frontend/app/page.tsx:1477-1513 | distinct levels have distinct labels |
| Findrisc.AgeScore | frontend/app/page.tsx:1409-1416 | scores are 0/2/3/4; 0 iff NaN or under 45; 4 iff 65 or over |
| Findrisc.BmiScore | frontend/app/page.tsx:1418-1424 | scores are 0/1/3; 0 iff under 25; 3 iff 30 or over |
| Findrisc.WaistScore | frontend/app/page.tsx:1426-1438 | scores are 0/3/4; male: 0 iff under 94, 4 iff over 102; otherwise 0 iff under 80, 4 iff over 88 |
| Findrisc.ActivityScore | frontend/app/page.tsx:1440-1446 | scores are 0/1/2; 1 iff mild; 2 iff sedentary; unknown values score 0 |
| Findrisc.FruitVegScore | frontend/app/page.tsx:1448 | 1 iff the answer is "no" |
| Findrisc.BpScore | frontend/app/page.tsx:1449 | 2 iff "yes", else 0 |
| Findrisc.HighSugarScore | frontend/app/page.tsx:1450 | 5 iff "yes", else 0 |
| Findrisc.FamilyScore | frontend/app/page.tsx:1451-1456 | scores are 0/3/5; 3 iff second-degree; 5 iff first-degree |
| Findrisc.FbsScore | frontend/app/page.tsx:1457-1464 | scores are 0/2/4/6; 0 iff NaN or under 100; 2 iff 100 to under 110; 4 iff 110 to under 126; 6 iff 126 or over |
| Findrisc.Scores | frontend/app/page.tsx:1283-1291 | each of the nine sub-scores stays within its own table's cap (4, 3, 4, 2, 1, 2, 5, 5, 6), which add up to 32 |
| Findrisc.TotalScore | frontend/app/page.tsx:1466-1475 | the total is the sum of the nine-entry breakdown and lies in 0..32 |
| Findrisc.TopFormScoresMaxTotal | frontend/app/page.tsx:1466-1475 | age 70, 150 cm, 100 kg, waist 110 cm, sedentary, no fruit, both medical toggles on, a first-degree relative and glucose 130 total 32 |
| Findrisc.MaxTotalAttained | frontend/app/page.tsx:223 | a form the controls can produce scores 32, and no form reaches the printed 34 |
| Findrisc.RiskCategory | frontend/app/page.tsx:1477-1513 | Low iff ≤7; Moderate iff 8..14; High iff 15..20; Very High iff >20 |
| Findrisc.AdviceDistinct | frontend/app/page.tsx:1477-1513 | the four categories carry four different advice lines |
| Findrisc.RiskCategoryMonotone | frontend/app/page.tsx:1477-1513 | a higher total never gives a less severe category |
| Findrisc.AgeScoreMonotone | frontend/app/page.tsx:1409-1416 | the age score never decreases with age |
| Findrisc.BmiScoreMonotone | frontend/app/page.tsx:1418-1424 | the BMI score never decreases with BMI |
| Findrisc.WaistScoreMonotone | frontend/app/page.tsx:1426-1438 | the waist score never decreases with waist, for either gender |
| Findrisc.FbsScoreMonotone | frontend/app/page.tsx:1457-1464 | the glucose score never decreases with glucose |
| Findrisc.WaistFemaleAtLeastMale | frontend/app/page.tsx:1426-1438 | the female cut-offs never score below the male ones |
| Findrisc.TotalDependsOnScoredInputs | frontend/app/page.tsx:1466-1475 | forms that agree on the scored inputs have equal totals |
| Findrisc.BoundaryExamples | frontend/app/page.tsx:1409-1464 | values at each tier edge of age, BMI, male waist and glucose |
| Idrs.AgePoints | frontend/app/page.tsx:44-46 | points are 0/20/30; 0 iff under 35; 30 iff 50 or over |
| Idrs.WaistPoints | frontend/app/page.tsx:48-56 | points are 0/10/20; male cut-offs 90/100, otherwise 80/90 |
| Idrs.ActivityPoints | frontend/app/page.tsx:58-61 | 10/20/30 iff moderate/mild/sedentary; otherwise 0 |
| Idrs.FamilyPoints | frontend/app/page.tsx:63-65 | 10 iff second-degree; 20 iff first-degree; otherwise 0 |
| Idrs.IdrsScore | frontend/app/page.tsx:32-69 | the score is in 0..100 and a multiple of 10; it is 0 without form data |
| Idrs.IdrsMaximumAttained | frontend/app/page.tsx:32-69 | some form data scores exactly 100 |
| Idrs.IdrsRisk | frontend/app/page.tsx:71-103 | Low iff <30; Moderate iff 30..49; High iff 50..69; Very High iff ≥70 |
| Idrs.IdrsRiskMonotone | frontend/app/page.tsx:71-103 | a higher IDRS never gives a less severe level |
| Idrs.AgePointsMonotone | frontend/app/page.tsx:44-46 | age points never decrease with age |
| Idrs.WaistPointsMonotone | frontend/app/page.tsx:48-56 | waist points never decrease with waist |
| Idrs.IdrsIgnoresOtherFields | frontend/app/page.tsx:39-65 | only age, waist, gender, activity and family history affect the IDRS |
| Idrs.BoundaryExamples | frontend/app/page.tsx:44-56 | values at the tier edges of age and male waist |
| Idrs.ResultsView.constructor | frontend/app/page.tsx:25 | the view starts with IDRS 0 |
| Idrs.ResultsView.CalculateIdrs | frontend/app/page.tsx:32-69 | after the accumulating if-chains the stored IDRS equals IdrsScore of the form data |
| Cards.GlucoseCard | frontend/app/page.tsx:180-184 | Normal iff <140; Prediabetes Risk iff 140..199; Diabetes Range iff ≥200 |
| Cards.BmiCard | frontend/app/page.tsx:391-397 | Underweight iff <18; Normal iff 18..23; Overweight iff 23..25; Obesity iff ≥25 |
| Cards.PressureCard | frontend/app/page.tsx:479-483 | Normal iff systolic <120 and diastolic <80; Hypertension iff systolic ≥140 |
| Cards.PulseCard | frontend/app/page.tsx:571-575 | Normal iff 60..100; Low iff <60; High iff >100 |
| Cards.GlucoseCardMonotone | frontend/app/page.tsx:180-184 | a higher glucose never gives a milder band |
| Cards.BmiCardMonotone | frontend/app/page.tsx:391-397 | a higher BMI never gives a lower band |
| Cards.PressureCardMonotone | frontend/app/page.tsx:479-483 | raising either reading never lowers the band |
| Cards.PressureCardDiastolicOnlyForNormal | frontend/app/page.tsx:479-483 | from systolic 120 up, the diastolic reading is ignored; 110/100 is pre-hypertension |
| Cards.GlucoseCardLooserThanScore | frontend/app/page.tsx:180-184 | every flagged reading already has the top glucose score; 130 shows Normal yet scores 6 |
| Cards.BmiCardAgreesWithScore | frontend/app/page.tsx:391-397 | the Obesity band is exactly where the BMI score is positive |
| Validation.Message | frontend/app/page.tsx:1192-1239 | the twenty message texts pushed by validateForm (stated by MessageInjective) |
| Validation.MessageReadsBack | frontend/app/page.tsx:1192-1239 | the length and first letter of each message already identify its violation |
| Validation.MessageInjective | frontend/app/page.tsx:1192-1239 | distinct violations have distinct messages, so the modal's lines identify the broken rules |
| Validation.Violated | frontend/app/page.tsx:1192-1239 | the condition of each rule, as the guard of its `errors.push` (the partner of Errors, related by ErrorsExactly) |
| Validation.AgeChecks | frontend/app/page.tsx:1192-1194 | only appends, at most one message |
| Validation.BmiChecks | frontend/app/page.tsx:1197-1198 | only appends, at most one message |
| Validation.HeightChecks | frontend/app/page.tsx:1200-1210 | only appends, at most two messages |
| Validation.WeightChecks | frontend/app/page.tsx:1211-1213 | only appends, at most one message |
| Validation.BodyChecks | frontend/app/page.tsx:1196-1214 | only appends, at most three messages |
| Validation.WaistChecks | frontend/app/page.tsx:1216-1226 | only appends, at most one message |
| Validation.SelectChecks | frontend/app/page.tsx:1228-1232 | only appends, at most two messages |
| Validation.FbsChecks | frontend/app/page.tsx:1233-1235 | only appends, at most one message |
| Validation.VitalsChecks | frontend/app/page.tsx:1237-1239 | only appends, at most three messages |
| Validation.Errors | frontend/app/page.tsx:1190-1242 | at most eleven messages, one per if-chain |
| Validation.AgeSection | frontend/app/page.tsx:1192-1194 | the age checks push at most one age message (the list grows by at most one), in form order, and push none iff the age is acceptable |
| Validation.BodySection | frontend/app/page.tsx:1196-1214 | the BMI or height-and-weight checks push only their messages, in order, and none iff acceptable |
| Validation.HeightSection | frontend/app/page.tsx:1200-1210 | the height checks push only height messages, in order; none iff cm is present and not ≤0, or both feet fields are non-empty |
| Validation.WeightSection | frontend/app/page.tsx:1211-1213 | the weight checks push only weight messages, and none iff the weight is acceptable |
| Validation.WaistSection | frontend/app/page.tsx:1216-1226 | the waist checks on the selected unit's input push none iff it is acceptable |
| Validation.SelectSection | frontend/app/page.tsx:1228-1232 | the two select messages are pushed in order; none iff both selects are set |
| Validation.FbsSection | frontend/app/page.tsx:1233-1235 | the glucose checks push none iff the field is non-empty and not negative |
| Validation.VitalsSection | frontend/app/page.tsx:1237-1239 | the three vitals messages are pushed in order; none iff all are non-empty |
| Validation.AgeAdds | frontend/app/page.tsx:1192-1194 | a message is on the list after the age checks iff it was before or it is an age rule the form breaks |
| Validation.BodyAdds | frontend/app/page.tsx:1196-1214 | the same for the BMI, height and weight rules |
| Validation.HeightAdds | frontend/app/page.tsx:1200-1210 | the same for the height rules |
| Validation.WeightAdds | frontend/app/page.tsx:1211-1213 | the same for the weight rules |
| Validation.WaistAdds | frontend/app/page.tsx:1216-1226 | the same for the waist rules |
| Validation.SelectAdds | frontend/app/page.tsx:1228-1232 | the same for the select rules |
| Validation.FbsAdds | frontend/app/page.tsx:1233-1235 | the same for the glucose rules |
| Validation.VitalsAdds | frontend/app/page.tsx:1237-1239 | the same for the vitals rules |
| Validation.ErrorsExactly | frontend/app/page.tsx:1190-1242 | a message is reported iff the form breaks its rule; no check suppresses another |
| Validation.ErrorsInFormOrder | frontend/app/page.tsx:1190-1242 | messages appear in form order, each at most once |
| Validation.ErrorsEmptyIffAcceptable | frontend/app/page.tsx:1190-1242 | the list is empty iff every section is acceptable |
| Calculator.InitialForm | frontend/app/page.tsx:1165-1188 | the initial state is one the controls can produce, with fruit/vegetable on "no" |
| Calculator.ClearedForm | frontend/app/page.tsx:1244-1266 | the cleared state equals the initial state except that fruit/vegetable is "yes", and is reachable |
| Calculator.ClearedFormDiffersFromInitial | frontend/app/page.tsx:1259 | a fresh form totals 1 and a cleared one 0 |
| Calculator.EmptyFormScoresOnlyFruitVeg | frontend/app/page.tsx:1466-1475 | with every input empty, only the fruit/vegetable toggle scores |
| Calculator.EmptyFormsRejected | frontend/app/page.tsx:1192-1194 | neither a fresh nor a cleared form validates |
| Calculator.AcceptedCmFormHasQuetelet | frontend/app/page.tsx:1200-1213 | an accepted cm-mode form with parsed height and weight gets the rounded quotient as BMI, never the 0 fallback |
| Calculator.FeetModeAcceptsZeroHeight | frontend/app/page.tsx:1205-1210 | an accepted 0 ft 0 in form has height, calculated BMI and effective BMI 0 |
| Calculator.ZeroHeightFormExists | frontend/app/page.tsx:1205-1210 | such a form passes validation |
| Calculator.AgeValue | frontend/app/page.tsx:1276 | a parsed age passes through; NaN becomes 0, which scores as NaN does in the age table |
| Calculator.BuildResults | frontend/app/page.tsx:1276-1306 | the breakdown is the nine getters of the form and the total is totalScore (their sum, within 0..32); the category is getRiskCategory of it; form data carries `parseInt(age) \|\| 0`, the effective BMI, waist in cm, gender, both selects, and `parseFloat(...) \|\| 0` of glucose and the vitals |
| Calculator.BuildPayload | frontend/app/page.tsx:1314-1333 | total_score is totalScore and risk_category the label of its category; every other key carries its getter or `parseFloat(...) \|\| 0` value, the three toggles as booleans that are true iff "yes", and the three texts |
| Calculator.PayloadAgreesWithResults | frontend/app/page.tsx:1276-1333 | the stored results and the posted payload agree field by field |
| Calculator.CheckAge | frontend/app/page.tsx:1192-1194 | the age if-chain pushes what AgeChecks gives |
| Calculator.CheckBody | frontend/app/page.tsx:1196-1214 | the BMI or height-and-weight if-chains push what BodyChecks gives |
| Calculator.CheckWaist | frontend/app/page.tsx:1216-1226 | the waist if-chains push what WaistChecks gives |
| Calculator.CheckSelects | frontend/app/page.tsx:1228-1232 | the select checks push what SelectChecks gives |
| Calculator.CheckFbs | frontend/app/page.tsx:1233-1235 | the glucose if-chain pushes what FbsChecks gives |
| Calculator.CheckVitals | frontend/app/page.tsx:1237-1239 | the vitals checks push what VitalsChecks gives |
| Calculator.RiskCalculator.constructor | frontend/app/page.tsx:1165-1188 | the component starts with the initial form, no results, no errors, nothing stored or sent, and the results-view invariant holds |
| Calculator.RiskCalculator.Total | frontend/app/page.tsx:1466-1475 | the live total lies in 0..32 |
| Calculator.RiskCalculator.ValidateForm | frontend/app/page.tsx:1190-1242 | returns Errors of the form, and a message is returned iff the form breaks its rule |
| Calculator.RiskCalculator.ClearAllFields | frontend/app/page.tsx:1244-1266 | the form becomes the cleared form; views, errors, storage and sent payloads are unchanged |
| Calculator.RiskCalculator.HandleCalculate | frontend/app/page.tsx:1268-1350 | form unchanged; on errors, shows them and stores/sends nothing; otherwise stores BuildResults of the form, appends BuildPayload of the form and shows the results; keeps the results view backed by stored results |
| Calculator.RiskCalculator.HandleRecalculate | frontend/app/page.tsx:1352-1356 | clears the form and leaves the results view; nothing else changes; the results-view invariant holds |
| Calculator.RiskCalculator.HandleBack | frontend/app/page.tsx:1358-1361 | leaves the results view with the form intact; the results-view invariant holds |
| HealthViews.Missing | backend/health/views.py:16 | a key is missing iff it is required and absent |
| HealthViews.Absent | backend/health/views.py:16 | a number or a boolean (0 and False included) is never absent; a string is absent exactly when it is empty |
| HealthViews.MissingFrom | backend/health/views.py:16 | a key is reported iff it is required and absent (missing, None or ""); the list is no longer than the required list |
| HealthViews.MissingIsSubsequence | backend/health/views.py:16 | missing keys keep the order of the required list |
| HealthViews.MissingDistinct | backend/health/views.py:16 | no key is reported twice |
| HealthViews.RequiredDistinct | backend/health/views.py:15 | the required list has no duplicates |
| HealthViews.MissingEmptyIff | backend/health/views.py:16-17 | nothing is missing iff every required key holds a present value |
| HealthViews.OnlyRequiredKeysMatter | backend/health/views.py:15-16 | keys outside the required list never change what is missing |
| HealthViews.ZeroAndFalseArePresent | backend/health/views.py:16 | 0 and false are present values |
| HealthViews.NameReadsBack | backend/health/views.py:15 | the length and first letter of each key name identify the key |
| HealthViews.NameInjective | backend/health/views.py:15 | distinct keys have distinct names |
| HealthViews.Quoted | backend/health/views.py:18 | the repr of the list between its brackets is empty iff the list is |
| HealthViews.QuotedInjective | backend/health/views.py:18 | distinct key lists have distinct reprs |
| HealthViews.MissingMessage | backend/health/views.py:18 | the error text starts with "Missing fields: [" and ends with "]" |
| HealthViews.MissingMessageInjective | backend/health/views.py:18 | the text determines the missing keys and their order: different lists never give the same message |
| HealthViews.MissingMessageExample | backend/health/views.py:18 | age and fbs missing give "Missing fields: ['age', 'fbs']" |
| HealthViews.Insert | backend/health/views.py:21-47 | the create call raises a TypeError when a keyword names no field of the record, and otherwise gives what the database gives |
| HealthViews.InsertAsWrittenAlwaysRaises | backend/health/views.py:21-49 | with the fields `DiabetesRecord` declares, the create call always raises, so save_record never answers 201 |
| HealthViews.InsertWithVitalsFields | backend/health/views.py:21-51 | with systolic, diastolic and pulse declared as fields, the create call reaches the database and save_record answers as `SaveRecord` with that outcome |
| HealthViews.SaveRecord | backend/health/views.py:12-51 | 201 iff nothing is missing and the insert succeeds, else 400; missing keys give the missing-fields text; an insert error gives its text; 201 carries "saved" and the id |
| HealthViews.SavedOnlyWhenComplete | backend/health/views.py:15-22 | a 201 implies every required key is present and non-empty; with a key missing, the database is never consulted |
| Wire.Encode | frontend/app/page.tsx:1340 | the JSON body has exactly the 17 payload keys |
| Wire.EncodeFields | frontend/app/page.tsx:1314-1333 | the body has exactly the 17 payload keys, each with its field's value |
| Wire.Decode | backend/health/views.py:22-46 | a request the view reads as a payload has all 17 keys, and each key holds exactly the payload field it is read into |
| Wire.DecodeEncode | backend/health/views.py:22-46 | the view reads back every field that was sent |
| Wire.EncodedPayloadComplete | backend/health/views.py:15-17 | a payload with a sex and a risk label misses no required key |
| Wire.SentPayloadAccepted | backend/health/views.py:15-51 | every payload the form sends is complete, so the answer is 201 iff the insert succeeds |
| Wire.EmptyLabelRejected | backend/health/views.py:16-18 | an empty risk label, which the form never sends, is reported missing and answered 400 |

## Left out

- The session-storage write and the `fetch` POST are modelled as the `stored` slot and the `sent` list of `RiskCalculator`. Their failure handling (`try`/`catch` with console logging) is not modelled, nor is reading the response.
- The results page's JSON round trip of the stored record is not modelled, nor is the parse-failure path of the render-time read (frontend/app/page.tsx:1363-1383). `ResultsView` takes the form data as a value. `RiskCalculator.ResultsAvailable` states that the slot holds results whenever the results view is on. That holds only because the model's session-storage write cannot fail. In the code a failing `setItem` is swallowed (frontend/app/page.tsx:1308-1312), the view is switched on anyway. If the slot is then empty, the render falls back to the form (1372-1381). If it still holds the record of an earlier calculation, that stale record is shown instead.
- `parseInt` and `parseFloat` are not modelled. Each `Entry` carries its parse results, with `None` standing for NaN. `Inputs.Parses` ties the results to the text only partly: a blank text parses to NaN, and `parseInt` succeeds only where `parseFloat` does. `Inputs.Reachable` adds that the selects hold one of their options and that the BMI is calculated. The operations accept every `Form`, reachable or not, as the code's functions would.
- Numbers are exact reals, not IEEE doubles. Rounding of `2.54`, of the BMI quotient and of `toFixed` on binary fractions is not modelled, and neither is infinity (a non-finite number serialises as JSON null).
- Measurements.Round1: rounds halves up. This matches `toFixed(1)` on the non-negative quotients it is applied to, but not on negative values, which never reach it.
- The BMI used by the results page (`data.formData?.bmi || 0`) is the stored effective BMI. The page's fallback to 0 is not modelled separately.
- Rendering is not modelled: the loading flag, `scrollTo`, the error modal's markup, colours and icons, and the highlighted rows of the reference tables. `Findrisc.Advice` gives the advice texts. Only their distinctness is stated (`Findrisc.AdviceDistinct`).
- The unit buttons and yes/no toggles are modelled by their two reachable values. The form has no control that sets `bmiInput` to "direct", but the model keeps that branch because the code has it.
- HandleCalculate (`Calculator.RiskCalculator.HandleCalculate`): the code `await`s the POST (frontend/app/page.tsx:1334-1346) before `setShowResults(true)` (1348), so the results view appears only once the request has settled. The model stores, sends and switches the view in one step. It does not capture the interval in between, or a second click during it.
- The form's 21 React state cells are one `Form` record field. React applies a handler's setters together at the next render, so one assignment of the record has the same effect.
- The request body is modelled on the 17 keys the view reads. Other keys never affect the answer, as `HealthViews.OnlyRequiredKeysMatter` states.
- SaveRecord (`HealthViews.SaveRecord`): with the record's fields as declared in backend/health/models.py:6-54, inserting the form's payload raises, because the create call passes `systolic`, `diastolic` and `pulse` (backend/health/views.py:22-46), which the record does not declare. So the 201 branch of `Wire.SentPayloadAccepted` is reached only through the `db` parameter, that is, with those fields added (`HealthViews.InsertWithVitalsFields`); see "## Findings".
- `DiabetesRecord.objects.create` is a parameter of `SaveRecord`: either the inserted id or the exception text. Field validation by the model is not modelled. For example, `physical_activity` is declared as a BooleanField while the form sends a string, and that conversion is not modelled.
- `Wire.Decode` checks the JSON types of the values. It does not model Django's coercion into model fields.

## Findings

| source | as written | input that shows it | evidently intended | confidence | as-written member | corrected member |
|---|---|---|---|---|---|---|
| backend/health/views.py:22-46 | the create call passes `systolic`, `diastolic` and `pulse`, which `DiabetesRecord` (backend/health/models.py:6-54) does not declare, so Django's model constructor raises a TypeError and the view answers 400 with its text | any complete request, e.g. every payload the form sends | the record stores the three vitals, so a complete request is saved and answered 201 | high (not executed; Django's refusal of unknown keyword arguments) | HealthViews.InsertAsWrittenAlwaysRaises | HealthViews.InsertWithVitalsFields |
