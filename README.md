# UroDiag analysis engine and data validator, in Dafny

UroDiag is a teaching and decision-support tool for reading urodynamic
examinations. This project models its two core files:

- `analyserUrodynamique` (src/data/urodynamicData.ts). It computes the five
  pressure-flow indices and the Schäfer and Abrams-Griffiths nomograms. It
  resolves one of seventeen French diagnosis labels through a
  priority-ordered rule chain, then rates its confidence. It then generates
  five guidance lists (recommendations, further examinations, treatments,
  surveillance, interpretation pitfalls) by case-sensitive substring tests
  on the diagnosis label, and raises the critical alerts.
- `validerDonneesUrodynamiques`, `validerCoherenceTemplateSexe` and
  `nettoyerAvertissementsTemplate` (src/data/validation.ts). These check an
  entered record for sex-incoherent tags, physically impossible values and
  implausible values. A template choice can be checked against the sex, and
  a template warning can be withdrawn.

How the model is built:

- Every generator, the alert detector and the validator is a method that
  pushes onto a list, as the source does. Each is proved equal to a
  specification function written as a chain of conditional pushes
  (`Strings.PushIf`).
- The properties are lemmas about those functions. They state which item
  appears under which condition, the order of items, size bounds, and what
  each diagnosis receives.
- Three of the shipped teaching cases (2, 6 and 11 of
  src/data/clinicalCases.ts) are written out as records. Their diagnosis,
  confidence, alerts and validation results are proved.

Modules:

- `Patient`: the examination record.
- `Diagnoses`: the seventeen labels.
- `LabelFacts`: a table of which dispatch keys each label contains.
- `Indices`
- `Nomograms`
- `Resolver`: `determinerDiagnostic`.
- `Certainty`
- `Guidance`: the five generators.
- `Alerts`
- `Validation`
- `Analysis`: the composition, plus cross-checks between the engine and the validator.
- `ClinicalCases`
- `Strings`: `includes`, `filter`, `some`, conditional push.

Facts this model makes explicit about the source, all as written:

- Dispatch is by case-sensitive `includes` on the returned label.
  - The key `'Douloureux vésical'` never matches the label
    `Syndrome douloureux vésical/Cystite interstitielle`, so hyaluronic acid
    is never proposed (`Guidance.NoHyaluronicAcidForAnyDiagnosis`).
  - The key `'neurologique'` never matches `... neurogenique`.
  - The dyssynergia label spells `obstruction` in lower case, so it gets no
    annual free-flow follow-up.
- The resolver tests the exact history tag `HBP`: case 11's
  `HBP évoluée` is labelled subvesical rather than prostatic.
- On the Schäfer nomogram the point Qmax = 10, Pdet = 50 lies on the
  border of the strong-obstruction zone. The code's strict comparisons
  classify it as `Obstruction modérée`, and the model follows the code
  (`Nomograms.NomogramBoundaries`).

## Model

| member | source | states |
|---|---|---|
| Indices.Quotient | src/data/urodynamicData.ts:50-59 | a JavaScript division is finite exactly when the divisor is non-zero, and then multiplies back to the dividend |
| Indices.ComputeIndices | src/data/urodynamicData.ts:38-62 | the record has exactly the five keys; obstruction index is Pdet−2·Qmax, contractility Pdet+5·Qmax; each ratio is finite iff its divisor is non-zero |
| Indices.ContractilityExceedsObstruction | src/data/urodynamicData.ts:42-47 | the contractility and obstruction indices differ by exactly 7·Qmax |
| Indices.ResistanceConductanceReciprocal | src/data/urodynamicData.ts:50-55 | with non-zero Qmax and Pdet, resistance × conductance = 1 |
| Indices.FlowRatioBounded | src/data/urodynamicData.ts:58-59 | with 0 ≤ Qmean ≤ Qmax and Qmax > 0 the Qmean/Qmax ratio lies in [0, 1] |
| Nomograms.SchaferOf | src/data/urodynamicData.ts:67-79 | each Schäfer severity level is reached exactly when its Qmax/Pdet thresholds hold |
| Nomograms.AbramsGriffithsOf | src/data/urodynamicData.ts:81-89 | obstructed iff index > 40, unobstructed iff index ≤ 20 |
| Nomograms.EvaluateNomograms | src/data/urodynamicData.ts:64-92 | both nomograms are always filled, with the zones above |
| Nomograms.SchaferMonotone | src/data/urodynamicData.ts:71-79 | less flow at more pressure is never a milder Schäfer zone |
| Nomograms.AbramsGriffithsMonotone | src/data/urodynamicData.ts:82-89 | a larger obstruction index is never a milder zone |
| Nomograms.NomogramBoundaries | src/data/urodynamicData.ts:71-89 | the strict boundaries: (10, 60) and (10, 50) are moderate, (20, 20) normal; index 40 equivocal, 41 obstructed, 20 unobstructed |
| Resolver.Lookup | src/data/urodynamicData.ts:101-102 | a read of the index record yields a number exactly when the key is present and finite |
| Resolver.Resolve | src/data/urodynamicData.ts:94-200 | a mixed label is returned iff the mixed signs are present; within mixed, the contraction and closure components decide the sub-label |
| Resolver.ChainIsFirstMatch | src/data/urodynamicData.ts:122-199 | the nested chain equals the verdict of the first firing rule of the seventeen-rule table, normal function as fallback |
| Resolver.ResolveFollowsTable | src/data/urodynamicData.ts:94-200 | the diagnosis of any record, index record and nomograms is the first firing rule of that table |
| Resolver.FirstMatchAt | src/data/urodynamicData.ts:122-199 | whichever rule fires first decides the verdict |
| Resolver.LookupComputedIndices | src/data/urodynamicData.ts:101-102 | on the engine's own indices the resolver reads the two finite index values |
| Resolver.SevereObstructionMatchesNomogram | src/data/urodynamicData.ts:136-144 | the three severe-obstruction labels are returned iff there are no mixed signs and Abrams-Griffiths says obstructed |
| Resolver.MixedIgnoresIndices | src/data/urodynamicData.ts:123-133 | with mixed signs the verdict does not depend on the indices or nomograms |
| Certainty.Confidence | src/data/urodynamicData.ts:202-215 | high iff all three quality criteria hold; low iff fewer than two hold |
| Certainty.ConfidenceIgnoresDiagnosis | src/data/urodynamicData.ts:202 | the diagnosis argument never changes the confidence |
| Certainty.ExactPressuresGiveHighWhenMeasurable | src/data/urodynamicData.ts:205-214 | with Pves = Pdet + Pabd, high iff volume and capacity suffice; not low iff either does |
| Guidance.ProfileOfLabel | src/data/urodynamicData.ts:217-580 | on every resolver label, the generators' substring tests agree with the diagnosis categories |
| Guidance.ProstaticRecommendations | src/data/urodynamicData.ts:220-232 | the prostatic block adds the alpha-blocker, plus TURP when Pdet at Qmax > 60, and nothing otherwise |
| Guidance.ProlapseRecommendations | src/data/urodynamicData.ts:235-252 | the prolapse block adds rehabilitation and POP-Q, plus surgery when residual > 50 or Pdet > 40 |
| Guidance.StressRecommendations | src/data/urodynamicData.ts:283-311 | the stress/mixed block adds the mixed or the stress rehabilitation, the prolapse assessment for mixed, the sling when closure < 20 |
| Guidance.GenerateRecommendations | src/data/urodynamicData.ts:217-336 | the pushes produce exactly the recommendation list of the label's dispatch keys |
| Guidance.TurpCondition | src/data/urodynamicData.ts:226-232 | TURP is recommended iff prostatic and Pdet at Qmax > 60 |
| Guidance.ProlapseSurgeryCondition | src/data/urodynamicData.ts:246-251 | prolapse surgery iff prolapse key and (residual > 50 or Pdet > 40) |
| Guidance.StressRehabilitationCondition | src/data/urodynamicData.ts:285-296 | mixed rehabilitation iff mixed; stress rehabilitation iff stress and not mixed |
| Guidance.ProlapseRehabilitationCondition | src/data/urodynamicData.ts:235-240 | prolapse rehabilitation iff the prolapse key |
| Guidance.SlingCondition | src/data/urodynamicData.ts:305-310 | sling iff (stress or mixed) and closure < 20 |
| Guidance.RecommendationsSize | src/data/urodynamicData.ts:217-336 | at most 17 items; empty iff no recommendation key matches |
| Guidance.RehabilitationNotRepeated | src/data/urodynamicData.ts:235-296 | no diagnosis receives both prolapse and stress rehabilitation |
| Guidance.RecommendationsEmptyFor | src/data/urodynamicData.ts:217-336 | exactly five diagnoses (subvesical, equivocal, painful bladder, incomplete emptying, normal) get no recommendation |
| Guidance.GenerateExams | src/data/urodynamicData.ts:338-395 | the pushes produce exactly the examination list of the label's dispatch keys |
| Guidance.RenalUltrasoundCondition | src/data/urodynamicData.ts:366-371 | renal ultrasound iff residual > 100 |
| Guidance.SpinalMriCondition | src/data/urodynamicData.ts:373-378 | spinal MRI iff neurological key or spinal history |
| Guidance.CystoscopyCondition | src/data/urodynamicData.ts:387-392 | cystoscopy iff haematuria or the cystitis key |
| Guidance.PelvicMriConditions | src/data/urodynamicData.ts:354-385 | the prolapse pelvic MRI iff prolapse; the stress pelvic MRI iff stress or mixed |
| Guidance.ExamsSize | src/data/urodynamicData.ts:338-395 | at most eight examinations |
| Guidance.SpinalMriFromHistoryOnly | src/data/urodynamicData.ts:373-378 | for every resolver label, spinal MRI comes from the history alone |
| Guidance.CystoscopyForDiagnosis | src/data/urodynamicData.ts:387-392 | cystoscopy iff haematuria or the painful-bladder diagnosis |
| Guidance.PelvicMriNotRepeated | src/data/urodynamicData.ts:354-385 | no diagnosis receives both pelvic MRIs |
| Guidance.ProstaticTreatments | src/data/urodynamicData.ts:426-438 | the prostatic block adds tamsulosin, plus finasteride when urethral pressure > 80 |
| Guidance.ProlapseTreatments | src/data/urodynamicData.ts:441-456 | the prolapse block adds the pessary (age > 70 or contraindication) and the repair (Pdet > 40 or residual > 80) |
| Guidance.GenerateTreatments | src/data/urodynamicData.ts:397-473 | the pushes produce exactly the treatment list of the label's dispatch keys |
| Guidance.FinasterideCondition | src/data/urodynamicData.ts:426-438 | finasteride iff prostatic and urethral pressure > 80, and never without tamsulosin |
| Guidance.PessaryCondition | src/data/urodynamicData.ts:443-449 | pessary iff prolapse and (age > 70 or surgical contraindication) |
| Guidance.HyaluronicAcidCondition | src/data/urodynamicData.ts:465-470 | hyaluronic acid iff the `Douloureux vésical` key |
| Guidance.DrugFamilyConditions | src/data/urodynamicData.ts:400-463 | solifenacin iff overactivity or mixed; duloxetine iff stress or mixed |
| Guidance.TreatmentsSize | src/data/urodynamicData.ts:397-473 | at most ten treatments |
| Guidance.NoHyaluronicAcidForAnyDiagnosis | src/data/urodynamicData.ts:465-470 | no resolver label ever receives hyaluronic acid |
| Guidance.PessaryForDiagnosis | src/data/urodynamicData.ts:441-449 | only prolapse obstruction can receive the pessary, under the age/contraindication condition |
| Guidance.MixedReceivesBothDrugFamilies | src/data/urodynamicData.ts:400-463 | every mixed label receives both solifenacin and duloxetine |
| Guidance.GenerateSurveillance | src/data/urodynamicData.ts:475-514 | the pushes produce exactly the surveillance plan of the label's dispatch keys |
| Guidance.SurveillanceShape | src/data/urodynamicData.ts:475-514 | one to five items, always starting with the bladder diary |
| Guidance.SurveillanceConditions | src/data/urodynamicData.ts:483-511 | residual follow-up iff residual > 50; six-month flow iff prolapse; renal function iff neurological key or history; annual flow iff `Obstruction` |
| Guidance.SurveillanceForDiagnosis | src/data/urodynamicData.ts:499-511 | for every label: renal function from history alone, annual flow iff an `Obstruction…` label, never for dyssynergia |
| Guidance.StressPitfalls | src/data/urodynamicData.ts:562-577 | the stress/mixed block adds the sphincter pitfall (mixed or closure < 20) and the effort-versus-urgency pitfall (mixed) |
| Guidance.GeneratePitfalls | src/data/urodynamicData.ts:516-580 | the pushes produce exactly the pitfall list of the label's dispatch keys |
| Guidance.PitfallsShape | src/data/urodynamicData.ts:516-580 | one to nine pitfalls, always starting with the small-volume caution |
| Guidance.StrainingPitfallCondition | src/data/urodynamicData.ts:537-542 | the straining pitfall iff the flow curve is intermittent |
| Guidance.FillingArtefactPitfallCondition | src/data/urodynamicData.ts:544-549 | the filling-artefact pitfall iff involuntary contractions |
| Guidance.StressPitfallConditions | src/data/urodynamicData.ts:562-577 | sphincter pitfall iff mixed or (stress and closure < 20); effort-versus-urgency iff mixed |
| Guidance.SphincterPitfallForDiagnosis | src/data/urodynamicData.ts:562-577 | per label: the sphincter pitfall iff mixed, or sphincter stress incontinence with closure < 20 |
| Alerts.DetectCriticalAlerts | src/data/urodynamicData.ts:582-602 | the pushes produce exactly the alert list of the four thresholds |
| Alerts.AlertConditions | src/data/urodynamicData.ts:585-599 | each alert iff its threshold: residual > 200, Pdet > 80, compliance < 10, closure < 10 in a woman |
| Alerts.AlertsOrdered | src/data/urodynamicData.ts:582-602 | alerts appear in check order, each at most once, at most four; none iff no threshold is crossed |
| Alerts.NoSphincterAlertForMen | src/data/urodynamicData.ts:597-599 | a man never receives the sphincter alert |
| Analysis.Analyse | src/data/urodynamicData.ts:12-36 | the result is the composition: indices, nomograms, the diagnosis resolved on them, its confidence, the five lists dispatched on its label, and the alerts |
| Analysis.AnalysisReportsItsInputs | src/data/urodynamicData.ts:14-16 | the reported diagnosis is the resolver's verdict on the reported indices and nomograms |
| Analysis.AnalysisAlwaysAdvises | src/data/urodynamicData.ts:475-580 | surveillance always starts with the diary and pitfalls with the small-volume caution |
| Analysis.MixedAnalysisTreatsBothComponents | src/data/urodynamicData.ts:123-133 | with mixed signs the analysis proposes both an anticholinergic and duloxetine |
| Analysis.ComplianceAlertIffWarning | src/data/urodynamicData.ts:593-595 | the compliance alert fires iff the validator's compliance warning does |
| Analysis.ResidualAlertImpliesWarning | src/data/urodynamicData.ts:585-587 | a residual alert implies the validator's high-residual warning |
| Analysis.DetrusorWarningImpliesAlert | src/data/urodynamicData.ts:589-591 | the validator's detrusor-pressure warning implies the engine's alert |
| Analysis.CoherentRecordConfidence | src/data/urodynamicData.ts:202-215 | on a record the validator accepts, confidence is high iff volume > 200 and capacity > 150 |
| Validation.ValidateRecord | src/data/validation.ts:5-146 | the pushes produce exactly the error and warning lists; coherent iff no error |
| Validation.CoherentIffConsistent | src/data/validation.ts:10-106 | a record is coherent iff every sex, arithmetic and ordering invariant holds |
| Validation.ErrorsBound | src/data/validation.ts:10-106 | at most ten errors |
| Validation.WarningsBound | src/data/validation.ts:26-139 | at most nine warnings |
| Validation.MaleHistoryErrorCarriesTags | src/data/validation.ts:13-17 | a man's history error exists iff female tags are present, and lists exactly them |
| Validation.FemaleHistoryErrorCarriesTags | src/data/validation.ts:18-22 | a woman's history error exists iff male tags are present, and lists exactly them |
| Validation.HistoryErrors | src/data/validation.ts:13-23 | adds nothing but, when the record holds history tags of the other sex, the one error of the patient's sex naming exactly those tags; at most one error |
| Validation.UrethralLengthErrors | src/data/validation.ts:58-62 | adds nothing but the short-urethra error (man, < 150 mm) or the long-urethra error (woman, > 60 mm) with the measured length; at most one |
| Validation.MeasurementErrors | src/data/validation.ts:76-90 | adds exactly the pressure-sum, mean-flow, closure and functional-length errors whose relation is violated, with the record's values; at most four |
| Validation.OrderingErrors | src/data/validation.ts:92-106 | adds exactly the residual, time-to-Qmax, first-desire and normal-desire errors whose relation is violated, with the record's values; at most four |
| Validation.SexTagWarnings | src/data/validation.ts:29-54 | adds exactly the symptom and treatment warnings of the patient's sex whose tag list of the other sex is non-empty, naming those tags; at most two |
| Validation.UrethralPressureWarnings | src/data/validation.ts:65-73 | adds nothing but the pressure warning of the patient's sex when the pressure leaves that sex's range; at most one |
| Validation.PlausibilityWarnings | src/data/validation.ts:109-139 | adds exactly those of the eight plausibility warnings whose threshold is crossed, with the record's values; at most six |
| Validation.PressureSumChecked | src/data/validation.ts:76-78 | the pressure-sum error iff Pves ≠ Pdet + Pabd exactly |
| Validation.ResidualChecked | src/data/validation.ts:92-94 | the residual error iff residual > voided volume |
| Validation.TimeToQmaxSkippedWhenFalsy | src/data/validation.ts:96-98 | an absent or zero time to Qmax never gives the time error |
| Validation.TimeToQmaxCheckedWhenTruthy | src/data/validation.ts:96-98 | with a present, non-zero time to Qmax, the time error iff that time > the voiding time |
| Validation.UrethraTooShortChecked | src/data/validation.ts:58-59 | the short-urethra error, for any length, iff the patient is male and the length is the measured one and is below 150 mm |
| Validation.UrethraTooLongChecked | src/data/validation.ts:60-62 | the long-urethra error, for any length, iff the patient is female and the length is the measured one and is above 60 mm |
| Validation.MeanFlowChecked | src/data/validation.ts:80-82 | the mean-flow error iff Qmoyen > Qmax |
| Validation.ClosureChecked | src/data/validation.ts:84-86 | the closure-pressure error iff closure pressure > urethral pressure |
| Validation.FunctionalLengthChecked | src/data/validation.ts:88-90 | the functional-length error iff functional length > urethral length |
| Validation.FirstDesireChecked | src/data/validation.ts:100-102 | the first-desire error iff first desire > normal desire |
| Validation.NormalDesireChecked | src/data/validation.ts:104-106 | the normal-desire error iff normal desire > bladder capacity |
| Validation.TagsDoNotAffectErrors | src/data/validation.ts:26-55 | symptoms and treatments never change the errors |
| Validation.ComplianceWarningCondition | src/data/validation.ts:117-119 | the compliance warning iff compliance < 10 |
| Validation.ResidualWarningCondition | src/data/validation.ts:129-131 | the residual warning iff residual > 100 |
| Validation.MaleSymptomWarningCarriesTags | src/data/validation.ts:29-33 | a man's symptom warning, for any tag list, iff the list is exactly the female symptoms held and is non-empty |
| Validation.FemaleSymptomWarningCarriesTags | src/data/validation.ts:34-38 | a woman's symptom warning, for any tag list, iff the list is exactly the male symptoms held and is non-empty |
| Validation.MaleTreatmentWarningCarriesTags | src/data/validation.ts:45-49 | a man's treatment warning, for any tag list, iff the list is exactly the female treatments held and is non-empty |
| Validation.FemaleTreatmentWarningCarriesTags | src/data/validation.ts:50-54 | a woman's treatment warning, for any tag list, iff the list is exactly the male treatments held and is non-empty |
| Validation.MaleUrethralPressureWarningCondition | src/data/validation.ts:65-67 | the male pressure warning, for any value, iff the patient is male, the value is the measured one and lies outside 40-150 |
| Validation.FemaleUrethralPressureWarningCondition | src/data/validation.ts:69-71 | the female pressure warning, for any value, iff the patient is female, the value is the measured one and lies outside 30-120 |
| Validation.LowQmaxWarningCondition | src/data/validation.ts:109-111 | the low-Qmax warning iff Qmax < 5 |
| Validation.HighQmaxWarningCondition | src/data/validation.ts:113-115 | the high-Qmax warning iff Qmax > 35 |
| Validation.SmallCapacityWarningCondition | src/data/validation.ts:121-123 | the small-capacity warning iff capacity < 200 |
| Validation.LargeCapacityWarningCondition | src/data/validation.ts:125-127 | the large-capacity warning iff capacity > 800 |
| Validation.DetrusorPressureWarningCondition | src/data/validation.ts:133-135 | the detrusor-pressure warning iff Pdet at Qmax > 100 |
| Validation.ProlongedVoidingWarningCondition | src/data/validation.ts:137-139 | the prolonged-voiding warning iff voiding time > 120 |
| Validation.TemplateSexMismatch | src/data/validation.ts:148-164 | any message names the template asked for |
| Validation.TemplateMismatchExactly | src/data/validation.ts:149-163 | a message iff the prostatic template for a woman; the female-only message is never produced |
| Validation.CleanTemplateWarnings | src/data/validation.ts:167-171 | the kept warnings are exactly those without the dyssynergia phrase, in order, as a subsequence, each kept warning as many times as in the input |
| Validation.CleanIdempotent | src/data/validation.ts:167-171 | cleaning twice equals cleaning once |
| Validation.CleanKeepsUnaffected | src/data/validation.ts:167-171 | a list without the phrase is returned unchanged |
| ClinicalCases.Case2Diagnosis | src/data/clinicalCases.ts:94-170 | case 2 is a benign prostatic obstruction |
| ClinicalCases.Case2Validation | src/data/clinicalCases.ts:94-170 | case 2 is coherent, with no warning |
| ClinicalCases.Case2Analysis | src/data/clinicalCases.ts:94-170 | case 2: high confidence, no alert, alpha-blocker and TURP |
| ClinicalCases.Case6Diagnosis | src/data/clinicalCases.ts:430-506 | case 6 is combined mixed incontinence |
| ClinicalCases.Case6Validation | src/data/clinicalCases.ts:430-506 | case 6 is coherent, with no warning |
| ClinicalCases.Case6Analysis | src/data/clinicalCases.ts:430-506 | case 6: high confidence, no alert, both drug families |
| ClinicalCases.Case11Diagnosis | src/data/clinicalCases.ts:850-926 | case 11 is a subvesical obstruction (its `HBP évoluée` is not `HBP`) |
| ClinicalCases.Case11Validation | src/data/clinicalCases.ts:850-926 | case 11 is incoherent: one residual error, compliance and residual warnings |
| ClinicalCases.Case11Analysis | src/data/clinicalCases.ts:850-926 | case 11: moderate confidence, three alerts in check order |

## Left out

- Tooltips and message texts. Every list item is a constructor. Its
  `Label()`/`Text()` holds the source string where one is compared or
  returned. Validator messages carry only the values the source
  interpolates, not the sentence or the `join(', ')` formatting.
- Floating point. Numbers are exact reals. So `Pves !== Pdet + Pabd` is
  exact equality, and rounding of decimal inputs is not modelled.
  Divisions by zero become a non-finite index value instead of
  Infinity/NaN.
- The index fields stored in the form (`indexObstruction`,
  `indexContractilite`, `resistanceUretrale`, `conductanceUretrale`) are
  kept in the record. The engine never reads them.
- The user interface, PDF export, quiz pages, templates and question
  bank. src/data/templates.ts, src/data/questions.ts and
  src/data/constants.ts are not part of this model. Only three of the
  clinical cases are written out.
- Resolver.Resolve: its ensures covers only the mixed short-circuit. The
  full behaviour is stated by `Resolver.ResolveFollowsTable` against the
  rule table.
- Validation.HistoryErrors, Validation.UrethralLengthErrors,
  Validation.MeasurementErrors, Validation.OrderingErrors,
  Validation.SexTagWarnings, Validation.UrethralPressureWarnings,
  Validation.PlausibilityWarnings: each states which messages the section
  adds and how many at most, not their positions. The push order is
  fixed by the bodies, and `Validation.ValidateRecord` is proved to
  produce exactly these lists.
- Each compound `if` block of a generator or of the validator is a helper
  method of its own (`Guidance.PushProstaticRecommendations`,
  `Validation.CheckHistory`, …). Each is proved equal to its section of
  the specification, so the composed method keeps the source's push order.
