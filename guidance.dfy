/**
 * The five guidance generators of the analysis engine
 * (`genererRecommandations`, `genererExamensComplementaires`,
 * `genererTraitements`, `genererSurveillance`, `genererPieges`). Each one
 * builds a list by conditional pushes, choosing blocks by case-sensitive
 * `includes` tests on the diagnosis text.
 *
 * Every item is a constructor carrying the exact label of the source; the
 * tooltip text of each item is not modelled.
 */
module Guidance {
  import opened Strings
  import opened Patient
  import opened Diagnoses
  import opened LabelFacts

  // ---------------------------------------------------------------------
  // Which dispatch keys a diagnosis text contains.

  datatype KeyProfile = KeyProfile(
    prostatic: bool, prolapse: bool, overactivity: bool, mixed: bool,
    hypocontractility: bool, stress: bool, dyssynergia: bool, neurological: bool,
    cystitis: bool, painful: bool, obstruction: bool)

  /** The outcome of every `includes` test the generators make on `dx`. */
  function ProfileOf(dx: string): KeyProfile {
    KeyProfile(Contains(dx, ProstaticKey), Contains(dx, ProlapseKey), Contains(dx, OveractivityKey),
               Contains(dx, MixedKey), Contains(dx, HypocontractilityKey), Contains(dx, StressKey),
               Contains(dx, DyssynergiaKey), Contains(dx, NeurologicalKey), Contains(dx, CystitisKey),
               Contains(dx, PainfulCapitalKey), Contains(dx, ObstructionKey))
  }

  /** The same outcomes, stated by diagnosis category instead of by text. */
  function DiagnosisProfile(d: Diagnosis): KeyProfile {
    KeyProfile(d.IsProstatic(), d.ProlapseObstruction?, d.IsOveractivity(), d.IsMixed(),
               d.DetrusorHypocontractility?, d.SphincterStressIncontinence?, d.DyssynergiaObstruction?,
               false, d.PainfulBladder?, false, d.IsObstruction())
  }

  /** On a resolver label the text tests agree with the categories. */
  lemma ProfileOfLabel(d: Diagnosis)
    ensures ProfileOf(d.Label()) == DiagnosisProfile(d)
  {
    DispatchFacts(d);
  }

  // ---------------------------------------------------------------------
  // genererRecommandations

  datatype Recommendation =
    | AlphaBlockers | Turp | PelvicFloorRehabProlapse | PopQAssessment | ProlapseSurgery
    | BladderTraining | Anticholinergics | DoubleVoiding | SelfCatheterisationIfResidual
    | RenalMonitoring | PelvicFloorRehabMixed | PelvicFloorRehabStress | ProlapseAssessment
    | Sling | SelfCatheterisation | AnticholinergicsForDyssynergia | BotulinumToxin | PerinealEmg
  {
    function Label(): string {
      match this
      case AlphaBlockers => "Traitement médical par alpha-bloquants en première intention"
      case Turp => "Envisager traitement chirurgical (RTUP) si échec médical"
      case PelvicFloorRehabProlapse => "Rééducation périnéale spécialisée en première intention"
      case PopQAssessment => "Évaluation pelvienne complète avec classification POP-Q"
      case ProlapseSurgery =>
        "Traitement chirurgical du prolapsus en cas d’échec de la rééducation ou de symptômes invalidants"
      case BladderTraining => "Rééducation vésicale et techniques comportementales"
      case Anticholinergics => "Anticholinergiques si échec des mesures comportementales"
      case DoubleVoiding => "Apprentissage des manœuvres de double miction"
      case SelfCatheterisationIfResidual => "Auto-sondages intermittents propres si RPM > 100 ml persistant"
      case RenalMonitoring => "Surveillance régulière de la fonction rénale et du haut appareil urinaire"
      case PelvicFloorRehabMixed =>
        "Rééducation périnéale spécialisée en première intention, ciblée en cas de fuites d'effort persistantes"
      case PelvicFloorRehabStress => "Rééducation périnéale spécialisée en première intention"
      case ProlapseAssessment => "Évaluation du prolapsus si incontinence persistante malgré traitement"
      case Sling => "Chirurgie anti-incontinence (bandelette sous-urétrale)"
      case SelfCatheterisation => "Auto-sondages intermittents propres"
      case AnticholinergicsForDyssynergia => "Anticholinergiques pour contrôler l'hyperactivité détrusorienne"
      case BotulinumToxin =>
        "Toxine botulique intra-détrusorienne en cas d'hyperactivité détrusorienne réfractaire ou d'intolérance aux anticholinergiques"
      case PerinealEmg => "EMG périnéal conseillé pour confirmer une dyssynergie vraie"
    }
  }

  /** The prostatic block: alpha-blockers, then TURP when Pdet at Qmax exceeds 60. */
  function ProstaticRecommendations(s: seq<Recommendation>, p: PatientData, k: KeyProfile): (r: seq<Recommendation>)
    ensures forall x :: x in r <==> x in s || (k.prostatic && (x == AlphaBlockers || (x == Turp && p.PdetQmax() > 60.0)))
    ensures |s| <= |r| <= |s| + 2
    ensures |r| == |s| <==> !k.prostatic
  {
    var r := PushIf(s, k.prostatic, AlphaBlockers);
    PushIf(r, k.prostatic && p.PdetQmax() > 60.0, Turp)
  }

  /** The prolapse block: rehabilitation, POP-Q, then surgery on a residual above 50 or Pdet above 40. */
  function ProlapseRecommendations(s: seq<Recommendation>, p: PatientData, k: KeyProfile): (r: seq<Recommendation>)
    ensures forall x :: x in r <==> x in s || (k.prolapse && (x == PelvicFloorRehabProlapse || x == PopQAssessment
                                               || (x == ProlapseSurgery && (p.Residual() > 50.0 || p.PdetQmax() > 40.0))))
    ensures |s| <= |r| <= |s| + 3
    ensures |r| == |s| <==> !k.prolapse
  {
    var r := PushIf(s, k.prolapse, PelvicFloorRehabProlapse);
    var r := PushIf(r, k.prolapse, PopQAssessment);
    PushIf(r, k.prolapse && (p.Residual() > 50.0 || p.PdetQmax() > 40.0), ProlapseSurgery)
  }

  /**
   * The stress block, shared by stress and mixed incontinence: one merged
   * rehabilitation item (so that it is not pushed twice), the prolapse
   * assessment for mixed incontinence, and the sling below a closure pressure
   * of 20.
   */
  function StressRecommendations(s: seq<Recommendation>, p: PatientData, k: KeyProfile): (r: seq<Recommendation>)
    ensures forall x :: x in r <==> x in s || ((k.stress || k.mixed) &&
                                               ((x == PelvicFloorRehabMixed && k.mixed) || (x == PelvicFloorRehabStress && !k.mixed)
                                                || (x == ProlapseAssessment && k.mixed) || (x == Sling && p.Closure() < 20.0)))
    ensures |s| <= |r| <= |s| + 3
    ensures |r| == |s| <==> !(k.stress || k.mixed)
  {
    var stress := k.stress || k.mixed;
    var r := PushIf(s, stress && k.mixed, PelvicFloorRehabMixed);
    var r := PushIf(r, stress && !k.mixed, PelvicFloorRehabStress);
    var r := PushIf(r, stress && k.mixed, ProlapseAssessment);
    PushIf(r, stress && p.Closure() < 20.0, Sling)
  }

  /** The recommendations for a diagnosis text with the given key profile. */
  function Recommendations(p: PatientData, k: KeyProfile): seq<Recommendation> {
    var r := ProstaticRecommendations([], p, k);
    var r := ProlapseRecommendations(r, p, k);
    var r := PushIf(r, k.overactivity || k.mixed, BladderTraining);
    var r := PushIf(r, k.overactivity || k.mixed, Anticholinergics);
    var r := PushIf(r, k.hypocontractility, DoubleVoiding);
    var r := PushIf(r, k.hypocontractility, SelfCatheterisationIfResidual);
    var r := PushIf(r, k.hypocontractility, RenalMonitoring);
    var r := StressRecommendations(r, p, k);
    var r := PushIf(r, k.dyssynergia, SelfCatheterisation);
    var r := PushIf(r, k.dyssynergia, AnticholinergicsForDyssynergia);
    var r := PushIf(r, k.dyssynergia, BotulinumToxin);
    PushIf(r, k.dyssynergia, PerinealEmg)
  }

  /** The `Obstruction prostatique` block of `genererRecommandations`. */
  method PushProstaticRecommendations(p: PatientData, dx: string, recs: seq<Recommendation>) returns (r: seq<Recommendation>)
    ensures r == ProstaticRecommendations(recs, p, ProfileOf(dx))
  {
    r := recs;
    if Contains(dx, ProstaticKey) {
      r := r + [AlphaBlockers];
      if p.PdetQmax() > 60.0 {
        r := r + [Turp];
      }
    }
  }

  /** The `prolapsus génital` block of `genererRecommandations`. */
  method PushProlapseRecommendations(p: PatientData, dx: string, recs: seq<Recommendation>) returns (r: seq<Recommendation>)
    ensures r == ProlapseRecommendations(recs, p, ProfileOf(dx))
  {
    r := recs;
    if Contains(dx, ProlapseKey) {
      r := r + [PelvicFloorRehabProlapse];
      r := r + [PopQAssessment];
      if p.Residual() > 50.0 || p.PdetQmax() > 40.0 {
        r := r + [ProlapseSurgery];
      }
    }
  }

  /** The `Incontinence d'effort` / `mixte` block of `genererRecommandations`. */
  method PushStressRecommendations(p: PatientData, dx: string, recs: seq<Recommendation>) returns (r: seq<Recommendation>)
    ensures r == StressRecommendations(recs, p, ProfileOf(dx))
  {
    r := recs;
    if Contains(dx, StressKey) || Contains(dx, MixedKey) {
      if Contains(dx, MixedKey) {
        r := r + [PelvicFloorRehabMixed];
      } else {
        r := r + [PelvicFloorRehabStress];
      }
      if Contains(dx, MixedKey) {
        r := r + [ProlapseAssessment];
      }
      if p.Closure() < 20.0 {
        r := r + [Sling];
      }
    }
  }

  /** `genererRecommandations(data, diagnostic)`: six guarded blocks of pushes, in source order. */
  method GenerateRecommendations(p: PatientData, dx: string) returns (recs: seq<Recommendation>)
    ensures recs == Recommendations(p, ProfileOf(dx))
  {
    recs := PushProstaticRecommendations(p, dx, []);
    recs := PushProlapseRecommendations(p, dx, recs);
    if Contains(dx, OveractivityKey) || Contains(dx, MixedKey) {
      recs := recs + [BladderTraining];
      recs := recs + [Anticholinergics];
    }
    if Contains(dx, HypocontractilityKey) {
      recs := recs + [DoubleVoiding];
      recs := recs + [SelfCatheterisationIfResidual];
      recs := recs + [RenalMonitoring];
    }
    recs := PushStressRecommendations(p, dx, recs);
    if Contains(dx, DyssynergiaKey) {
      recs := recs + [SelfCatheterisation];
      recs := recs + [AnticholinergicsForDyssynergia];
      recs := recs + [BotulinumToxin];
      recs := recs + [PerinealEmg];
    }
  }

  /** TURP is suggested exactly for a prostatic diagnosis with Pdet at Qmax above 60. */
  lemma TurpCondition(p: PatientData, k: KeyProfile)
    ensures Turp in Recommendations(p, k) <==> k.prostatic && p.PdetQmax() > 60.0
  {
  }

  /** Prolapse surgery is suggested exactly for prolapse with a residual above 50 or Pdet above 40. */
  lemma ProlapseSurgeryCondition(p: PatientData, k: KeyProfile)
    ensures ProlapseSurgery in Recommendations(p, k) <==> k.prolapse && (p.Residual() > 50.0 || p.PdetQmax() > 40.0)
  {
  }

  /** The merged rehabilitation item: the targeted wording for mixed incontinence, the plain one otherwise. */
  lemma StressRehabilitationCondition(p: PatientData, k: KeyProfile)
    ensures PelvicFloorRehabMixed in Recommendations(p, k) <==> k.mixed
    ensures PelvicFloorRehabStress in Recommendations(p, k) <==> k.stress && !k.mixed
  {
  }

  /** The prolapse rehabilitation item is pushed exactly for the prolapse key. */
  lemma ProlapseRehabilitationCondition(p: PatientData, k: KeyProfile)
    ensures PelvicFloorRehabProlapse in Recommendations(p, k) <==> k.prolapse
  {
  }

  /** The sling is suggested exactly for stress or mixed incontinence with a closure pressure below 20. */
  lemma SlingCondition(p: PatientData, k: KeyProfile)
    ensures Sling in Recommendations(p, k) <==> (k.stress || k.mixed) && p.Closure() < 20.0
  {
  }

  /** At most seventeen recommendations, and none exactly when no block's key is present. */
  lemma RecommendationsSize(p: PatientData, k: KeyProfile)
    ensures |Recommendations(p, k)| <= 17
    ensures Recommendations(p, k) == [] <==>
              !(k.prostatic || k.prolapse || k.overactivity || k.mixed || k.hypocontractility || k.stress || k.dyssynergia)
  {
  }

  /**
   * The prolapse and the stress rehabilitation items carry one and the same
   * label; no diagnosis of the engine receives both, so no recommendation
   * list repeats that label.
   */
  lemma RehabilitationNotRepeated(p: PatientData, d: Diagnosis)
    ensures var r := Recommendations(p, DiagnosisProfile(d));
            !(PelvicFloorRehabProlapse in r && PelvicFloorRehabStress in r)
  {
    ProlapseRehabilitationCondition(p, DiagnosisProfile(d));
    StressRehabilitationCondition(p, DiagnosisProfile(d));
  }

  /** Exactly five diagnoses receive no recommendation at all. */
  lemma RecommendationsEmptyFor(p: PatientData, d: Diagnosis)
    ensures Recommendations(p, DiagnosisProfile(d)) == [] <==>
              d in {SubvesicalObstruction, EquivocalObstruction, PainfulBladder, IncompleteEmptying, NormalFunction}
  {
    RecommendationsSize(p, DiagnosisProfile(d));
  }

  // ---------------------------------------------------------------------
  // genererExamensComplementaires

  datatype Exam =
    | TransrectalUltrasound | PsaAndDigitalRectal | DynamicPelvicMriForProlapse
    | ResidualUltrasound | RenalBladderUltrasound | SpinalMri | DynamicPelvicMriForStress | Cystoscopy
  {
    function Label(): string {
      match this
      case TransrectalUltrasound => "Échographie prostatique trans-rectale"
      case PsaAndDigitalRectal => "PSA et toucher rectal"
      case DynamicPelvicMriForProlapse => "IRM pelvienne dynamique"
      case ResidualUltrasound => "Échographie vésicale pour quantification du RPM"
      case RenalBladderUltrasound => "Échographie rénale et vésicale"
      case SpinalMri => "IRM médullaire"
      case DynamicPelvicMriForStress => "IRM pelvienne dynamique"
      case Cystoscopy => "Cystoscopie diagnostique"
    }
  }

  const SpinalHistory: seq<string> := ["Sclérose en plaques", "Traumatisme médullaire"]
  const HaematuriaSymptom: string := "Hématurie"

  /** The complementary examinations for a diagnosis text with the given key profile. */
  function Exams(p: PatientData, k: KeyProfile): seq<Exam> {
    var e := PushIf([], k.prostatic, TransrectalUltrasound);
    var e := PushIf(e, k.prostatic, PsaAndDigitalRectal);
    var e := PushIf(e, k.prolapse, DynamicPelvicMriForProlapse);
    var e := PushIf(e, k.prolapse, ResidualUltrasound);
    var e := PushIf(e, p.Residual() > 100.0, RenalBladderUltrasound);
    var e := PushIf(e, k.neurological || HasAny(p.antecedents, SpinalHistory), SpinalMri);
    var e := PushIf(e, k.stress || k.mixed, DynamicPelvicMriForStress);
    PushIf(e, HaematuriaSymptom in p.symptomes || k.cystitis, Cystoscopy)
  }

  /** `genererExamensComplementaires(data, diagnostic)`. */
  method GenerateExams(p: PatientData, dx: string) returns (exams: seq<Exam>)
    ensures exams == Exams(p, ProfileOf(dx))
  {
    exams := [];
    if Contains(dx, ProstaticKey) {
      exams := exams + [TransrectalUltrasound];
      exams := exams + [PsaAndDigitalRectal];
    }
    if Contains(dx, ProlapseKey) {
      exams := exams + [DynamicPelvicMriForProlapse];
      exams := exams + [ResidualUltrasound];
    }
    if p.Residual() > 100.0 {
      exams := exams + [RenalBladderUltrasound];
    }
    if Contains(dx, NeurologicalKey) || HasAny(p.antecedents, SpinalHistory) {
      exams := exams + [SpinalMri];
    }
    if Contains(dx, StressKey) || Contains(dx, MixedKey) {
      exams := exams + [DynamicPelvicMriForStress];
    }
    if HaematuriaSymptom in p.symptomes || Contains(dx, CystitisKey) {
      exams := exams + [Cystoscopy];
    }
  }

  /** The renal and bladder ultrasound depends on the residual alone. */
  lemma RenalUltrasoundCondition(p: PatientData, k: KeyProfile)
    ensures RenalBladderUltrasound in Exams(p, k) <==> p.Residual() > 100.0
  {
  }

  /** The spinal MRI: a neurological diagnosis text or a spinal history tag. */
  lemma SpinalMriCondition(p: PatientData, k: KeyProfile)
    ensures SpinalMri in Exams(p, k) <==> k.neurological || HasAny(p.antecedents, SpinalHistory)
  {
  }

  /** The cystoscopy: haematuria, or an interstitial-cystitis diagnosis text. */
  lemma CystoscopyCondition(p: PatientData, k: KeyProfile)
    ensures Cystoscopy in Exams(p, k) <==> HaematuriaSymptom in p.symptomes || k.cystitis
  {
  }

  /** The two dynamic pelvic MRI items, which share one label. */
  lemma PelvicMriConditions(p: PatientData, k: KeyProfile)
    ensures DynamicPelvicMriForProlapse in Exams(p, k) <==> k.prolapse
    ensures DynamicPelvicMriForStress in Exams(p, k) <==> k.stress || k.mixed
  {
  }

  /** At most eight examinations. */
  lemma ExamsSize(p: PatientData, k: KeyProfile)
    ensures |Exams(p, k)| <= 8
  {
  }

  /**
   * No resolver label contains "neurologique", so for a diagnosis of the
   * engine the spinal MRI is ordered exactly for the history tags.
   */
  lemma SpinalMriFromHistoryOnly(p: PatientData, d: Diagnosis)
    ensures SpinalMri in Exams(p, DiagnosisProfile(d)) <==> HasAny(p.antecedents, SpinalHistory)
  {
    SpinalMriCondition(p, DiagnosisProfile(d));
  }

  /** For a diagnosis of the engine, the cystoscopy follows haematuria or the painful-bladder diagnosis. */
  lemma CystoscopyForDiagnosis(p: PatientData, d: Diagnosis)
    ensures Cystoscopy in Exams(p, DiagnosisProfile(d)) <==> HaematuriaSymptom in p.symptomes || d == PainfulBladder
  {
    CystoscopyCondition(p, DiagnosisProfile(d));
  }

  /** No diagnosis of the engine receives both dynamic pelvic MRI items, so that label is never repeated. */
  lemma PelvicMriNotRepeated(p: PatientData, d: Diagnosis)
    ensures var e := Exams(p, DiagnosisProfile(d));
            !(DynamicPelvicMriForProlapse in e && DynamicPelvicMriForStress in e)
  {
    PelvicMriConditions(p, DiagnosisProfile(d));
  }

  // ---------------------------------------------------------------------
  // genererTraitements

  datatype Treatment =
    | Solifenacin | Mirabegron | NoValidatedDrug | Parasympathomimetics | Tamsulosin
    | Finasteride | Pessary | ProlapseRepair | Duloxetine | HyaluronicAcidInstillations
  {
    function Label(): string {
      match this
      case Solifenacin => "Solifénacine 5-10 mg/jour"
      case Mirabegron => "Mirabégron 50 mg/jour si contre-indication aux anticholinergiques"
      case NoValidatedDrug => "Aucun traitement pharmacologique validé"
      case Parasympathomimetics => "Essai de parasympathomimétiques (bénéfice non prouvé, rarement utilisé)"
      case Tamsulosin => "Tamsulosine 0,4 mg/jour"
      case Finasteride => "Association finastéride 5 mg/jour si prostate >40ml"
      case Pessary => "Pessaire si contre-indication chirurgicale"
      case ProlapseRepair => "Chirurgie de correction du prolapsus en cas d'échec du traitement conservateur"
      case Duloxetine => "Duloxétine 40 mg × 2/jour"
      case HyaluronicAcidInstillations => "Instillations vésicales d'acide hyaluronique"
    }
  }

  const SurgicalContraindication: string := "Contre-indication chirurgicale"

  /** The prostatic block: tamsulosin, then finasteride when the urethral pressure exceeds 80. */
  function ProstaticTreatments(s: seq<Treatment>, p: PatientData, k: KeyProfile): (r: seq<Treatment>)
    ensures forall x :: x in r <==> x in s || (k.prostatic && (x == Tamsulosin
                                               || (x == Finasteride && p.profilPression.pressionUretrale > 80.0)))
    ensures |s| <= |r| <= |s| + 2
  {
    var r := PushIf(s, k.prostatic, Tamsulosin);
    PushIf(r, k.prostatic && p.profilPression.pressionUretrale > 80.0, Finasteride)
  }

  /** The prolapse block: a pessary for an elderly or inoperable patient, surgery on high Pdet or residual. */
  function ProlapseTreatments(s: seq<Treatment>, p: PatientData, k: KeyProfile): (r: seq<Treatment>)
    ensures forall x :: x in r <==> x in s || (k.prolapse &&
                                               ((x == Pessary && (p.age > 70.0 || SurgicalContraindication in p.antecedents))
                                                || (x == ProlapseRepair && (p.PdetQmax() > 40.0 || p.Residual() > 80.0))))
    ensures |s| <= |r| <= |s| + 2
  {
    var r := PushIf(s, k.prolapse && (p.age > 70.0 || SurgicalContraindication in p.antecedents), Pessary);
    PushIf(r, k.prolapse && (p.PdetQmax() > 40.0 || p.Residual() > 80.0), ProlapseRepair)
  }

  /** The treatments for a diagnosis text with the given key profile. */
  function Treatments(p: PatientData, k: KeyProfile): seq<Treatment> {
    var t := PushIf([], k.overactivity || k.mixed, Solifenacin);
    var t := PushIf(t, k.overactivity || k.mixed, Mirabegron);
    var t := PushIf(t, k.hypocontractility, NoValidatedDrug);
    var t := PushIf(t, k.hypocontractility, Parasympathomimetics);
    var t := ProstaticTreatments(t, p, k);
    var t := ProlapseTreatments(t, p, k);
    var t := PushIf(t, k.stress || k.mixed, Duloxetine);
    PushIf(t, k.painful, HyaluronicAcidInstillations)
  }

  /** The `Obstruction prostatique` block of `genererTraitements`. */
  method PushProstaticTreatments(p: PatientData, dx: string, treatments: seq<Treatment>) returns (t: seq<Treatment>)
    ensures t == ProstaticTreatments(treatments, p, ProfileOf(dx))
  {
    t := treatments;
    if Contains(dx, ProstaticKey) {
      t := t + [Tamsulosin];
      if p.profilPression.pressionUretrale > 80.0 {
        t := t + [Finasteride];
      }
    }
  }

  /** The `prolapsus génital` block of `genererTraitements`. */
  method PushProlapseTreatments(p: PatientData, dx: string, treatments: seq<Treatment>) returns (t: seq<Treatment>)
    ensures t == ProlapseTreatments(treatments, p, ProfileOf(dx))
  {
    t := treatments;
    if Contains(dx, ProlapseKey) {
      if p.age > 70.0 || SurgicalContraindication in p.antecedents {
        t := t + [Pessary];
      }
      if p.PdetQmax() > 40.0 || p.Residual() > 80.0 {
        t := t + [ProlapseRepair];
      }
    }
  }

  /** `genererTraitements(data, diagnostic)`. */
  method GenerateTreatments(p: PatientData, dx: string) returns (treatments: seq<Treatment>)
    ensures treatments == Treatments(p, ProfileOf(dx))
  {
    treatments := [];
    if Contains(dx, OveractivityKey) || Contains(dx, MixedKey) {
      treatments := treatments + [Solifenacin];
      treatments := treatments + [Mirabegron];
    }
    if Contains(dx, HypocontractilityKey) {
      treatments := treatments + [NoValidatedDrug];
      treatments := treatments + [Parasympathomimetics];
    }
    treatments := PushProstaticTreatments(p, dx, treatments);
    treatments := PushProlapseTreatments(p, dx, treatments);
    if Contains(dx, StressKey) || Contains(dx, MixedKey) {
      treatments := treatments + [Duloxetine];
    }
    if Contains(dx, PainfulCapitalKey) {
      treatments := treatments + [HyaluronicAcidInstillations];
    }
  }

  /** Finasteride is added exactly on top of tamsulosin when the urethral pressure exceeds 80. */
  lemma FinasterideCondition(p: PatientData, k: KeyProfile)
    ensures Finasteride in Treatments(p, k) <==> k.prostatic && p.profilPression.pressionUretrale > 80.0
    ensures Finasteride in Treatments(p, k) ==> Tamsulosin in Treatments(p, k)
  {
  }

  /** The pessary: prolapse in a patient over 70 or with a surgical contraindication. */
  lemma PessaryCondition(p: PatientData, k: KeyProfile)
    ensures Pessary in Treatments(p, k) <==> k.prolapse && (p.age > 70.0 || SurgicalContraindication in p.antecedents)
  {
  }

  /** The hyaluronic-acid instillations follow the capitalised `Douloureux vésical` key alone. */
  lemma HyaluronicAcidCondition(p: PatientData, k: KeyProfile)
    ensures HyaluronicAcidInstillations in Treatments(p, k) <==> k.painful
  {
  }

  /** Overactivity drugs and duloxetine: mixed incontinence receives both. */
  lemma DrugFamilyConditions(p: PatientData, k: KeyProfile)
    ensures Solifenacin in Treatments(p, k) <==> k.overactivity || k.mixed
    ensures Duloxetine in Treatments(p, k) <==> k.stress || k.mixed
  {
  }

  /** At most ten treatments. */
  lemma TreatmentsSize(p: PatientData, k: KeyProfile)
    ensures |Treatments(p, k)| <= 10
  {
  }

  /**
   * The hyaluronic-acid instillations are tied to "Douloureux vésical" with a
   * capital D, which no resolver label contains, so they are never proposed
   * for a diagnosis of the engine.
   */
  lemma NoHyaluronicAcidForAnyDiagnosis(p: PatientData, d: Diagnosis)
    ensures HyaluronicAcidInstillations !in Treatments(p, DiagnosisProfile(d))
  {
    HyaluronicAcidCondition(p, DiagnosisProfile(d));
  }

  /** The pessary is proposed exactly for the prolapse diagnosis of an elderly or inoperable patient. */
  lemma PessaryForDiagnosis(p: PatientData, d: Diagnosis)
    ensures Pessary in Treatments(p, DiagnosisProfile(d)) <==>
              d == ProlapseObstruction && (p.age > 70.0 || SurgicalContraindication in p.antecedents)
  {
    PessaryCondition(p, DiagnosisProfile(d));
  }

  /** Every mixed-incontinence diagnosis receives both an overactivity drug and duloxetine. */
  lemma MixedReceivesBothDrugFamilies(p: PatientData, d: Diagnosis)
    requires d.IsMixed()
    ensures Solifenacin in Treatments(p, DiagnosisProfile(d)) && Duloxetine in Treatments(p, DiagnosisProfile(d))
  {
    DrugFamilyConditions(p, DiagnosisProfile(d));
  }

  // ---------------------------------------------------------------------
  // genererSurveillance

  datatype Surveillance = BladderDiary | ResidualMeasurement | FreeFlowAtSixMonths | RenalFunction | AnnualFreeFlow
  {
    function Label(): string {
      match this
      case BladderDiary => "Calendrier mictionnel sur 3 jours, à répéter après 3 mois de traitement"
      case ResidualMeasurement => "Mesure échographique du résidu post-mictionnel"
      case FreeFlowAtSixMonths => "Débitmétrie libre à 6 mois"
      case RenalFunction => "Fonction rénale (créatinine, échographie) semestrielle"
      case AnnualFreeFlow => "Débitmétrie libre annuelle"
    }
  }

  const RenalHistory: seq<string> := ["Traumatisme médullaire", "Spina bifida"]

  /** The follow-up plan for a diagnosis text with the given key profile. */
  function SurveillancePlan(p: PatientData, k: KeyProfile): seq<Surveillance> {
    var s := [BladderDiary];
    var s := PushIf(s, p.Residual() > 50.0, ResidualMeasurement);
    var s := PushIf(s, k.prolapse, FreeFlowAtSixMonths);
    var s := PushIf(s, k.neurological || HasAny(p.antecedents, RenalHistory), RenalFunction);
    PushIf(s, k.obstruction, AnnualFreeFlow)
  }

  /** `genererSurveillance(data, diagnostic)`. */
  method GenerateSurveillance(p: PatientData, dx: string) returns (plan: seq<Surveillance>)
    ensures plan == SurveillancePlan(p, ProfileOf(dx))
  {
    plan := [BladderDiary];
    if p.Residual() > 50.0 {
      plan := plan + [ResidualMeasurement];
    }
    if Contains(dx, ProlapseKey) {
      plan := plan + [FreeFlowAtSixMonths];
    }
    if Contains(dx, NeurologicalKey) || HasAny(p.antecedents, RenalHistory) {
      plan := plan + [RenalFunction];
    }
    if Contains(dx, ObstructionKey) {
      plan := plan + [AnnualFreeFlow];
    }
  }

  /** The bladder diary always comes first, and the plan holds one to five items. */
  lemma SurveillanceShape(p: PatientData, k: KeyProfile)
    ensures var s := SurveillancePlan(p, k);
            1 <= |s| <= 5 && s[0] == BladderDiary
  {
  }

  /** Each follow-up item after the diary depends on one condition. */
  lemma SurveillanceConditions(p: PatientData, k: KeyProfile)
    ensures ResidualMeasurement in SurveillancePlan(p, k) <==> p.Residual() > 50.0
    ensures FreeFlowAtSixMonths in SurveillancePlan(p, k) <==> k.prolapse
    ensures RenalFunction in SurveillancePlan(p, k) <==> k.neurological || HasAny(p.antecedents, RenalHistory)
    ensures AnnualFreeFlow in SurveillancePlan(p, k) <==> k.obstruction
  {
  }

  /**
   * For a diagnosis of the engine, the renal follow-up depends on the history
   * tags only, and the annual free flow is planned exactly for the five
   * labels starting with "Obstruction" (not for the dyssynergia label, whose
   * "obstruction" is lower-case).
   */
  lemma SurveillanceForDiagnosis(p: PatientData, d: Diagnosis)
    ensures RenalFunction in SurveillancePlan(p, DiagnosisProfile(d)) <==> HasAny(p.antecedents, RenalHistory)
    ensures AnnualFreeFlow in SurveillancePlan(p, DiagnosisProfile(d)) <==> d.IsObstruction()
    ensures d == DyssynergiaObstruction ==> AnnualFreeFlow !in SurveillancePlan(p, DiagnosisProfile(d))
  {
    SurveillanceConditions(p, DiagnosisProfile(d));
  }

  // ---------------------------------------------------------------------
  // genererPieges

  datatype Pitfall =
    | LowQmaxSmallVolume | MaskedProlapse | CorrelateClinicalFindings | DyssynergiaVersusStraining
    | FastFillingArtefacts | HypocontractilityVersusObstruction | DrugInducedHypocontractility
    | SphincterComponent | EffortVersusUrgency
  {
    function Label(): string {
      match this
      case LowQmaxSmallVolume => "Ne pas interpréter un Qmax faible avec un petit volume vidé"
      case MaskedProlapse => "Ne pas ignorer un prolapsus modéré pouvant masquer une obstruction"
      case CorrelateClinicalFindings => "Toujours corréler clinique et données urodynamiques"
      case DyssynergiaVersusStraining => "Différencier dyssynergie vraie et poussées abdominales"
      case FastFillingArtefacts => "Éliminer les artefacts de remplissage rapide"
      case HypocontractilityVersusObstruction =>
        "Ne pas confondre hypocontractilité avec obstruction en cas de symptômes similaires"
      case DrugInducedHypocontractility => "Écarter une cause médicamenteuse (anticholinergiques, opiacés)"
      case SphincterComponent =>
        "Ne pas ignorer une composante sphinctérienne associée en cas de pression de clôture basse"
      case EffortVersusUrgency => "Différencier fuites à l'effort vraies et poussées liées à une urgence mal contrôlée"
    }
  }

  /** The stress block: the sphincter pitfall for mixed incontinence or a low closure pressure, then the effort/urgency pitfall. */
  function StressPitfalls(s: seq<Pitfall>, p: PatientData, k: KeyProfile): (r: seq<Pitfall>)
    ensures forall x :: x in r <==> x in s || ((k.stress || k.mixed) &&
                                               ((x == SphincterComponent && (k.mixed || p.Closure() < 20.0))
                                                || (x == EffortVersusUrgency && k.mixed)))
    ensures |s| <= |r| <= |s| + 2
  {
    var stress := k.stress || k.mixed;
    var r := PushIf(s, stress && (k.mixed || p.Closure() < 20.0), SphincterComponent);
    PushIf(r, stress && k.mixed, EffortVersusUrgency)
  }

  /** The interpretation pitfalls for a diagnosis text with the given key profile. */
  function Pitfalls(p: PatientData, k: KeyProfile): seq<Pitfall> {
    var q := [LowQmaxSmallVolume];
    var q := PushIf(q, k.prolapse, MaskedProlapse);
    var q := PushIf(q, k.prolapse, CorrelateClinicalFindings);
    var q := PushIf(q, p.debitMetrie.formeDebitmetrie == Intermittente, DyssynergiaVersusStraining);
    var q := PushIf(q, p.InvoluntaryContractions(), FastFillingArtefacts);
    var q := PushIf(q, k.hypocontractility, HypocontractilityVersusObstruction);
    var q := PushIf(q, k.hypocontractility, DrugInducedHypocontractility);
    StressPitfalls(q, p, k)
  }

  /** The `Incontinence d'effort` / `mixte` block of `genererPieges`. */
  method PushStressPitfalls(p: PatientData, dx: string, pitfalls: seq<Pitfall>) returns (q: seq<Pitfall>)
    ensures q == StressPitfalls(pitfalls, p, ProfileOf(dx))
  {
    q := pitfalls;
    if Contains(dx, StressKey) || Contains(dx, MixedKey) {
      if Contains(dx, MixedKey) || p.Closure() < 20.0 {
        q := q + [SphincterComponent];
      }
      if Contains(dx, MixedKey) {
        q := q + [EffortVersusUrgency];
      }
    }
  }

  /** `genererPieges(data, diagnostic)`. */
  method GeneratePitfalls(p: PatientData, dx: string) returns (pitfalls: seq<Pitfall>)
    ensures pitfalls == Pitfalls(p, ProfileOf(dx))
  {
    pitfalls := [LowQmaxSmallVolume];
    if Contains(dx, ProlapseKey) {
      pitfalls := pitfalls + [MaskedProlapse];
      pitfalls := pitfalls + [CorrelateClinicalFindings];
    }
    if p.debitMetrie.formeDebitmetrie == Intermittente {
      pitfalls := pitfalls + [DyssynergiaVersusStraining];
    }
    if p.InvoluntaryContractions() {
      pitfalls := pitfalls + [FastFillingArtefacts];
    }
    if Contains(dx, HypocontractilityKey) {
      pitfalls := pitfalls + [HypocontractilityVersusObstruction];
      pitfalls := pitfalls + [DrugInducedHypocontractility];
    }
    pitfalls := PushStressPitfalls(p, dx, pitfalls);
  }

  /** The low-Qmax warning always comes first, and the list holds one to nine items. */
  lemma PitfallsShape(p: PatientData, k: KeyProfile)
    ensures var q := Pitfalls(p, k);
            1 <= |q| <= 9 && q[0] == LowQmaxSmallVolume
  {
  }

  /** The straining pitfall depends on the flow curve alone, whatever the diagnosis. */
  lemma StrainingPitfallCondition(p: PatientData, k: KeyProfile)
    ensures DyssynergiaVersusStraining in Pitfalls(p, k) <==> p.debitMetrie.formeDebitmetrie == Intermittente
  {
  }

  /** The filling-artefact pitfall depends on the involuntary contractions alone, whatever the diagnosis. */
  lemma FillingArtefactPitfallCondition(p: PatientData, k: KeyProfile)
    ensures FastFillingArtefacts in Pitfalls(p, k) <==> p.InvoluntaryContractions()
  {
  }

  /** The sphincter and effort/urgency pitfalls. */
  lemma StressPitfallConditions(p: PatientData, k: KeyProfile)
    ensures SphincterComponent in Pitfalls(p, k) <==> k.mixed || (k.stress && p.Closure() < 20.0)
    ensures EffortVersusUrgency in Pitfalls(p, k) <==> k.mixed
  {
  }

  /** For a diagnosis of the engine: every mixed label, and stress incontinence with a low closure pressure. */
  lemma SphincterPitfallForDiagnosis(p: PatientData, d: Diagnosis)
    ensures SphincterComponent in Pitfalls(p, DiagnosisProfile(d)) <==>
              d.IsMixed() || (d == SphincterStressIncontinence && p.Closure() < 20.0)
  {
    StressPitfallConditions(p, DiagnosisProfile(d));
  }
}
