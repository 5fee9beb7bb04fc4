/**
 * Three of the teaching cases shipped with the application, as records,
 * and what the analysis and the validator make of them.
 */
module ClinicalCases {
  import opened Strings
  import opened Patient
  import opened Diagnoses
  import opened Certainty
  import opened Resolver
  import opened Analysis
  import G = Guidance
  import A = Alerts
  import V = Validation

  /** Filling runs identical at the three rates but for the compliance. */
  function Runs(slow: real, fast: real, physiological: real, c: Contractions, s: Sensation): CystometrieRemplissage {
    CystometrieRemplissage(FillingRun(slow, c, s), FillingRun(fast, c, s), FillingRun(physiological, c, s))
  }

  /** Case 2: prostatic obstruction, a man of 72 with dysuria and a weak stream. */
  const Case2: PatientData := PatientData(
    "M. L", 72.0, M,
    ["Dysurie", "Jet faible", "Sensation de vidange incomplète", "Nycturie"],
    ["HBP"],
    ["Alpha-bloquants"],
    DebitMetrie(8.0, 5.0, 320.0, 65.0, FlowCurve.EnPlateau, 8.0, Some(25.0)),
    Cystometrie(480.0, 25.0, 18.0, 43.0, 25.0, Contractions.Absentes, Sensation.Normale,
                180.0, 320.0, 480.0, 50.0, 0.0),
    ProfilPression(95.0, 220.0, 70.0, 32.0, 90.0, DynamicProfile.Normal),
    Emg(BasalActivity.Normale, Recruitment.Normal, SphincterReflex.Present, Synergy.Normale, Fatigability.Normale),
    EtudePressionDebit(65.0, 49.0, 105.0, 8.1, 0.12),
    TestsProvocation(ProvocationResult.Negatif, ProvocationResult.Negatif, 0.0, 0.0),
    Runs(26.0, 24.0, 25.0, Contractions.Absentes, Sensation.Normale),
    85.0)

  /** Case 6: post-menopausal mixed incontinence, a woman of 58. */
  const Case6: PatientData := PatientData(
    "Mme C", 58.0, F,
    ["Incontinence d'effort", "Urgenturies", "Fuites mixtes", "Nycturie"],
    ["Ménopause", "Hystérectomie", "Prolapsus génital"],
    ["THS", "Anticholinergiques"],
    DebitMetrie(16.0, 11.0, 290.0, 28.0, FlowCurve.Normale, 4.0, Some(9.0)),
    Cystometrie(320.0, 38.0, 16.0, 54.0, 18.0, Contractions.Presentes, Sensation.Augmentee,
                120.0, 200.0, 320.0, 50.0, 0.0),
    ProfilPression(38.0, 28.0, 15.0, 18.0, 55.0, DynamicProfile.Diminue),
    Emg(BasalActivity.Diminuee, Recruitment.Diminue, SphincterReflex.Present, Synergy.Normale, Fatigability.Augmentee),
    EtudePressionDebit(28.0, -4.0, 108.0, 1.75, 0.57),
    TestsProvocation(ProvocationResult.PositifFort, ProvocationResult.PositifFaible, 35.0, 35.0),
    Runs(19.0, 17.0, 18.0, Contractions.Presentes, Sensation.Augmentee),
    25.0)

  /** Case 11: trabeculated bladder from chronic obstruction, a man of 75. */
  const Case11: PatientData := PatientData(
    "M. J", 75.0, M,
    ["Dysurie majeure", "Pollakiurie", "Nycturie sévère", "Infections récidivantes"],
    ["HBP évoluée", "Lithiase vésicale", "Infections urinaires"],
    ["Alpha-bloquants", "Inhibiteurs 5-alpha-réductase"],
    DebitMetrie(5.0, 3.0, 180.0, 75.0, FlowCurve.EnPlateau, 25.0, Some(35.0)),
    Cystometrie(650.0, 18.0, 25.0, 43.0, 8.0, Contractions.Presentes, Sensation.Diminuee,
                400.0, 550.0, 650.0, 50.0, 0.0),
    ProfilPression(120.0, 240.0, 95.0, 38.0, 92.0, DynamicProfile.Augmente),
    Emg(BasalActivity.Normale, Recruitment.Normal, SphincterReflex.Present, Synergy.Normale, Fatigability.Normale),
    EtudePressionDebit(85.0, 75.0, 110.0, 17.0, 0.06),
    TestsProvocation(ProvocationResult.Negatif, ProvocationResult.Negatif, 0.0, 0.0),
    Runs(10.0, 6.0, 8.0, Contractions.Presentes, Sensation.Diminuee),
    220.0)

  // ---------------------------------------------------------------------
  // Case 2

  /** No mixed signs, an obstruction index of 49 and the exact tag "HBP" in a man. */
  lemma Case2Diagnosis()
    ensures Diagnose(Case2) == BenignProstaticObstruction
  {
  }

  // The validator on case 2, one section at a time.

  lemma Case2History()
    ensures V.HistoryErrors([], Case2) == []
  {
    assert V.OtherSexHistory(Case2) == [];
  }

  lemma Case2Lengths()
    ensures V.UrethralLengthErrors([], Case2) == [] && V.MeasurementErrors([], Case2) == []
  {
  }

  lemma Case2Orderings()
    ensures V.OrderingErrors([], Case2) == []
  {
  }

  lemma Case2SexTags()
    ensures V.SexTagWarnings([], Case2) == []
  {
    assert KeepIn(Case2.symptomes, V.FemaleSymptoms) == [] && KeepIn(Case2.traitements, V.FemaleTreatments) == [];
  }

  lemma Case2Plausibility()
    ensures V.UrethralPressureWarnings([], Case2) == [] && V.PlausibilityWarnings([], Case2) == []
  {
  }

  /** Case 2 is coherent and raises no warning. */
  lemma Case2Validation()
    ensures V.Validation(Case2) == V.ValidationResult(true, [], [])
  {
    Case2History();
    Case2Lengths();
    Case2Orderings();
    Case2SexTags();
    Case2Plausibility();
  }

  lemma Case2Confidence()
    ensures Confidence(Case2, BenignProstaticObstruction.Label()) == High
  {
  }

  lemma Case2Alerts()
    ensures A.CriticalAlerts(Case2) == []
  {
  }

  lemma Case2Recommendations()
    ensures G.Recommendations(Case2, G.DiagnosisProfile(BenignProstaticObstruction)) == [G.AlphaBlockers, G.Turp]
  {
  }

  /**
   * Case 2 is a known prostatic obstruction, measured with full confidence
   * and without alert; with Pdet at Qmax above 60 the recommendations are
   * the alpha-blocker and the resection.
   */
  lemma Case2Analysis()
    ensures var r := AnalysisOf(Case2);
            r.diagnostic == BenignProstaticObstruction && r.certitudeDiagnostique == High
            && r.alertesCritiques == [] && r.recommandations == [G.AlphaBlockers, G.Turp]
  {
    Case2Diagnosis();
    Case2Confidence();
    Case2Alerts();
    Case2Recommendations();
  }

  // ---------------------------------------------------------------------
  // Case 6

  /** Effort and urgency signs, involuntary contractions and a closure pressure of 15. */
  lemma Case6Diagnosis()
    ensures Diagnose(Case6) == MixedCombined
  {
    assert MixedSigns(Case6);
  }

  // The validator on case 6, one section at a time.

  /** No history tag of case 6 belongs to the other sex's list. */
  lemma Case6HistoryTags()
    ensures "Ménopause" !in V.MaleHistory && "Hystérectomie" !in V.MaleHistory && "Prolapsus génital" !in V.MaleHistory
  {
  }

  /** No symptom or treatment tag of case 6 belongs to the other sex's lists. */
  lemma Case6SymptomAndTreatmentTags()
    ensures "Incontinence d'effort" !in V.MaleSymptoms && "Urgenturies" !in V.MaleSymptoms && "Fuites mixtes" !in V.MaleSymptoms && "Nycturie" !in V.MaleSymptoms
    ensures "THS" !in V.MaleTreatments && "Anticholinergiques" !in V.MaleTreatments
  {
  }

  lemma Case6History()
    ensures V.HistoryErrors([], Case6) == []
  {
    Case6HistoryTags();
    assert V.OtherSexHistory(Case6) == [];
  }

  lemma Case6Lengths()
    ensures V.UrethralLengthErrors([], Case6) == [] && V.MeasurementErrors([], Case6) == []
  {
  }

  lemma Case6Orderings()
    ensures V.OrderingErrors([], Case6) == []
  {
  }

  lemma Case6SexTags()
    ensures V.SexTagWarnings([], Case6) == []
  {
    Case6SymptomAndTreatmentTags();
    assert KeepIn(Case6.symptomes, V.MaleSymptoms) == [] && KeepIn(Case6.traitements, V.MaleTreatments) == [];
  }

  lemma Case6Plausibility()
    ensures V.UrethralPressureWarnings([], Case6) == [] && V.PlausibilityWarnings([], Case6) == []
  {
  }

  /** Case 6 is coherent and raises no warning. */
  lemma Case6Validation()
    ensures V.Validation(Case6) == V.ValidationResult(true, [], [])
  {
    Case6History();
    Case6Lengths();
    Case6Orderings();
    Case6SexTags();
    Case6Plausibility();
  }

  lemma Case6Confidence()
    ensures Confidence(Case6, MixedCombined.Label()) == High
  {
  }

  lemma Case6Alerts()
    ensures A.CriticalAlerts(Case6) == []
  {
  }

  /** Case 6 is combined mixed incontinence, with full confidence, no alert and both drug families. */
  lemma Case6Analysis()
    ensures var r := AnalysisOf(Case6);
            r.diagnostic == MixedCombined && r.certitudeDiagnostique == High
            && r.alertesCritiques == []
            && G.Solifenacin in r.traitements && G.Duloxetine in r.traitements
  {
    Case6Diagnosis();
    Case6Confidence();
    Case6Alerts();
    MixedAnalysisTreatsBothComponents(Case6);
  }

  // ---------------------------------------------------------------------
  // Case 11

  /**
   * An obstruction index of 75 in a man whose history says "HBP évoluée",
   * not the exact tag "HBP": the severe obstruction is labelled subvesical
   * rather than prostatic.
   */
  lemma Case11Diagnosis()
    ensures Diagnose(Case11) == SubvesicalObstruction
  {
    assert !MixedSigns(Case11);
    assert !KnownBph(Case11);
  }

  // The validator on case 11, one section at a time.

  /** No history tag of case 11 belongs to the other sex's list. */
  lemma Case11HistoryTags()
    ensures "HBP évoluée" !in V.FemaleHistory && "Lithiase vésicale" !in V.FemaleHistory && "Infections urinaires" !in V.FemaleHistory
  {
  }

  /** No symptom or treatment tag of case 11 belongs to the other sex's lists. */
  lemma Case11SymptomAndTreatmentTags()
    ensures "Dysurie majeure" !in V.FemaleSymptoms && "Pollakiurie" !in V.FemaleSymptoms && "Nycturie sévère" !in V.FemaleSymptoms && "Infections récidivantes" !in V.FemaleSymptoms
    ensures "Alpha-bloquants" !in V.FemaleTreatments && "Inhibiteurs 5-alpha-réductase" !in V.FemaleTreatments
  {
  }

  lemma Case11History()
    ensures V.HistoryErrors([], Case11) == []
  {
    Case11HistoryTags();
    assert V.OtherSexHistory(Case11) == [];
  }

  lemma Case11Lengths()
    ensures V.UrethralLengthErrors([], Case11) == [] && V.MeasurementErrors([], Case11) == []
  {
  }

  lemma Case11Orderings()
    ensures V.OrderingErrors([], Case11) == [V.ResidualAboveVoided(220.0, 180.0)]
  {
  }

  lemma Case11SexTags()
    ensures V.SexTagWarnings([], Case11) == []
  {
    Case11SymptomAndTreatmentTags();
    assert KeepIn(Case11.symptomes, V.FemaleSymptoms) == [] && KeepIn(Case11.traitements, V.FemaleTreatments) == [];
  }

  lemma Case11Plausibility()
    ensures V.UrethralPressureWarnings([], Case11) == [] && V.PlausibilityWarnings([], Case11) == [V.VeryLowCompliance(8.0), V.HighResidual(220.0)]
  {
  }

  /** Case 11's residual exceeds its voided volume: the record itself is incoherent; its compliance and residual are flagged. */
  lemma Case11Validation()
    ensures V.Validation(Case11) == V.ValidationResult(false, [V.ResidualAboveVoided(220.0, 180.0)], [V.VeryLowCompliance(8.0), V.HighResidual(220.0)])
  {
    Case11History();
    Case11Lengths();
    Case11Orderings();
    Case11SexTags();
    Case11Plausibility();
  }

  lemma Case11Confidence()
    ensures Confidence(Case11, SubvesicalObstruction.Label()) == Moderate
  {
  }

  lemma Case11Alerts()
    ensures A.CriticalAlerts(Case11) == [A.VeryHighResidual, A.VeryHighDetrusorPressure, A.VeryLowCompliance]
  {
  }

  /**
   * Case 11 raises three alerts (residual, detrusor pressure, compliance),
   * and its voided volume of 180 ml costs one confidence criterion.
   */
  lemma Case11Analysis()
    ensures var r := AnalysisOf(Case11);
            r.diagnostic == SubvesicalObstruction && r.certitudeDiagnostique == Moderate
            && r.alertesCritiques == [A.VeryHighResidual, A.VeryHighDetrusorPressure, A.VeryLowCompliance]
  {
    Case11Diagnosis();
    Case11Confidence();
    Case11Alerts();
  }
}
