/**
 * `analyserUrodynamique`: the whole analysis of one examination — indices,
 * nomograms, diagnosis, confidence, the five guidance lists and the
 * critical alerts — and how its parts agree with the data validator.
 */
module Analysis {
  import opened Strings
  import opened Patient
  import opened Diagnoses
  import opened Indices
  import opened Nomograms
  import opened Resolver
  import opened Certainty
  import G = Guidance
  import A = Alerts
  import V = Validation

  /** The record `analyserUrodynamique` returns; the diagnosis string is `diagnostic.Label()`. */
  datatype DiagnosticResult = DiagnosticResult(
    diagnostic: Diagnosis,
    certitudeDiagnostique: Certitude,
    recommandations: seq<G.Recommendation>,
    examensComplementaires: seq<G.Exam>,
    traitements: seq<G.Treatment>,
    surveillance: seq<G.Surveillance>,
    pieges: seq<G.Pitfall>,
    alertesCritiques: seq<A.CriticalAlert>,
    indexCalcules: map<string, IndexValue>,
    nomogrammes: NomogramResult,
    patientData: PatientData)

  /** The analysis of one examination, part by part. */
  function AnalysisOf(p: PatientData): DiagnosticResult {
    var d := Diagnose(p);
    var k := G.DiagnosisProfile(d);
    DiagnosticResult(d, Confidence(p, d.Label()), G.Recommendations(p, k), G.Exams(p, k), G.Treatments(p, k),
                     G.SurveillancePlan(p, k), G.Pitfalls(p, k), A.CriticalAlerts(p), IndicesOf(p), NomogramsOf(p), p)
  }

  /**
   * `analyserUrodynamique(data)`: every generator dispatches on the label
   * of the diagnosis the resolver returned for the computed indices and
   * nomograms.
   */
  method Analyse(p: PatientData) returns (result: DiagnosticResult)
    ensures result == AnalysisOf(p)
  {
    var indexCalcules := ComputeIndices(p);
    var nomogrammes := EvaluateNomograms(p);
    var diagnostic := Resolve(p, indexCalcules, nomogrammes);
    var dx := diagnostic.Label();
    G.ProfileOfLabel(diagnostic);
    var recommandations := G.GenerateRecommendations(p, dx);
    var examensComplementaires := G.GenerateExams(p, dx);
    var traitements := G.GenerateTreatments(p, dx);
    var surveillance := G.GenerateSurveillance(p, dx);
    var pieges := G.GeneratePitfalls(p, dx);
    var alertesCritiques := A.DetectCriticalAlerts(p);
    result := DiagnosticResult(diagnostic, Confidence(p, dx), recommandations, examensComplementaires,
                               traitements, surveillance, pieges, alertesCritiques, indexCalcules, nomogrammes, p);
  }

  // ---------------------------------------------------------------------
  // The analysis against the validator.

  /** The very-low-compliance alert and the validator's compliance warning have the same threshold. */
  lemma ComplianceAlertIffWarning(p: PatientData)
    ensures A.VeryLowCompliance in AnalysisOf(p).alertesCritiques
            <==> V.VeryLowCompliance(p.cystometrie.compliance) in V.Warnings(p)
  {
    A.AlertConditions(p);
    V.ComplianceWarningCondition(p);
  }

  /** A residual high enough for the alert (above 200 ml) is also above the warning threshold (100 ml). */
  lemma ResidualAlertImpliesWarning(p: PatientData)
    ensures A.VeryHighResidual in AnalysisOf(p).alertesCritiques ==> V.HighResidual(p.Residual()) in V.Warnings(p)
  {
    A.AlertConditions(p);
    V.ResidualWarningCondition(p);
  }

  /** A detrusor pressure the validator flags (above 100) always raises the alert (above 80). */
  lemma DetrusorWarningImpliesAlert(p: PatientData)
    ensures V.VeryHighDetrusorPressure(p.PdetQmax()) in V.Warnings(p) ==> A.VeryHighDetrusorPressure in AnalysisOf(p).alertesCritiques
  {
    A.AlertConditions(p);
    assert V.VeryHighDetrusorPressure(p.PdetQmax()) in V.Warnings(p) ==> p.PdetQmax() > 100.0;
  }

  /**
   * On a record the validator accepts, the pressures add up exactly, so the
   * confidence is high exactly when the voided volume and the capacity
   * suffice.
   */
  lemma CoherentRecordConfidence(p: PatientData)
    requires V.Validation(p).coherence
    ensures AnalysisOf(p).certitudeDiagnostique == High
            <==> p.debitMetrie.volumeVide > 200.0 && p.cystometrie.capaciteVesicale > 150.0
  {
    V.CoherentIffConsistent(p);
    ExactPressuresGiveHighWhenMeasurable(p, Diagnose(p).Label());
  }

  // ---------------------------------------------------------------------
  // The analysis as a whole.

  /** Surveillance always opens with the bladder diary, and pitfalls with the small-volume caution. */
  lemma AnalysisAlwaysAdvises(p: PatientData)
    ensures var r := AnalysisOf(p);
            r.surveillance != [] && r.surveillance[0] == G.BladderDiary
            && r.pieges != [] && r.pieges[0] == G.LowQmaxSmallVolume
  {
    var k := G.DiagnosisProfile(Diagnose(p));
    G.SurveillanceShape(p, k);
    G.PitfallsShape(p, k);
  }

  /** A mixed diagnosis always brings both an anticholinergic and duloxetine. */
  lemma MixedAnalysisTreatsBothComponents(p: PatientData)
    requires MixedSigns(p)
    ensures G.Solifenacin in AnalysisOf(p).traitements && G.Duloxetine in AnalysisOf(p).traitements
  {
    G.MixedReceivesBothDrugFamilies(p, Diagnose(p));
  }

  /** The indices and nomograms reported are exactly those the diagnosis was resolved on. */
  lemma AnalysisReportsItsInputs(p: PatientData)
    ensures var r := AnalysisOf(p);
            r.diagnostic == Resolve(p, r.indexCalcules, r.nomogrammes) && r.patientData == p
            && r.nomogrammes.schafer.Some? && r.nomogrammes.abramsGriffiths.Some?
  {
  }
}
