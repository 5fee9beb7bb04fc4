/**
 * `validerDonneesUrodynamiques`, `validerCoherenceTemplateSexe` and
 * `nettoyerAvertissementsTemplate`: the consistency checks run on an entered
 * examination. Errors (physically impossible or sex-incoherent values) make
 * the record incoherent; warnings only flag unusual values.
 *
 * Every message is a constructor carrying the values the source interpolates
 * into its text; the text itself (number and list formatting) is not
 * modelled.
 */
module Validation {
  import opened Strings
  import opened Patient

  // Tag lists, spelled as in the source.
  const MaleHistory: seq<string> :=
    ["HBP", "Prostatectomie", "Cancer prostate", "Prostatite", "Résection prostatique", "Adénomectomie"]
  const FemaleHistory: seq<string> :=
    ["Hystérectomie", "Césarienne", "Accouchements difficiles", "Épisiotomie", "Prolapsus génital", "Ménopause",
     "Cystocèle", "Rectocèle", "Chirurgie anti-incontinence", "Érosion de bandelette", "Accouchements multiples",
     "Cancer col utérin", "Hystérectomie radicale"]
  const MaleSymptoms: seq<string> := ["Prostatisme"]
  const FemaleSymptoms: seq<string> := ["Pesanteur pelvienne"]
  const MaleTreatments: seq<string> := ["Inhibiteurs 5-alpha-réductase"]
  const FemaleTreatments: seq<string> := ["THS", "Œstrogènes locaux", "Pessaire"]

  datatype ValidationError =
    | FemaleHistoryInMale(tags: seq<string>)
    | MaleHistoryInFemale(tags: seq<string>)
    | UrethraTooShortForMale(length: real)
    | UrethraTooLongForFemale(length: real)
    | PressureSumMismatch(pves: real, pdet: real, pabd: real)
    | MeanFlowAboveMax(qMoyen: real, qMax: real)
    | ClosureAboveUrethralPressure(closure: real, urethral: real)
    | FunctionalLengthAboveTotal(functional: real, total: real)
    | ResidualAboveVoided(residual: real, voided: real)
    | TimeToQmaxAboveVoidingTime(timeToQmax: real, voidingTime: real)
    | FirstDesireAboveNormalDesire(first: real, normal: real)
    | NormalDesireAboveCapacity(normal: real, capacity: real)

  datatype ValidationWarning =
    | FemaleSymptomsInMale(tags: seq<string>)
    | MaleSymptomsInFemale(tags: seq<string>)
    | FemaleTreatmentsInMale(tags: seq<string>)
    | MaleTreatmentsInFemale(tags: seq<string>)
    | UrethralPressureOutOfMaleRange(pressure: real)
    | UrethralPressureOutOfFemaleRange(pressure: real)
    | VeryLowQmax(qMax: real)
    | VeryHighQmax(qMax: real)
    | VeryLowCompliance(compliance: real)
    | VerySmallCapacity(capacity: real)
    | VeryLargeCapacity(capacity: real)
    | HighResidual(residual: real)
    | VeryHighDetrusorPressure(pdet: real)
    | ProlongedVoiding(voidingTime: real)

  datatype ValidationResult = ValidationResult(
    coherence: bool, erreurs: seq<ValidationError>, avertissements: seq<ValidationWarning>)

  // ---------------------------------------------------------------------
  // The conditions of the individual checks.

  /** The history tags of the other sex that the record holds. */
  function OtherSexHistory(p: PatientData): seq<string> {
    if p.sexe == M then KeepIn(p.antecedents, FemaleHistory) else KeepIn(p.antecedents, MaleHistory)
  }

  /** `tempsJusquQmax && tempsJusquQmax > tempsVidange`: an absent or zero time is skipped. */
  predicate TimeToQmaxTooLong(p: PatientData) {
    p.debitMetrie.tempsJusquQmax.Some? && p.debitMetrie.tempsJusquQmax.value != 0.0
    && p.debitMetrie.tempsJusquQmax.value > p.debitMetrie.tempsVidange
  }

  predicate UrethralPressureOutOfRange(p: PatientData) {
    var pu := p.profilPression.pressionUretrale;
    if p.sexe == M then pu < 40.0 || pu > 150.0 else pu < 30.0 || pu > 120.0
  }

  // ---------------------------------------------------------------------
  // The error list, section by section.

  /** The sex check of the history: one error listing the offending tags, if any. */
  function HistoryErrors(s: seq<ValidationError>, p: PatientData): (r: seq<ValidationError>)
    ensures forall e :: e in r <==> e in s || (OtherSexHistory(p) != [] &&
                                               e == (if p.sexe == M then FemaleHistoryInMale(OtherSexHistory(p))
                                                     else MaleHistoryInFemale(OtherSexHistory(p))))
    ensures |s| <= |r| <= |s| + 1
  {
    var present := OtherSexHistory(p);
    var r := PushIf(s, p.sexe == M && |present| > 0, FemaleHistoryInMale(present));
    PushIf(r, p.sexe == F && |present| > 0, MaleHistoryInFemale(present))
  }

  /** The urethral length check: at least 150 mm for a man, at most 60 mm for a woman. */
  function UrethralLengthErrors(s: seq<ValidationError>, p: PatientData): (r: seq<ValidationError>)
    ensures |s| <= |r| <= |s| + 1
    ensures forall e :: e in r <==> (e in s
              || (p.sexe == M && p.profilPression.longueurUretrale < 150.0 && e == UrethraTooShortForMale(p.profilPression.longueurUretrale))
              || (p.sexe == F && p.profilPression.longueurUretrale > 60.0 && e == UrethraTooLongForFemale(p.profilPression.longueurUretrale)))
  {
    var length := p.profilPression.longueurUretrale;
    var r := PushIf(s, p.sexe == M && length < 150.0, UrethraTooShortForMale(length));
    PushIf(r, p.sexe == F && length > 60.0, UrethraTooLongForFemale(length))
  }

  /** The four pressure, flow and length checks, in source order. */
  function MeasurementErrors(s: seq<ValidationError>, p: PatientData): (r: seq<ValidationError>)
    ensures |s| <= |r| <= |s| + 4
    ensures var c, d, u := p.cystometrie, p.debitMetrie, p.profilPression;
            forall e :: e in r <==> (e in s
              || (c.pressionVesicale != c.pressionDetrusor + c.pressionAbdominale
                  && e == PressureSumMismatch(c.pressionVesicale, c.pressionDetrusor, c.pressionAbdominale))
              || (d.qMoyen > d.qMax && e == MeanFlowAboveMax(d.qMoyen, d.qMax))
              || (u.pressionClotureUretrale > u.pressionUretrale
                  && e == ClosureAboveUrethralPressure(u.pressionClotureUretrale, u.pressionUretrale))
              || (u.longueurFonctionnelle > u.longueurUretrale
                  && e == FunctionalLengthAboveTotal(u.longueurFonctionnelle, u.longueurUretrale)))
  {
    var c, d, u := p.cystometrie, p.debitMetrie, p.profilPression;
    var r := PushIf(s, c.pressionVesicale != c.pressionDetrusor + c.pressionAbdominale,
                    PressureSumMismatch(c.pressionVesicale, c.pressionDetrusor, c.pressionAbdominale));
    var r := PushIf(r, d.qMoyen > d.qMax, MeanFlowAboveMax(d.qMoyen, d.qMax));
    var r := PushIf(r, u.pressionClotureUretrale > u.pressionUretrale,
                    ClosureAboveUrethralPressure(u.pressionClotureUretrale, u.pressionUretrale));
    PushIf(r, u.longueurFonctionnelle > u.longueurUretrale,
           FunctionalLengthAboveTotal(u.longueurFonctionnelle, u.longueurUretrale))
  }

  /** The four volume, time and filling-sensation checks, in source order. */
  function OrderingErrors(s: seq<ValidationError>, p: PatientData): (r: seq<ValidationError>)
    ensures |s| <= |r| <= |s| + 4
    ensures var c, d := p.cystometrie, p.debitMetrie;
            forall e :: e in r <==> (e in s
              || (p.Residual() > d.volumeVide && e == ResidualAboveVoided(p.Residual(), d.volumeVide))
              || (TimeToQmaxTooLong(p) && e == TimeToQmaxAboveVoidingTime(d.tempsJusquQmax.value, d.tempsVidange))
              || (c.premierBesoin > c.besoinNormal && e == FirstDesireAboveNormalDesire(c.premierBesoin, c.besoinNormal))
              || (c.besoinNormal > c.capaciteVesicale && e == NormalDesireAboveCapacity(c.besoinNormal, c.capaciteVesicale)))
  {
    var c, d := p.cystometrie, p.debitMetrie;
    var r := PushIf(s, p.Residual() > d.volumeVide, ResidualAboveVoided(p.Residual(), d.volumeVide));
    var r := PushIf(r, TimeToQmaxTooLong(p),
                    TimeToQmaxAboveVoidingTime(if d.tempsJusquQmax.Some? then d.tempsJusquQmax.value else 0.0, d.tempsVidange));
    var r := PushIf(r, c.premierBesoin > c.besoinNormal, FirstDesireAboveNormalDesire(c.premierBesoin, c.besoinNormal));
    PushIf(r, c.besoinNormal > c.capaciteVesicale, NormalDesireAboveCapacity(c.besoinNormal, c.capaciteVesicale))
  }

  /** The errors of a record. */
  function Errors(p: PatientData): seq<ValidationError> {
    OrderingErrors(MeasurementErrors(UrethralLengthErrors(HistoryErrors([], p), p), p), p)
  }

  // ---------------------------------------------------------------------
  // The warning list, section by section.

  /** The sex checks of the symptoms and of the treatments. */
  function SexTagWarnings(s: seq<ValidationWarning>, p: PatientData): (r: seq<ValidationWarning>)
    ensures |s| <= |r| <= |s| + 2
    ensures forall w :: w in r <==> (w in s
              || (p.sexe == M && KeepIn(p.symptomes, FemaleSymptoms) != [] && w == FemaleSymptomsInMale(KeepIn(p.symptomes, FemaleSymptoms)))
              || (p.sexe == F && KeepIn(p.symptomes, MaleSymptoms) != [] && w == MaleSymptomsInFemale(KeepIn(p.symptomes, MaleSymptoms)))
              || (p.sexe == M && KeepIn(p.traitements, FemaleTreatments) != []
                  && w == FemaleTreatmentsInMale(KeepIn(p.traitements, FemaleTreatments)))
              || (p.sexe == F && KeepIn(p.traitements, MaleTreatments) != []
                  && w == MaleTreatmentsInFemale(KeepIn(p.traitements, MaleTreatments))))
  {
    var symptoms := if p.sexe == M then KeepIn(p.symptomes, FemaleSymptoms) else KeepIn(p.symptomes, MaleSymptoms);
    var treatments := if p.sexe == M then KeepIn(p.traitements, FemaleTreatments) else KeepIn(p.traitements, MaleTreatments);
    var r := PushIf(s, p.sexe == M && |symptoms| > 0, FemaleSymptomsInMale(symptoms));
    var r := PushIf(r, p.sexe == F && |symptoms| > 0, MaleSymptomsInFemale(symptoms));
    var r := PushIf(r, p.sexe == M && |treatments| > 0, FemaleTreatmentsInMale(treatments));
    PushIf(r, p.sexe == F && |treatments| > 0, MaleTreatmentsInFemale(treatments))
  }

  /** The urethral pressure range: 40-150 cmH2O for a man, 30-120 for a woman. */
  function UrethralPressureWarnings(s: seq<ValidationWarning>, p: PatientData): (r: seq<ValidationWarning>)
    ensures |s| <= |r| <= |s| + 1
    ensures forall w :: w in r <==> (w in s
              || (p.sexe == M && UrethralPressureOutOfRange(p) && w == UrethralPressureOutOfMaleRange(p.profilPression.pressionUretrale))
              || (p.sexe == F && UrethralPressureOutOfRange(p) && w == UrethralPressureOutOfFemaleRange(p.profilPression.pressionUretrale)))
  {
    var pu := p.profilPression.pressionUretrale;
    var r := PushIf(s, p.sexe == M && UrethralPressureOutOfRange(p), UrethralPressureOutOfMaleRange(pu));
    PushIf(r, p.sexe == F && UrethralPressureOutOfRange(p), UrethralPressureOutOfFemaleRange(pu))
  }

  /** The eight plausibility checks, in source order. */
  function PlausibilityWarnings(s: seq<ValidationWarning>, p: PatientData): (r: seq<ValidationWarning>)
    ensures |s| <= |r| <= |s| + 6
    ensures forall w :: w in r <==> (w in s
              || (p.debitMetrie.qMax < 5.0 && w == VeryLowQmax(p.debitMetrie.qMax))
              || (p.debitMetrie.qMax > 35.0 && w == VeryHighQmax(p.debitMetrie.qMax))
              || (p.cystometrie.compliance < 10.0 && w == VeryLowCompliance(p.cystometrie.compliance))
              || (p.cystometrie.capaciteVesicale < 200.0 && w == VerySmallCapacity(p.cystometrie.capaciteVesicale))
              || (p.cystometrie.capaciteVesicale > 800.0 && w == VeryLargeCapacity(p.cystometrie.capaciteVesicale))
              || (p.Residual() > 100.0 && w == HighResidual(p.Residual()))
              || (p.PdetQmax() > 100.0 && w == VeryHighDetrusorPressure(p.PdetQmax()))
              || (p.debitMetrie.tempsVidange > 120.0 && w == ProlongedVoiding(p.debitMetrie.tempsVidange)))
  {
    var c, d := p.cystometrie, p.debitMetrie;
    var r := PushIf(s, d.qMax < 5.0, VeryLowQmax(d.qMax));
    var r := PushIf(r, d.qMax > 35.0, VeryHighQmax(d.qMax));
    var r := PushIf(r, c.compliance < 10.0, VeryLowCompliance(c.compliance));
    var r := PushIf(r, c.capaciteVesicale < 200.0, VerySmallCapacity(c.capaciteVesicale));
    var r := PushIf(r, c.capaciteVesicale > 800.0, VeryLargeCapacity(c.capaciteVesicale));
    var r := PushIf(r, p.Residual() > 100.0, HighResidual(p.Residual()));
    var r := PushIf(r, p.PdetQmax() > 100.0, VeryHighDetrusorPressure(p.PdetQmax()));
    PushIf(r, d.tempsVidange > 120.0, ProlongedVoiding(d.tempsVidange))
  }

  /** The warnings of a record. */
  function Warnings(p: PatientData): seq<ValidationWarning> {
    PlausibilityWarnings(UrethralPressureWarnings(SexTagWarnings([], p), p), p)
  }

  /** The result `validerDonneesUrodynamiques` returns. */
  function Validation(p: PatientData): ValidationResult {
    ValidationResult(Errors(p) == [], Errors(p), Warnings(p))
  }

  // ---------------------------------------------------------------------
  // validerDonneesUrodynamiques, one helper per section of the source.

  method CheckHistory(p: PatientData, erreurs: seq<ValidationError>) returns (r: seq<ValidationError>)
    ensures r == HistoryErrors(erreurs, p)
  {
    r := erreurs;
    if p.sexe == M {
      var present := KeepIn(p.antecedents, FemaleHistory);
      if |present| > 0 {
        r := r + [FemaleHistoryInMale(present)];
      }
    } else if p.sexe == F {
      var present := KeepIn(p.antecedents, MaleHistory);
      if |present| > 0 {
        r := r + [MaleHistoryInFemale(present)];
      }
    }
  }

  method CheckSexTags(p: PatientData, avertissements: seq<ValidationWarning>) returns (r: seq<ValidationWarning>)
    ensures r == SexTagWarnings(avertissements, p)
  {
    r := avertissements;
    if p.sexe == M {
      var present := KeepIn(p.symptomes, FemaleSymptoms);
      if |present| > 0 {
        r := r + [FemaleSymptomsInMale(present)];
      }
    } else if p.sexe == F {
      var present := KeepIn(p.symptomes, MaleSymptoms);
      if |present| > 0 {
        r := r + [MaleSymptomsInFemale(present)];
      }
    }
    if p.sexe == M {
      var present := KeepIn(p.traitements, FemaleTreatments);
      if |present| > 0 {
        r := r + [FemaleTreatmentsInMale(present)];
      }
    } else if p.sexe == F {
      var present := KeepIn(p.traitements, MaleTreatments);
      if |present| > 0 {
        r := r + [MaleTreatmentsInFemale(present)];
      }
    }
  }

  method CheckUrethra(p: PatientData, erreurs: seq<ValidationError>, avertissements: seq<ValidationWarning>)
    returns (e: seq<ValidationError>, w: seq<ValidationWarning>)
    ensures e == UrethralLengthErrors(erreurs, p)
    ensures w == UrethralPressureWarnings(avertissements, p)
  {
    e, w := erreurs, avertissements;
    if p.sexe == M && p.profilPression.longueurUretrale < 150.0 {
      e := e + [UrethraTooShortForMale(p.profilPression.longueurUretrale)];
    } else if p.sexe == F && p.profilPression.longueurUretrale > 60.0 {
      e := e + [UrethraTooLongForFemale(p.profilPression.longueurUretrale)];
    }
    if p.sexe == M {
      if p.profilPression.pressionUretrale < 40.0 || p.profilPression.pressionUretrale > 150.0 {
        w := w + [UrethralPressureOutOfMaleRange(p.profilPression.pressionUretrale)];
      }
    } else if p.sexe == F {
      if p.profilPression.pressionUretrale < 30.0 || p.profilPression.pressionUretrale > 120.0 {
        w := w + [UrethralPressureOutOfFemaleRange(p.profilPression.pressionUretrale)];
      }
    }
  }

  method CheckMeasurements(p: PatientData, erreurs: seq<ValidationError>) returns (r: seq<ValidationError>)
    ensures r == MeasurementErrors(erreurs, p)
  {
    r := erreurs;
    var c, d, u := p.cystometrie, p.debitMetrie, p.profilPression;
    if c.pressionVesicale != c.pressionDetrusor + c.pressionAbdominale {
      r := r + [PressureSumMismatch(c.pressionVesicale, c.pressionDetrusor, c.pressionAbdominale)];
    }
    if d.qMoyen > d.qMax {
      r := r + [MeanFlowAboveMax(d.qMoyen, d.qMax)];
    }
    if u.pressionClotureUretrale > u.pressionUretrale {
      r := r + [ClosureAboveUrethralPressure(u.pressionClotureUretrale, u.pressionUretrale)];
    }
    if u.longueurFonctionnelle > u.longueurUretrale {
      r := r + [FunctionalLengthAboveTotal(u.longueurFonctionnelle, u.longueurUretrale)];
    }
  }

  method CheckOrderings(p: PatientData, erreurs: seq<ValidationError>) returns (r: seq<ValidationError>)
    ensures r == OrderingErrors(erreurs, p)
  {
    r := erreurs;
    var c, d := p.cystometrie, p.debitMetrie;
    if p.residuPostMictionnel > d.volumeVide {
      r := r + [ResidualAboveVoided(p.residuPostMictionnel, d.volumeVide)];
    }
    if d.tempsJusquQmax.Some? && d.tempsJusquQmax.value != 0.0 && d.tempsJusquQmax.value > d.tempsVidange {
      r := r + [TimeToQmaxAboveVoidingTime(d.tempsJusquQmax.value, d.tempsVidange)];
    }
    if c.premierBesoin > c.besoinNormal {
      r := r + [FirstDesireAboveNormalDesire(c.premierBesoin, c.besoinNormal)];
    }
    if c.besoinNormal > c.capaciteVesicale {
      r := r + [NormalDesireAboveCapacity(c.besoinNormal, c.capaciteVesicale)];
    }
  }

  method CheckPlausibility(p: PatientData, avertissements: seq<ValidationWarning>) returns (r: seq<ValidationWarning>)
    ensures r == PlausibilityWarnings(avertissements, p)
  {
    r := avertissements;
    var c, d := p.cystometrie, p.debitMetrie;
    if d.qMax < 5.0 {
      r := r + [VeryLowQmax(d.qMax)];
    }
    if d.qMax > 35.0 {
      r := r + [VeryHighQmax(d.qMax)];
    }
    if c.compliance < 10.0 {
      r := r + [VeryLowCompliance(c.compliance)];
    }
    if c.capaciteVesicale < 200.0 {
      r := r + [VerySmallCapacity(c.capaciteVesicale)];
    }
    if c.capaciteVesicale > 800.0 {
      r := r + [VeryLargeCapacity(c.capaciteVesicale)];
    }
    if p.residuPostMictionnel > 100.0 {
      r := r + [HighResidual(p.residuPostMictionnel)];
    }
    if p.etudePressionDebit.pressionDetrusorQmax > 100.0 {
      r := r + [VeryHighDetrusorPressure(p.etudePressionDebit.pressionDetrusorQmax)];
    }
    if d.tempsVidange > 120.0 {
      r := r + [ProlongedVoiding(d.tempsVidange)];
    }
  }

  /** `validerDonneesUrodynamiques(data)`: the record is coherent exactly when no error was pushed. */
  method ValidateRecord(p: PatientData) returns (result: ValidationResult)
    ensures result == Validation(p)
    ensures result.coherence <==> result.erreurs == []
  {
    var erreurs: seq<ValidationError> := [];
    var avertissements: seq<ValidationWarning> := [];
    erreurs := CheckHistory(p, erreurs);
    avertissements := CheckSexTags(p, avertissements);
    erreurs, avertissements := CheckUrethra(p, erreurs, avertissements);
    erreurs := CheckMeasurements(p, erreurs);
    erreurs := CheckOrderings(p, erreurs);
    avertissements := CheckPlausibility(p, avertissements);
    result := ValidationResult(|erreurs| == 0, erreurs, avertissements);
  }

  // ---------------------------------------------------------------------
  // What the checks guarantee.

  /**
   * The physical and sex-coherence invariants of a record, stated
   * positively: the record is coherent exactly when they all hold.
   */
  predicate ConsistentRecord(p: PatientData) {
    var c, d, u := p.cystometrie, p.debitMetrie, p.profilPression;
    OtherSexHistory(p) == []
    && (p.sexe == M ==> u.longueurUretrale >= 150.0)
    && (p.sexe == F ==> u.longueurUretrale <= 60.0)
    && c.pressionVesicale == c.pressionDetrusor + c.pressionAbdominale
    && d.qMoyen <= d.qMax
    && u.pressionClotureUretrale <= u.pressionUretrale
    && u.longueurFonctionnelle <= u.longueurUretrale
    && p.Residual() <= d.volumeVide
    && !TimeToQmaxTooLong(p)
    && c.premierBesoin <= c.besoinNormal <= c.capaciteVesicale
  }

  /** No error exactly when every invariant holds. */
  lemma CoherentIffConsistent(p: PatientData)
    ensures Validation(p).coherence <==> ConsistentRecord(p)
  {
  }

  /** At most ten errors: one for the history, one for the length, eight for the arithmetic. */
  lemma ErrorsBound(p: PatientData)
    ensures |Errors(p)| <= 10
  {
  }

  /** At most nine warnings: one sex holds, and the two Qmax checks and the two capacity checks exclude each other. */
  lemma WarningsBound(p: PatientData)
    ensures |Warnings(p)| <= 9
  {
  }

  /** The history error of a man names exactly the female tags the record holds. */
  lemma MaleHistoryErrorCarriesTags(p: PatientData, tags: seq<string>)
    ensures FemaleHistoryInMale(tags) in Errors(p) <==> p.sexe == M && tags == OtherSexHistory(p) && tags != []
  {
  }

  /** The history error of a woman names exactly the male tags the record holds. */
  lemma FemaleHistoryErrorCarriesTags(p: PatientData, tags: seq<string>)
    ensures MaleHistoryInFemale(tags) in Errors(p) <==> p.sexe == F && tags == OtherSexHistory(p) && tags != []
  {
  }

  /** Pves must equal Pdet + Pabd exactly; any difference is an error. */
  lemma PressureSumChecked(p: PatientData)
    ensures var c := p.cystometrie;
            PressureSumMismatch(c.pressionVesicale, c.pressionDetrusor, c.pressionAbdominale) in Errors(p)
            <==> c.pressionVesicale != c.pressionDetrusor + c.pressionAbdominale
  {
  }

  /** The residual-above-voided error. */
  lemma ResidualChecked(p: PatientData)
    ensures ResidualAboveVoided(p.Residual(), p.debitMetrie.volumeVide) in Errors(p)
            <==> p.Residual() > p.debitMetrie.volumeVide
  {
  }

  /** A man's urethra shorter than 150 mm is an error carrying the measured length, and nothing else is. */
  lemma UrethraTooShortChecked(p: PatientData, length: real)
    ensures UrethraTooShortForMale(length) in Errors(p)
            <==> p.sexe == M && length == p.profilPression.longueurUretrale && length < 150.0
  {
  }

  /** A woman's urethra longer than 60 mm is an error carrying the measured length, and nothing else is. */
  lemma UrethraTooLongChecked(p: PatientData, length: real)
    ensures UrethraTooLongForFemale(length) in Errors(p)
            <==> p.sexe == F && length == p.profilPression.longueurUretrale && length > 60.0
  {
  }

  /** The mean flow may not exceed the maximum flow. */
  lemma MeanFlowChecked(p: PatientData)
    ensures MeanFlowAboveMax(p.debitMetrie.qMoyen, p.debitMetrie.qMax) in Errors(p)
            <==> p.debitMetrie.qMoyen > p.debitMetrie.qMax
  {
  }

  /** The closure pressure may not exceed the urethral pressure. */
  lemma ClosureChecked(p: PatientData)
    ensures var u := p.profilPression;
            ClosureAboveUrethralPressure(u.pressionClotureUretrale, u.pressionUretrale) in Errors(p)
            <==> u.pressionClotureUretrale > u.pressionUretrale
  {
  }

  /** The functional length may not exceed the total urethral length. */
  lemma FunctionalLengthChecked(p: PatientData)
    ensures var u := p.profilPression;
            FunctionalLengthAboveTotal(u.longueurFonctionnelle, u.longueurUretrale) in Errors(p)
            <==> u.longueurFonctionnelle > u.longueurUretrale
  {
  }

  /** A present, non-zero time to Qmax may not exceed the voiding time. */
  lemma TimeToQmaxCheckedWhenTruthy(p: PatientData, t: real)
    requires p.debitMetrie.tempsJusquQmax == Some(t) && t != 0.0
    ensures TimeToQmaxAboveVoidingTime(t, p.debitMetrie.tempsVidange) in Errors(p)
            <==> t > p.debitMetrie.tempsVidange
  {
  }

  /** The first desire may not come after the normal desire. */
  lemma FirstDesireChecked(p: PatientData)
    ensures var c := p.cystometrie;
            FirstDesireAboveNormalDesire(c.premierBesoin, c.besoinNormal) in Errors(p)
            <==> c.premierBesoin > c.besoinNormal
  {
  }

  /** The normal desire may not come after the bladder capacity. */
  lemma NormalDesireChecked(p: PatientData)
    ensures var c := p.cystometrie;
            NormalDesireAboveCapacity(c.besoinNormal, c.capaciteVesicale) in Errors(p)
            <==> c.besoinNormal > c.capaciteVesicale
  {
  }

  /** An absent or zero time to Qmax is never checked against the voiding time. */
  lemma TimeToQmaxSkippedWhenFalsy(p: PatientData, t: real, v: real)
    requires p.debitMetrie.tempsJusquQmax == None || p.debitMetrie.tempsJusquQmax == Some(0.0)
    ensures TimeToQmaxAboveVoidingTime(t, v) !in Errors(p)
  {
  }

  /** Symptoms and treatments only ever produce warnings, never errors. */
  lemma TagsDoNotAffectErrors(p: PatientData, symptomes: seq<string>, traitements: seq<string>)
    ensures Errors(p.(symptomes := symptomes, traitements := traitements)) == Errors(p)
  {
  }

  /** The two very-low-compliance findings of the validator and of the alerts agree. */
  lemma ComplianceWarningCondition(p: PatientData)
    ensures VeryLowCompliance(p.cystometrie.compliance) in Warnings(p) <==> p.cystometrie.compliance < 10.0
  {
  }

  /** A residual above 100 ml is always flagged. */
  lemma ResidualWarningCondition(p: PatientData)
    ensures HighResidual(p.Residual()) in Warnings(p) <==> p.Residual() > 100.0
  {
  }

  /** A man's symptom warning names exactly the female symptoms the record holds. */
  lemma MaleSymptomWarningCarriesTags(p: PatientData, tags: seq<string>)
    ensures FemaleSymptomsInMale(tags) in Warnings(p)
            <==> p.sexe == M && tags == KeepIn(p.symptomes, FemaleSymptoms) && tags != []
  {
  }

  /** A woman's symptom warning names exactly the male symptoms the record holds. */
  lemma FemaleSymptomWarningCarriesTags(p: PatientData, tags: seq<string>)
    ensures MaleSymptomsInFemale(tags) in Warnings(p)
            <==> p.sexe == F && tags == KeepIn(p.symptomes, MaleSymptoms) && tags != []
  {
  }

  /** A man's treatment warning names exactly the female treatments the record holds. */
  lemma MaleTreatmentWarningCarriesTags(p: PatientData, tags: seq<string>)
    ensures FemaleTreatmentsInMale(tags) in Warnings(p)
            <==> p.sexe == M && tags == KeepIn(p.traitements, FemaleTreatments) && tags != []
  {
  }

  /** A woman's treatment warning names exactly the male treatments the record holds. */
  lemma FemaleTreatmentWarningCarriesTags(p: PatientData, tags: seq<string>)
    ensures MaleTreatmentsInFemale(tags) in Warnings(p)
            <==> p.sexe == F && tags == KeepIn(p.traitements, MaleTreatments) && tags != []
  {
  }

  /** A man's urethral pressure outside 40-150 is flagged with the measured value, and nothing else is. */
  lemma MaleUrethralPressureWarningCondition(p: PatientData, pressure: real)
    ensures UrethralPressureOutOfMaleRange(pressure) in Warnings(p)
            <==> p.sexe == M && pressure == p.profilPression.pressionUretrale && (pressure < 40.0 || pressure > 150.0)
  {
    var w := UrethralPressureWarnings(SexTagWarnings([], p), p);
    assert UrethralPressureOutOfMaleRange(pressure) in Warnings(p) <==> UrethralPressureOutOfMaleRange(pressure) in w;
  }

  /** A woman's urethral pressure outside 30-120 is flagged with the measured value, and nothing else is. */
  lemma FemaleUrethralPressureWarningCondition(p: PatientData, pressure: real)
    ensures UrethralPressureOutOfFemaleRange(pressure) in Warnings(p)
            <==> p.sexe == F && pressure == p.profilPression.pressionUretrale && (pressure < 30.0 || pressure > 120.0)
  {
  }

  /** A Qmax below 5 ml/s is flagged. */
  lemma LowQmaxWarningCondition(p: PatientData)
    ensures VeryLowQmax(p.debitMetrie.qMax) in Warnings(p) <==> p.debitMetrie.qMax < 5.0
  {
  }

  /** A Qmax above 35 ml/s is flagged. */
  lemma HighQmaxWarningCondition(p: PatientData)
    ensures VeryHighQmax(p.debitMetrie.qMax) in Warnings(p) <==> p.debitMetrie.qMax > 35.0
  {
  }

  /** A capacity below 200 ml is flagged. */
  lemma SmallCapacityWarningCondition(p: PatientData)
    ensures VerySmallCapacity(p.cystometrie.capaciteVesicale) in Warnings(p) <==> p.cystometrie.capaciteVesicale < 200.0
  {
  }

  /** A capacity above 800 ml is flagged. */
  lemma LargeCapacityWarningCondition(p: PatientData)
    ensures VeryLargeCapacity(p.cystometrie.capaciteVesicale) in Warnings(p) <==> p.cystometrie.capaciteVesicale > 800.0
  {
  }

  /** A detrusor pressure at Qmax above 100 cmH2O is flagged. */
  lemma DetrusorPressureWarningCondition(p: PatientData)
    ensures VeryHighDetrusorPressure(p.PdetQmax()) in Warnings(p) <==> p.PdetQmax() > 100.0
  {
  }

  /** A voiding time above 120 s is flagged. */
  lemma ProlongedVoidingWarningCondition(p: PatientData)
    ensures ProlongedVoiding(p.debitMetrie.tempsVidange) in Warnings(p) <==> p.debitMetrie.tempsVidange > 120.0
  {
  }

  // ---------------------------------------------------------------------
  // validerCoherenceTemplateSexe

  const MaleTemplates: seq<string> := ["obstruction_prostatique"]
  const FemaleTemplates: seq<string> := []

  datatype TemplateWarning = MaleOnlyTemplate(templateId: string) | FemaleOnlyTemplate(templateId: string)

  /** `validerCoherenceTemplateSexe(templateId, sexe)`; `None` is the source's `null`. */
  function TemplateSexMismatch(templateId: string, sexe: Sex): (w: Option<TemplateWarning>)
    ensures w.Some? ==> w.value.templateId == templateId
  {
    if templateId in MaleTemplates && sexe == F then Some(MaleOnlyTemplate(templateId))
    else if templateId in FemaleTemplates && sexe == M then Some(FemaleOnlyTemplate(templateId))
    else None
  }

  /**
   * The only sex-specific template is the male prostatic one; the female
   * list is empty, so the female message is never produced.
   */
  lemma TemplateMismatchExactly(templateId: string, sexe: Sex)
    ensures TemplateSexMismatch(templateId, sexe).Some? <==> templateId == "obstruction_prostatique" && sexe == F
    ensures TemplateSexMismatch(templateId, sexe) != Some(FemaleOnlyTemplate(templateId))
  {
  }

  // ---------------------------------------------------------------------
  // nettoyerAvertissementsTemplate

  /** The warning a template change withdraws, spelled as in the source. */
  const DyssynergiaTemplateWarning: string := "Dyssynergie sans antécédent" + " neurologique évident"

  /** `avertissements.filter(a => !a.includes(...))`. */
  function CleanTemplateWarnings(avertissements: seq<string>): (r: seq<string>)
    ensures |r| <= |avertissements|
    ensures forall w :: w in r <==> w in avertissements && !Contains(w, DyssynergiaTemplateWarning)
    ensures IsSubsequence(r, avertissements)
    ensures forall w :: multiset(r)[w] == if Contains(w, DyssynergiaTemplateWarning) then 0 else multiset(avertissements)[w]
  {
    if avertissements == [] then []
    else
      var rest := CleanTemplateWarnings(avertissements[1..]);
      assert avertissements == [avertissements[0]] + avertissements[1..];
      assert forall w :: w in avertissements <==> w == avertissements[0] || w in avertissements[1..];
      SubsequenceOfTail(rest, avertissements);
      if Contains(avertissements[0], DyssynergiaTemplateWarning) then rest
      else [avertissements[0]] + rest
  }

  /** A subsequence of the tail is one of the whole list, with or without the head. */
  lemma {:induction false} SubsequenceOfTail(a: seq<string>, b: seq<string>)
    requires b != [] && IsSubsequence(a, b[1..])
    ensures IsSubsequence(a, b)
    ensures IsSubsequence([b[0]] + a, b)
  {
    assert ([b[0]] + a)[1..] == a;
  }

  /** Cleaning twice removes nothing more. */
  lemma {:induction false} CleanIdempotent(avertissements: seq<string>)
    ensures CleanTemplateWarnings(CleanTemplateWarnings(avertissements)) == CleanTemplateWarnings(avertissements)
  {
    if avertissements != [] {
      CleanIdempotent(avertissements[1..]);
      if !Contains(avertissements[0], DyssynergiaTemplateWarning) {
        var c := CleanTemplateWarnings(avertissements);
        assert c[0] == avertissements[0] && c[1..] == CleanTemplateWarnings(avertissements[1..]);
      }
    }
  }

  /** A list without the withdrawn warning is left unchanged. */
  lemma {:induction false} CleanKeepsUnaffected(avertissements: seq<string>)
    requires forall i | 0 <= i < |avertissements| :: !Contains(avertissements[i], DyssynergiaTemplateWarning)
    ensures CleanTemplateWarnings(avertissements) == avertissements
  {
    if avertissements != [] {
      assert !Contains(avertissements[0], DyssynergiaTemplateWarning);
      CleanKeepsUnaffected(avertissements[1..]);
      assert [avertissements[0]] + avertissements[1..] == avertissements;
    }
  }
}
