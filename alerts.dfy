/**
 * `detecterAlertesCritiques`: the critical findings that call for prompt
 * action, each raised by one strict threshold on the recording.
 */
module Alerts {
  import opened Strings
  import opened Patient

  /** One critical alert; `Text()` is the message the source pushes. */
  datatype CriticalAlert = VeryHighResidual | VeryHighDetrusorPressure | VeryLowCompliance | SevereSphincterDeficiency
  {
    function Text(): string {
      match this
      case VeryHighResidual =>
        "Résidu post-mictionnel très élevé : risque de rétention chronique et d'atteinte du haut appareil urinaire"
      case VeryHighDetrusorPressure =>
        "Pression détrusorienne très élevée : risque de retentissement sur le haut appareil urinaire"
      case VeryLowCompliance => "Compliance vésicale très réduite : risque de détérioration de la fonction rénale"
      case SevereSphincterDeficiency => "Insuffisance sphinctérienne sévère : risque d'incontinence majeure"
    }

    /** The position of the check in the source. */
    function Rank(): nat {
      match this
      case VeryHighResidual => 0
      case VeryHighDetrusorPressure => 1
      case VeryLowCompliance => 2
      case SevereSphincterDeficiency => 3
    }
  }

  /** The severe sphincter deficiency is checked for women only. */
  predicate SevereSphincterDeficiencyFound(p: PatientData) {
    p.Closure() < 10.0 && p.sexe == F
  }

  /** The alerts of one examination, push by push. */
  function CriticalAlerts(p: PatientData): seq<CriticalAlert> {
    var a := PushIf([], p.Residual() > 200.0, VeryHighResidual);
    var a := PushIf(a, p.PdetQmax() > 80.0, VeryHighDetrusorPressure);
    var a := PushIf(a, p.cystometrie.compliance < 10.0, VeryLowCompliance);
    PushIf(a, SevereSphincterDeficiencyFound(p), SevereSphincterDeficiency)
  }

  /** `detecterAlertesCritiques(data)`. */
  method DetectCriticalAlerts(p: PatientData) returns (alertes: seq<CriticalAlert>)
    ensures alertes == CriticalAlerts(p)
  {
    alertes := [];
    if p.Residual() > 200.0 {
      alertes := alertes + [VeryHighResidual];
    }
    if p.PdetQmax() > 80.0 {
      alertes := alertes + [VeryHighDetrusorPressure];
    }
    if p.cystometrie.compliance < 10.0 {
      alertes := alertes + [VeryLowCompliance];
    }
    if p.Closure() < 10.0 && p.sexe == F {
      alertes := alertes + [SevereSphincterDeficiency];
    }
  }

  /** Each alert is raised exactly when its threshold is crossed. */
  lemma AlertConditions(p: PatientData)
    ensures VeryHighResidual in CriticalAlerts(p) <==> p.Residual() > 200.0
    ensures VeryHighDetrusorPressure in CriticalAlerts(p) <==> p.PdetQmax() > 80.0
    ensures VeryLowCompliance in CriticalAlerts(p) <==> p.cystometrie.compliance < 10.0
    ensures SevereSphincterDeficiency in CriticalAlerts(p) <==> p.Closure() < 10.0 && p.sexe == F
  {
  }

  /**
   * The alerts come in the order of the checks, each at most once, so there
   * are at most four; there are none exactly when no threshold is crossed.
   */
  lemma AlertsOrdered(p: PatientData)
    ensures var a := CriticalAlerts(p);
            (forall i, j | 0 <= i < j < |a| :: a[i].Rank() < a[j].Rank())
            && |a| <= 4
            && (a == [] <==> !(p.Residual() > 200.0 || p.PdetQmax() > 80.0 || p.cystometrie.compliance < 10.0
                               || SevereSphincterDeficiencyFound(p)))
  {
  }

  /** A man never receives the sphincter alert. */
  lemma NoSphincterAlertForMen(p: PatientData)
    requires p.sexe == M
    ensures SevereSphincterDeficiency !in CriticalAlerts(p)
  {
  }
}
