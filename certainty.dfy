/**
 * `evaluerCertitudeDiagnostique`: how much the measurements support the
 * diagnosis, from three quality criteria of the recording.
 */
module Certainty {
  import opened Strings
  import opened Patient

  datatype Certitude = High | Moderate | Low
  {
    function Label(): string {
      match this
      case High => "Élevée"
      case Moderate => "Modérée"
      case Low => "Faible"
    }
  }

  function Abs(x: real): real {
    if x < 0.0 then -x else x
  }

  /** The voided volume suffices. */
  predicate VolumeSufficient(p: PatientData) {
    p.debitMetrie.volumeVide > 200.0
  }

  /** The bladder capacity is measurable. */
  predicate CapacityMeasurable(p: PatientData) {
    p.cystometrie.capaciteVesicale > 150.0
  }

  /** Pves agrees with Pdet + Pabd to within 5 cmH2O. */
  predicate PressuresConsistent(p: PatientData) {
    Abs(p.cystometrie.pressionVesicale - (p.cystometrie.pressionDetrusor + p.cystometrie.pressionAbdominale)) < 5.0
  }

  function Criteria(p: PatientData): seq<bool> {
    [VolumeSufficient(p), CapacityMeasurable(p), PressuresConsistent(p)]
  }

  /** The number of true entries of a three-element list. */
  lemma CountThree(a: bool, b: bool, c: bool)
    ensures CountTrue([a, b, c]) == (if a then 1 else 0) + (if b then 1 else 0) + (if c then 1 else 0)
  {
    assert [a, b, c][1..] == [b, c];
    assert [b, c][1..] == [c];
    assert [c][1..] == [];
  }

  /**
   * `evaluerCertitudeDiagnostique(data, diagnostic)`: three criteria give
   * high confidence, two moderate, fewer low. The diagnosis argument is
   * accepted and never read.
   */
  function Confidence(p: PatientData, diagnostic: string): (c: Certitude)
    ensures c == High <==> VolumeSufficient(p) && CapacityMeasurable(p) && PressuresConsistent(p)
    ensures c == Low <==>
              !((VolumeSufficient(p) && CapacityMeasurable(p))
                || (VolumeSufficient(p) && PressuresConsistent(p))
                || (CapacityMeasurable(p) && PressuresConsistent(p)))
  {
    CountThree(VolumeSufficient(p), CapacityMeasurable(p), PressuresConsistent(p));
    var count := CountTrue(Criteria(p));
    if count >= 3 then High
    else if count >= 2 then Moderate
    else Low
  }

  /** The confidence depends on the measurements only. */
  lemma ConfidenceIgnoresDiagnosis(p: PatientData, d1: string, d2: string)
    ensures Confidence(p, d1) == Confidence(p, d2)
  {
  }

  /**
   * When Pves is exactly Pdet + Pabd (the validator's own requirement), the
   * pressure criterion holds, so the confidence is high exactly when the
   * volume and the capacity criteria hold, and at least moderate when one
   * of them does.
   */
  lemma ExactPressuresGiveHighWhenMeasurable(p: PatientData, diagnostic: string)
    requires p.cystometrie.pressionVesicale == p.cystometrie.pressionDetrusor + p.cystometrie.pressionAbdominale
    ensures Confidence(p, diagnostic) == High <==> VolumeSufficient(p) && CapacityMeasurable(p)
    ensures Confidence(p, diagnostic) != Low <==> VolumeSufficient(p) || CapacityMeasurable(p)
  {
  }
}
