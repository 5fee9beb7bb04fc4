/**
 * `calculerIndex`: the five derived pressure-flow indices, stored under
 * their French display names in a string-keyed record.
 */
module Indices {
  import opened Patient

  /**
   * A number of the index record. The two quotients divide by a measured
   * value that may be zero; JavaScript then yields Infinity or NaN, which
   * the model keeps as one non-finite value instead of a precondition.
   */
  datatype IndexValue = Finite(value: real) | NonFinite

  /** `a / b` as a JavaScript number. */
  function Quotient(a: real, b: real): (r: IndexValue)
    ensures r.Finite? <==> b != 0.0
    ensures r.Finite? ==> r.value * b == a
  {
    if b == 0.0 then NonFinite else Finite(a / b)
  }

  // The record keys, spelled as in the source.
  const ObstructionIndexKey: string := "Index d'obstruction" + " (Abrams-Griffiths)"
  const ContractilityIndexKey: string := "Index de contractilité" + " détrusorienne"
  const ResistanceKey: string := "Résistance urétrale"
  const ConductanceKey: string := "Conductance urétrale"
  const FlowRatioKey: string := "Ratio Qmoyen/Qmax"

  function IndexKeys(): set<string> {
    {ObstructionIndexKey, ContractilityIndexKey, ResistanceKey, ConductanceKey, FlowRatioKey}
  }

  /** Abrams-Griffiths obstruction index: Pdet at Qmax minus twice Qmax. */
  function ObstructionIndex(p: PatientData): real {
    p.PdetQmax() - 2.0 * p.QMax()
  }

  /** Detrusor contractility index: Pdet at Qmax plus five times Qmax. */
  function ContractilityIndex(p: PatientData): real {
    p.PdetQmax() + 5.0 * p.QMax()
  }

  /** The record `calculerIndex` returns. */
  function IndicesOf(p: PatientData): map<string, IndexValue> {
    map[ObstructionIndexKey := Finite(ObstructionIndex(p)),
        ContractilityIndexKey := Finite(ContractilityIndex(p)),
        ResistanceKey := Quotient(p.PdetQmax(), p.QMax()),
        ConductanceKey := Quotient(p.QMax(), p.PdetQmax()),
        FlowRatioKey := Quotient(p.debitMetrie.qMoyen, p.QMax())]
  }

  /** The five keys are pairwise distinct, so the record has five entries. */
  lemma IndexKeysDistinct()
    ensures |IndexKeys()| == 5
  {
    assert |ObstructionIndexKey| == 38 && |ContractilityIndexKey| == 36;
    assert |ResistanceKey| == 19 && |ConductanceKey| == 20 && |FlowRatioKey| == 17;
  }

  /** `calculerIndex`: fills the record one key at a time. */
  method ComputeIndices(p: PatientData) returns (index: map<string, IndexValue>)
    ensures index == IndicesOf(p)
    ensures index.Keys == IndexKeys()
    ensures index[ObstructionIndexKey] == Finite(p.PdetQmax() - 2.0 * p.QMax())
    ensures index[ContractilityIndexKey] == Finite(p.PdetQmax() + 5.0 * p.QMax())
    ensures index[ResistanceKey].Finite? <==> p.QMax() != 0.0
    ensures index[ConductanceKey].Finite? <==> p.PdetQmax() != 0.0
    ensures index[FlowRatioKey].Finite? <==> p.QMax() != 0.0
  {
    IndexKeysDistinct();
    index := map[];
    index := index[ObstructionIndexKey := Finite(p.PdetQmax() - 2.0 * p.QMax())];
    index := index[ContractilityIndexKey := Finite(p.PdetQmax() + 5.0 * p.QMax())];
    index := index[ResistanceKey := Quotient(p.PdetQmax(), p.QMax())];
    index := index[ConductanceKey := Quotient(p.QMax(), p.PdetQmax())];
    index := index[FlowRatioKey := Quotient(p.debitMetrie.qMoyen, p.QMax())];
  }

  /** The contractility and obstruction indices differ by exactly seven times Qmax. */
  lemma ContractilityExceedsObstruction(p: PatientData)
    ensures IndicesOf(p)[ContractilityIndexKey].value - IndicesOf(p)[ObstructionIndexKey].value
            == 7.0 * p.QMax()
  {
    IndexKeysDistinct();
  }

  /** Resistance and conductance are reciprocal whenever both are finite. */
  lemma ResistanceConductanceReciprocal(p: PatientData)
    requires p.QMax() != 0.0 && p.PdetQmax() != 0.0
    ensures IndicesOf(p)[ResistanceKey].Finite? && IndicesOf(p)[ConductanceKey].Finite?
    ensures IndicesOf(p)[ResistanceKey].value * IndicesOf(p)[ConductanceKey].value == 1.0
  {
    IndexKeysDistinct();
    var q, d := p.QMax(), p.PdetQmax();
    var r, c := d / q, q / d;
    assert r * q == d && c * d == q;
    assert (r * c) * (q * d) == (r * q) * (c * d);
    assert (r * c - 1.0) * (q * d) == 0.0;
    assert q * d != 0.0;
  }

  /** A mean flow between zero and the peak flow gives a ratio in [0, 1]. */
  lemma FlowRatioBounded(p: PatientData)
    requires 0.0 < p.QMax() && 0.0 <= p.debitMetrie.qMoyen <= p.QMax()
    ensures IndicesOf(p)[FlowRatioKey].Finite?
    ensures 0.0 <= IndicesOf(p)[FlowRatioKey].value <= 1.0
  {
    IndexKeysDistinct();
    var ratio := p.debitMetrie.qMoyen / p.QMax();
    assert ratio * p.QMax() == p.debitMetrie.qMoyen;
  }
}
