/**
 * `evaluerNomogrammes`: the Schäfer and Abrams-Griffiths classifications of
 * the pressure-flow point (Qmax, Pdet at Qmax), each a first-match chain of
 * strict thresholds.
 */
module Nomograms {
  import opened Patient

  datatype SchaferZone = StrongObstruction | ModerateObstruction | SchaferEquivocal | SchaferNormal
  {
    function Label(): string {
      match this
      case StrongObstruction => "Obstruction forte"
      case ModerateObstruction => "Obstruction modérée"
      case SchaferEquivocal => "Équivoque"
      case SchaferNormal => "Normal"
    }

    /** 3 for the strongest obstruction down to 0 for normal. */
    function Severity(): nat {
      match this
      case StrongObstruction => 3
      case ModerateObstruction => 2
      case SchaferEquivocal => 1
      case SchaferNormal => 0
    }
  }

  datatype AbramsGriffithsZone = Obstructed | AGEquivocal | Unobstructed
  {
    function Label(): string {
      match this
      case Obstructed => "Obstrué"
      case AGEquivocal => "Équivoque"
      case Unobstructed => "Non obstrué"
    }

    function Severity(): nat {
      match this
      case Obstructed => 2
      case AGEquivocal => 1
      case Unobstructed => 0
    }
  }

  /** The record `{ schafer?, abramsGriffiths? }`; an absent field is `None`. */
  datatype NomogramResult = NomogramResult(schafer: Option<SchaferZone>, abramsGriffiths: Option<AbramsGriffithsZone>)

  /**
   * The Schäfer zone of a point. The three obstruction regions are nested,
   * so a first-match chain amounts to: the zone is at least as severe as each
   * region that contains the point.
   */
  function SchaferOf(qmax: real, pdet: real): (z: SchaferZone)
    ensures z.Severity() >= 1 <==> qmax < 20.0 && pdet > 20.0
    ensures z.Severity() >= 2 <==> qmax < 15.0 && pdet > 30.0
    ensures z.Severity() == 3 <==> qmax < 10.0 && pdet > 50.0
  {
    if qmax < 10.0 && pdet > 50.0 then StrongObstruction
    else if qmax < 15.0 && pdet > 30.0 then ModerateObstruction
    else if qmax < 20.0 && pdet > 20.0 then SchaferEquivocal
    else SchaferNormal
  }

  /** The Abrams-Griffiths zone of an obstruction index. */
  function AbramsGriffithsOf(index: real): (z: AbramsGriffithsZone)
    ensures z == Obstructed <==> index > 40.0
    ensures z == Unobstructed <==> index <= 20.0
  {
    if index > 40.0 then Obstructed
    else if index > 20.0 then AGEquivocal
    else Unobstructed
  }

  /** Both nomograms of one examination; both fields are always filled. */
  function NomogramsOf(p: PatientData): NomogramResult {
    NomogramResult(Some(SchaferOf(p.QMax(), p.PdetQmax())),
                   Some(AbramsGriffithsOf(p.PdetQmax() - 2.0 * p.QMax())))
  }

  /** `evaluerNomogrammes`: starts from an empty record and fills both fields. */
  method EvaluateNomograms(p: PatientData) returns (n: NomogramResult)
    ensures n == NomogramsOf(p)
    ensures n.schafer.Some? && n.abramsGriffiths.Some?
  {
    n := NomogramResult(None, None);
    var qmax := p.QMax();
    var pdetQmax := p.PdetQmax();
    if qmax < 10.0 && pdetQmax > 50.0 {
      n := n.(schafer := Some(StrongObstruction));
    } else if qmax < 15.0 && pdetQmax > 30.0 {
      n := n.(schafer := Some(ModerateObstruction));
    } else if qmax < 20.0 && pdetQmax > 20.0 {
      n := n.(schafer := Some(SchaferEquivocal));
    } else {
      n := n.(schafer := Some(SchaferNormal));
    }
    var indexObstruction := pdetQmax - 2.0 * qmax;
    if indexObstruction > 40.0 {
      n := n.(abramsGriffiths := Some(Obstructed));
    } else if indexObstruction > 20.0 {
      n := n.(abramsGriffiths := Some(AGEquivocal));
    } else {
      n := n.(abramsGriffiths := Some(Unobstructed));
    }
  }

  /** Less flow at more pressure is never classified as less obstructed. */
  lemma SchaferMonotone(q1: real, p1: real, q2: real, p2: real)
    requires q2 <= q1 && p1 <= p2
    ensures SchaferOf(q1, p1).Severity() <= SchaferOf(q2, p2).Severity()
  {
  }

  /** A higher obstruction index is never classified as less obstructed. */
  lemma AbramsGriffithsMonotone(i1: real, i2: real)
    requires i1 <= i2
    ensures AbramsGriffithsOf(i1).Severity() <= AbramsGriffithsOf(i2).Severity()
  {
  }

  /** The strict thresholds at their boundaries. */
  lemma NomogramBoundaries()
    ensures SchaferOf(10.0, 60.0) == ModerateObstruction
    ensures SchaferOf(10.0, 50.0) == ModerateObstruction
    ensures SchaferOf(20.0, 20.0) == SchaferNormal
    ensures AbramsGriffithsOf(40.0) == AGEquivocal
    ensures AbramsGriffithsOf(41.0) == Obstructed
    ensures AbramsGriffithsOf(20.0) == Unobstructed
  {
  }
}
