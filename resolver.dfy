/**
 * `determinerDiagnostic`: the priority-ordered rule chain that maps one
 * examination, its index record and its nomograms to exactly one of the
 * seventeen diagnosis labels.
 */
module Resolver {
  import opened Strings
  import opened Patient
  import opened Indices
  import opened Nomograms
  import opened Diagnoses

  // Tags the resolver looks for, spelled as in the source.
  const EffortSymptom: string := "Incontinence d'effort"
  const UrgencySymptom: string := "Urgenturies"
  const MixedLeakSymptom: string := "Fuites mixtes"
  const PelvicHeavinessSymptom: string := "Pesanteur pelvienne"
  const BladderPainSymptom: string := "Douleurs vésicales"
  const BphHistory: string := "HBP"
  const ObstructiveSymptoms: seq<string> :=
    ["Dysurie", "Jet faible", "Sensation de vidange incomplète", "Effort de poussée"]
  const ProlapseHistory: seq<string> :=
    ["Prolapsus génital", "Cystocèle", "Rectocèle", "Accouchements multiples", "Accouchements difficiles"]
  const NeurologicalHistory: seq<string> := ["Sclérose en plaques", "Maladie de Parkinson", "AVC"]

  /** Stress incontinence reported, or a cough test that is not negative. */
  predicate EffortIncontinence(p: PatientData) {
    EffortSymptom in p.symptomes || p.testsProvocation.testToux != Negatif
  }

  /** The condition of the mixed-incontinence short-circuit. */
  predicate MixedSigns(p: PatientData) {
    (EffortIncontinence(p) && UrgencySymptom in p.symptomes) || MixedLeakSymptom in p.symptomes
  }

  /** A man whose history holds the exact tag "HBP". */
  predicate KnownBph(p: PatientData) {
    p.sexe == M && BphHistory in p.antecedents
  }

  predicate ProlapseBackground(p: PatientData) {
    HasAny(p.antecedents, ProlapseHistory)
  }

  predicate ObstructiveComplaint(p: PatientData) {
    HasAny(p.symptomes, ObstructiveSymptoms)
  }

  predicate Dyssynergia(p: PatientData) {
    p.emg.synergieDetrusorSphincter == Dyssynergie
  }

  /**
   * Reading one key of the index record. A missing key (`undefined`) and a
   * non-finite value (`NaN`, or an infinity the engine never compares) are
   * both `None`: every comparison with them below is false.
   */
  function Lookup(index: map<string, IndexValue>, key: string): (v: Option<real>)
    ensures v.Some? <==> key in index && index[key].Finite?
    ensures v.Some? ==> v.value == index[key].value
  {
    if key in index && index[key].Finite? then Some(index[key].value) else None
  }

  /** `v > t`, with JavaScript's false for an undefined or NaN operand. */
  predicate Above(v: Option<real>, t: real) {
    v.Some? && v.value > t
  }

  /** `v < t`, with JavaScript's false for an undefined or NaN operand. */
  predicate Below(v: Option<real>, t: real) {
    v.Some? && v.value < t
  }

  /** `v <= t`, with JavaScript's false for an undefined or NaN operand. */
  predicate AtMost(v: Option<real>, t: real) {
    v.Some? && v.value <= t
  }

  /** The five criteria of moderate obstruction secondary to prolapse. */
  function ProlapseCriteria(p: PatientData, n: NomogramResult): seq<bool> {
    [p.QMax() < 15.0 && p.QMax() >= 10.0,
     p.PdetQmax() > 25.0 && p.PdetQmax() <= 50.0,
     n.schafer == Some(ModerateObstruction) || n.schafer == Some(SchaferEquivocal),
     p.Residual() > 30.0,
     PelvicHeavinessSymptom in p.symptomes]
  }

  /** A woman with prolapse history, an obstructive complaint and three of the five criteria. */
  predicate ModerateProlapseObstruction(p: PatientData, n: NomogramResult) {
    p.sexe == F && ProlapseBackground(p) && ObstructiveComplaint(p)
    && CountTrue(ProlapseCriteria(p, n)) >= 3
  }

  /** The equivocal band of the obstruction index, with an obstructive complaint. */
  predicate EquivocalBand(p: PatientData, obstruction: Option<real>) {
    Above(obstruction, 15.0) && AtMost(obstruction, 40.0) && ObstructiveComplaint(p)
  }

  /** `determinerDiagnostic`. */
  function Resolve(p: PatientData, index: map<string, IndexValue>, n: NomogramResult): (d: Diagnosis)
    ensures d.IsMixed() <==> MixedSigns(p)
    ensures MixedSigns(p) ==>
              ((d == MixedCombined || d == MixedUrgency) <==> p.InvoluntaryContractions())
              && ((d == MixedCombined || d == MixedEffort) <==> p.Closure() < 20.0)
  {
    var obstruction := Lookup(index, ObstructionIndexKey);
    var contractility := Lookup(index, ContractilityIndexKey);
    if MixedSigns(p) then
      if p.InvoluntaryContractions() && p.Closure() < 20.0 then MixedCombined
      else if p.InvoluntaryContractions() then MixedUrgency
      else if p.Closure() < 20.0 then MixedEffort
      else MixedUnspecified
    else if Above(obstruction, 40.0) then
      if Dyssynergia(p) then DyssynergiaObstruction
      else if KnownBph(p) then BenignProstaticObstruction
      else SubvesicalObstruction
    else if ModerateProlapseObstruction(p, n) then ProlapseObstruction
    else if EquivocalBand(p, obstruction) then
      if KnownBph(p) then EarlyProstaticObstruction
      else if p.sexe == F && ProlapseBackground(p) then ProlapseObstruction
      else EquivocalObstruction
    else if p.InvoluntaryContractions() then
      if HasAny(p.antecedents, NeurologicalHistory) then NeurogenicOveractivity
      else IdiopathicOveractivity
    else if EffortIncontinence(p) && p.Closure() < 20.0 then SphincterStressIncontinence
    else if Below(contractility, 100.0) && p.QMax() < 12.0 then DetrusorHypocontractility
    else if p.cystometrie.capaciteVesicale < 200.0 && BladderPainSymptom in p.symptomes then PainfulBladder
    else if p.Residual() > 100.0 then IncompleteEmptying
    else NormalFunction
  }

  /** The diagnosis of one examination, on the indices and nomograms the engine computes. */
  function Diagnose(p: PatientData): Diagnosis {
    Resolve(p, IndicesOf(p), NomogramsOf(p))
  }

  // ---------------------------------------------------------------------
  // The chain as a flat first-match table.

  datatype Rule = Rule(fires: bool, verdict: Diagnosis)

  /** The position of the first rule that fires, or `|rules|` when none does. */
  function FirstFiring(rules: seq<Rule>): (i: nat)
    ensures i <= |rules|
    ensures i < |rules| ==> rules[i].fires
    ensures forall j | 0 <= j < i :: !rules[j].fires
    decreases |rules|
  {
    if rules == [] then 0
    else if rules[0].fires then 0
    else
      var k := FirstFiring(rules[1..]);
      assert forall j | 1 <= j < k + 1 :: rules[j] == rules[1..][j - 1];
      k + 1
  }

  /** The verdict of the first rule that fires, or `fallback`. */
  function FirstMatch(rules: seq<Rule>, fallback: Diagnosis): Diagnosis {
    var i := FirstFiring(rules);
    if i < |rules| then rules[i].verdict else fallback
  }

  /** Whichever rule is first to fire decides the verdict. */
  lemma FirstMatchAt(rules: seq<Rule>, fallback: Diagnosis, k: nat)
    requires k < |rules| && rules[k].fires
    requires forall j | 0 <= j < k :: !rules[j].fires
    ensures FirstMatch(rules, fallback) == rules[k].verdict
  {
  }

  /** The conditions the chain tests, evaluated once. */
  datatype Signs = Signs(
    mixed: bool, contractions: bool, weakClosure: bool, severe: bool, dyssynergia: bool,
    bph: bool, prolapseModerate: bool, equivocal: bool, prolapseWoman: bool,
    neurological: bool, effortWeakClosure: bool, hypocontractile: bool, painful: bool,
    largeResidual: bool)

  function SignsOf(p: PatientData, index: map<string, IndexValue>, n: NomogramResult): Signs {
    var obstruction := Lookup(index, ObstructionIndexKey);
    var contractility := Lookup(index, ContractilityIndexKey);
    Signs(MixedSigns(p), p.InvoluntaryContractions(), p.Closure() < 20.0, Above(obstruction, 40.0),
          Dyssynergia(p), KnownBph(p), ModerateProlapseObstruction(p, n), EquivocalBand(p, obstruction),
          p.sexe == F && ProlapseBackground(p), HasAny(p.antecedents, NeurologicalHistory),
          EffortIncontinence(p) && p.Closure() < 20.0, Below(contractility, 100.0) && p.QMax() < 12.0,
          p.cystometrie.capaciteVesicale < 200.0 && BladderPainSymptom in p.symptomes,
          p.Residual() > 100.0)
  }

  /** The seventeen rules in the order the source tries them; the fallback is normal function. */
  function DiagnosticRules(s: Signs): seq<Rule> {
    [Rule(s.mixed && s.contractions && s.weakClosure, MixedCombined),
     Rule(s.mixed && s.contractions, MixedUrgency),
     Rule(s.mixed && s.weakClosure, MixedEffort),
     Rule(s.mixed, MixedUnspecified),
     Rule(s.severe && s.dyssynergia, DyssynergiaObstruction),
     Rule(s.severe && s.bph, BenignProstaticObstruction),
     Rule(s.severe, SubvesicalObstruction),
     Rule(s.prolapseModerate, ProlapseObstruction),
     Rule(s.equivocal && s.bph, EarlyProstaticObstruction),
     Rule(s.equivocal && s.prolapseWoman, ProlapseObstruction),
     Rule(s.equivocal, EquivocalObstruction),
     Rule(s.contractions && s.neurological, NeurogenicOveractivity),
     Rule(s.contractions, IdiopathicOveractivity),
     Rule(s.effortWeakClosure, SphincterStressIncontinence),
     Rule(s.hypocontractile, DetrusorHypocontractility),
     Rule(s.painful, PainfulBladder),
     Rule(s.largeResidual, IncompleteEmptying)]
  }

  /** The nested chain over the evaluated conditions, as `determinerDiagnostic` writes it. */
  function Chain(s: Signs): Diagnosis {
    if s.mixed then
      if s.contractions && s.weakClosure then MixedCombined
      else if s.contractions then MixedUrgency
      else if s.weakClosure then MixedEffort
      else MixedUnspecified
    else if s.severe then
      if s.dyssynergia then DyssynergiaObstruction
      else if s.bph then BenignProstaticObstruction
      else SubvesicalObstruction
    else if s.prolapseModerate then ProlapseObstruction
    else if s.equivocal then
      if s.bph then EarlyProstaticObstruction
      else if s.prolapseWoman then ProlapseObstruction
      else EquivocalObstruction
    else if s.contractions then
      if s.neurological then NeurogenicOveractivity else IdiopathicOveractivity
    else if s.effortWeakClosure then SphincterStressIncontinence
    else if s.hypocontractile then DetrusorHypocontractility
    else if s.painful then PainfulBladder
    else if s.largeResidual then IncompleteEmptying
    else NormalFunction
  }

  /** The nested chain and the flat table agree on every combination of conditions. */
  lemma ChainIsFirstMatch(s: Signs)
    ensures Chain(s) == FirstMatch(DiagnosticRules(s), NormalFunction)
  {
    var rules := DiagnosticRules(s);
    var k: nat :=
      if s.mixed then (if s.contractions && s.weakClosure then 0 else if s.contractions then 1
                       else if s.weakClosure then 2 else 3)
      else if s.severe then (if s.dyssynergia then 4 else if s.bph then 5 else 6)
      else if s.prolapseModerate then 7
      else if s.equivocal then (if s.bph then 8 else if s.prolapseWoman then 9 else 10)
      else if s.contractions then (if s.neurological then 11 else 12)
      else if s.effortWeakClosure then 13
      else if s.hypocontractile then 14
      else if s.painful then 15
      else if s.largeResidual then 16
      else 17;
    if k < 17 {
      FirstMatchAt(rules, NormalFunction, k);
    } else {
      assert forall j | 0 <= j < |rules| :: !rules[j].fires;
    }
  }

  /** `determinerDiagnostic` returns the verdict of the first rule of the table that fires. */
  lemma ResolveFollowsTable(p: PatientData, index: map<string, IndexValue>, n: NomogramResult)
    ensures Resolve(p, index, n) == FirstMatch(DiagnosticRules(SignsOf(p, index, n)), NormalFunction)
  {
    ChainIsFirstMatch(SignsOf(p, index, n));
  }

  // ---------------------------------------------------------------------
  // Properties of the diagnosis on the engine's own indices.

  /** The resolver reads the two finite indices `calculerIndex` stores. */
  lemma LookupComputedIndices(p: PatientData)
    ensures Lookup(IndicesOf(p), ObstructionIndexKey) == Some(ObstructionIndex(p))
    ensures Lookup(IndicesOf(p), ContractilityIndexKey) == Some(ContractilityIndex(p))
  {
    IndexKeysDistinct();
  }

  /**
   * The three severe-obstruction labels are returned exactly when the
   * examination shows no mixed signs and the Abrams-Griffiths nomogram,
   * which recomputes the same index, says obstructed.
   */
  lemma SevereObstructionMatchesNomogram(p: PatientData)
    ensures var d := Diagnose(p);
            (d == DyssynergiaObstruction || d == BenignProstaticObstruction || d == SubvesicalObstruction)
            <==> !MixedSigns(p) && NomogramsOf(p).abramsGriffiths == Some(Obstructed)
  {
    LookupComputedIndices(p);
  }

  /**
   * Mixed signs decide the diagnosis before any index is read: whatever the
   * index record and the nomograms, the verdict is the same mixed label.
   */
  lemma MixedIgnoresIndices(p: PatientData, i1: map<string, IndexValue>, n1: NomogramResult,
                            i2: map<string, IndexValue>, n2: NomogramResult)
    requires MixedSigns(p)
    ensures Resolve(p, i1, n1) == Resolve(p, i2, n2)
  {
  }
}
