/**
 * Which dispatch key occurs in which diagnosis label. The first part is a
 * table of one fact per (label, key) pair, each proved from the characters
 * of the two strings; the second part gathers the table, key by key, into a
 * statement about every diagnosis.
 */
module LabelFacts {
  import opened Strings
  import opened Diagnoses

  lemma MixedCombinedLacksProstatic() ensures !Contains(MixedCombined.Label(), ProstaticKey) {
    NotContainsByChar(MixedCombined.Label(), ProstaticKey, 0);
  }
  lemma MixedUrgencyLacksProstatic() ensures !Contains(MixedUrgency.Label(), ProstaticKey) {
    NotContainsByChar(MixedUrgency.Label(), ProstaticKey, 0);
  }
  lemma MixedEffortLacksProstatic() ensures !Contains(MixedEffort.Label(), ProstaticKey) {
    NotContainsByChar(MixedEffort.Label(), ProstaticKey, 0);
  }
  lemma MixedUnspecifiedLacksProstatic() ensures !Contains(MixedUnspecified.Label(), ProstaticKey) {
    NotContainsByChar(MixedUnspecified.Label(), ProstaticKey, 0);
  }
  lemma DyssynergiaObstructionLacksProstatic() ensures !Contains(DyssynergiaObstruction.Label(), ProstaticKey) {
    NotContainsByChar(DyssynergiaObstruction.Label(), ProstaticKey, 0);
  }
  lemma BenignProstaticObstructionHasProstatic() ensures Contains(BenignProstaticObstruction.Label(), ProstaticKey) {
    ContainsAt(BenignProstaticObstruction.Label(), ProstaticKey, 0);
  }
  lemma SubvesicalObstructionLacksProstatic() ensures !Contains(SubvesicalObstruction.Label(), ProstaticKey) {
    NotContainsByChar(SubvesicalObstruction.Label(), ProstaticKey, 12);
  }
  lemma ProlapseObstructionLacksProstatic() ensures !Contains(ProlapseObstruction.Label(), ProstaticKey) {
    NotContainsByChar(ProlapseObstruction.Label(), ProstaticKey, 20);
  }
  lemma EarlyProstaticObstructionHasProstatic() ensures Contains(EarlyProstaticObstruction.Label(), ProstaticKey) {
    ContainsAt(EarlyProstaticObstruction.Label(), ProstaticKey, 0);
  }
  lemma EquivocalObstructionLacksProstatic() ensures !Contains(EquivocalObstruction.Label(), ProstaticKey) {
    NotContainsByChar(EquivocalObstruction.Label(), ProstaticKey, 12);
  }
  lemma NeurogenicOveractivityLacksProstatic() ensures !Contains(NeurogenicOveractivity.Label(), ProstaticKey) {
    NotContainsByChar(NeurogenicOveractivity.Label(), ProstaticKey, 0);
  }
  lemma IdiopathicOveractivityLacksProstatic() ensures !Contains(IdiopathicOveractivity.Label(), ProstaticKey) {
    NotContainsByChar(IdiopathicOveractivity.Label(), ProstaticKey, 0);
  }
  lemma SphincterStressIncontinenceLacksProstatic() ensures !Contains(SphincterStressIncontinence.Label(), ProstaticKey) {
    NotContainsByChar(SphincterStressIncontinence.Label(), ProstaticKey, 0);
  }
  lemma DetrusorHypocontractilityLacksProstatic() ensures !Contains(DetrusorHypocontractility.Label(), ProstaticKey) {
    NotContainsByChar(DetrusorHypocontractility.Label(), ProstaticKey, 0);
  }
  lemma PainfulBladderLacksProstatic() ensures !Contains(PainfulBladder.Label(), ProstaticKey) {
    NotContainsByChar(PainfulBladder.Label(), ProstaticKey, 0);
  }
  lemma IncompleteEmptyingLacksProstatic() ensures !Contains(IncompleteEmptying.Label(), ProstaticKey) {
    NotContainsByChar(IncompleteEmptying.Label(), ProstaticKey, 0);
  }
  lemma NormalFunctionLacksProstatic() ensures !Contains(NormalFunction.Label(), ProstaticKey) {
    NotContainsByChar(NormalFunction.Label(), ProstaticKey, 0);
  }

  lemma MixedCombinedLacksProlapse() ensures !Contains(MixedCombined.Label(), ProlapseKey) {
    NotContainsByChar(MixedCombined.Label(), ProlapseKey, 3);
  }
  lemma MixedUrgencyLacksProlapse() ensures !Contains(MixedUrgency.Label(), ProlapseKey) {
    NotContainsByChar(MixedUrgency.Label(), ProlapseKey, 3);
  }
  lemma MixedEffortLacksProlapse() ensures !Contains(MixedEffort.Label(), ProlapseKey) {
    NotContainsByChar(MixedEffort.Label(), ProlapseKey, 3);
  }
  lemma MixedUnspecifiedLacksProlapse() ensures !Contains(MixedUnspecified.Label(), ProlapseKey) {
    NotContainsByChar(MixedUnspecified.Label(), ProlapseKey, 0);
  }
  lemma DyssynergiaObstructionLacksProlapse() ensures !Contains(DyssynergiaObstruction.Label(), ProlapseKey) {
    var p, q := "Dyssynergie" + " vésico-s", "hinctérienne avec" + " obstruction fonctionnelle";
    assert " vésico-sphinctérienne avec" == " vésico-s" + ['p'] + "hinctérienne avec";
    assert DyssynergiaObstruction.Label() == p + ['p'] + q;
    NotContainsSplit(p, 'p', q, ProlapseKey);
  }
  lemma BenignProstaticObstructionLacksProlapse() ensures !Contains(BenignProstaticObstruction.Label(), ProlapseKey) {
    NotContainsByChar(BenignProstaticObstruction.Label(), ProlapseKey, 3);
  }
  lemma SubvesicalObstructionLacksProlapse() ensures !Contains(SubvesicalObstruction.Label(), ProlapseKey) {
    NotContainsByChar(SubvesicalObstruction.Label(), ProlapseKey, 0);
  }
  lemma ProlapseObstructionHasProlapse() ensures Contains(ProlapseObstruction.Label(), ProlapseKey) {
    ContainsAt(ProlapseObstruction.Label(), ProlapseKey, 50);
  }
  lemma EarlyProstaticObstructionLacksProlapse() ensures !Contains(EarlyProstaticObstruction.Label(), ProlapseKey) {
    NotContainsByChar(EarlyProstaticObstruction.Label(), ProlapseKey, 3);
  }
  lemma EquivocalObstructionLacksProlapse() ensures !Contains(EquivocalObstruction.Label(), ProlapseKey) {
    NotContainsByChar(EquivocalObstruction.Label(), ProlapseKey, 0);
  }
  lemma NeurogenicOveractivityLacksProlapse() ensures !Contains(NeurogenicOveractivity.Label(), ProlapseKey) {
    NotContainsByChar(NeurogenicOveractivity.Label(), ProlapseKey, 3);
  }
  lemma IdiopathicOveractivityLacksProlapse() ensures !Contains(IdiopathicOveractivity.Label(), ProlapseKey) {
    NotContainsByChar(IdiopathicOveractivity.Label(), ProlapseKey, 3);
  }
  lemma SphincterStressIncontinenceLacksProlapse() ensures !Contains(SphincterStressIncontinence.Label(), ProlapseKey) {
    NotContainsByChar(SphincterStressIncontinence.Label(), ProlapseKey, 3);
  }
  lemma DetrusorHypocontractilityLacksProlapse() ensures !Contains(DetrusorHypocontractility.Label(), ProlapseKey) {
    NotContainsByChar(DetrusorHypocontractility.Label(), ProlapseKey, 10);
  }
  lemma PainfulBladderLacksProlapse() ensures !Contains(PainfulBladder.Label(), ProlapseKey) {
    NotContainsByChar(PainfulBladder.Label(), ProlapseKey, 0);
  }
  lemma IncompleteEmptyingLacksProlapse() ensures !Contains(IncompleteEmptying.Label(), ProlapseKey) {
    NotContainsByChar(IncompleteEmptying.Label(), ProlapseKey, 1);
  }
  lemma NormalFunctionLacksProlapse() ensures !Contains(NormalFunction.Label(), ProlapseKey) {
    NotContainsByChar(NormalFunction.Label(), ProlapseKey, 7);
  }

  lemma MixedCombinedLacksOveractivity() ensures !Contains(MixedCombined.Label(), OveractivityKey) {
    NotContainsByChar(MixedCombined.Label(), OveractivityKey, 0);
  }
  lemma MixedUrgencyLacksOveractivity() ensures !Contains(MixedUrgency.Label(), OveractivityKey) {
    NotContainsByChar(MixedUrgency.Label(), OveractivityKey, 0);
  }
  lemma MixedEffortLacksOveractivity() ensures !Contains(MixedEffort.Label(), OveractivityKey) {
    NotContainsByChar(MixedEffort.Label(), OveractivityKey, 0);
  }
  lemma MixedUnspecifiedLacksOveractivity() ensures !Contains(MixedUnspecified.Label(), OveractivityKey) {
    NotContainsByChar(MixedUnspecified.Label(), OveractivityKey, 0);
  }
  lemma DyssynergiaObstructionLacksOveractivity() ensures !Contains(DyssynergiaObstruction.Label(), OveractivityKey) {
    NotContainsByChar(DyssynergiaObstruction.Label(), OveractivityKey, 0);
  }
  lemma BenignProstaticObstructionLacksOveractivity() ensures !Contains(BenignProstaticObstruction.Label(), OveractivityKey) {
    NotContainsByChar(BenignProstaticObstruction.Label(), OveractivityKey, 0);
  }
  lemma SubvesicalObstructionLacksOveractivity() ensures !Contains(SubvesicalObstruction.Label(), OveractivityKey) {
    NotContainsByChar(SubvesicalObstruction.Label(), OveractivityKey, 0);
  }
  lemma ProlapseObstructionLacksOveractivity() ensures !Contains(ProlapseObstruction.Label(), OveractivityKey) {
    NotContainsByChar(ProlapseObstruction.Label(), OveractivityKey, 0);
  }
  lemma EarlyProstaticObstructionLacksOveractivity() ensures !Contains(EarlyProstaticObstruction.Label(), OveractivityKey) {
    NotContainsByChar(EarlyProstaticObstruction.Label(), OveractivityKey, 0);
  }
  lemma EquivocalObstructionLacksOveractivity() ensures !Contains(EquivocalObstruction.Label(), OveractivityKey) {
    NotContainsByChar(EquivocalObstruction.Label(), OveractivityKey, 0);
  }
  lemma NeurogenicOveractivityHasOveractivity() ensures Contains(NeurogenicOveractivity.Label(), OveractivityKey) {
    ContainsAt(NeurogenicOveractivity.Label(), OveractivityKey, 0);
  }
  lemma IdiopathicOveractivityHasOveractivity() ensures Contains(IdiopathicOveractivity.Label(), OveractivityKey) {
    ContainsAt(IdiopathicOveractivity.Label(), OveractivityKey, 0);
  }
  lemma SphincterStressIncontinenceLacksOveractivity() ensures !Contains(SphincterStressIncontinence.Label(), OveractivityKey) {
    NotContainsByChar(SphincterStressIncontinence.Label(), OveractivityKey, 0);
  }
  lemma DetrusorHypocontractilityLacksOveractivity() ensures !Contains(DetrusorHypocontractility.Label(), OveractivityKey) {
    NotContainsByChar(DetrusorHypocontractility.Label(), OveractivityKey, 9);
  }
  lemma PainfulBladderLacksOveractivity() ensures !Contains(PainfulBladder.Label(), OveractivityKey) {
    NotContainsByChar(PainfulBladder.Label(), OveractivityKey, 0);
  }
  lemma IncompleteEmptyingLacksOveractivity() ensures !Contains(IncompleteEmptying.Label(), OveractivityKey) {
    NotContainsByChar(IncompleteEmptying.Label(), OveractivityKey, 0);
  }
  lemma NormalFunctionLacksOveractivity() ensures !Contains(NormalFunction.Label(), OveractivityKey) {
    NotContainsByChar(NormalFunction.Label(), OveractivityKey, 0);
  }

  lemma MixedCombinedHasMixed() ensures Contains(MixedCombined.Label(), MixedKey) {
    ContainsAt(MixedCombined.Label(), MixedKey, 22);
  }
  lemma MixedUrgencyHasMixed() ensures Contains(MixedUrgency.Label(), MixedKey) {
    ContainsAt(MixedUrgency.Label(), MixedKey, 22);
  }
  lemma MixedEffortHasMixed() ensures Contains(MixedEffort.Label(), MixedKey) {
    ContainsAt(MixedEffort.Label(), MixedKey, 22);
  }
  lemma MixedUnspecifiedHasMixed() ensures Contains(MixedUnspecified.Label(), MixedKey) {
    ContainsAt(MixedUnspecified.Label(), MixedKey, 22);
  }
  lemma DyssynergiaObstructionLacksMixed() ensures !Contains(DyssynergiaObstruction.Label(), MixedKey) {
    NotContainsByChar(DyssynergiaObstruction.Label(), MixedKey, 0);
  }
  lemma BenignProstaticObstructionLacksMixed() ensures !Contains(BenignProstaticObstruction.Label(), MixedKey) {
    NotContainsByChar(BenignProstaticObstruction.Label(), MixedKey, 0);
  }
  lemma SubvesicalObstructionLacksMixed() ensures !Contains(SubvesicalObstruction.Label(), MixedKey) {
    NotContainsByChar(SubvesicalObstruction.Label(), MixedKey, 0);
  }
  lemma ProlapseObstructionLacksMixed() ensures !Contains(ProlapseObstruction.Label(), MixedKey) {
    NotContainsByChar(ProlapseObstruction.Label(), MixedKey, 2);
  }
  lemma EarlyProstaticObstructionLacksMixed() ensures !Contains(EarlyProstaticObstruction.Label(), MixedKey) {
    NotContainsByChar(EarlyProstaticObstruction.Label(), MixedKey, 0);
  }
  lemma EquivocalObstructionLacksMixed() ensures !Contains(EquivocalObstruction.Label(), MixedKey) {
    NotContainsByChar(EquivocalObstruction.Label(), MixedKey, 0);
  }
  lemma NeurogenicOveractivityLacksMixed() ensures !Contains(NeurogenicOveractivity.Label(), MixedKey) {
    NotContainsByChar(NeurogenicOveractivity.Label(), MixedKey, 0);
  }
  lemma IdiopathicOveractivityLacksMixed() ensures !Contains(IdiopathicOveractivity.Label(), MixedKey) {
    NotContainsByChar(IdiopathicOveractivity.Label(), MixedKey, 0);
  }
  lemma SphincterStressIncontinenceLacksMixed() ensures !Contains(SphincterStressIncontinence.Label(), MixedKey) {
    NotContainsByChar(SphincterStressIncontinence.Label(), MixedKey, 0);
  }
  lemma DetrusorHypocontractilityLacksMixed() ensures !Contains(DetrusorHypocontractility.Label(), MixedKey) {
    NotContainsByChar(DetrusorHypocontractility.Label(), MixedKey, 0);
  }
  lemma PainfulBladderLacksMixed() ensures !Contains(PainfulBladder.Label(), MixedKey) {
    var p, q := "Syndro", "e douloureux" + " vésical/Cystite" + " interstitielle";
    assert "Syndrome douloureux" == "Syndro" + ['m'] + "e douloureux";
    assert PainfulBladder.Label() == p + ['m'] + q;
    NotContainsSplit(p, 'm', q, MixedKey);
  }
  lemma IncompleteEmptyingLacksMixed() ensures !Contains(IncompleteEmptying.Label(), MixedKey) {
    NotContainsByChar(IncompleteEmptying.Label(), MixedKey, 2);
  }
  lemma NormalFunctionLacksMixed() ensures !Contains(NormalFunction.Label(), MixedKey) {
    NotContainsByChar(NormalFunction.Label(), MixedKey, 2);
  }

  lemma MixedCombinedLacksHypocontractility() ensures !Contains(MixedCombined.Label(), HypocontractilityKey) {
    NotContainsByChar(MixedCombined.Label(), HypocontractilityKey, 0);
  }
  lemma MixedUrgencyLacksHypocontractility() ensures !Contains(MixedUrgency.Label(), HypocontractilityKey) {
    NotContainsByChar(MixedUrgency.Label(), HypocontractilityKey, 0);
  }
  lemma MixedEffortLacksHypocontractility() ensures !Contains(MixedEffort.Label(), HypocontractilityKey) {
    NotContainsByChar(MixedEffort.Label(), HypocontractilityKey, 0);
  }
  lemma MixedUnspecifiedLacksHypocontractility() ensures !Contains(MixedUnspecified.Label(), HypocontractilityKey) {
    NotContainsByChar(MixedUnspecified.Label(), HypocontractilityKey, 0);
  }
  lemma DyssynergiaObstructionLacksHypocontractility() ensures !Contains(DyssynergiaObstruction.Label(), HypocontractilityKey) {
    NotContainsByChar(DyssynergiaObstruction.Label(), HypocontractilityKey, 0);
  }
  lemma BenignProstaticObstructionLacksHypocontractility() ensures !Contains(BenignProstaticObstruction.Label(), HypocontractilityKey) {
    NotContainsByChar(BenignProstaticObstruction.Label(), HypocontractilityKey, 0);
  }
  lemma SubvesicalObstructionLacksHypocontractility() ensures !Contains(SubvesicalObstruction.Label(), HypocontractilityKey) {
    NotContainsByChar(SubvesicalObstruction.Label(), HypocontractilityKey, 0);
  }
  lemma ProlapseObstructionLacksHypocontractility() ensures !Contains(ProlapseObstruction.Label(), HypocontractilityKey) {
    NotContainsByChar(ProlapseObstruction.Label(), HypocontractilityKey, 0);
  }
  lemma EarlyProstaticObstructionLacksHypocontractility() ensures !Contains(EarlyProstaticObstruction.Label(), HypocontractilityKey) {
    NotContainsByChar(EarlyProstaticObstruction.Label(), HypocontractilityKey, 0);
  }
  lemma EquivocalObstructionLacksHypocontractility() ensures !Contains(EquivocalObstruction.Label(), HypocontractilityKey) {
    NotContainsByChar(EquivocalObstruction.Label(), HypocontractilityKey, 0);
  }
  lemma NeurogenicOveractivityLacksHypocontractility() ensures !Contains(NeurogenicOveractivity.Label(), HypocontractilityKey) {
    NotContainsByChar(NeurogenicOveractivity.Label(), HypocontractilityKey, 13);
  }
  lemma IdiopathicOveractivityLacksHypocontractility() ensures !Contains(IdiopathicOveractivity.Label(), HypocontractilityKey) {
    NotContainsByChar(IdiopathicOveractivity.Label(), HypocontractilityKey, 13);
  }
  lemma SphincterStressIncontinenceLacksHypocontractility() ensures !Contains(SphincterStressIncontinence.Label(), HypocontractilityKey) {
    NotContainsByChar(SphincterStressIncontinence.Label(), HypocontractilityKey, 0);
  }
  lemma DetrusorHypocontractilityHasHypocontractility() ensures Contains(DetrusorHypocontractility.Label(), HypocontractilityKey) {
    ContainsAt(DetrusorHypocontractility.Label(), HypocontractilityKey, 0);
  }
  lemma PainfulBladderLacksHypocontractility() ensures !Contains(PainfulBladder.Label(), HypocontractilityKey) {
    NotContainsByChar(PainfulBladder.Label(), HypocontractilityKey, 0);
  }
  lemma IncompleteEmptyingLacksHypocontractility() ensures !Contains(IncompleteEmptying.Label(), HypocontractilityKey) {
    NotContainsByChar(IncompleteEmptying.Label(), HypocontractilityKey, 0);
  }
  lemma NormalFunctionLacksHypocontractility() ensures !Contains(NormalFunction.Label(), HypocontractilityKey) {
    NotContainsByChar(NormalFunction.Label(), HypocontractilityKey, 0);
  }

  lemma MixedCombinedLacksStress() ensures !Contains(MixedCombined.Label(), StressKey) {
    NotContainsByChar(MixedCombined.Label(), StressKey, 14);
  }
  lemma MixedUrgencyLacksStress() ensures !Contains(MixedUrgency.Label(), StressKey) {
    NotContainsByChar(MixedUrgency.Label(), StressKey, 14);
  }
  lemma MixedEffortLacksStress() ensures !Contains(MixedEffort.Label(), StressKey) {
    NotContainsByChar(MixedEffort.Label(), StressKey, 14);
  }
  lemma MixedUnspecifiedLacksStress() ensures !Contains(MixedUnspecified.Label(), StressKey) {
    NotContainsByChar(MixedUnspecified.Label(), StressKey, 13);
  }
  lemma DyssynergiaObstructionLacksStress() ensures !Contains(DyssynergiaObstruction.Label(), StressKey) {
    NotContainsByChar(DyssynergiaObstruction.Label(), StressKey, 0);
  }
  lemma BenignProstaticObstructionLacksStress() ensures !Contains(BenignProstaticObstruction.Label(), StressKey) {
    NotContainsByChar(BenignProstaticObstruction.Label(), StressKey, 0);
  }
  lemma SubvesicalObstructionLacksStress() ensures !Contains(SubvesicalObstruction.Label(), StressKey) {
    NotContainsByChar(SubvesicalObstruction.Label(), StressKey, 0);
  }
  lemma ProlapseObstructionLacksStress() ensures !Contains(ProlapseObstruction.Label(), StressKey) {
    NotContainsByChar(ProlapseObstruction.Label(), StressKey, 0);
  }
  lemma EarlyProstaticObstructionLacksStress() ensures !Contains(EarlyProstaticObstruction.Label(), StressKey) {
    NotContainsByChar(EarlyProstaticObstruction.Label(), StressKey, 0);
  }
  lemma EquivocalObstructionLacksStress() ensures !Contains(EquivocalObstruction.Label(), StressKey) {
    NotContainsByChar(EquivocalObstruction.Label(), StressKey, 0);
  }
  lemma NeurogenicOveractivityLacksStress() ensures !Contains(NeurogenicOveractivity.Label(), StressKey) {
    NotContainsByChar(NeurogenicOveractivity.Label(), StressKey, 0);
  }
  lemma IdiopathicOveractivityLacksStress() ensures !Contains(IdiopathicOveractivity.Label(), StressKey) {
    NotContainsByChar(IdiopathicOveractivity.Label(), StressKey, 0);
  }
  lemma SphincterStressIncontinenceHasStress() ensures Contains(SphincterStressIncontinence.Label(), StressKey) {
    ContainsAt(SphincterStressIncontinence.Label(), StressKey, 0);
  }
  lemma DetrusorHypocontractilityLacksStress() ensures !Contains(DetrusorHypocontractility.Label(), StressKey) {
    NotContainsByChar(DetrusorHypocontractility.Label(), StressKey, 0);
  }
  lemma PainfulBladderLacksStress() ensures !Contains(PainfulBladder.Label(), StressKey) {
    NotContainsByChar(PainfulBladder.Label(), StressKey, 0);
  }
  lemma IncompleteEmptyingLacksStress() ensures !Contains(IncompleteEmptying.Label(), StressKey) {
    NotContainsByChar(IncompleteEmptying.Label(), StressKey, 0);
  }
  lemma NormalFunctionLacksStress() ensures !Contains(NormalFunction.Label(), StressKey) {
    NotContainsByChar(NormalFunction.Label(), StressKey, 0);
  }

  lemma MixedCombinedLacksDyssynergia() ensures !Contains(MixedCombined.Label(), DyssynergiaKey) {
    NotContainsByChar(MixedCombined.Label(), DyssynergiaKey, 0);
  }
  lemma MixedUrgencyLacksDyssynergia() ensures !Contains(MixedUrgency.Label(), DyssynergiaKey) {
    NotContainsByChar(MixedUrgency.Label(), DyssynergiaKey, 0);
  }
  lemma MixedEffortLacksDyssynergia() ensures !Contains(MixedEffort.Label(), DyssynergiaKey) {
    NotContainsByChar(MixedEffort.Label(), DyssynergiaKey, 0);
  }
  lemma MixedUnspecifiedLacksDyssynergia() ensures !Contains(MixedUnspecified.Label(), DyssynergiaKey) {
    NotContainsByChar(MixedUnspecified.Label(), DyssynergiaKey, 0);
  }
  lemma DyssynergiaObstructionHasDyssynergia() ensures Contains(DyssynergiaObstruction.Label(), DyssynergiaKey) {
    ContainsAt(DyssynergiaObstruction.Label(), DyssynergiaKey, 0);
  }
  lemma BenignProstaticObstructionLacksDyssynergia() ensures !Contains(BenignProstaticObstruction.Label(), DyssynergiaKey) {
    NotContainsByChar(BenignProstaticObstruction.Label(), DyssynergiaKey, 0);
  }
  lemma SubvesicalObstructionLacksDyssynergia() ensures !Contains(SubvesicalObstruction.Label(), DyssynergiaKey) {
    NotContainsByChar(SubvesicalObstruction.Label(), DyssynergiaKey, 0);
  }
  lemma ProlapseObstructionLacksDyssynergia() ensures !Contains(ProlapseObstruction.Label(), DyssynergiaKey) {
    NotContainsByChar(ProlapseObstruction.Label(), DyssynergiaKey, 0);
  }
  lemma EarlyProstaticObstructionLacksDyssynergia() ensures !Contains(EarlyProstaticObstruction.Label(), DyssynergiaKey) {
    NotContainsByChar(EarlyProstaticObstruction.Label(), DyssynergiaKey, 0);
  }
  lemma EquivocalObstructionLacksDyssynergia() ensures !Contains(EquivocalObstruction.Label(), DyssynergiaKey) {
    NotContainsByChar(EquivocalObstruction.Label(), DyssynergiaKey, 0);
  }
  lemma NeurogenicOveractivityLacksDyssynergia() ensures !Contains(NeurogenicOveractivity.Label(), DyssynergiaKey) {
    NotContainsByChar(NeurogenicOveractivity.Label(), DyssynergiaKey, 0);
  }
  lemma IdiopathicOveractivityLacksDyssynergia() ensures !Contains(IdiopathicOveractivity.Label(), DyssynergiaKey) {
    NotContainsByChar(IdiopathicOveractivity.Label(), DyssynergiaKey, 0);
  }
  lemma SphincterStressIncontinenceLacksDyssynergia() ensures !Contains(SphincterStressIncontinence.Label(), DyssynergiaKey) {
    NotContainsByChar(SphincterStressIncontinence.Label(), DyssynergiaKey, 0);
  }
  lemma DetrusorHypocontractilityLacksDyssynergia() ensures !Contains(DetrusorHypocontractility.Label(), DyssynergiaKey) {
    NotContainsByChar(DetrusorHypocontractility.Label(), DyssynergiaKey, 0);
  }
  lemma PainfulBladderLacksDyssynergia() ensures !Contains(PainfulBladder.Label(), DyssynergiaKey) {
    NotContainsByChar(PainfulBladder.Label(), DyssynergiaKey, 0);
  }
  lemma IncompleteEmptyingLacksDyssynergia() ensures !Contains(IncompleteEmptying.Label(), DyssynergiaKey) {
    NotContainsByChar(IncompleteEmptying.Label(), DyssynergiaKey, 0);
  }
  lemma NormalFunctionLacksDyssynergia() ensures !Contains(NormalFunction.Label(), DyssynergiaKey) {
    NotContainsByChar(NormalFunction.Label(), DyssynergiaKey, 0);
  }

  lemma MixedCombinedLacksNeurological() ensures !Contains(MixedCombined.Label(), NeurologicalKey) {
    NotContainsByChar(MixedCombined.Label(), NeurologicalKey, 5);
  }
  lemma MixedUrgencyLacksNeurological() ensures !Contains(MixedUrgency.Label(), NeurologicalKey) {
    NotContainsByChar(MixedUrgency.Label(), NeurologicalKey, 5);
  }
  lemma MixedEffortLacksNeurological() ensures !Contains(MixedEffort.Label(), NeurologicalKey) {
    NotContainsByChar(MixedEffort.Label(), NeurologicalKey, 5);
  }
  lemma MixedUnspecifiedLacksNeurological() ensures !Contains(MixedUnspecified.Label(), NeurologicalKey) {
    NotContainsByChar(MixedUnspecified.Label(), NeurologicalKey, 5);
  }
  lemma DyssynergiaObstructionLacksNeurological() ensures !Contains(DyssynergiaObstruction.Label(), NeurologicalKey) {
    NotContainsByChar(DyssynergiaObstruction.Label(), NeurologicalKey, 9);
  }
  lemma BenignProstaticObstructionLacksNeurological() ensures !Contains(BenignProstaticObstruction.Label(), NeurologicalKey) {
    NotContainsByChar(BenignProstaticObstruction.Label(), NeurologicalKey, 5);
  }
  lemma SubvesicalObstructionLacksNeurological() ensures !Contains(SubvesicalObstruction.Label(), NeurologicalKey) {
    NotContainsByChar(SubvesicalObstruction.Label(), NeurologicalKey, 7);
  }
  lemma ProlapseObstructionLacksNeurological() ensures !Contains(ProlapseObstruction.Label(), NeurologicalKey) {
    NotContainsByChar(ProlapseObstruction.Label(), NeurologicalKey, 9);
  }
  lemma EarlyProstaticObstructionLacksNeurological() ensures !Contains(EarlyProstaticObstruction.Label(), NeurologicalKey) {
    NotContainsByChar(EarlyProstaticObstruction.Label(), NeurologicalKey, 5);
  }
  lemma EquivocalObstructionLacksNeurological() ensures !Contains(EquivocalObstruction.Label(), NeurologicalKey) {
    NotContainsByChar(EquivocalObstruction.Label(), NeurologicalKey, 7);
  }
  lemma NeurogenicOveractivityLacksNeurological() ensures !Contains(NeurogenicOveractivity.Label(), NeurologicalKey) {
    NotContainsByChar(NeurogenicOveractivity.Label(), NeurologicalKey, 5);
  }
  lemma IdiopathicOveractivityLacksNeurological() ensures !Contains(IdiopathicOveractivity.Label(), NeurologicalKey) {
    NotContainsByChar(IdiopathicOveractivity.Label(), NeurologicalKey, 5);
  }
  lemma SphincterStressIncontinenceLacksNeurological() ensures !Contains(SphincterStressIncontinence.Label(), NeurologicalKey) {
    NotContainsByChar(SphincterStressIncontinence.Label(), NeurologicalKey, 5);
  }
  lemma DetrusorHypocontractilityLacksNeurological() ensures !Contains(DetrusorHypocontractility.Label(), NeurologicalKey) {
    NotContainsByChar(DetrusorHypocontractility.Label(), NeurologicalKey, 7);
  }
  lemma PainfulBladderLacksNeurological() ensures !Contains(PainfulBladder.Label(), NeurologicalKey) {
    NotContainsByChar(PainfulBladder.Label(), NeurologicalKey, 7);
  }
  lemma IncompleteEmptyingLacksNeurological() ensures !Contains(IncompleteEmptying.Label(), NeurologicalKey) {
    NotContainsByChar(IncompleteEmptying.Label(), NeurologicalKey, 2);
  }
  lemma NormalFunctionLacksNeurological() ensures !Contains(NormalFunction.Label(), NeurologicalKey) {
    NotContainsByChar(NormalFunction.Label(), NeurologicalKey, 2);
  }

  lemma MixedCombinedLacksCystitis() ensures !Contains(MixedCombined.Label(), CystitisKey) {
    NotContainsByChar(MixedCombined.Label(), CystitisKey, 0);
  }
  lemma MixedUrgencyLacksCystitis() ensures !Contains(MixedUrgency.Label(), CystitisKey) {
    NotContainsByChar(MixedUrgency.Label(), CystitisKey, 0);
  }
  lemma MixedEffortLacksCystitis() ensures !Contains(MixedEffort.Label(), CystitisKey) {
    NotContainsByChar(MixedEffort.Label(), CystitisKey, 0);
  }
  lemma MixedUnspecifiedLacksCystitis() ensures !Contains(MixedUnspecified.Label(), CystitisKey) {
    NotContainsByChar(MixedUnspecified.Label(), CystitisKey, 0);
  }
  lemma DyssynergiaObstructionLacksCystitis() ensures !Contains(DyssynergiaObstruction.Label(), CystitisKey) {
    NotContainsByChar(DyssynergiaObstruction.Label(), CystitisKey, 0);
  }
  lemma BenignProstaticObstructionLacksCystitis() ensures !Contains(BenignProstaticObstruction.Label(), CystitisKey) {
    NotContainsByChar(BenignProstaticObstruction.Label(), CystitisKey, 0);
  }
  lemma SubvesicalObstructionLacksCystitis() ensures !Contains(SubvesicalObstruction.Label(), CystitisKey) {
    NotContainsByChar(SubvesicalObstruction.Label(), CystitisKey, 0);
  }
  lemma ProlapseObstructionLacksCystitis() ensures !Contains(ProlapseObstruction.Label(), CystitisKey) {
    NotContainsByChar(ProlapseObstruction.Label(), CystitisKey, 0);
  }
  lemma EarlyProstaticObstructionLacksCystitis() ensures !Contains(EarlyProstaticObstruction.Label(), CystitisKey) {
    NotContainsByChar(EarlyProstaticObstruction.Label(), CystitisKey, 0);
  }
  lemma EquivocalObstructionLacksCystitis() ensures !Contains(EquivocalObstruction.Label(), CystitisKey) {
    NotContainsByChar(EquivocalObstruction.Label(), CystitisKey, 0);
  }
  lemma NeurogenicOveractivityLacksCystitis() ensures !Contains(NeurogenicOveractivity.Label(), CystitisKey) {
    NotContainsByChar(NeurogenicOveractivity.Label(), CystitisKey, 0);
  }
  lemma IdiopathicOveractivityLacksCystitis() ensures !Contains(IdiopathicOveractivity.Label(), CystitisKey) {
    NotContainsByChar(IdiopathicOveractivity.Label(), CystitisKey, 0);
  }
  lemma SphincterStressIncontinenceLacksCystitis() ensures !Contains(SphincterStressIncontinence.Label(), CystitisKey) {
    NotContainsByChar(SphincterStressIncontinence.Label(), CystitisKey, 0);
  }
  lemma DetrusorHypocontractilityLacksCystitis() ensures !Contains(DetrusorHypocontractility.Label(), CystitisKey) {
    NotContainsByChar(DetrusorHypocontractility.Label(), CystitisKey, 0);
  }
  lemma PainfulBladderHasCystitis() ensures Contains(PainfulBladder.Label(), CystitisKey) {
    ContainsAt(PainfulBladder.Label(), CystitisKey, 28);
  }
  lemma IncompleteEmptyingLacksCystitis() ensures !Contains(IncompleteEmptying.Label(), CystitisKey) {
    NotContainsByChar(IncompleteEmptying.Label(), CystitisKey, 0);
  }
  lemma NormalFunctionLacksCystitis() ensures !Contains(NormalFunction.Label(), CystitisKey) {
    NotContainsByChar(NormalFunction.Label(), CystitisKey, 0);
  }

  lemma MixedCombinedLacksPainfulCapital() ensures !Contains(MixedCombined.Label(), PainfulCapitalKey) {
    NotContainsByChar(MixedCombined.Label(), PainfulCapitalKey, 0);
  }
  lemma MixedUrgencyLacksPainfulCapital() ensures !Contains(MixedUrgency.Label(), PainfulCapitalKey) {
    NotContainsByChar(MixedUrgency.Label(), PainfulCapitalKey, 0);
  }
  lemma MixedEffortLacksPainfulCapital() ensures !Contains(MixedEffort.Label(), PainfulCapitalKey) {
    NotContainsByChar(MixedEffort.Label(), PainfulCapitalKey, 0);
  }
  lemma MixedUnspecifiedLacksPainfulCapital() ensures !Contains(MixedUnspecified.Label(), PainfulCapitalKey) {
    NotContainsByChar(MixedUnspecified.Label(), PainfulCapitalKey, 0);
  }
  lemma DyssynergiaObstructionLacksPainfulCapital() ensures !Contains(DyssynergiaObstruction.Label(), PainfulCapitalKey) {
    NotContainsByChar(DyssynergiaObstruction.Label(), PainfulCapitalKey, 9);
  }
  lemma BenignProstaticObstructionLacksPainfulCapital() ensures !Contains(BenignProstaticObstruction.Label(), PainfulCapitalKey) {
    NotContainsByChar(BenignProstaticObstruction.Label(), PainfulCapitalKey, 0);
  }
  lemma SubvesicalObstructionLacksPainfulCapital() ensures !Contains(SubvesicalObstruction.Label(), PainfulCapitalKey) {
    NotContainsByChar(SubvesicalObstruction.Label(), PainfulCapitalKey, 0);
  }
  lemma ProlapseObstructionLacksPainfulCapital() ensures !Contains(ProlapseObstruction.Label(), PainfulCapitalKey) {
    NotContainsByChar(ProlapseObstruction.Label(), PainfulCapitalKey, 0);
  }
  lemma EarlyProstaticObstructionLacksPainfulCapital() ensures !Contains(EarlyProstaticObstruction.Label(), PainfulCapitalKey) {
    NotContainsByChar(EarlyProstaticObstruction.Label(), PainfulCapitalKey, 0);
  }
  lemma EquivocalObstructionLacksPainfulCapital() ensures !Contains(EquivocalObstruction.Label(), PainfulCapitalKey) {
    NotContainsByChar(EquivocalObstruction.Label(), PainfulCapitalKey, 0);
  }
  lemma NeurogenicOveractivityLacksPainfulCapital() ensures !Contains(NeurogenicOveractivity.Label(), PainfulCapitalKey) {
    NotContainsByChar(NeurogenicOveractivity.Label(), PainfulCapitalKey, 0);
  }
  lemma IdiopathicOveractivityLacksPainfulCapital() ensures !Contains(IdiopathicOveractivity.Label(), PainfulCapitalKey) {
    NotContainsByChar(IdiopathicOveractivity.Label(), PainfulCapitalKey, 0);
  }
  lemma SphincterStressIncontinenceLacksPainfulCapital() ensures !Contains(SphincterStressIncontinence.Label(), PainfulCapitalKey) {
    NotContainsByChar(SphincterStressIncontinence.Label(), PainfulCapitalKey, 0);
  }
  lemma DetrusorHypocontractilityLacksPainfulCapital() ensures !Contains(DetrusorHypocontractility.Label(), PainfulCapitalKey) {
    NotContainsByChar(DetrusorHypocontractility.Label(), PainfulCapitalKey, 0);
  }
  lemma PainfulBladderLacksPainfulCapital() ensures !Contains(PainfulBladder.Label(), PainfulCapitalKey) {
    NotContainsByChar(PainfulBladder.Label(), PainfulCapitalKey, 0);
  }
  lemma IncompleteEmptyingLacksPainfulCapital() ensures !Contains(IncompleteEmptying.Label(), PainfulCapitalKey) {
    NotContainsByChar(IncompleteEmptying.Label(), PainfulCapitalKey, 0);
  }
  lemma NormalFunctionLacksPainfulCapital() ensures !Contains(NormalFunction.Label(), PainfulCapitalKey) {
    NotContainsByChar(NormalFunction.Label(), PainfulCapitalKey, 0);
  }

  lemma MixedCombinedLacksObstruction() ensures !Contains(MixedCombined.Label(), ObstructionKey) {
    NotContainsByChar(MixedCombined.Label(), ObstructionKey, 0);
  }
  lemma MixedUrgencyLacksObstruction() ensures !Contains(MixedUrgency.Label(), ObstructionKey) {
    NotContainsByChar(MixedUrgency.Label(), ObstructionKey, 0);
  }
  lemma MixedEffortLacksObstruction() ensures !Contains(MixedEffort.Label(), ObstructionKey) {
    NotContainsByChar(MixedEffort.Label(), ObstructionKey, 0);
  }
  lemma MixedUnspecifiedLacksObstruction() ensures !Contains(MixedUnspecified.Label(), ObstructionKey) {
    NotContainsByChar(MixedUnspecified.Label(), ObstructionKey, 0);
  }
  lemma DyssynergiaObstructionLacksObstruction() ensures !Contains(DyssynergiaObstruction.Label(), ObstructionKey) {
    NotContainsByChar(DyssynergiaObstruction.Label(), ObstructionKey, 0);
  }
  lemma BenignProstaticObstructionHasObstruction() ensures Contains(BenignProstaticObstruction.Label(), ObstructionKey) {
    ContainsAt(BenignProstaticObstruction.Label(), ObstructionKey, 0);
  }
  lemma SubvesicalObstructionHasObstruction() ensures Contains(SubvesicalObstruction.Label(), ObstructionKey) {
    ContainsAt(SubvesicalObstruction.Label(), ObstructionKey, 0);
  }
  lemma ProlapseObstructionHasObstruction() ensures Contains(ProlapseObstruction.Label(), ObstructionKey) {
    ContainsAt(ProlapseObstruction.Label(), ObstructionKey, 0);
  }
  lemma EarlyProstaticObstructionHasObstruction() ensures Contains(EarlyProstaticObstruction.Label(), ObstructionKey) {
    ContainsAt(EarlyProstaticObstruction.Label(), ObstructionKey, 0);
  }
  lemma EquivocalObstructionHasObstruction() ensures Contains(EquivocalObstruction.Label(), ObstructionKey) {
    ContainsAt(EquivocalObstruction.Label(), ObstructionKey, 0);
  }
  lemma NeurogenicOveractivityLacksObstruction() ensures !Contains(NeurogenicOveractivity.Label(), ObstructionKey) {
    NotContainsByChar(NeurogenicOveractivity.Label(), ObstructionKey, 0);
  }
  lemma IdiopathicOveractivityLacksObstruction() ensures !Contains(IdiopathicOveractivity.Label(), ObstructionKey) {
    NotContainsByChar(IdiopathicOveractivity.Label(), ObstructionKey, 0);
  }
  lemma SphincterStressIncontinenceLacksObstruction() ensures !Contains(SphincterStressIncontinence.Label(), ObstructionKey) {
    NotContainsByChar(SphincterStressIncontinence.Label(), ObstructionKey, 0);
  }
  lemma DetrusorHypocontractilityLacksObstruction() ensures !Contains(DetrusorHypocontractility.Label(), ObstructionKey) {
    NotContainsByChar(DetrusorHypocontractility.Label(), ObstructionKey, 0);
  }
  lemma PainfulBladderLacksObstruction() ensures !Contains(PainfulBladder.Label(), ObstructionKey) {
    NotContainsByChar(PainfulBladder.Label(), ObstructionKey, 0);
  }
  lemma IncompleteEmptyingLacksObstruction() ensures !Contains(IncompleteEmptying.Label(), ObstructionKey) {
    NotContainsByChar(IncompleteEmptying.Label(), ObstructionKey, 0);
  }
  lemma NormalFunctionLacksObstruction() ensures !Contains(NormalFunction.Label(), ObstructionKey) {
    NotContainsByChar(NormalFunction.Label(), ObstructionKey, 0);
  }

  /** Exactly the two prostatic labels contain "Obstruction prostatique". */
  lemma ProstaticKeyMatches(d: Diagnosis)
    ensures Contains(d.Label(), ProstaticKey) <==> d.IsProstatic()
  {
    match d
    case MixedCombined => MixedCombinedLacksProstatic();
    case MixedUrgency => MixedUrgencyLacksProstatic();
    case MixedEffort => MixedEffortLacksProstatic();
    case MixedUnspecified => MixedUnspecifiedLacksProstatic();
    case DyssynergiaObstruction => DyssynergiaObstructionLacksProstatic();
    case BenignProstaticObstruction => BenignProstaticObstructionHasProstatic();
    case SubvesicalObstruction => SubvesicalObstructionLacksProstatic();
    case ProlapseObstruction => ProlapseObstructionLacksProstatic();
    case EarlyProstaticObstruction => EarlyProstaticObstructionHasProstatic();
    case EquivocalObstruction => EquivocalObstructionLacksProstatic();
    case NeurogenicOveractivity => NeurogenicOveractivityLacksProstatic();
    case IdiopathicOveractivity => IdiopathicOveractivityLacksProstatic();
    case SphincterStressIncontinence => SphincterStressIncontinenceLacksProstatic();
    case DetrusorHypocontractility => DetrusorHypocontractilityLacksProstatic();
    case PainfulBladder => PainfulBladderLacksProstatic();
    case IncompleteEmptying => IncompleteEmptyingLacksProstatic();
    case NormalFunction => NormalFunctionLacksProstatic();
  }

  /** Only the prolapse label contains "prolapsus génital". */
  lemma ProlapseKeyMatches(d: Diagnosis)
    ensures Contains(d.Label(), ProlapseKey) <==> d.ProlapseObstruction?
  {
    match d
    case MixedCombined => MixedCombinedLacksProlapse();
    case MixedUrgency => MixedUrgencyLacksProlapse();
    case MixedEffort => MixedEffortLacksProlapse();
    case MixedUnspecified => MixedUnspecifiedLacksProlapse();
    case DyssynergiaObstruction => DyssynergiaObstructionLacksProlapse();
    case BenignProstaticObstruction => BenignProstaticObstructionLacksProlapse();
    case SubvesicalObstruction => SubvesicalObstructionLacksProlapse();
    case ProlapseObstruction => ProlapseObstructionHasProlapse();
    case EarlyProstaticObstruction => EarlyProstaticObstructionLacksProlapse();
    case EquivocalObstruction => EquivocalObstructionLacksProlapse();
    case NeurogenicOveractivity => NeurogenicOveractivityLacksProlapse();
    case IdiopathicOveractivity => IdiopathicOveractivityLacksProlapse();
    case SphincterStressIncontinence => SphincterStressIncontinenceLacksProlapse();
    case DetrusorHypocontractility => DetrusorHypocontractilityLacksProlapse();
    case PainfulBladder => PainfulBladderLacksProlapse();
    case IncompleteEmptying => IncompleteEmptyingLacksProlapse();
    case NormalFunction => NormalFunctionLacksProlapse();
  }

  /** Exactly the two overactivity labels contain "Hyperactivité détrusorienne"; the first mixed label has it in lower case only. */
  lemma OveractivityKeyMatches(d: Diagnosis)
    ensures Contains(d.Label(), OveractivityKey) <==> d.IsOveractivity()
  {
    match d
    case MixedCombined => MixedCombinedLacksOveractivity();
    case MixedUrgency => MixedUrgencyLacksOveractivity();
    case MixedEffort => MixedEffortLacksOveractivity();
    case MixedUnspecified => MixedUnspecifiedLacksOveractivity();
    case DyssynergiaObstruction => DyssynergiaObstructionLacksOveractivity();
    case BenignProstaticObstruction => BenignProstaticObstructionLacksOveractivity();
    case SubvesicalObstruction => SubvesicalObstructionLacksOveractivity();
    case ProlapseObstruction => ProlapseObstructionLacksOveractivity();
    case EarlyProstaticObstruction => EarlyProstaticObstructionLacksOveractivity();
    case EquivocalObstruction => EquivocalObstructionLacksOveractivity();
    case NeurogenicOveractivity => NeurogenicOveractivityHasOveractivity();
    case IdiopathicOveractivity => IdiopathicOveractivityHasOveractivity();
    case SphincterStressIncontinence => SphincterStressIncontinenceLacksOveractivity();
    case DetrusorHypocontractility => DetrusorHypocontractilityLacksOveractivity();
    case PainfulBladder => PainfulBladderLacksOveractivity();
    case IncompleteEmptying => IncompleteEmptyingLacksOveractivity();
    case NormalFunction => NormalFunctionLacksOveractivity();
  }

  /** Exactly the four mixed labels contain "mixte". */
  lemma MixedKeyMatches(d: Diagnosis)
    ensures Contains(d.Label(), MixedKey) <==> d.IsMixed()
  {
    match d
    case MixedCombined => MixedCombinedHasMixed();
    case MixedUrgency => MixedUrgencyHasMixed();
    case MixedEffort => MixedEffortHasMixed();
    case MixedUnspecified => MixedUnspecifiedHasMixed();
    case DyssynergiaObstruction => DyssynergiaObstructionLacksMixed();
    case BenignProstaticObstruction => BenignProstaticObstructionLacksMixed();
    case SubvesicalObstruction => SubvesicalObstructionLacksMixed();
    case ProlapseObstruction => ProlapseObstructionLacksMixed();
    case EarlyProstaticObstruction => EarlyProstaticObstructionLacksMixed();
    case EquivocalObstruction => EquivocalObstructionLacksMixed();
    case NeurogenicOveractivity => NeurogenicOveractivityLacksMixed();
    case IdiopathicOveractivity => IdiopathicOveractivityLacksMixed();
    case SphincterStressIncontinence => SphincterStressIncontinenceLacksMixed();
    case DetrusorHypocontractility => DetrusorHypocontractilityLacksMixed();
    case PainfulBladder => PainfulBladderLacksMixed();
    case IncompleteEmptying => IncompleteEmptyingLacksMixed();
    case NormalFunction => NormalFunctionLacksMixed();
  }

  /** Only the hypocontractility label contains "Hypocontractilité détrusorienne". */
  lemma HypocontractilityKeyMatches(d: Diagnosis)
    ensures Contains(d.Label(), HypocontractilityKey) <==> d.DetrusorHypocontractility?
  {
    match d
    case MixedCombined => MixedCombinedLacksHypocontractility();
    case MixedUrgency => MixedUrgencyLacksHypocontractility();
    case MixedEffort => MixedEffortLacksHypocontractility();
    case MixedUnspecified => MixedUnspecifiedLacksHypocontractility();
    case DyssynergiaObstruction => DyssynergiaObstructionLacksHypocontractility();
    case BenignProstaticObstruction => BenignProstaticObstructionLacksHypocontractility();
    case SubvesicalObstruction => SubvesicalObstructionLacksHypocontractility();
    case ProlapseObstruction => ProlapseObstructionLacksHypocontractility();
    case EarlyProstaticObstruction => EarlyProstaticObstructionLacksHypocontractility();
    case EquivocalObstruction => EquivocalObstructionLacksHypocontractility();
    case NeurogenicOveractivity => NeurogenicOveractivityLacksHypocontractility();
    case IdiopathicOveractivity => IdiopathicOveractivityLacksHypocontractility();
    case SphincterStressIncontinence => SphincterStressIncontinenceLacksHypocontractility();
    case DetrusorHypocontractility => DetrusorHypocontractilityHasHypocontractility();
    case PainfulBladder => PainfulBladderLacksHypocontractility();
    case IncompleteEmptying => IncompleteEmptyingLacksHypocontractility();
    case NormalFunction => NormalFunctionLacksHypocontractility();
  }

  /** Only the sphincter-insufficiency label contains "Incontinence d'effort". */
  lemma StressKeyMatches(d: Diagnosis)
    ensures Contains(d.Label(), StressKey) <==> d.SphincterStressIncontinence?
  {
    match d
    case MixedCombined => MixedCombinedLacksStress();
    case MixedUrgency => MixedUrgencyLacksStress();
    case MixedEffort => MixedEffortLacksStress();
    case MixedUnspecified => MixedUnspecifiedLacksStress();
    case DyssynergiaObstruction => DyssynergiaObstructionLacksStress();
    case BenignProstaticObstruction => BenignProstaticObstructionLacksStress();
    case SubvesicalObstruction => SubvesicalObstructionLacksStress();
    case ProlapseObstruction => ProlapseObstructionLacksStress();
    case EarlyProstaticObstruction => EarlyProstaticObstructionLacksStress();
    case EquivocalObstruction => EquivocalObstructionLacksStress();
    case NeurogenicOveractivity => NeurogenicOveractivityLacksStress();
    case IdiopathicOveractivity => IdiopathicOveractivityLacksStress();
    case SphincterStressIncontinence => SphincterStressIncontinenceHasStress();
    case DetrusorHypocontractility => DetrusorHypocontractilityLacksStress();
    case PainfulBladder => PainfulBladderLacksStress();
    case IncompleteEmptying => IncompleteEmptyingLacksStress();
    case NormalFunction => NormalFunctionLacksStress();
  }

  /** Only the dyssynergia label contains "Dyssynergie". */
  lemma DyssynergiaKeyMatches(d: Diagnosis)
    ensures Contains(d.Label(), DyssynergiaKey) <==> d.DyssynergiaObstruction?
  {
    match d
    case MixedCombined => MixedCombinedLacksDyssynergia();
    case MixedUrgency => MixedUrgencyLacksDyssynergia();
    case MixedEffort => MixedEffortLacksDyssynergia();
    case MixedUnspecified => MixedUnspecifiedLacksDyssynergia();
    case DyssynergiaObstruction => DyssynergiaObstructionHasDyssynergia();
    case BenignProstaticObstruction => BenignProstaticObstructionLacksDyssynergia();
    case SubvesicalObstruction => SubvesicalObstructionLacksDyssynergia();
    case ProlapseObstruction => ProlapseObstructionLacksDyssynergia();
    case EarlyProstaticObstruction => EarlyProstaticObstructionLacksDyssynergia();
    case EquivocalObstruction => EquivocalObstructionLacksDyssynergia();
    case NeurogenicOveractivity => NeurogenicOveractivityLacksDyssynergia();
    case IdiopathicOveractivity => IdiopathicOveractivityLacksDyssynergia();
    case SphincterStressIncontinence => SphincterStressIncontinenceLacksDyssynergia();
    case DetrusorHypocontractility => DetrusorHypocontractilityLacksDyssynergia();
    case PainfulBladder => PainfulBladderLacksDyssynergia();
    case IncompleteEmptying => IncompleteEmptyingLacksDyssynergia();
    case NormalFunction => NormalFunctionLacksDyssynergia();
  }

  /** No label contains "neurologique" (the neurogenic label says "neurogenique"). */
  lemma NeurologicalKeyMatches(d: Diagnosis)
    ensures !Contains(d.Label(), NeurologicalKey)
  {
    match d
    case MixedCombined => MixedCombinedLacksNeurological();
    case MixedUrgency => MixedUrgencyLacksNeurological();
    case MixedEffort => MixedEffortLacksNeurological();
    case MixedUnspecified => MixedUnspecifiedLacksNeurological();
    case DyssynergiaObstruction => DyssynergiaObstructionLacksNeurological();
    case BenignProstaticObstruction => BenignProstaticObstructionLacksNeurological();
    case SubvesicalObstruction => SubvesicalObstructionLacksNeurological();
    case ProlapseObstruction => ProlapseObstructionLacksNeurological();
    case EarlyProstaticObstruction => EarlyProstaticObstructionLacksNeurological();
    case EquivocalObstruction => EquivocalObstructionLacksNeurological();
    case NeurogenicOveractivity => NeurogenicOveractivityLacksNeurological();
    case IdiopathicOveractivity => IdiopathicOveractivityLacksNeurological();
    case SphincterStressIncontinence => SphincterStressIncontinenceLacksNeurological();
    case DetrusorHypocontractility => DetrusorHypocontractilityLacksNeurological();
    case PainfulBladder => PainfulBladderLacksNeurological();
    case IncompleteEmptying => IncompleteEmptyingLacksNeurological();
    case NormalFunction => NormalFunctionLacksNeurological();
  }

  /** Only the painful-bladder label contains "Cystite interstitielle". */
  lemma CystitisKeyMatches(d: Diagnosis)
    ensures Contains(d.Label(), CystitisKey) <==> d.PainfulBladder?
  {
    match d
    case MixedCombined => MixedCombinedLacksCystitis();
    case MixedUrgency => MixedUrgencyLacksCystitis();
    case MixedEffort => MixedEffortLacksCystitis();
    case MixedUnspecified => MixedUnspecifiedLacksCystitis();
    case DyssynergiaObstruction => DyssynergiaObstructionLacksCystitis();
    case BenignProstaticObstruction => BenignProstaticObstructionLacksCystitis();
    case SubvesicalObstruction => SubvesicalObstructionLacksCystitis();
    case ProlapseObstruction => ProlapseObstructionLacksCystitis();
    case EarlyProstaticObstruction => EarlyProstaticObstructionLacksCystitis();
    case EquivocalObstruction => EquivocalObstructionLacksCystitis();
    case NeurogenicOveractivity => NeurogenicOveractivityLacksCystitis();
    case IdiopathicOveractivity => IdiopathicOveractivityLacksCystitis();
    case SphincterStressIncontinence => SphincterStressIncontinenceLacksCystitis();
    case DetrusorHypocontractility => DetrusorHypocontractilityLacksCystitis();
    case PainfulBladder => PainfulBladderHasCystitis();
    case IncompleteEmptying => IncompleteEmptyingLacksCystitis();
    case NormalFunction => NormalFunctionLacksCystitis();
  }

  /** No label contains "Douloureux vésical" (the painful-bladder label has a lower-case "douloureux"). */
  lemma PainfulCapitalKeyMatches(d: Diagnosis)
    ensures !Contains(d.Label(), PainfulCapitalKey)
  {
    match d
    case MixedCombined => MixedCombinedLacksPainfulCapital();
    case MixedUrgency => MixedUrgencyLacksPainfulCapital();
    case MixedEffort => MixedEffortLacksPainfulCapital();
    case MixedUnspecified => MixedUnspecifiedLacksPainfulCapital();
    case DyssynergiaObstruction => DyssynergiaObstructionLacksPainfulCapital();
    case BenignProstaticObstruction => BenignProstaticObstructionLacksPainfulCapital();
    case SubvesicalObstruction => SubvesicalObstructionLacksPainfulCapital();
    case ProlapseObstruction => ProlapseObstructionLacksPainfulCapital();
    case EarlyProstaticObstruction => EarlyProstaticObstructionLacksPainfulCapital();
    case EquivocalObstruction => EquivocalObstructionLacksPainfulCapital();
    case NeurogenicOveractivity => NeurogenicOveractivityLacksPainfulCapital();
    case IdiopathicOveractivity => IdiopathicOveractivityLacksPainfulCapital();
    case SphincterStressIncontinence => SphincterStressIncontinenceLacksPainfulCapital();
    case DetrusorHypocontractility => DetrusorHypocontractilityLacksPainfulCapital();
    case PainfulBladder => PainfulBladderLacksPainfulCapital();
    case IncompleteEmptying => IncompleteEmptyingLacksPainfulCapital();
    case NormalFunction => NormalFunctionLacksPainfulCapital();
  }

  /** Exactly the five labels starting with "Obstruction" contain it; the dyssynergia label has a lower-case "obstruction". */
  lemma ObstructionKeyMatches(d: Diagnosis)
    ensures Contains(d.Label(), ObstructionKey) <==> d.IsObstruction()
  {
    match d
    case MixedCombined => MixedCombinedLacksObstruction();
    case MixedUrgency => MixedUrgencyLacksObstruction();
    case MixedEffort => MixedEffortLacksObstruction();
    case MixedUnspecified => MixedUnspecifiedLacksObstruction();
    case DyssynergiaObstruction => DyssynergiaObstructionLacksObstruction();
    case BenignProstaticObstruction => BenignProstaticObstructionHasObstruction();
    case SubvesicalObstruction => SubvesicalObstructionHasObstruction();
    case ProlapseObstruction => ProlapseObstructionHasObstruction();
    case EarlyProstaticObstruction => EarlyProstaticObstructionHasObstruction();
    case EquivocalObstruction => EquivocalObstructionHasObstruction();
    case NeurogenicOveractivity => NeurogenicOveractivityLacksObstruction();
    case IdiopathicOveractivity => IdiopathicOveractivityLacksObstruction();
    case SphincterStressIncontinence => SphincterStressIncontinenceLacksObstruction();
    case DetrusorHypocontractility => DetrusorHypocontractilityLacksObstruction();
    case PainfulBladder => PainfulBladderLacksObstruction();
    case IncompleteEmptying => IncompleteEmptyingLacksObstruction();
    case NormalFunction => NormalFunctionLacksObstruction();
  }

  /** All eleven dispatch facts about one diagnosis, in one place. */
  lemma {:induction false} DispatchFacts(d: Diagnosis)
    ensures Contains(d.Label(), ProstaticKey) <==> d.IsProstatic()
    ensures Contains(d.Label(), ProlapseKey) <==> d.ProlapseObstruction?
    ensures Contains(d.Label(), OveractivityKey) <==> d.IsOveractivity()
    ensures Contains(d.Label(), MixedKey) <==> d.IsMixed()
    ensures Contains(d.Label(), HypocontractilityKey) <==> d.DetrusorHypocontractility?
    ensures Contains(d.Label(), StressKey) <==> d.SphincterStressIncontinence?
    ensures Contains(d.Label(), DyssynergiaKey) <==> d.DyssynergiaObstruction?
    ensures !Contains(d.Label(), NeurologicalKey)
    ensures Contains(d.Label(), CystitisKey) <==> d.PainfulBladder?
    ensures !Contains(d.Label(), PainfulCapitalKey)
    ensures Contains(d.Label(), ObstructionKey) <==> d.IsObstruction()
  {
    ProstaticKeyMatches(d);
    ProlapseKeyMatches(d);
    OveractivityKeyMatches(d);
    MixedKeyMatches(d);
    HypocontractilityKeyMatches(d);
    StressKeyMatches(d);
    DyssynergiaKeyMatches(d);
    NeurologicalKeyMatches(d);
    CystitisKeyMatches(d);
    PainfulCapitalKeyMatches(d);
    ObstructionKeyMatches(d);
  }
}
