/**
 * The seventeen diagnoses `determinerDiagnostic` can return, each with the
 * exact French label of the source, and the dispatch keys the guidance
 * generators look for in that label with case-sensitive `includes`.
 */
module Diagnoses {

  datatype Diagnosis =
    | MixedCombined | MixedUrgency | MixedEffort | MixedUnspecified
    | DyssynergiaObstruction | BenignProstaticObstruction | SubvesicalObstruction
    | ProlapseObstruction | EarlyProstaticObstruction | EquivocalObstruction
    | NeurogenicOveractivity | IdiopathicOveractivity
    | SphincterStressIncontinence | DetrusorHypocontractility | PainfulBladder
    | IncompleteEmptying | NormalFunction
  {
    /**
     * The label string the source returns. Long labels are written as a
     * concatenation of literal pieces; the pieces spell the label exactly.
     */
    function Label(): string {
      match this
      case MixedCombined => "Incontinence urinaire mixte" + " (hyperactivité détrusorienne" + " + insuffisance" + " sphinctérienne)"
      case MixedUrgency => "Incontinence urinaire mixte à" + " prédominance urgence"
      case MixedEffort => "Incontinence urinaire mixte à" + " prédominance effort"
      case MixedUnspecified => "Incontinence urinaire mixte"
      case DyssynergiaObstruction => "Dyssynergie" + " vésico-sphinctérienne avec" + " obstruction fonctionnelle"
      case BenignProstaticObstruction => "Obstruction prostatique" + " bénigne"
      case SubvesicalObstruction => "Obstruction sous-vésicale"
      case ProlapseObstruction => "Obstruction sous-vésicale" + " modérée secondaire à un" + " prolapsus génital"
      case EarlyProstaticObstruction => "Obstruction prostatique" + " débutante"
      case EquivocalObstruction => "Obstruction sous-vésicale" + " équivoque"
      case NeurogenicOveractivity => "Hyperactivité détrusorienne" + " neurogenique"
      case IdiopathicOveractivity => "Hyperactivité détrusorienne" + " idiopathique"
      case SphincterStressIncontinence => "Incontinence d'effort par" + " insuffisance sphinctérienne"
      case DetrusorHypocontractility => "Hypocontractilité" + " détrusorienne"
      case PainfulBladder => "Syndrome douloureux" + " vésical/Cystite" + " interstitielle"
      case IncompleteEmptying => "Vidange vésicale incomplète"
      case NormalFunction => "Fonction vésico-sphinctérienne" + " normale"
    }

    /** The four mixed-incontinence labels. */
    predicate IsMixed() {
      MixedCombined? || MixedUrgency? || MixedEffort? || MixedUnspecified?
    }

    /** The two labels of prostatic obstruction. */
    predicate IsProstatic() {
      BenignProstaticObstruction? || EarlyProstaticObstruction?
    }

    /** The two labels of detrusor overactivity outside mixed incontinence. */
    predicate IsOveractivity() {
      NeurogenicOveractivity? || IdiopathicOveractivity?
    }

    /** The labels that start with the capitalised word "Obstruction". */
    predicate IsObstruction() {
      BenignProstaticObstruction? || SubvesicalObstruction? || ProlapseObstruction?
      || EarlyProstaticObstruction? || EquivocalObstruction?
    }
  }

  // The dispatch keys the guidance generators test, spelled as in the source.
  const ProstaticKey := "Obstruction prostatique"
  const ProlapseKey := "prolapsus génital"
  const OveractivityKey := "Hyperactivité détrusorienne"
  const MixedKey := "mixte"
  const HypocontractilityKey := "Hypocontractilité détrusorienne"
  const StressKey := "Incontinence d'effort"
  const DyssynergiaKey := "Dyssynergie"
  const NeurologicalKey := "neurologique"
  const CystitisKey := "Cystite interstitielle"
  const PainfulCapitalKey := "Douloureux vésical"
  const ObstructionKey := "Obstruction"
}
