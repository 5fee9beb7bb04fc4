/**
 * The measurement record of one urodynamic examination (`PatientData` and
 * its sub-records). Every numeric field is a `real`; the string-tag lists
 * (symptoms, history, treatments) keep the free-text tags of the form and
 * are compared by exact sequence membership.
 */
module Patient {

  datatype Option<T> = None | Some(value: T)

  datatype Sex = M | F

  /** `formeDebitmetrie` */
  datatype FlowCurve = Normale | EnPlateau | Intermittente | EnCloche

  /** `contractionsInvolontaires` and the `contractions` of each filling rate */
  datatype Contractions = Absentes | Presentes

  /** `sensibilite` */
  datatype Sensation = Normale | Augmentee | Diminuee | Absente | Hyperesthesie | Variable

  /** `profilDynamique` */
  datatype DynamicProfile = Normal | Augmente | Diminue | Deficient | Stenose | Fibrose | Variable

  /** `activiteBasale` */
  datatype BasalActivity = Normale | Augmentee | Diminuee | Absente | Variable

  /** `recrutementVolontaire` */
  datatype Recruitment = Normal | Diminue | Absent | Variable

  /** `reflexeSphincter` */
  datatype SphincterReflex = Present | Absent | Diminue | Variable

  /** `synergieDetrusorSphincter` */
  datatype Synergy = Normale | Dyssynergie | Pseudodyssynergie

  /** `fatigabilite` */
  datatype Fatigability = Normale | Augmentee

  /** `testToux` and `testValsalva` */
  datatype ProvocationResult = Negatif | PositifFaible | PositifFort

  datatype DebitMetrie = DebitMetrie(
    qMax: real,
    qMoyen: real,
    volumeVide: real,
    tempsVidange: real,
    formeDebitmetrie: FlowCurve,
    tempsLatence: real,
    tempsJusquQmax: Option<real>)

  datatype Cystometrie = Cystometrie(
    capaciteVesicale: real,
    pressionDetrusor: real,
    pressionAbdominale: real,
    pressionVesicale: real,
    compliance: real,
    contractionsInvolontaires: Contractions,
    sensibilite: Sensation,
    premierBesoin: real,
    besoinNormal: real,
    capaciteMaximale: real,
    vitesseRemplissage: real,
    pressionFuite: real)

  datatype ProfilPression = ProfilPression(
    pressionUretrale: real,
    longueurUretrale: real,
    pressionClotureUretrale: real,
    longueurFonctionnelle: real,
    pressionTransmission: real,
    profilDynamique: DynamicProfile)

  datatype Emg = Emg(
    activiteBasale: BasalActivity,
    recrutementVolontaire: Recruitment,
    reflexeSphincter: SphincterReflex,
    synergieDetrusorSphincter: Synergy,
    fatigabilite: Fatigability)

  /** The four index fields are stored by the form; the engine recomputes its own. */
  datatype EtudePressionDebit = EtudePressionDebit(
    pressionDetrusorQmax: real,
    indexObstruction: real,
    indexContractilite: real,
    resistanceUretrale: real,
    conductanceUretrale: real)

  datatype TestsProvocation = TestsProvocation(
    testToux: ProvocationResult,
    testValsalva: ProvocationResult,
    testStressUretral: real,
    pressionFuiteAbdominale: real)

  datatype FillingRun = FillingRun(compliance: real, contractions: Contractions, sensibilite: Sensation)

  datatype CystometrieRemplissage = CystometrieRemplissage(
    vitesseLente: FillingRun,
    vitesseRapide: FillingRun,
    vitessePhysiologique: FillingRun)

  datatype PatientData = PatientData(
    nomPatient: string,
    age: real,
    sexe: Sex,
    symptomes: seq<string>,
    antecedents: seq<string>,
    traitements: seq<string>,
    debitMetrie: DebitMetrie,
    cystometrie: Cystometrie,
    profilPression: ProfilPression,
    emg: Emg,
    etudePressionDebit: EtudePressionDebit,
    testsProvocation: TestsProvocation,
    cystometrieRemplissage: CystometrieRemplissage,
    residuPostMictionnel: real)
  {
    /** Peak flow Qmax (ml/s). */
    function QMax(): real { debitMetrie.qMax }

    /** Detrusor pressure at peak flow (cmH2O). */
    function PdetQmax(): real { etudePressionDebit.pressionDetrusorQmax }

    /** Urethral closure pressure (cmH2O). */
    function Closure(): real { profilPression.pressionClotureUretrale }

    /** Post-void residual (ml). */
    function Residual(): real { residuPostMictionnel }

    predicate InvoluntaryContractions() { cystometrie.contractionsInvolontaires == Presentes }
  }
}
