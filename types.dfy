/**
 * The shared vocabulary of the application: views, diagnosis modes, the
 * ordered processing stages, feature-importance entries and the result record.
 */
module Types {
  import opened Wrappers

  /** Top-level pages of the single-page application. */
  datatype AppView = HOME | DIAGNOSIS | HISTORY | ARCHITECTURE | ABOUT | PUBLIC_REPORT

  /** How the workspace takes its input: an uploaded scan or typed clinical markers. */
  datatype DiagnosisMode = IMAGE | CLINICAL

  /** The stages of one analysis run, in the order the run walks them. */
  datatype ProcessingStep =
    | IDLE
    | PREPROCESSING
    | CNN_EXTRACTION
    | ML_CLASSIFICATION
    | XAI_CALCULATION
    | AI_INSIGHTS
    | COMPLETE

  /** Position of a stage in the enumeration (IDLE is 0, COMPLETE is 6). */
  function Ordinal(s: ProcessingStep): (n: nat)
    ensures n < 7
    ensures s == IDLE <==> n == 0
    ensures s == COMPLETE <==> n == 6
  {
    match s
    case IDLE => 0
    case PREPROCESSING => 1
    case CNN_EXTRACTION => 2
    case ML_CLASSIFICATION => 3
    case XAI_CALCULATION => 4
    case AI_INSIGHTS => 5
    case COMPLETE => 6
  }

  /** The three labels a result may carry. */
  datatype Prediction = Malignant | Benign | Normal

  datatype Impact = Positive | Negative

  /** One bar of the explanation chart: a feature, its signed SHAP value and the sign class. */
  datatype FeatureImportance = FeatureImportance(feature: string, value: real, impact: Impact)

  /** The impact classification agrees with the sign of the value. */
  predicate SignConsistent(f: FeatureImportance) {
    (f.impact == Positive) <==> f.value > 0.0
  }

  /** An uploaded file, as far as the application looks at it. */
  datatype FileRef = FileRef(name: string, size: nat)

  /** A diagnosis outcome, produced by a local run or decoded from a shared link. */
  datatype DiagnosisResult = DiagnosisResult(
    id: string,
    timestamp: int,
    mode: DiagnosisMode,
    prediction: Prediction,
    confidence: real,
    imageUrl: Option<string>,
    shapValues: seq<FeatureImportance>,
    aiInterpretation: Option<string>,
    isPublished: Option<bool>,
    publicUrl: Option<string>)

  /** The three features every explanation chart shows, in chart order. */
  const ChartFeatures: seq<string> := ["radius_mean", "texture_worst", "concavity_mean"]
}
