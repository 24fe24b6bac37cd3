/**
 The logic of the prediction page: the three-way risk banding shown next to
 a prediction, the colour of its progress bar, and the state updates made
 while a prediction is requested.
 */
module PredictionPage {
  import opened Optional
  import opened Types
  import opened GeminiService

  /**
   The styling record `getRiskStatus` returns. Its first field is the
   source's `label`, a reserved word in Dafny.
   */
  datatype RiskStatus = RiskStatus(name: string, color: string, bg: string, border: string)

  const LowRisk: RiskStatus := RiskStatus("LOW RISK", "text-emerald-600", "bg-emerald-50", "border-emerald-100")
  const ModerateRisk: RiskStatus := RiskStatus("MODERATE RISK", "text-amber-600", "bg-amber-50", "border-amber-100")
  const HighRisk: RiskStatus := RiskStatus("HIGH RISK", "text-red-600", "bg-red-50", "border-red-100")

  /** Below 20 is LOW RISK, from 20 below 50 MODERATE RISK, from 50 up HIGH RISK. */
  function GetRiskStatus(risk: int): (s: RiskStatus)
    ensures s.name == "LOW RISK" <==> risk < 20
    ensures s.name == "MODERATE RISK" <==> 20 <= risk < 50
    ensures s.name == "HIGH RISK" <==> risk >= 50
  {
    if risk < 20 then LowRisk
    else if risk < 50 then ModerateRisk
    else HighRisk
  }

  /** The order of the bands, from least to most severe. */
  function Severity(s: RiskStatus): nat
  {
    if s == LowRisk then 0 else if s == ModerateRisk then 1 else 2
  }

  /** Every risk gets exactly one of the three bands. */
  lemma RiskStatusTotal(risk: int)
    ensures GetRiskStatus(risk) in {LowRisk, ModerateRisk, HighRisk}
    ensures LowRisk.name != ModerateRisk.name && ModerateRisk.name != HighRisk.name && LowRisk.name != HighRisk.name
  {
  }

  /** Raising the risk never lowers the band. */
  lemma RiskStatusMonotone(a: int, b: int)
    requires a <= b
    ensures Severity(GetRiskStatus(a)) <= Severity(GetRiskStatus(b))
  {
  }

  /** The fallback prediction always shows as LOW RISK. */
  lemma FallbackIsLowRisk(p: Parcel)
    ensures GetRiskStatus(Fallback(p).delayRisk) == LowRisk
  {
  }

  /** The colour of a metric card's progress bar. */
  function ProgressBarColor(progress: int): (c: string)
    ensures c == "bg-amber-500" <==> progress > 50
    ensures c == "bg-emerald-500" <==> progress <= 50
  {
    if progress > 50 then "bg-amber-500" else "bg-emerald-500"
  }

  /**
   The bar and the band switch at different points: a risk of exactly 50 is
   HIGH RISK drawn on the emerald bar, while above 50 both agree.
   */
  lemma BarAndBandDisagreeAtFifty(risk: int)
    ensures GetRiskStatus(50) == HighRisk && ProgressBarColor(50) == "bg-emerald-500"
    ensures risk > 50 ==> GetRiskStatus(risk) == HighRisk && ProgressBarColor(risk) == "bg-amber-500"
    ensures risk < 20 ==> ProgressBarColor(risk) == "bg-emerald-500"
  {
  }

  /** The state `handlePredict` touches. */
  datatype PageState = PageState(
    selected: Option<Parcel>,
    prediction: Option<PredictionResult>,
    loading: bool)

  /** The updates made before the request is sent. */
  function StartPredict(st: PageState, p: Parcel): (s: PageState)
    ensures s.selected == Some(p) && s.loading && s.prediction.None?
  {
    PageState(Some(p), None, true)
  }

  /** The updates made once the request settles: store a result, then always clear loading. */
  function FinishPredict(st: PageState, c: Completion<Option<PredictionResult>>): (s: PageState)
    ensures !s.loading
    ensures s.selected == st.selected
    ensures c.Returned? ==> s.prediction == c.value
    ensures c.Threw? ==> s.prediction == st.prediction
  {
    match c
    case Returned(r) => st.(prediction := r, loading := false)
    case Threw => st.(loading := false)
  }

  /**
   `handlePredict` for a parcel, given how the external step turns out.
   Afterwards nothing is loading and the parcel is selected. No prediction
   is shown when the service threw (the one cleared at the start stays
   cleared) or when the response parsed to `null`; otherwise the parsed
   response or the fallback is shown.
   */
  function HandlePredict(st: PageState, p: Parcel, outcome: GenerateOutcome): (s: PageState)
    ensures !s.loading
    ensures s.selected == Some(p)
    ensures s.prediction.None? <==> outcome.ClientInitFailed? || outcome == Responded(None)
    ensures outcome.Responded? ==> s.prediction == outcome.parsed
    ensures outcome.GenerateFailed? ==> s.prediction == Some(Fallback(p))
  {
    FinishPredict(StartPredict(st, p), PredictDeliveryRisk(p, outcome))
  }

  /** After a failed request the page shows the well-formed fallback as LOW RISK. */
  lemma FailedPredictionShowsLowRisk(st: PageState, p: Parcel, k: FailureKind)
    ensures var s := HandlePredict(st, p, GenerateFailed(k));
      && s.prediction.Some?
      && WellFormedPrediction(s.prediction.value)
      && GetRiskStatus(s.prediction.value.delayRisk).name == "LOW RISK"
  {
  }

  /** An earlier prediction never survives a request whose service throws. */
  lemma StalePredictionCleared(st: PageState, p: Parcel)
    requires st.prediction.Some?
    ensures HandlePredict(st, p, ClientInitFailed).prediction == None
  {
  }

}
