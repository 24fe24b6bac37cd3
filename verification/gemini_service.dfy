/**
 The delivery-risk prediction client. The call to the external generative
 model (client construction, prompt, response schema, JSON parsing) is
 abstracted as its outcome; what is modelled is the control flow around it:
 a parsed response is passed through, any failure inside the guarded block
 becomes one fixed fallback, and a failure while constructing the client,
 which happens before that block, escapes to the caller.
 */
module GeminiService {
  import opened Optional
  import opened Types

  /** Ways the guarded generate-and-parse step can fail; all are handled alike. */
  datatype FailureKind = TransportError | ServiceError | MalformedJson

  /**
   What the external step produced for one request. A parsed response is
   either an object, taken as a prediction without any check, or the JSON
   value `null` (None).
   */
  datatype GenerateOutcome =
    | ClientInitFailed
    | Responded(parsed: Option<PredictionResult>)
    | GenerateFailed(kind: FailureKind)

  /** How an asynchronous call settles: it returns a value or throws. */
  datatype Completion<T> = Returned(value: T) | Threw

  const FallbackRisk: int := 15

  const FallbackReasoning: string :=
    "Based on historical average data for this route. (AI Analysis unavailable)"

  /**
   The prediction served when the external step fails. It is well formed
   (risk within 0..100, every factor within its enumeration) and keeps the
   parcel's own delivery estimate.
   */
  function Fallback(p: Parcel): (r: PredictionResult)
    ensures WellFormedPrediction(r)
    ensures r.adjustedDeliveryTime == p.estimatedDelivery
  {
    PredictionResult(FallbackRisk, p.estimatedDelivery, FallbackReasoning,
      Factors(WeatherLabel(Fair), TrafficLabel(Moderate), LogisticsLabel(Efficient)))
  }

  /**
   `predictDeliveryRisk`: throws only when the client cannot be constructed,
   returns the parsed value untouched, and otherwise returns the fallback.
   */
  function PredictDeliveryRisk(p: Parcel, outcome: GenerateOutcome): (c: Completion<Option<PredictionResult>>)
    ensures c.Threw? <==> outcome.ClientInitFailed?
    ensures outcome.Responded? ==> c == Returned(outcome.parsed)
    ensures outcome.GenerateFailed? ==> c.Returned? && c.value.Some? && WellFormedPrediction(c.value.value)
    ensures outcome.GenerateFailed? ==> c.value.value.adjustedDeliveryTime == p.estimatedDelivery
  {
    match outcome
    case ClientInitFailed => Threw
    case Responded(parsed) => Returned(parsed)
    case GenerateFailed(_) => Returned(Some(Fallback(p)))
  }

  /** The fallback carries risk 15, the fixed reasoning and Fair / Moderate / Efficient factors. */
  lemma FallbackContents(p: Parcel, k: FailureKind)
    ensures var c := PredictDeliveryRisk(p, GenerateFailed(k));
      && c == Returned(Some(Fallback(p)))
      && Fallback(p).delayRisk == 15
      && Fallback(p).reasoning == "Based on historical average data for this route. (AI Analysis unavailable)"
      && Fallback(p).factors == Factors("Fair", "Moderate", "Efficient")
  {
  }

  /** The fallback depends on the parcel only through its estimated delivery. */
  lemma FallbackDependsOnlyOnEstimate(p: Parcel, q: Parcel)
    requires p.estimatedDelivery == q.estimatedDelivery
    ensures Fallback(p) == Fallback(q)
  {
  }

  /** Every failure mode of the guarded step yields the same result. */
  lemma FailuresCollapse(p: Parcel, k1: FailureKind, k2: FailureKind)
    ensures PredictDeliveryRisk(p, GenerateFailed(k1)) == PredictDeliveryRisk(p, GenerateFailed(k2))
  {
  }

  /** A caller cannot tell a failure from a response that happens to equal the fallback. */
  lemma FallbackIndistinguishable(p: Parcel, k: FailureKind)
    ensures PredictDeliveryRisk(p, Responded(Some(Fallback(p)))) == PredictDeliveryRisk(p, GenerateFailed(k))
  {
  }

  /**
   A response is not re-validated: a risk outside 0..100 reaches the caller
   as it came.
   */
  lemma ResponseNotValidated(p: Parcel, r: PredictionResult)
    requires r.delayRisk > 100
    ensures PredictDeliveryRisk(p, Responded(Some(r))) == Returned(Some(r))
    ensures !WellFormedPrediction(r)
  {
  }

  /**
   Nor are the factors: a weather value outside Good / Fair / Poor reaches
   the caller as it came.
   */
  lemma ResponseFactorNotValidated(p: Parcel, r: PredictionResult)
    requires r.factors.weather == "Sunny"
    ensures PredictDeliveryRisk(p, Responded(Some(r))) == Returned(Some(r))
    ensures !WellFormedPrediction(r)
  {
  }

  /** A response that parses to `null` is returned as no prediction, without throwing. */
  lemma NullResponseReturnsNothing(p: Parcel)
    ensures PredictDeliveryRisk(p, Responded(None)) == Returned(None)
  {
  }

}
