/**
 The records shared by the store, the prediction client and the pages:
 parcel statuses with their display strings, parcels with their tracking
 history, and the prediction result with its three enumerated factors.
 */
module Types {
  import opened Optional
  import opened Text

  /** The six lifecycle stages of a parcel. */
  datatype ParcelStatus = Ordered | Shipped | InTransit | OutForDelivery | Delivered | Delayed

  const AllStatuses: seq<ParcelStatus> :=
    [Ordered, Shipped, InTransit, OutForDelivery, Delivered, Delayed]

  /** The string value each enum member carries; it reads back as that member. */
  function StatusLabel(s: ParcelStatus): (r: string)
    ensures ParseStatus(r) == Some(s)
  {
    match s
    case Ordered => "Ordered"
    case Shipped => "Shipped"
    case InTransit => "In Transit"
    case OutForDelivery => "Out for Delivery"
    case Delivered => "Delivered"
    case Delayed => "Delayed"
  }

  /** Reads a status back from its string value; any other string is no status. */
  function ParseStatus(name: string): Option<ParcelStatus>
  {
    if name == "Ordered" then Some(Ordered)
    else if name == "Shipped" then Some(Shipped)
    else if name == "In Transit" then Some(InTransit)
    else if name == "Out for Delivery" then Some(OutForDelivery)
    else if name == "Delivered" then Some(Delivered)
    else if name == "Delayed" then Some(Delayed)
    else None
  }

  /** The enumeration lists six distinct members and nothing else. */
  lemma StatusEnumeration()
    ensures |AllStatuses| == 6
    ensures forall i, j :: 0 <= i < j < |AllStatuses| ==> AllStatuses[i] != AllStatuses[j]
    ensures forall s: ParcelStatus :: s in AllStatuses
  {
    forall s: ParcelStatus ensures s in AllStatuses {
      match s
      case Ordered => assert AllStatuses[0] == s;
      case Shipped => assert AllStatuses[1] == s;
      case InTransit => assert AllStatuses[2] == s;
      case OutForDelivery => assert AllStatuses[3] == s;
      case Delivered => assert AllStatuses[4] == s;
      case Delayed => assert AllStatuses[5] == s;
    }
  }

  /** Distinct statuses carry distinct strings, and every string reads back as its status. */
  lemma StatusLabelRoundTrip(s: ParcelStatus, t: ParcelStatus)
    ensures ParseStatus(StatusLabel(s)) == Some(s)
    ensures StatusLabel(s) == StatusLabel(t) ==> s == t
  {
  }

  /** A string is accepted exactly when it is the name of the status it reads as. */
  lemma ParseStatusSound(name: string)
    ensures ParseStatus(name).Some? ==> StatusLabel(ParseStatus(name).value) == name
    ensures ParseStatus(name).None? <==> forall s: ParcelStatus :: StatusLabel(s) != name
  {
  }

  /** One entry of a parcel's history; it uses the same status type as the parcel. */
  datatype TrackingEvent = TrackingEvent(
    status: ParcelStatus,
    location: string,
    timestamp: string,
    description: string)

  /** A shipment record; `category` is the source's `type` field. */
  datatype Parcel = Parcel(
    id: string,
    sender: string,
    recipient: string,
    origin: string,
    destination: string,
    status: ParcelStatus,
    lastUpdated: string,
    estimatedDelivery: string,
    history: seq<TrackingEvent>,
    weight: string,
    category: string)

  /** Each event is no earlier than the one before it (ISO-8601 instants compare as strings). */
  predicate Chronological(h: seq<TrackingEvent>)
  {
    forall i :: 0 < i < |h| ==> LexLeq(h[i - 1].timestamp, h[i].timestamp)
  }

  /**
   The shape every seeded parcel has: a history that starts with an Ordered
   event at the origin, runs forward in time, and ends with the parcel's
   current status at its last-updated instant.
   */
  predicate ValidParcel(p: Parcel)
  {
    && |p.history| > 0
    && p.history[0].status == Ordered
    && p.history[0].location == p.origin
    && p.history[|p.history| - 1].status == p.status
    && p.history[|p.history| - 1].timestamp == p.lastUpdated
    && Chronological(p.history)
  }

  /** In a valid parcel no event is later than `lastUpdated`. */
  lemma LastUpdatedIsLatest(p: Parcel)
    requires ValidParcel(p)
    ensures forall i :: 0 <= i < |p.history| ==> LexLeq(p.history[i].timestamp, p.lastUpdated)
  {
    var h := p.history;
    forall i | 0 <= i < |h|
      ensures LexLeq(h[i].timestamp, p.lastUpdated)
    {
      ChronologicalSuffix(h, i);
    }
  }

  lemma {:induction false} ChronologicalSuffix(h: seq<TrackingEvent>, i: nat)
    requires Chronological(h)
    requires i < |h|
    ensures LexLeq(h[i].timestamp, h[|h| - 1].timestamp)
    decreases |h| - i
  {
    if i == |h| - 1 {
      LexLeqReflexive(h[i].timestamp);
    } else {
      ChronologicalSuffix(h, i + 1);
      LexLeqTransitive(h[i].timestamp, h[i + 1].timestamp, h[|h| - 1].timestamp);
    }
  }

  /** No two parcels share an id, even ignoring case (ids are looked up case-insensitively). */
  predicate DistinctIds(ps: seq<Parcel>)
  {
    forall i, j :: 0 <= i < j < |ps| ==> Upper(ps[i].id) != Upper(ps[j].id)
  }

  datatype Weather = Good | Fair | Poor
  datatype Traffic = Low | Moderate | High
  datatype Logistics = Efficient | Backlogged

  /**
   The three factors as they arrive in a parsed response: strings that the
   declared type restricts to the enumerations below, but that nothing checks
   at run time.
   */
  datatype Factors = Factors(weather: string, traffic: string, logistics: string)

  /** One risk assessment; `delayRisk` is documented as 0..100 but nothing enforces it. */
  datatype PredictionResult = PredictionResult(
    delayRisk: int,
    adjustedDeliveryTime: string,
    reasoning: string,
    factors: Factors)

  /** The documented range of `delayRisk`. */
  predicate RiskInRange(r: PredictionResult)
  {
    0 <= r.delayRisk <= 100
  }

  /** Every factor is one of the strings its enumeration lists. */
  predicate FactorsInEnum(f: Factors)
  {
    ParseWeather(f.weather).Some? && ParseTraffic(f.traffic).Some? && ParseLogistics(f.logistics).Some?
  }

  /** A prediction that honours its declared type and documented range. */
  predicate WellFormedPrediction(r: PredictionResult)
  {
    RiskInRange(r) && FactorsInEnum(r.factors)
  }

  function WeatherLabel(w: Weather): string
  {
    match w
    case Good => "Good"
    case Fair => "Fair"
    case Poor => "Poor"
  }

  function ParseWeather(name: string): Option<Weather>
  {
    if name == "Good" then Some(Good)
    else if name == "Fair" then Some(Fair)
    else if name == "Poor" then Some(Poor)
    else None
  }

  function TrafficLabel(t: Traffic): string
  {
    match t
    case Low => "Low"
    case Moderate => "Moderate"
    case High => "High"
  }

  function ParseTraffic(name: string): Option<Traffic>
  {
    if name == "Low" then Some(Low)
    else if name == "Moderate" then Some(Moderate)
    else if name == "High" then Some(High)
    else None
  }

  function LogisticsLabel(l: Logistics): string
  {
    match l
    case Efficient => "Efficient"
    case Backlogged => "Backlogged"
  }

  function ParseLogistics(name: string): Option<Logistics>
  {
    if name == "Efficient" then Some(Efficient)
    else if name == "Backlogged" then Some(Backlogged)
    else None
  }

  /** Every factor value reads back from its name. */
  lemma FactorLabelsRoundTrip(w: Weather, t: Traffic, l: Logistics)
    ensures ParseWeather(WeatherLabel(w)) == Some(w)
    ensures ParseTraffic(TrafficLabel(t)) == Some(t)
    ensures ParseLogistics(LogisticsLabel(l)) == Some(l)
    ensures FactorsInEnum(Factors(WeatherLabel(w), TrafficLabel(t), LogisticsLabel(l)))
  {
  }

  /** Each factor accepts exactly the strings its enumeration lists. */
  lemma FactorEnumerations(name: string)
    ensures ParseWeather(name).Some? <==> name in ["Good", "Fair", "Poor"]
    ensures ParseTraffic(name).Some? <==> name in ["Low", "Moderate", "High"]
    ensures ParseLogistics(name).Some? <==> name in ["Efficient", "Backlogged"]
    ensures ParseWeather(name).Some? ==> WeatherLabel(ParseWeather(name).value) == name
    ensures ParseTraffic(name).Some? ==> TrafficLabel(ParseTraffic(name).value) == name
    ensures ParseLogistics(name).Some? ==> LogisticsLabel(ParseLogistics(name).value) == name
  {
  }

}
