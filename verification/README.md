# Parcel tracker core, modelled in Dafny

This project models the state-free logic behind a small parcel-tracking web
front-end. It covers four pieces:

- **Parcel store** (`ParcelService`): a private copy of the seed list. It
  looks a parcel up by tracking id, ignoring case. It lists all parcels, and
  it counts them into the Delivered, In Transit / Out for Delivery and
  Delayed buckets.
- **Seed data** (`MockData`): the four seeded parcels, PKG-1001 to PKG-1004,
  and their tracking histories.
- **Prediction client** (`GeminiService`): the control flow of
  `predictDeliveryRisk`. The external generative-model call is an input.
  A parsed response is passed through untouched. Any failure inside the
  guarded block becomes one fixed fallback prediction. A failure while
  constructing the client escapes to the caller.
- **Prediction page** (`PredictionPage`): the LOW / MODERATE / HIGH risk
  banding, the progress-bar colour and the state updates of `handlePredict`.

Shared records live in `Types`: parcel statuses and their display strings,
parcels with their history, predictions and the three factor enumerations.
A history event uses the same `ParcelStatus` type as the parcel's top-level
status. A prediction's factors are held as the strings a response carries. A
predicate says when they lie within their enumerations, since nothing at run
time enforces that. Three helper modules support them:

- `Optional` is the absence value (`undefined`).
- `Text` holds ASCII upper/lower-casing and the lexicographic order JavaScript
  uses on strings.
- `Arrays` holds `Array.prototype.find` and `filter` on sequences.

Every operation is a pure function of its inputs. No store operation can
change the store. Simulated latency and `async` sequencing are not modelled.

## Model

| member | source | states |
|---|---|---|
| Types.StatusLabel | types.ts:2-9 | Each status's string value reads back as that status. |
| Types.StatusEnumeration | types.ts:2-9 | There are exactly six statuses, all distinct, and every status is one of them. |
| Types.StatusLabelRoundTrip | types.ts:2-9 | Distinct statuses carry distinct strings, and each status's string reads back as that status. |
| Types.ParseStatusSound | types.ts:2-9 | A string reads as a status exactly when it is that status's string; any other string reads as nothing. |
| Types.FactorEnumerations | types.ts:34-38 | Weather accepts exactly Good/Fair/Poor, traffic exactly Low/Moderate/High, logistics exactly Efficient/Backlogged, and each accepted string is its value's label. |
| Types.FactorLabelsRoundTrip | types.ts:34-38 | Every factor value reads back from its label, and factors built from labels lie within their enumerations. |
| Types.LastUpdatedIsLatest | types.ts:18-25 | In a parcel whose history is chronological and ends at `lastUpdated`, no event is later than `lastUpdated`. |
| Text.UpperIgnoresCase | services/parcelService.ts:11 | Upper-casing a string's lower-case or upper-case form gives the same key as upper-casing the string. |
| MockData.SeedIds | mockData.ts:4-75 | The seed holds four parcels, PKG-1001 to PKG-1004 in order, whose ids stay distinct after upper-casing. |
| MockData.FirstParcelValid | mockData.ts:5-21 | PKG-1001's history is non-empty and starts with Ordered at its origin. Its timestamps never decrease, and its last event matches its status and `lastUpdated`. |
| MockData.SecondParcelValid | mockData.ts:22-39 | The same invariant holds for PKG-1002. |
| MockData.ThirdParcelValid | mockData.ts:40-56 | The same invariant holds for PKG-1003. |
| MockData.FourthParcelValid | mockData.ts:57-74 | The same invariant holds for PKG-1004. |
| MockData.SeedValid | mockData.ts:4-75 | Every seeded parcel satisfies the history invariant. |
| Arrays.FindIndex | services/parcelService.ts:11 | The index returned is the first one whose element satisfies the callback; nothing is returned exactly when no element does. |
| Arrays.Find | services/parcelService.ts:11 | A returned element is in the list and satisfies the callback; nothing is returned exactly when no element does. |
| Arrays.FindReturnsFirst | services/parcelService.ts:11 | If position i is the first match, `find` returns the element at i. |
| Arrays.Filter | services/parcelService.ts:23-25 | The result keeps each satisfying element exactly as many times as it occurs and drops every other element. |
| ParcelService.NewStore | services/parcelService.ts:6 | The store starts as the seed in seed order: four valid parcels whose ids are distinct ignoring case. |
| ParcelService.GetAllParcels | services/parcelService.ts:14-17 | Listing returns the stored parcels themselves, unchanged and in stored order. |
| ParcelService.GetParcelById | services/parcelService.ts:8-12 | A returned parcel is stored and its upper-cased id equals the upper-cased query. Nothing is returned exactly when no stored parcel matches ignoring case. |
| ParcelService.LookupReturnsFirstMatch | services/parcelService.ts:11 | When several parcels match, the one stored first is returned. |
| ParcelService.LookupIgnoresQueryCase | services/parcelService.ts:11 | A query, its lower-case form and its upper-case form give the same result. |
| ParcelService.PaddedQueryMisses | services/parcelService.ts:11 | The query is not trimmed: if no stored id starts with a space, a query that starts with one finds nothing. |
| ParcelService.LookupFindsStored | services/parcelService.ts:11 | When ids are distinct ignoring case, each stored parcel is found by its own id and by its lower-case id. |
| ParcelService.PaddedSeedIdMisses | services/parcelService.ts:11 | Over the seed, " PKG-1001" finds nothing. |
| ParcelService.LookupDeliveredScenario | services/parcelService.ts:11 | Over the seed, "pkg-1002" finds PKG-1002. That parcel is Delivered and has four history events, the last of them Delivered. |
| ParcelService.ListAllIsSeed | services/parcelService.ts:6-16 | Listing a new store returns the four seeded parcels unchanged, in seed order. |
| ParcelService.GetStats | services/parcelService.ts:19-26 | `total` is the number of listed parcels, and the three buckets together never exceed it. |
| ParcelService.BucketCounts | services/parcelService.ts:23-25 | Each bucket's size is a count in the multiset of statuses: Delivered; In Transit plus Out for Delivery; Delayed. |
| ParcelService.StatusCountsSum | services/parcelService.ts:22 | The six status counts add up to the number of parcels. |
| ParcelService.StatsAreStatusCounts | services/parcelService.ts:19-26 | The statistics equal the status counts, and the parcels outside the buckets are exactly the Ordered and Shipped ones. |
| ParcelService.SeedStats | services/parcelService.ts:19-26 | Over the seed the statistics are total 4, delivered 1, in transit 2 and delayed 1. |
| GeminiService.Fallback | services/geminiService.ts:64-73 | The fallback is well formed: its risk is within 0..100 and every factor is within its enumeration. It keeps the parcel's `estimatedDelivery` as its adjusted delivery time. |
| GeminiService.PredictDeliveryRisk | services/geminiService.ts:13-75 | The call throws exactly when client construction fails. The parsed value is returned unchanged, including a `null`. Any failure inside the guarded block returns a well-formed prediction carrying the parcel's estimate. |
| GeminiService.FallbackContents | services/geminiService.ts:64-73 | On failure the result has risk 15, the fixed "historical average … (AI Analysis unavailable)" reasoning, and factors Fair / Moderate / Efficient. |
| GeminiService.FallbackDependsOnlyOnEstimate | services/geminiService.ts:64-73 | Two parcels with the same `estimatedDelivery` get identical fallbacks. |
| GeminiService.FailuresCollapse | services/geminiService.ts:61-73 | Transport, service and parse failures all produce the same result. |
| GeminiService.FallbackIndistinguishable | services/geminiService.ts:59-73 | A response equal to the fallback yields the same result as a failure, so the caller cannot tell them apart. |
| GeminiService.ResponseNotValidated | services/geminiService.ts:59-60 | A response whose risk is above 100 is returned as it came, outside the documented range. |
| GeminiService.ResponseFactorNotValidated | services/geminiService.ts:59-60 | A response whose weather is "Sunny" is returned as it came, outside the enumeration. |
| GeminiService.NullResponseReturnsNothing | services/geminiService.ts:59-60 | A response that parses to `null` is returned as no prediction, without throwing. |
| PredictionPage.GetRiskStatus | pages/Prediction.tsx:38-42 | The label is LOW RISK exactly below 20, MODERATE RISK exactly from 20 up to but not including 50, and HIGH RISK exactly from 50 up. |
| PredictionPage.RiskStatusTotal | pages/Prediction.tsx:38-42 | Every integer risk gets one of the three bands, and the three labels are distinct. |
| PredictionPage.RiskStatusMonotone | pages/Prediction.tsx:38-42 | Raising the risk never lowers the band. |
| PredictionPage.FallbackIsLowRisk | pages/Prediction.tsx:39 | The fallback's risk of 15 is classified LOW RISK. |
| PredictionPage.ProgressBarColor | pages/Prediction.tsx:216 | The bar is amber exactly when the progress is above 50, and emerald otherwise. |
| PredictionPage.BarAndBandDisagreeAtFifty | pages/Prediction.tsx:216 | A risk of exactly 50 is HIGH RISK but draws the emerald bar. Above 50 the bar is amber, and below 20 it is emerald. |
| PredictionPage.StartPredict | pages/Prediction.tsx:24-27 | When a request starts, the parcel is selected, loading is on and any earlier prediction is cleared. |
| PredictionPage.FinishPredict | pages/Prediction.tsx:28-35 | When the request settles, loading is off. A returned prediction is stored; a throw leaves the prediction as it was. |
| PredictionPage.HandlePredict | pages/Prediction.tsx:24-36 | Afterwards loading is off and the parcel is selected. No prediction is shown exactly when client construction threw or the response parsed to `null`. Otherwise the prediction is the parsed response, or the fallback when the guarded step failed. |
| PredictionPage.FailedPredictionShowsLowRisk | pages/Prediction.tsx:140-146 | After a failed request, the card shows a well-formed prediction labelled LOW RISK. |
| PredictionPage.StalePredictionCleared | pages/Prediction.tsx:24-35 | If the service throws, an earlier prediction does not survive the request. |

## Left out

- Rendering: the JSX of every page and component, icons, colour maps, routing, the tracking page's trim guard and its reversed history display.
- Simulated latency: the `setTimeout` delays and `async`/`await` sequencing. Each store call is a pure function.
- The external AI call: SDK client, model id, prompt text, response schema and `JSON.parse`. `GenerateOutcome` is an input that says whether client construction failed, a response was parsed, or the guarded step failed. The diagnostic `console.error` logging is not modelled.
- GeminiService.PredictDeliveryRisk: a parsed response is either a complete prediction record or `null`. Factor strings are free, so out-of-enumeration factors are represented (`ResponseFactorNotValidated`). Objects with missing fields are not represented, such as the `'{}'` parsed from an empty response text. JSON numbers, strings, arrays and booleans are not represented either. The record has no place for them, and nothing in the source checks for them.
- `delayRisk` is a JavaScript number. It is modelled as an unbounded integer, and non-integer or non-finite numbers are not modelled.
- Text.UpperIgnoresCase: `toUpperCase` is modelled on ASCII letters only. Full Unicode case mapping, including mappings that change the length, is not modelled; the seed ids are ASCII.
- Text.LexLeq compares by Unicode code point, while JavaScript compares UTF-16 code units. They agree on the ASCII timestamps used here.
- Arrays.Filter: its contract states what is kept, counted with multiplicity, but not that the kept elements stay in order. Only the lengths of filtered lists are used.
- Dates: parsing and locale formatting of timestamps. Timestamps stay strings, ordered lexicographically, which matches time order for ISO-8601 instants written in the same format.
- The admin dashboard's success-rate percentage, a floating-point division that divides by zero when the total is 0.
- Overlapping prediction requests, where a stale response can overwrite a newer one. This is a concurrency issue. That `getAllParcels` returns the internal array by reference is an aliasing detail; the store is an immutable value here.
- The prediction page's initial load of the parcel list. It only passes the result of `GetAllParcels` to the view.
