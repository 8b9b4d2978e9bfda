# Legacy (v1alpha1) publish adapter of the exposure-notifications server

The publish service accepts diagnosis keys from health-authority apps. Older
clients speak the legacy v1alpha1 wire shape; the service still serves them on
its legacy route. The adapter does two things:

- It upconverts a decoded legacy request into the canonical v1 request. Keys
  are copied field for field. The app package name becomes the health
  authority ID. The traveler flag is set when the request names more than one
  region.
- It runs the canonical publish processor on that request. Then it pads the
  canonical response, downconverts it to the legacy shape, runs the deferred
  metrics callback, and writes the result.

This project models that adapter in Dafny:

- `ints.dfy` (module `Ints`): Go's `int32`, and the decimal form that `%v`
  prints for an `int` in the decode-error message.
- `api_v1.dfy`, `api_v1alpha1.dfy` (modules `ApiV1`, `ApiV1Alpha1`): the
  canonical and legacy keys, requests and responses, as datatypes.
- `convert.dfy` (module `Convert`): the key upconvert loop, the request
  upconvert, and the response downconvert. The loop is a method that fills a
  freshly allocated array index by index, as the Go code fills its
  preallocated slice. Each conversion has an inverse partner and round-trip
  lemmas.
- `publish_v1alpha1.dfy` (module `PublishV1Alpha1`): the request handler
  (`handleV1Apha1Request`) and the serving handler (the closure inside
  `HandleV1Alpha1`), written as methods.

The handlers' unseen collaborators are inputs:

- the JSON decoder's outcome (the legacy request, or a status code and error text);
- the publish processor (a function of the canonical request, the client platform and the version bridge);
- the client platform string;
- the padding generator's outcome (the padding, or a failure).

Each handler returns the events it causes, in order: setting the version
header, decoding the body, calling the processor, the padding step, running
the metrics callback, and writing the response. The ordering and
"exactly once" properties are lemmas about the specification function
`Trace`, which `ServeV1Alpha1` is proved to produce.

Where the design description and the code differ, the model follows the code:

- Traveler counts the entries of the region list, not distinct regions
  (`len(data.Regions) > 1`). The same region listed twice makes a traveler
  (`Convert.TravelerCountsEntries`).
- When padding generation fails, the response keeps whatever padding the
  processor put in it. The field is not cleared.
- The metrics callback runs only when the response carries one (`!= nil`).
  So it runs at most once, not always exactly once.

## Model

| member | source | states |
|---|---|---|
| Convert.UpconvertKey | internal/publish/publish_v1alpha1.go:56-61 | a canonical key keeps the legacy key's Key, IntervalNumber, IntervalCount and TransmissionRisk |
| Convert.KeyRoundTrip | internal/publish/publish_v1alpha1.go:56-61 | the key mapping is a bijection: downgrading an upconverted key gives it back, and the other way round |
| Convert.UpconvertedKeys | internal/publish/publish_v1alpha1.go:54-62 | the canonical key list has the legacy list's length, and position i holds the upconversion of legacy key i |
| Convert.UpconvertKeys | internal/publish/publish_v1alpha1.go:54-62 | the loop over the preallocated slice yields a list of the same length whose key i keeps all four fields of legacy key i, so order is kept; it equals UpconvertedKeys |
| Convert.KeysRoundTrip | internal/publish/publish_v1alpha1.go:54-62 | converting a key list up and back down, or down and back up, returns it unchanged |
| Convert.Upconvert | internal/publish/publish_v1alpha1.go:65-74 | HealthAuthorityID is AppPackageName; Traveler holds iff there is more than one region; the keys are the converted keys; VerificationPayload, HMACKey, SymptomOnsetInterval, RevisionToken and Padding pass through unchanged |
| Convert.UpconvertLosesNothing | internal/publish/publish_v1alpha1.go:65-75 | the canonical request and the bridge's regions together give back the whole legacy request |
| Convert.UpconvertOnto | internal/publish/publish_v1alpha1.go:65-75 | every canonical request whose Traveler agrees with the region count is the upconversion of some legacy request |
| Convert.TravelerCountsEntries | internal/publish/publish_v1alpha1.go:71 | a region list naming one region twice makes a traveler, although it holds one distinct region |
| Convert.Downconvert | internal/publish/publish_v1alpha1.go:98-104 | the legacy response's RevisionToken, InsertedExposures, Padding and Warnings are the canonical response's, and Error is ErrorMessage |
| Convert.DownconvertRoundTrip | internal/publish/publish_v1alpha1.go:98-104 | downconversion loses nothing and reaches every legacy response |
| Ints.NatToDecimal | internal/publish/publish_v1alpha1.go:42 | the decimal form of a natural number is a non-empty digit string with no leading zero |
| Ints.NatDecimalRoundTrip | internal/publish/publish_v1alpha1.go:42 | reading the decimal form back gives the number |
| Ints.FormatInt | internal/publish/publish_v1alpha1.go:42 | `%v` of an int is a decimal string, with a leading minus sign exactly when the int is negative |
| Ints.FormatIntRoundTrip | internal/publish/publish_v1alpha1.go:42 | the printed code determines the code |
| PublishV1Alpha1.DecodeErrorMessage | internal/publish/publish_v1alpha1.go:42 | the decode-error message starts with the fixed "error unmarshalling API call, code: " text and is longer than it |
| PublishV1Alpha1.DecodeErrorMessageNamesCode | internal/publish/publish_v1alpha1.go:42 | the decode-error message carries the decoder's code right after the fixed text, and the code can be read back |
| PublishV1Alpha1.DecodeErrorResponse | internal/publish/publish_v1alpha1.go:41-50 | a body that does not decode is answered with the decoder's status, a non-empty ErrorMessage, no other response field set, and the bad-JSON counter as the deferred metrics |
| PublishV1Alpha1.HandleV1Alpha1Request | internal/publish/publish_v1alpha1.go:33-79 | sets the version header, decodes, and either returns the decode-error response or calls the processor once on the upconverted request with a bridge over the legacy regions, returning its response |
| PublishV1Alpha1.ApplyPadding | internal/publish/publish_v1alpha1.go:90-95 | padding fails open: generated padding replaces the response's padding, a failure leaves it as it was, and no other field changes |
| PublishV1Alpha1.ServeV1Alpha1 | internal/publish/publish_v1alpha1.go:85-111 | the serving handler produces exactly the events of Trace: request events, padding step, metrics if any, then the write of the downconverted padded response |
| PublishV1Alpha1.VersionHeaderFirst | internal/publish/publish_v1alpha1.go:37-40 | on every request the "v1alpha" version header is set first, exactly once, before the body is decoded |
| PublishV1Alpha1.MetricsRunOnce | internal/publish/publish_v1alpha1.go:90-110 | the metrics callback runs once if the response carries one and never otherwise; the padding step happens once; the response is written once, as the last event |
| PublishV1Alpha1.MetricsInOrder | internal/publish/publish_v1alpha1.go:90-110 | the metrics callback runs after the padding step and before the response is written |
| PublishV1Alpha1.MarshalsInnerResponse | internal/publish/publish_v1alpha1.go:86-110 | a response is written whether or not padding succeeds; its status is the inner handler's; its fields are the inner response's, with the padding replaced only when generated |
| PublishV1Alpha1.DecodeFailureAnswered | internal/publish/publish_v1alpha1.go:39-50 | a body that does not decode never reaches the processor; the written status is the decoder's code; the written Error is non-empty; the bad-JSON metrics run |
| PublishV1Alpha1.DecodedRequestProcessedOnce | internal/publish/publish_v1alpha1.go:53-78 | a decoded body makes exactly one processor call, with the upconverted request and a bridge over the legacy regions, after decoding and before padding |

## Left out

- The chaff layer (`chaff.HeaderDetector`, `h.tracker.HandleTrack`, line 83) comes from a foreign library. Decoy requests are not modelled.
- The maintenance responder (`maintenance.New`, `Handle`, lines 82 and 84): its code is not part of this model.
- The publish processor `h.process`, `platform(r.UserAgent())`, `newVersionBridge` and `generatePadding` are inputs. Their code is not part of this model. The version bridge is modelled only by the regions it is built from. No padding length bound is stated, because the generator's code is not part of this model.
- The JSON decoder and `jsonutil.MarshalResponse` are not modelled. Decoding is an input outcome, and writing is a `Marshal` event carrying the status and the legacy response. The decoder's bounds checks on `int32` fields are not modelled either.
- The `http.ResponseWriter` is not modelled beyond the version-header event. The header's name constant is not part of this model; only its value "v1alpha" is.
- OpenCensus spans (lines 34-35, 43), the `mPaddingFailed` counter and the error log line (lines 91-92) are not modelled separately; the padding failure is one `PaddingFailed` event. The metrics callbacks are opaque events: `RecordBadJSON`, or a name for one attached by the processor.
- The request context and cancellation are not modelled. Requests are independent.
- PublishV1Alpha1.ServeV1Alpha1: the response is a value, and the in-place write to `response.pubResponse.Padding` (line 94) is modelled by rebinding it. No other alias of that response is visible in the code, so aliasing is not captured.
- PublishV1Alpha1.HandleV1Alpha1Request: the processor always returns a response. A nil `pubResponse`, which would make the Go handler panic at line 94 or 99, is not modelled.
- `cmd/exposure/main.go` (route registration, server start, signal handling) is I/O wiring and is not modelled.
