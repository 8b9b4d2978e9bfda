/** The legacy (v1alpha1) publish endpoint: decode a legacy request, hand its
    canonical form to the publish processor, pad the canonical response,
    convert it back to the legacy shape, run the response's deferred metrics
    callback and write the result.

    The handler's collaborators whose code is not part of this model are
    inputs: the decoder's outcome, the processor (a function of the canonical
    request, the client platform and the version bridge), the client platform
    and the padding generator's outcome. What the handler does to the outside
    world is recorded as a trace of events. */
module PublishV1Alpha1 {
  import opened Ints
  import V1 = ApiV1
  import Alpha = ApiV1Alpha1
  import opened Convert

  /** The value of the API-version response header on the legacy route. */
  const API_VERSION := "v1alpha"

  const DECODE_ERROR_PREFIX := "error unmarshalling API call, code: "

  datatype Option<+T> = None | Some(value: T)

  /** A deferred metrics callback (a Go `func()`): the one the handler builds
      for a body that does not decode, or one the processor attached. */
  datatype MetricsCallback = RecordBadJSON | ProcessorMetrics(name: string)

  /** What the inner handler hands back: the status to write, the canonical
      response, and the metrics callback to run (None for Go's nil). */
  datatype Response = Response(
    status: int,
    pubResponse: V1.PublishResponse,
    metrics: Option<MetricsCallback>)

  /** The JSON decoder's outcome: the legacy request, or the status code it
      chose together with the text of its error. */
  datatype DecodeResult = Decoded(data: Alpha.Publish) | DecodeFailed(code: int, reason: string)

  /** The padding generator's outcome. */
  datatype PaddingResult = Generated(padding: string) | GenerationFailed(reason: string)

  type Processor = (V1.Publish, string, VersionBridge) -> Response

  /** What the handler does that is visible outside it, in order. */
  datatype Event =
    | SetVersionHeader(version: string)
    | DecodeBody
    | Process(request: V1.Publish, platform: string, bridge: VersionBridge)
    | PaddingFailed
    | PaddingApplied(padding: string)
    | RunMetrics(callback: MetricsCallback)
    | Marshal(status: int, body: Alpha.PublishResponse)

  /** The kind of an event, for counting and ordering. */
  datatype Step = HeaderStep | DecodeStep | ProcessStep | PaddingStep | MetricsStep | MarshalStep

  function StepOf(e: Event): Step {
    match e
    case SetVersionHeader(_) => HeaderStep
    case DecodeBody => DecodeStep
    case Process(_, _, _) => ProcessStep
    case PaddingFailed => PaddingStep
    case PaddingApplied(_) => PaddingStep
    case RunMetrics(_) => MetricsStep
    case Marshal(_, _) => MarshalStep
  }

  // ------------------------------------------------------- decode failure

  /** The message put into the response when the body does not decode. */
  function DecodeErrorMessage(code: int, reason: string): (m: string)
    ensures |m| > |DECODE_ERROR_PREFIX|
    ensures m[..|DECODE_ERROR_PREFIX|] == DECODE_ERROR_PREFIX
  {
    DECODE_ERROR_PREFIX + FormatInt(code) + ": " + reason
  }

  /** The response for a body that does not decode: the decoder's status, an
      error message and nothing else, and the bad-JSON counter as the
      deferred metrics. */
  function DecodeErrorResponse(code: int, reason: string): (r: Response)
    ensures r.status == code
    ensures |r.pubResponse.errorMessage| > 0
    ensures r.pubResponse.revisionToken == "" && r.pubResponse.insertedExposures == 0
    ensures r.pubResponse.padding == "" && r.pubResponse.warnings == []
    ensures r.metrics == Some(RecordBadJSON)
  {
    Response(
      status := code,
      pubResponse := V1.PublishResponse("", 0, DecodeErrorMessage(code, reason), "", []),
      metrics := Some(RecordBadJSON))
  }

  /** The message names the decoder's code: it can be read back from it. */
  lemma DecodeErrorMessageNamesCode(code: int, reason: string)
    ensures var m := DecodeErrorMessage(code, reason);
      var digits := FormatInt(code);
      |m| >= |DECODE_ERROR_PREFIX| + |digits|
      && m[|DECODE_ERROR_PREFIX|..|DECODE_ERROR_PREFIX| + |digits|] == digits
      && ParseInt(digits) == code
  {
    var digits := FormatInt(code);
    var m := DecodeErrorMessage(code, reason);
    assert m == DECODE_ERROR_PREFIX + digits + (": " + reason);
    assert m[|DECODE_ERROR_PREFIX|..|DECODE_ERROR_PREFIX| + |digits|] == digits;
    FormatIntRoundTrip(code);
  }

  // ------------------------------------------------- the request handler

  /** The specification of HandleV1Alpha1Request: the response it returns. */
  function InnerResponse(body: DecodeResult, clientPlatform: string, process: Processor): Response {
    match body
    case DecodeFailed(code, reason) => DecodeErrorResponse(code, reason)
    case Decoded(data) => process(UpconvertRequest(data), clientPlatform, VersionBridge(data.regions))
  }

  /** The specification of HandleV1Alpha1Request: the events it causes. */
  function RequestEvents(body: DecodeResult, clientPlatform: string): seq<Event> {
    [SetVersionHeader(API_VERSION), DecodeBody] +
    match body
    case DecodeFailed(_, _) => []
    case Decoded(data) => [Process(UpconvertRequest(data), clientPlatform, VersionBridge(data.regions))]
  }

  /** Set the version header, decode, and either answer the decode error or
      upconvert the request and process it. */
  method HandleV1Alpha1Request(body: DecodeResult, clientPlatform: string, process: Processor)
    returns (response: Response, events: seq<Event>)
    ensures response == InnerResponse(body, clientPlatform, process)
    ensures events == RequestEvents(body, clientPlatform)
  {
    events := [SetVersionHeader(API_VERSION)];
    events := events + [DecodeBody];
    if body.DecodeFailed? {
      response := DecodeErrorResponse(body.code, body.reason);
      return;
    }
    var data := body.data;
    var v1keys := UpconvertKeys(data.keys);
    var publish := Upconvert(data, v1keys);
    var bridge := VersionBridge(data.regions);
    events := events + [Process(publish, clientPlatform, bridge)];
    response := process(publish, clientPlatform, bridge);
  }

  // ------------------------------------------------- the serving handler

  /** The canonical response after the padding step: the generated filler
      when generation succeeded, the response untouched when it failed. */
  function ApplyPadding(r: V1.PublishResponse, padding: PaddingResult): (r': V1.PublishResponse)
    ensures r'.padding == if padding.Generated? then padding.padding else r.padding
    ensures r'.revisionToken == r.revisionToken && r'.insertedExposures == r.insertedExposures
    ensures r'.errorMessage == r.errorMessage && r'.warnings == r.warnings
  {
    match padding
    case Generated(p) => r.(padding := p)
    case GenerationFailed(_) => r
  }

  function PaddingEvent(padding: PaddingResult): Event {
    match padding
    case Generated(p) => PaddingApplied(p)
    case GenerationFailed(_) => PaddingFailed
  }

  function MetricsEvents(metrics: Option<MetricsCallback>): seq<Event> {
    match metrics
    case None => []
    case Some(callback) => [RunMetrics(callback)]
  }

  /** The specification of ServeV1Alpha1: every event of one legacy request. */
  function Trace(body: DecodeResult, clientPlatform: string, process: Processor, padding: PaddingResult): seq<Event> {
    var inner := InnerResponse(body, clientPlatform, process);
    RequestEvents(body, clientPlatform)
    + [PaddingEvent(padding)]
    + MetricsEvents(inner.metrics)
    + [Marshal(inner.status, Downconvert(ApplyPadding(inner.pubResponse, padding)))]
  }

  /** The handler served on the legacy route (inside the chaff and
      maintenance layers): handle the request, pad the response, downconvert
      it, run its metrics callback if it has one, and write it. */
  method ServeV1Alpha1(body: DecodeResult, clientPlatform: string, process: Processor, padding: PaddingResult)
    returns (events: seq<Event>)
    ensures events == Trace(body, clientPlatform, process, padding)
  {
    var response;
    response, events := HandleV1Alpha1Request(body, clientPlatform, process);
    match padding {
      case GenerationFailed(_) =>
        // the failure is counted and logged; the response keeps its padding
        events := events + [PaddingFailed];
      case Generated(p) =>
        response := response.(pubResponse := response.pubResponse.(padding := p));
        events := events + [PaddingApplied(p)];
    }
    var alpha1Response := Downconvert(response.pubResponse);
    if response.metrics.Some? {
      events := events + [RunMetrics(response.metrics.value)];
    }
    events := events + [Marshal(response.status, alpha1Response)];
  }

  // ------------------------------------------------- facts about a trace

  /** The events of one kind, in trace order. */
  function Occurrences(t: seq<Event>, s: Step): seq<Event> {
    if t == [] then []
    else (if StepOf(t[0]) == s then [t[0]] else []) + Occurrences(t[1..], s)
  }

  lemma {:induction false} OccurrencesConcat(a: seq<Event>, b: seq<Event>, s: Step)
    ensures Occurrences(a + b, s) == Occurrences(a, s) + Occurrences(b, s)
  {
    if a == [] {
      assert a + b == b;
    } else {
      var head := if StepOf(a[0]) == s then [a[0]] else [];
      calc {
        Occurrences(a + b, s);
      ==  { assert (a + b)[0] == a[0] && (a + b)[1..] == a[1..] + b; }
        head + Occurrences(a[1..] + b, s);
      ==  { OccurrencesConcat(a[1..], b, s); }
        head + (Occurrences(a[1..], s) + Occurrences(b, s));
      ==
        Occurrences(a, s) + Occurrences(b, s);
      }
    }
  }

  lemma OccurrencesSingle(e: Event, s: Step)
    ensures Occurrences([e], s) == if StepOf(e) == s then [e] else []
  {
  }

  /** Every event of kind `s1` comes before every event of kind `s2`. */
  predicate Before(t: seq<Event>, s1: Step, s2: Step) {
    forall i, j :: 0 <= i < |t| && 0 <= j < |t| && StepOf(t[i]) == s1 && StepOf(t[j]) == s2 ==> i < j
  }

  /** The events of one request fall into four consecutive parts: the
      request handler's own, the padding step, the metrics, the write. */
  lemma TraceParts(body: DecodeResult, clientPlatform: string, process: Processor, padding: PaddingResult)
    ensures var inner := InnerResponse(body, clientPlatform, process);
      Trace(body, clientPlatform, process, padding)
      == RequestEvents(body, clientPlatform) + [PaddingEvent(padding)] + MetricsEvents(inner.metrics)
         + [Marshal(inner.status, Downconvert(ApplyPadding(inner.pubResponse, padding)))]
    ensures forall e :: e in RequestEvents(body, clientPlatform) ==> StepOf(e) in {HeaderStep, DecodeStep, ProcessStep}
    ensures forall e :: e in MetricsEvents(InnerResponse(body, clientPlatform, process).metrics) ==> StepOf(e) == MetricsStep
    ensures |MetricsEvents(InnerResponse(body, clientPlatform, process).metrics)| <= 1
  {
  }

  /** Where each kind of event sits in a trace laid out as TraceParts says. */
  lemma PartPositions(req: seq<Event>, pad: Event, met: seq<Event>, mar: Event, i: nat)
    requires forall e :: e in req ==> StepOf(e) in {HeaderStep, DecodeStep, ProcessStep}
    requires StepOf(pad) == PaddingStep && StepOf(mar) == MarshalStep
    requires forall e :: e in met ==> StepOf(e) == MetricsStep
    requires i < |req| + 1 + |met| + 1
    ensures var t := req + [pad] + met + [mar];
      && (StepOf(t[i]) in {HeaderStep, DecodeStep, ProcessStep} <==> i < |req|)
      && (StepOf(t[i]) == PaddingStep <==> i == |req|)
      && (StepOf(t[i]) == MetricsStep <==> |req| < i < |t| - 1)
      && (StepOf(t[i]) == MarshalStep <==> i == |t| - 1)
  {
  }

  lemma {:induction false} OccurrencesNone(t: seq<Event>, s: Step)
    requires forall e :: e in t ==> StepOf(e) != s
    ensures Occurrences(t, s) == []
  {
    if t != [] {
      assert forall e :: e in t[1..] ==> e in t;
      OccurrencesNone(t[1..], s);
    }
  }

  lemma {:induction false} OccurrencesAll(t: seq<Event>, s: Step)
    requires forall e :: e in t ==> StepOf(e) == s
    ensures Occurrences(t, s) == t
  {
    if t != [] {
      assert forall e :: e in t[1..] ==> e in t;
      OccurrencesAll(t[1..], s);
    }
  }

  /** The events of one kind in the four parts of a trace. */
  lemma {:induction false} PartOccurrences(req: seq<Event>, pad: Event, met: seq<Event>, mar: Event, s: Step)
    ensures Occurrences(req + [pad] + met + [mar], s)
      == Occurrences(req, s) + Occurrences([pad], s) + Occurrences(met, s) + Occurrences([mar], s)
  {
    OccurrencesConcat(req + [pad] + met, [mar], s);
    OccurrencesConcat(req + [pad], met, s);
    OccurrencesConcat(req, [pad], s);
  }

  /** The header events in a trace that starts by setting the header and
      decoding the body. */
  lemma {:induction false} HeaderKinds(tail: seq<Event>)
    requires forall e :: e in tail ==> StepOf(e) !in {HeaderStep, DecodeStep}
    ensures var t := [SetVersionHeader(API_VERSION), DecodeBody] + tail;
      && Occurrences(t, HeaderStep) == [SetVersionHeader(API_VERSION)]
      && Before(t, HeaderStep, DecodeStep)
  {
    var t := [SetVersionHeader(API_VERSION), DecodeBody] + tail;
    assert t == [SetVersionHeader(API_VERSION)] + ([DecodeBody] + tail);
    OccurrencesConcat([SetVersionHeader(API_VERSION)], [DecodeBody] + tail, HeaderStep);
    OccurrencesConcat([DecodeBody], tail, HeaderStep);
    OccurrencesSingle(SetVersionHeader(API_VERSION), HeaderStep);
    OccurrencesSingle(DecodeBody, HeaderStep);
    OccurrencesNone(tail, HeaderStep);
    forall i | 2 <= i < |t| ensures StepOf(t[i]) !in {HeaderStep, DecodeStep} {
      assert t[i] == tail[i - 2] && t[i] in tail;
    }
  }

  /** The version header is set on every request, first, before the body is
      decoded, and exactly once. */
  lemma {:induction false} VersionHeaderFirst(body: DecodeResult, clientPlatform: string, process: Processor, padding: PaddingResult)
    ensures var t := Trace(body, clientPlatform, process, padding);
      && t[0] == SetVersionHeader(API_VERSION)
      && t[1] == DecodeBody
      && Occurrences(t, HeaderStep) == [SetVersionHeader(API_VERSION)]
      && Before(t, HeaderStep, DecodeStep)
  {
    var inner := InnerResponse(body, clientPlatform, process);
    var req := RequestEvents(body, clientPlatform);
    var pad := PaddingEvent(padding);
    var met := MetricsEvents(inner.metrics);
    var mar := Marshal(inner.status, Downconvert(ApplyPadding(inner.pubResponse, padding)));
    TraceParts(body, clientPlatform, process, padding);
    var calls := req[2..];
    assert forall e :: e in calls ==> StepOf(e) == ProcessStep;
    var tail := calls + [pad] + met + [mar];
    assert req == [SetVersionHeader(API_VERSION), DecodeBody] + calls;
    assert Trace(body, clientPlatform, process, padding) == [SetVersionHeader(API_VERSION), DecodeBody] + tail;
    assert forall e :: e in tail ==> e in calls || e == pad || e in met || e == mar;
    HeaderKinds(tail);
  }

  /** Events of one kind in a trace laid out as TraceParts says. */
  lemma {:induction false} PartKinds(req: seq<Event>, pad: Event, met: seq<Event>, mar: Event)
    requires forall e :: e in req ==> StepOf(e) in {HeaderStep, DecodeStep, ProcessStep}
    requires StepOf(pad) == PaddingStep && StepOf(mar) == MarshalStep
    requires forall e :: e in met ==> StepOf(e) == MetricsStep
    ensures Occurrences(req + [pad] + met + [mar], MetricsStep) == met
    ensures Occurrences(req + [pad] + met + [mar], PaddingStep) == [pad]
    ensures Occurrences(req + [pad] + met + [mar], MarshalStep) == [mar]
  {
    forall s | s in {MetricsStep, PaddingStep, MarshalStep}
      ensures Occurrences(req + [pad] + met + [mar], s)
        == (if s == MetricsStep then met else []) + (if s == PaddingStep then [pad] else [])
           + (if s == MarshalStep then [mar] else [])
    {
      PartOccurrences(req, pad, met, mar, s);
      OccurrencesNone(req, s);
      OccurrencesSingle(pad, s);
      OccurrencesSingle(mar, s);
      if s == MetricsStep {
        OccurrencesAll(met, s);
      } else {
        OccurrencesNone(met, s);
      }
    }
  }

  /** The deferred metrics callback runs once when there is one and never
      otherwise; the padding step happens once; the response is written once,
      as the last event. */
  lemma {:induction false} MetricsRunOnce(body: DecodeResult, clientPlatform: string, process: Processor, padding: PaddingResult)
    ensures var t := Trace(body, clientPlatform, process, padding);
      var inner := InnerResponse(body, clientPlatform, process);
      && Occurrences(t, MetricsStep) == MetricsEvents(inner.metrics)
      && Occurrences(t, PaddingStep) == [PaddingEvent(padding)]
      && Occurrences(t, MarshalStep) == [t[|t| - 1]]
  {
    var inner := InnerResponse(body, clientPlatform, process);
    TraceParts(body, clientPlatform, process, padding);
    PartKinds(RequestEvents(body, clientPlatform), PaddingEvent(padding), MetricsEvents(inner.metrics),
      Marshal(inner.status, Downconvert(ApplyPadding(inner.pubResponse, padding))));
  }

  /** The metrics run after the padding step and before the response is
      written, and the padding step comes before the write. */
  lemma MetricsInOrder(body: DecodeResult, clientPlatform: string, process: Processor, padding: PaddingResult)
    ensures var t := Trace(body, clientPlatform, process, padding);
      && Before(t, PaddingStep, MetricsStep)
      && Before(t, MetricsStep, MarshalStep)
      && Before(t, PaddingStep, MarshalStep)
  {
    var t := Trace(body, clientPlatform, process, padding);
    var inner := InnerResponse(body, clientPlatform, process);
    var req := RequestEvents(body, clientPlatform);
    var pad := PaddingEvent(padding);
    var met := MetricsEvents(inner.metrics);
    var mar := Marshal(inner.status, Downconvert(ApplyPadding(inner.pubResponse, padding)));
    TraceParts(body, clientPlatform, process, padding);
    assert t == req + [pad] + met + [mar];
    forall i, j | 0 <= i < |t| && 0 <= j < |t| && StepOf(t[i]) == PaddingStep && StepOf(t[j]) == MetricsStep
      ensures i < j
    {
      PartPositions(req, pad, met, mar, i);
      PartPositions(req, pad, met, mar, j);
    }
    forall i, j | 0 <= i < |t| && 0 <= j < |t| && StepOf(t[i]) == MetricsStep && StepOf(t[j]) == MarshalStep
      ensures i < j
    {
      PartPositions(req, pad, met, mar, i);
      PartPositions(req, pad, met, mar, j);
    }
    forall i, j | 0 <= i < |t| && 0 <= j < |t| && StepOf(t[i]) == PaddingStep && StepOf(t[j]) == MarshalStep
      ensures i < j
    {
      PartPositions(req, pad, met, mar, i);
      PartPositions(req, pad, met, mar, j);
    }
  }

  /** What is written is the inner response's status and its downconverted,
      padded canonical response; a response is written whether or not the
      padding could be generated. */
  lemma MarshalsInnerResponse(body: DecodeResult, clientPlatform: string, process: Processor, padding: PaddingResult)
    ensures var t := Trace(body, clientPlatform, process, padding);
      var inner := InnerResponse(body, clientPlatform, process);
      var last := t[|t| - 1];
      && last.Marshal?
      && last.status == inner.status
      && last.body.revisionToken == inner.pubResponse.revisionToken
      && last.body.insertedExposures == inner.pubResponse.insertedExposures
      && last.body.error == inner.pubResponse.errorMessage
      && last.body.warnings == inner.pubResponse.warnings
      && last.body.padding == (if padding.Generated? then padding.padding else inner.pubResponse.padding)
  {
  }

  /** A body that does not decode: the processor is never called, the
      written status is the decoder's code, the written error is not empty
      and the bad-JSON counter is the metrics that run. */
  lemma {:induction false} DecodeFailureAnswered(code: int, reason: string, clientPlatform: string, process: Processor, padding: PaddingResult)
    ensures var t := Trace(DecodeFailed(code, reason), clientPlatform, process, padding);
      var last := t[|t| - 1];
      && Occurrences(t, ProcessStep) == []
      && last.Marshal? && last.status == code
      && |last.body.error| > 0
      && Occurrences(t, MetricsStep) == [RunMetrics(RecordBadJSON)]
  {
    var body := DecodeFailed(code, reason);
    var t := Trace(body, clientPlatform, process, padding);
    MetricsRunOnce(body, clientPlatform, process, padding);
    TraceParts(body, clientPlatform, process, padding);
    assert t == [SetVersionHeader(API_VERSION), DecodeBody, PaddingEvent(padding), RunMetrics(RecordBadJSON), t[4]];
    OccurrencesNone(t, ProcessStep);
  }

  /** The process events in a trace whose request part decoded a body. */
  lemma {:induction false} ProcessKinds(call: Event, pad: Event, met: seq<Event>, mar: Event)
    requires StepOf(call) == ProcessStep && StepOf(pad) == PaddingStep && StepOf(mar) == MarshalStep
    requires forall e :: e in met ==> StepOf(e) == MetricsStep
    ensures Occurrences([SetVersionHeader(API_VERSION), DecodeBody, call] + [pad] + met + [mar], ProcessStep) == [call]
  {
    var head := [SetVersionHeader(API_VERSION), DecodeBody];
    var req := head + [call];
    assert [SetVersionHeader(API_VERSION), DecodeBody, call] == req;
    PartOccurrences(req, pad, met, mar, ProcessStep);
    OccurrencesConcat(head, [call], ProcessStep);
    OccurrencesNone(head, ProcessStep);
    OccurrencesSingle(call, ProcessStep);
    OccurrencesSingle(pad, ProcessStep);
    OccurrencesSingle(mar, ProcessStep);
    OccurrencesNone(met, ProcessStep);
  }

  /** Where the decode and process events sit in a trace whose request part
      decoded a body. */
  lemma ProcessPositions(call: Event, pad: Event, met: seq<Event>, mar: Event)
    requires StepOf(call) == ProcessStep && StepOf(pad) == PaddingStep && StepOf(mar) == MarshalStep
    requires forall e :: e in met ==> StepOf(e) == MetricsStep
    ensures var t := [SetVersionHeader(API_VERSION), DecodeBody, call] + [pad] + met + [mar];
      && Before(t, DecodeStep, ProcessStep)
      && Before(t, ProcessStep, PaddingStep)
  {
    var t := [SetVersionHeader(API_VERSION), DecodeBody, call] + [pad] + met + [mar];
    forall i | 3 <= i < |t| ensures StepOf(t[i]) != DecodeStep && StepOf(t[i]) != ProcessStep {
      if i > 3 && i < |t| - 1 {
        assert t[i] == met[i - 4] && t[i] in met;
      }
    }
  }

  /** A body that decodes: the processor is called exactly once, with the
      upconverted request and a bridge holding the legacy regions, after the
      body was decoded and before the padding step. */
  lemma {:induction false} DecodedRequestProcessedOnce(data: Alpha.Publish, clientPlatform: string, process: Processor, padding: PaddingResult)
    ensures var t := Trace(Decoded(data), clientPlatform, process, padding);
      && t[2] == Process(UpconvertRequest(data), clientPlatform, VersionBridge(data.regions))
      && Occurrences(t, ProcessStep) == [t[2]]
      && Before(t, DecodeStep, ProcessStep)
      && Before(t, ProcessStep, PaddingStep)
  {
    var body := Decoded(data);
    var inner := InnerResponse(body, clientPlatform, process);
    var call := Process(UpconvertRequest(data), clientPlatform, VersionBridge(data.regions));
    var t := Trace(body, clientPlatform, process, padding);
    TraceParts(body, clientPlatform, process, padding);
    assert RequestEvents(body, clientPlatform) == [SetVersionHeader(API_VERSION), DecodeBody, call];
    assert t[2] == call;
    var mar := Marshal(inner.status, Downconvert(ApplyPadding(inner.pubResponse, padding)));
    ProcessKinds(call, PaddingEvent(padding), MetricsEvents(inner.metrics), mar);
    ProcessPositions(call, PaddingEvent(padding), MetricsEvents(inner.metrics), mar);
  }
}
