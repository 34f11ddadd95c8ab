/** What one call of `RoundTrip` emits, instrument by instrument. Each lemma
    holds for every round tripper, request (nil included), parent answer and
    duration. */
module RoundTripLemmas {

  import opened Wrappers
  import opened Http
  import opened RoundTripper
  import Strings

  /** How many events are addressed to instrument `i`. */
  function Count(events: seq<Event>, i: Instrument): nat {
    if |events| == 0 then 0
    else (if events[0].instrument == i then 1 else 0) + Count(events[1..], i)
  }

  /** The net of the deltas (or recorded values) addressed to instrument `i`. */
  function Net(events: seq<Event>, i: Instrument): int {
    if |events| == 0 then 0
    else (if events[0].instrument == i then events[0].value else 0) + Net(events[1..], i)
  }

  /** Counting and netting distribute over concatenation. */
  lemma {:induction false} CountAppend(a: seq<Event>, b: seq<Event>, i: Instrument)
    ensures Count(a + b, i) == Count(a, i) + Count(b, i)
    ensures Net(a + b, i) == Net(a, i) + Net(b, i)
    decreases |a|
  {
    if |a| == 0 {
      assert a + b == b;
    } else {
      assert (a + b)[0] == a[0];
      assert (a + b)[1..] == a[1..] + b;
      CountAppend(a[1..], b, i);
    }
  }

  /** One event's contribution to `Count`. */
  function One(e: Event, i: Instrument): nat {
    if e.instrument == i then 1 else 0
  }

  /** One event's contribution to `Net`. */
  function Delta(e: Event, i: Instrument): int {
    if e.instrument == i then e.value else 0
  }

  /** A one-event list counts and nets that event's contribution. */
  lemma CountSingle(x: Event, i: Instrument)
    ensures Count([x], i) == One(x, i) && Net([x], i) == Delta(x, i)
  {
    assert [x][1..] == [];
  }

  /** A two-event list counts and nets the sum of both contributions. */
  lemma CountPair(x: Event, y: Event, i: Instrument)
    ensures Count([x, y], i) == One(x, i) + One(y, i)
    ensures Net([x, y], i) == Delta(x, i) + Delta(y, i)
  {
    assert [x, y] == [x] + [y];
    CountAppend([x], [y], i);
    CountSingle(x, i);
    CountSingle(y, i);
  }

  /** A list holding one event only when `c` holds (the shape of an `if`
      around one `Add`) counts and nets that event only when `c` holds. */
  lemma CountOptional(c: bool, x: Event, i: Instrument)
    ensures Count(if c then [x] else [], i) == (if c then One(x, i) else 0)
    ensures Net(if c then [x] else [], i) == (if c then Delta(x, i) else 0)
  {
    if c { CountSingle(x, i); }
  }

  /** 1 when `b` holds, 0 otherwise. */
  function Indicator(b: bool): nat {
    if b then 1 else 0
  }

  /** How many times each instrument moves in one round trip, read off the
      hooks independently of the event list: one attempt and two in-flight
      moves always; a no-request count for a nil request; on a transport
      error, one error count plus the timeout and cancellation counts its
      kind calls for; otherwise one duration sample and one count on the
      counter the status selects; never a deadline-exceeded count. */
  function ExpectedCount(request: Option<Request>, parent: ParentResult, i: Instrument): nat {
    var failed := parent.err.Some?;
    match i
    case Attempts => 1
    case InFlight => 2
    case NoRequest => Indicator(request.None?)
    case Errors => Indicator(failed)
    case Timeouts => Indicator(failed && parent.err.value.netTimeout)
    case Canceled => Indicator(failed && Strings.HasSuffix(parent.err.value.message, CanceledMessage))
    case DeadlineExceeded => 0
    case TotalDuration => Indicator(!failed)
    case Redirects => Indicator(!failed && IsRedirection(parent.response))
    case Failures => Indicator(!failed && IsFailure(parent.response))
    case Successes => Indicator(!failed && !IsRedirection(parent.response) && !IsFailure(parent.response))
  }

  /** The `beforeHook` counts. */
  lemma BeforeHookCount(ctx: Context, attrs: seq<KeyValue>, request: Option<Request>, i: Instrument)
    ensures Count(BeforeHook(ctx, attrs, request), i) == BeforeShare(request, i)
    ensures Net(BeforeHook(ctx, attrs, request), i) ==
      Indicator(i == InFlight) + Indicator(i == Attempts) + Indicator(request.None? && i == NoRequest)
  {
    var x, y := Event(ctx, InFlight, 1, attrs), Event(ctx, Attempts, 1, attrs);
    var z := Event(ctx, NoRequest, 1, attrs);
    CountAppend([x, y], if request.None? then [z] else [], i);
    CountPair(x, y, i);
    CountOptional(request.None?, z, i);
  }

  /** The `afterHook` records one duration sample, whose value is the
      elapsed time, and moves nothing else. */
  lemma AfterHookCount(ctx: Context, duration: int, attrs: seq<KeyValue>, i: Instrument)
    ensures Count(AfterHook(ctx, duration, attrs), i) == Indicator(i == TotalDuration)
    ensures Net(AfterHook(ctx, duration, attrs), TotalDuration) == duration
  {
    CountSingle(Event(ctx, TotalDuration, duration, attrs), i);
    CountSingle(Event(ctx, TotalDuration, duration, attrs), TotalDuration);
  }

  /** The `errorHook` counts. */
  lemma ErrorHookCount(ctx: Context, err: Error, attrs: seq<KeyValue>, i: Instrument)
    ensures Count(ErrorHook(ctx, err, attrs), i) ==
      Indicator(i == InFlight) + Indicator(i == Errors) + Indicator(err.netTimeout && i == Timeouts)
      + Indicator(Strings.HasSuffix(err.message, CanceledMessage) && i == Canceled)
  {
    var x, y := Event(ctx, InFlight, -1, attrs), Event(ctx, Errors, 1, attrs);
    var t := Event(ctx, Timeouts, 1, attrs);
    var c := Event(ctx, Canceled, 1, attrs);
    var cancelled := Strings.HasSuffix(err.message, CanceledMessage);
    var ts := if err.netTimeout then [t] else [];
    var cs := if cancelled then [c] else [];
    CountAppend([x, y] + ts, cs, i);
    CountAppend([x, y], ts, i);
    CountPair(x, y, i);
    CountOptional(err.netTimeout, t, i);
    CountOptional(cancelled, c, i);
  }

  /** The `errorHook` moves the gauge down by one. */
  lemma ErrorHookNet(ctx: Context, err: Error, attrs: seq<KeyValue>)
    ensures Net(ErrorHook(ctx, err, attrs), InFlight) == -1
  {
    var x, y := Event(ctx, InFlight, -1, attrs), Event(ctx, Errors, 1, attrs);
    var t := Event(ctx, Timeouts, 1, attrs);
    var c := Event(ctx, Canceled, 1, attrs);
    var cancelled := Strings.HasSuffix(err.message, CanceledMessage);
    var ts := if err.netTimeout then [t] else [];
    var cs := if cancelled then [c] else [];
    CountAppend([x, y] + ts, cs, InFlight);
    CountAppend([x, y], ts, InFlight);
    CountPair(x, y, InFlight);
    CountOptional(err.netTimeout, t, InFlight);
    CountOptional(cancelled, c, InFlight);
  }

  /** The `afterHook` and outcome-hook counts. */
  lemma CompletionCount(ctx: Context, duration: int, outcome: Instrument, attrs: seq<KeyValue>, i: Instrument)
    ensures Count(AfterHook(ctx, duration, attrs) + OutcomeHook(ctx, outcome, attrs), i) ==
      Indicator(i == TotalDuration) + Indicator(i == InFlight) + Indicator(i == outcome)
  {
    var d := Event(ctx, TotalDuration, duration, attrs);
    var x, y := Event(ctx, InFlight, -1, attrs), Event(ctx, outcome, 1, attrs);
    CountAppend([d], [x, y], i);
    CountSingle(d, i);
    CountPair(x, y, i);
  }

  /** The `afterHook` and outcome hook move the gauge down by one. */
  lemma CompletionNet(ctx: Context, duration: int, outcome: Instrument, attrs: seq<KeyValue>)
    requires outcome != InFlight
    ensures Net(AfterHook(ctx, duration, attrs) + OutcomeHook(ctx, outcome, attrs), InFlight) == -1
  {
    var d := Event(ctx, TotalDuration, duration, attrs);
    var x, y := Event(ctx, InFlight, -1, attrs), Event(ctx, outcome, 1, attrs);
    CountAppend([d], [x, y], InFlight);
    CountSingle(d, InFlight);
    CountPair(x, y, InFlight);
  }

  /** How often the hooks after the parent answered move instrument `i`. */
  function AfterShare(parent: ParentResult, i: Instrument): nat {
    if parent.err.Some? then
      Indicator(i == InFlight) + Indicator(i == Errors) + Indicator(parent.err.value.netTimeout && i == Timeouts)
      + Indicator(Strings.HasSuffix(parent.err.value.message, CanceledMessage) && i == Canceled)
    else Indicator(i == TotalDuration) + Indicator(i == InFlight) + Indicator(i == OutcomeOf(parent.response))
  }

  /** How often `beforeHook` moves instrument `i`. */
  function BeforeShare(request: Option<Request>, i: Instrument): nat {
    Indicator(i == InFlight) + Indicator(i == Attempts) + Indicator(request.None? && i == NoRequest)
  }

  /** The expected counts are the before-hook's share plus the later hooks' share. */
  lemma ExpectedCountSplits(request: Option<Request>, parent: ParentResult, i: Instrument)
    ensures ExpectedCount(request, parent, i) == BeforeShare(request, i) + AfterShare(parent, i)
  {
    ClassificationIsExclusive(parent.response);
  }

  /** The events after the parent answered move every instrument as
      `ExpectedCount` says, less the before-hook's share, and bring the gauge
      down by one. */
  lemma AfterParentCount(ctx: Context, attrs: seq<KeyValue>, parent: ParentResult, duration: int, i: Instrument)
    ensures Count(AfterParent(ctx, attrs, parent, duration), i) == AfterShare(parent, i)
    ensures Net(AfterParent(ctx, attrs, parent, duration), InFlight) == -1
  {
    match parent.err
    case Some(err) =>
      ErrorHookCount(ctx, err, attrs, i);
      ErrorHookNet(ctx, err, attrs);
    case None =>
      var full := ResponseAttributes(attrs, parent.response);
      CompletionCount(ctx, duration, OutcomeOf(parent.response), full, i);
      CompletionNet(ctx, duration, OutcomeOf(parent.response), full);
  }

  /** Every instrument moves exactly as often as `ExpectedCount` says, and
      the in-flight gauge nets to zero. */
  lemma {:induction false} RoundTripCounts(rt: OtelRoundTripper, request: Option<Request>, parent: ParentResult, duration: int, i: Instrument)
    ensures Count(RoundTrip(rt, request, parent, duration).events, i) == ExpectedCount(request, parent, i)
    ensures Net(RoundTrip(rt, request, parent, duration).events, InFlight) == 0
  {
    var ctx := ExtractCtx(request);
    var attrs := RequestAttributes(rt.attributes, request);
    var before := BeforeHook(ctx, attrs, request);
    var after := AfterParent(ctx, attrs, parent, duration);
    BeforeHookCount(ctx, attrs, request, i);
    BeforeHookCount(ctx, attrs, request, InFlight);
    AfterParentCount(ctx, attrs, parent, duration, i);
    CountAppend(before, after, i);
    CountAppend(before, after, InFlight);
    ExpectedCountSplits(request, parent, i);
  }

  /** The in-flight gauge moves twice, first up by one, and nets to zero on
      every path. */
  lemma InFlightNetsToZero(rt: OtelRoundTripper, request: Option<Request>, parent: ParentResult, duration: int)
    ensures var events := RoundTrip(rt, request, parent, duration).events;
      && Count(events, InFlight) == 2 && Net(events, InFlight) == 0
      && events[0] == Event(ExtractCtx(request), InFlight, 1, RequestAttributes(rt.attributes, request))
  {
    RoundTripCounts(rt, request, parent, duration, InFlight);
  }

  /** Every call counts exactly one attempt, with the request attributes. */
  lemma AttemptCountedOnce(rt: OtelRoundTripper, request: Option<Request>, parent: ParentResult, duration: int)
    ensures var events := RoundTrip(rt, request, parent, duration).events;
      && Count(events, Attempts) == 1
      && Event(ExtractCtx(request), Attempts, 1, RequestAttributes(rt.attributes, request)) in events
  {
    RoundTripCounts(rt, request, parent, duration, Attempts);
  }

  /** The no-request counter moves exactly when the request is nil, and then
      on the background context with only the static attributes. */
  lemma NoRequestCountedIffNil(rt: OtelRoundTripper, request: Option<Request>, parent: ParentResult, duration: int)
    ensures var events := RoundTrip(rt, request, parent, duration).events;
      && Count(events, NoRequest) == (if request.None? then 1 else 0)
      && (request.None? ==> Event(Background, NoRequest, 1, rt.attributes) in events)
  {
    RoundTripCounts(rt, request, parent, duration, NoRequest);
  }

  /** On a transport error: one error count, a timeout count exactly when the
      error is a timing-out network error, a cancellation count exactly when
      its text ends with "context canceled"; and nothing after the error
      hook runs: no duration sample and no redirect, failure or success count. */
  lemma ErrorPathCounters(rt: OtelRoundTripper, request: Option<Request>, parent: ParentResult, duration: int)
    requires parent.err.Some?
    ensures var events := RoundTrip(rt, request, parent, duration).events;
      var err := parent.err.value;
      && Count(events, Errors) == 1
      && Event(ExtractCtx(request), Errors, 1, RequestAttributes(rt.attributes, request)) in events
      && Count(events, Timeouts) == (if err.netTimeout then 1 else 0)
      && Count(events, Canceled) == (if Strings.HasSuffix(err.message, CanceledMessage) then 1 else 0)
      && Count(events, TotalDuration) == 0
      && Count(events, Redirects) == 0 && Count(events, Failures) == 0 && Count(events, Successes) == 0
  {
    RoundTripCounts(rt, request, parent, duration, Errors);
    RoundTripCounts(rt, request, parent, duration, Timeouts);
    RoundTripCounts(rt, request, parent, duration, Canceled);
    RoundTripCounts(rt, request, parent, duration, TotalDuration);
    RoundTripCounts(rt, request, parent, duration, Redirects);
    RoundTripCounts(rt, request, parent, duration, Failures);
    RoundTripCounts(rt, request, parent, duration, Successes);
  }

  /** Without a transport error, exactly one duration sample is recorded; it
      carries the duration and the static, request and response attributes
      in that order. */
  lemma CompletedPathDurationSample(rt: OtelRoundTripper, request: Option<Request>, parent: ParentResult, duration: int)
    requires parent.err.None?
    ensures var events := RoundTrip(rt, request, parent, duration).events;
      && Count(events, TotalDuration) == 1
      && Event(ExtractCtx(request), TotalDuration, duration,
               rt.attributes + ExtractRequestAttributes(request) + ExtractResponseAttributes(parent.response)) in events
  {
    RoundTripCounts(rt, request, parent, duration, TotalDuration);
    var ctx := ExtractCtx(request);
    var attrs := RequestAttributes(rt.attributes, request);
    var full := ResponseAttributes(attrs, parent.response);
    var after := AfterParent(ctx, attrs, parent, duration);
    assert after[0] == Event(ctx, TotalDuration, duration, full);
    assert RoundTrip(rt, request, parent, duration).events == BeforeHook(ctx, attrs, request) + after;
  }

  /** Without a transport error, no error, timeout or cancellation is counted. */
  lemma CompletedPathHasNoErrorCounts(rt: OtelRoundTripper, request: Option<Request>, parent: ParentResult, duration: int)
    requires parent.err.None?
    ensures var events := RoundTrip(rt, request, parent, duration).events;
      Count(events, Errors) == 0 && Count(events, Timeouts) == 0 && Count(events, Canceled) == 0
  {
    RoundTripCounts(rt, request, parent, duration, Errors);
    RoundTripCounts(rt, request, parent, duration, Timeouts);
    RoundTripCounts(rt, request, parent, duration, Canceled);
  }

  /** Without a transport error, exactly one of the redirect, failure and
      success counters moves, chosen by the status alone. */
  lemma CompletedPathCounters(rt: OtelRoundTripper, request: Option<Request>, parent: ParentResult, duration: int)
    requires parent.err.None?
    ensures var events := RoundTrip(rt, request, parent, duration).events;
      var resp := parent.response;
      && Count(events, Redirects) == (if IsRedirection(resp) then 1 else 0)
      && Count(events, Failures) == (if IsFailure(resp) then 1 else 0)
      && Count(events, Successes) == (if !IsRedirection(resp) && !IsFailure(resp) then 1 else 0)
      && Count(events, Redirects) + Count(events, Failures) + Count(events, Successes) == 1
  {
    RoundTripCounts(rt, request, parent, duration, Redirects);
    RoundTripCounts(rt, request, parent, duration, Failures);
    RoundTripCounts(rt, request, parent, duration, Successes);
    ClassificationIsExclusive(parent.response);
  }

  /** The deadline-exceeded counter is bound but never incremented. */
  lemma DeadlineExceededIsDormant(rt: OtelRoundTripper, request: Option<Request>, parent: ParentResult, duration: int)
    ensures Count(RoundTrip(rt, request, parent, duration).events, DeadlineExceeded) == 0
  {
    RoundTripCounts(rt, request, parent, duration, DeadlineExceeded);
  }

  /** Every event is on context `ctx` and carries `base` as an attribute prefix. */
  predicate Tagged(events: seq<Event>, ctx: Context, base: seq<KeyValue>) {
    forall k :: 0 <= k < |events| ==> events[k].ctx == ctx && base <= events[k].attributes
  }

  /** Every counter event moves its counter up by exactly one. */
  predicate CountersStepByOne(events: seq<Event>) {
    forall k :: 0 <= k < |events| && events[k].instrument != InFlight && events[k].instrument != TotalDuration ==>
      events[k].value == 1
  }

  /** Tagging and stepping by one are kept by concatenation. */
  lemma TaggedAppend(a: seq<Event>, b: seq<Event>, ctx: Context, base: seq<KeyValue>)
    requires Tagged(a, ctx, base) && Tagged(b, ctx, base)
    requires CountersStepByOne(a) && CountersStepByOne(b)
    ensures Tagged(a + b, ctx, base) && CountersStepByOne(a + b)
  {
    forall k | 0 <= k < |a + b|
      ensures (a + b)[k] == if k < |a| then a[k] else b[k - |a|]
    {
    }
  }

  /** The events after the parent answered carry the request context and the
      static attributes, and their counters step by one. */
  lemma AfterParentTagged(ctx: Context, base: seq<KeyValue>, attrs: seq<KeyValue>, parent: ParentResult, duration: int)
    requires base <= attrs
    ensures var events := AfterParent(ctx, attrs, parent, duration);
      Tagged(events, ctx, base) && CountersStepByOne(events)
  {
    match parent.err
    case Some(err) =>
    case None =>
      var full := ResponseAttributes(attrs, parent.response);
      assert base <= full;
      var after := AfterHook(ctx, duration, full);
      var outcome := OutcomeHook(ctx, OutcomeOf(parent.response), full);
      assert Tagged(after, ctx, base) && CountersStepByOne(after);
      assert Tagged(outcome, ctx, base) && CountersStepByOne(outcome);
      TaggedAppend(after, outcome, ctx, base);
  }

  /** Every event of a round trip is emitted on the extracted context and
      carries the configured static attributes as a prefix, and every counter
      (all instruments but the gauge and the histogram) only moves up by one. */
  lemma EventsShareContextAndStaticPrefix(rt: OtelRoundTripper, request: Option<Request>, parent: ParentResult, duration: int)
    ensures var events := RoundTrip(rt, request, parent, duration).events;
      Tagged(events, ExtractCtx(request), rt.attributes) && CountersStepByOne(events)
  {
    var ctx := ExtractCtx(request);
    var attrs := RequestAttributes(rt.attributes, request);
    var before := BeforeHook(ctx, attrs, request);
    assert Tagged(before, ctx, rt.attributes) && CountersStepByOne(before);
    AfterParentTagged(ctx, rt.attributes, attrs, parent, duration);
    TaggedAppend(before, AfterParent(ctx, attrs, parent, duration), ctx, rt.attributes);
  }
}
