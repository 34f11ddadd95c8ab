/** The in-flight gauge as its exporter sees it. An up/down counter keeps one
    series per attribute set, so a call only leaves the gauge where it found
    it when its +1 and its -1 are passed the same attributes. `beforeHook`
    raises the gauge with the request attributes; the outcome hooks lower it
    with the request and response attributes. This module measures the gauge
    per attribute list for the code as written, and defines the evidently
    intended variant, whose -1 reuses the request attributes. */
module InFlightSeries {

  import opened Wrappers
  import opened Http
  import opened Configuration
  import opened RoundTripper
  import opened RoundTripLemmas

  /** The net of the deltas addressed to instrument `i` with exactly the
      attribute list `attrs`: what one exported series of `i` adds up to.
      (Two equal lists always build the same attribute set.) */
  function NetOn(events: seq<Event>, i: Instrument, attrs: seq<KeyValue>): int {
    if |events| == 0 then 0
    else
      var here := if events[0].instrument == i && events[0].attributes == attrs then events[0].value else 0;
      here + NetOn(events[1..], i, attrs)
  }

  /** Per-series netting distributes over concatenation. */
  lemma {:induction false} NetOnAppend(a: seq<Event>, b: seq<Event>, i: Instrument, attrs: seq<KeyValue>)
    ensures NetOn(a + b, i, attrs) == NetOn(a, i, attrs) + NetOn(b, i, attrs)
    decreases |a|
  {
    if |a| == 0 {
      assert a + b == b;
    } else {
      assert (a + b)[0] == a[0];
      assert (a + b)[1..] == a[1..] + b;
      NetOnAppend(a[1..], b, i, attrs);
    }
  }

  /** When every event of `i` in a list carries the attributes `x`, the series
      `x` holds the whole net of `i` and every other series holds nothing. */
  lemma {:induction false} NetOnUniform(events: seq<Event>, i: Instrument, x: seq<KeyValue>, attrs: seq<KeyValue>)
    requires forall k :: 0 <= k < |events| && events[k].instrument == i ==> events[k].attributes == x
    ensures NetOn(events, i, attrs) == if attrs == x then Net(events, i) else 0
    decreases |events|
  {
    if |events| > 0 {
      assert forall k :: 0 <= k < |events[1..]| ==> events[1..][k] == events[k + 1];
      NetOnUniform(events[1..], i, x, attrs);
    }
  }

  // ---------------------------------------------------------------------
  // The code as written

  /** The attributes `RoundTrip` passes with the gauge's -1: the request
      attributes on a transport error, the request and response attributes
      otherwise. */
  function GaugeDownAttributes(attrs: seq<KeyValue>, parent: ParentResult): seq<KeyValue> {
    if parent.err.Some? then attrs else ResponseAttributes(attrs, parent.response)
  }

  /** After the parent answers, the gauge's -1 lands on the series
      `GaugeDownAttributes` names, and on no other. */
  lemma AfterParentSeries(ctx: Context, attrs: seq<KeyValue>, parent: ParentResult, duration: int, a: seq<KeyValue>)
    ensures NetOn(AfterParent(ctx, attrs, parent, duration), InFlight, a) ==
      if a == GaugeDownAttributes(attrs, parent) then -1 else 0
  {
    var events := AfterParent(ctx, attrs, parent, duration);
    AfterParentCount(ctx, attrs, parent, duration, InFlight);
    match parent.err
    case Some(err) =>
      assert forall k :: 0 <= k < |events| ==> events[k].attributes == attrs;
      NetOnUniform(events, InFlight, attrs, a);
    case None =>
      var full := ResponseAttributes(attrs, parent.response);
      assert forall k :: 0 <= k < |events| ==> events[k].attributes == full;
      NetOnUniform(events, InFlight, full, a);
  }

  /** `beforeHook`'s +1 lands on the series of the request attributes. */
  lemma BeforeHookSeries(ctx: Context, attrs: seq<KeyValue>, request: Option<Request>, a: seq<KeyValue>)
    ensures NetOn(BeforeHook(ctx, attrs, request), InFlight, a) == if a == attrs then 1 else 0
  {
    var events := BeforeHook(ctx, attrs, request);
    BeforeHookCount(ctx, attrs, request, InFlight);
    assert forall k :: 0 <= k < |events| ==> events[k].attributes == attrs;
    NetOnUniform(events, InFlight, attrs, a);
  }

  /** As written, a call that ends in a transport error or a nil response
      raises and lowers one and the same series. A call that gets a response
      raises the series of the request attributes and lowers another one,
      which carries the status code. So each of those series moves by one and
      never comes back; when the static attributes hold no status code, the
      two lists also build two different attribute sets. */
  lemma AsWrittenSeriesSplit(rt: OtelRoundTripper, request: Option<Request>, parent: ParentResult, duration: int)
    ensures var events := RoundTrip(rt, request, parent, duration).events;
      var up := RequestAttributes(rt.attributes, request);
      var down := GaugeDownAttributes(up, parent);
      var split := parent.err.None? && parent.response.Some?;
      && (split <==> up != down)
      && NetOn(events, InFlight, up) == (if split then 1 else 0)
      && NetOn(events, InFlight, down) == (if split then -1 else 0)
      && (split ==> LastValue(down, HttpStatusCodeKey) == Some(IntValue(parent.response.value.statusCode)))
      && (LastValue(rt.attributes, HttpStatusCodeKey).None? ==> LastValue(up, HttpStatusCodeKey).None?)
  {
    var ctx := ExtractCtx(request);
    var up := RequestAttributes(rt.attributes, request);
    var down := GaugeDownAttributes(up, parent);
    var before := BeforeHook(ctx, up, request);
    var after := AfterParent(ctx, up, parent, duration);
    if parent.err.None? && parent.response.Some? {
      assert |down| == |up| + 2;
    }
    NetOnAppend(before, after, InFlight, up);
    NetOnAppend(before, after, InFlight, down);
    BeforeHookSeries(ctx, up, request, up);
    BeforeHookSeries(ctx, up, request, down);
    AfterParentSeries(ctx, up, parent, duration, up);
    AfterParentSeries(ctx, up, parent, duration, down);
  }

  /** A GET with no static attributes that the parent answers with 200: the
      series of the request attributes ends the call at +1, not 0. */
  lemma SplitSeriesExample()
    ensures var request := Some(Request("https://httpstat.us/200", "GET", None));
      var rt := OtelRoundTripper(DefaultTransport, [], Metrics(GlobalMeter({}), DefaultName));
      var parent := ParentResult(Some(Response(200, "HTTP/1.1")), None);
      NetOn(RoundTrip(rt, request, parent, 0).events, InFlight, RequestAttributes([], request)) == 1
  {
    var request := Some(Request("https://httpstat.us/200", "GET", None));
    var rt := OtelRoundTripper(DefaultTransport, [], Metrics(GlobalMeter({}), DefaultName));
    AsWrittenSeriesSplit(rt, request, ParentResult(Some(Response(200, "HTTP/1.1")), None), 0);
  }

  // ---------------------------------------------------------------------
  // The evidently intended variant

  /** An outcome hook whose -1 is passed `gaugeAttrs`, the attributes the
      matching +1 was passed, while the outcome count keeps `attrs`. */
  function IntendedOutcomeHook(ctx: Context, outcome: Instrument, gaugeAttrs: seq<KeyValue>, attrs: seq<KeyValue>): seq<Event> {
    [Event(ctx, InFlight, -1, gaugeAttrs), Event(ctx, outcome, 1, attrs)]
  }

  /** `AfterParent` with the gauge lowered on the request attributes. */
  function IntendedAfterParent(ctx: Context, attrs: seq<KeyValue>, parent: ParentResult, duration: int): seq<Event> {
    match parent.err
    case Some(err) => ErrorHook(ctx, err, attrs)
    case None =>
      var full := ResponseAttributes(attrs, parent.response);
      AfterHook(ctx, duration, full) + IntendedOutcomeHook(ctx, OutcomeOf(parent.response), attrs, full)
  }

  /** `RoundTrip` with the gauge lowered on the request attributes; the
      parent's answer is still returned exactly as it came. */
  function IntendedRoundTrip(rt: OtelRoundTripper, request: Option<Request>, parent: ParentResult, duration: int): (t: Trip)
    ensures t.response == parent.response && t.err == parent.err
  {
    var ctx := ExtractCtx(request);
    var attrs := RequestAttributes(rt.attributes, request);
    Trip(parent.response, parent.err, BeforeHook(ctx, attrs, request) + IntendedAfterParent(ctx, attrs, parent, duration))
  }

  /** The duration sample and the intended outcome hook count as the written
      ones do. */
  lemma IntendedCompletionCount(ctx: Context, duration: int, outcome: Instrument, attrs: seq<KeyValue>, full: seq<KeyValue>, i: Instrument)
    ensures Count(AfterHook(ctx, duration, full) + IntendedOutcomeHook(ctx, outcome, attrs, full), i) ==
      Indicator(i == TotalDuration) + Indicator(i == InFlight) + Indicator(i == outcome)
  {
    var d := Event(ctx, TotalDuration, duration, full);
    var x, y := Event(ctx, InFlight, -1, attrs), Event(ctx, outcome, 1, full);
    CountAppend([d], [x, y], i);
    CountSingle(d, i);
    CountPair(x, y, i);
  }

  /** The duration sample and the intended outcome hook lower the gauge by
      one, on the request attributes' series only. */
  lemma IntendedCompletionSeries(ctx: Context, duration: int, outcome: Instrument, attrs: seq<KeyValue>, full: seq<KeyValue>, a: seq<KeyValue>)
    requires outcome != InFlight
    ensures NetOn(AfterHook(ctx, duration, full) + IntendedOutcomeHook(ctx, outcome, attrs, full), InFlight, a) ==
      if a == attrs then -1 else 0
  {
    var d := Event(ctx, TotalDuration, duration, full);
    var x, y := Event(ctx, InFlight, -1, attrs), Event(ctx, outcome, 1, full);
    var events := [d] + [x, y];
    CountAppend([d], [x, y], InFlight);
    CountSingle(d, InFlight);
    CountPair(x, y, InFlight);
    assert forall k :: 0 <= k < |events| && events[k].instrument == InFlight ==> events[k].attributes == attrs;
    NetOnUniform(events, InFlight, attrs, a);
  }

  /** The intended hooks after the parent answers move every instrument as
      often as the written ones do, and lower the gauge by one on the
      request attributes' series. */
  lemma IntendedAfterParentCount(ctx: Context, attrs: seq<KeyValue>, parent: ParentResult, duration: int, i: Instrument, a: seq<KeyValue>)
    ensures Count(IntendedAfterParent(ctx, attrs, parent, duration), i) == AfterShare(parent, i)
    ensures NetOn(IntendedAfterParent(ctx, attrs, parent, duration), InFlight, a) == if a == attrs then -1 else 0
  {
    match parent.err
    case Some(err) =>
      AfterParentCount(ctx, attrs, parent, duration, i);
      AfterParentSeries(ctx, attrs, parent, duration, a);
    case None =>
      var full := ResponseAttributes(attrs, parent.response);
      IntendedCompletionCount(ctx, duration, OutcomeOf(parent.response), attrs, full, i);
      IntendedCompletionSeries(ctx, duration, OutcomeOf(parent.response), attrs, full, a);
  }

  /** The intended call moves every instrument exactly as often as the
      independent table says, so every count the written call promises
      carries over. */
  lemma IntendedRoundTripCounts(rt: OtelRoundTripper, request: Option<Request>, parent: ParentResult, duration: int, i: Instrument)
    ensures Count(IntendedRoundTrip(rt, request, parent, duration).events, i) == ExpectedCount(request, parent, i)
  {
    var ctx := ExtractCtx(request);
    var attrs := RequestAttributes(rt.attributes, request);
    var before := BeforeHook(ctx, attrs, request);
    var after := IntendedAfterParent(ctx, attrs, parent, duration);
    BeforeHookCount(ctx, attrs, request, i);
    IntendedAfterParentCount(ctx, attrs, parent, duration, i, attrs);
    CountAppend(before, after, i);
    ExpectedCountSplits(request, parent, i);
  }

  /** In the intended call every series of the in-flight gauge, whatever
      its attributes, ends where it started. */
  lemma IntendedSeriesNetToZero(rt: OtelRoundTripper, request: Option<Request>, parent: ParentResult, duration: int, a: seq<KeyValue>)
    ensures NetOn(IntendedRoundTrip(rt, request, parent, duration).events, InFlight, a) == 0
  {
    var ctx := ExtractCtx(request);
    var attrs := RequestAttributes(rt.attributes, request);
    var before := BeforeHook(ctx, attrs, request);
    var after := IntendedAfterParent(ctx, attrs, parent, duration);
    NetOnAppend(before, after, InFlight, a);
    BeforeHookSeries(ctx, attrs, request, a);
    IntendedAfterParentCount(ctx, attrs, parent, duration, Attempts, a);
  }
}
