/** The instrumented transport (round_tripper.go). `New` binds eleven
    instruments on the configured meter; `RoundTrip` hands the request to the
    parent transport unchanged and, around that call, emits metric events.
    The parent's answer and the elapsed milliseconds are inputs, and the
    emissions are returned as an ordered list of events. */
module RoundTripper {

  import opened Wrappers
  import opened Http
  import opened Configuration
  import Options
  import Strings

  /** The eleven instruments of `otelHTTPMetrics`. */
  datatype Instrument =
    | Attempts | NoRequest | Errors | Successes | Failures | Redirects
    | Timeouts | Canceled | DeadlineExceeded | TotalDuration | InFlight

  /** The suffix appended to the configured prefix to name each instrument. */
  function Suffix(i: Instrument): string {
    match i
    case Attempts => ".attempts"
    case NoRequest => ".no_request"
    case Errors => ".errors"
    case Successes => ".success"
    case Failures => ".failures"
    case Redirects => ".redirects"
    case Timeouts => ".timeouts"
    case Canceled => ".cancelled"
    case DeadlineExceeded => ".deadline_exceeded"
    case TotalDuration => ".total_duration"
    case InFlight => ".in_flight"
  }

  /** The name `New` registers instrument `i` under: the prefix, then the suffix. */
  function InstrumentName(prefix: string, i: Instrument): (n: string)
    ensures |n| > |prefix| && n[..|prefix|] == prefix
  {
    prefix + Suffix(i)
  }

  /** Distinct instruments get distinct names, whatever the prefix, so no two
      instruments of one round tripper share a metric stream. */
  lemma InstrumentNamesDistinct(prefix: string, i: Instrument, j: Instrument)
    requires i != j
    ensures InstrumentName(prefix, i) != InstrumentName(prefix, j)
  {
  }

  /** The order in which `New` creates the instruments. */
  const CreationOrder: seq<Instrument> :=
    [NoRequest, Errors, Successes, Timeouts, Canceled, DeadlineExceeded,
     TotalDuration, InFlight, Attempts, Failures, Redirects]

  /** The names `New` registers, in creation order: eleven pairwise distinct
      names, so the round tripper feeds eleven separate metric streams. */
  function CreationNames(prefix: string): (names: seq<string>)
    ensures |names| == |CreationOrder|
    ensures forall k :: 0 <= k < |names| ==> names[k] == InstrumentName(prefix, CreationOrder[k])
    ensures forall j, k :: 0 <= j < k < |names| ==> names[j] != names[k]
  {
    CreationOrderIsComplete(Attempts);
    assert forall j, k :: 0 <= j < k < |CreationOrder| ==>
      InstrumentName(prefix, CreationOrder[j]) != InstrumentName(prefix, CreationOrder[k]) by {
      forall j, k | 0 <= j < k < |CreationOrder| {
        InstrumentNamesDistinct(prefix, CreationOrder[j], CreationOrder[k]);
      }
    }
    seq(|CreationOrder|, k requires 0 <= k < |CreationOrder| => InstrumentName(prefix, CreationOrder[k]))
  }

  /** Every instrument is created, and exactly once. */
  lemma CreationOrderIsComplete(i: Instrument)
    ensures exists k :: 0 <= k < |CreationOrder| && CreationOrder[k] == i
    ensures forall j, k :: 0 <= j < k < |CreationOrder| ==> CreationOrder[j] != CreationOrder[k]
  {
    match i
    case NoRequest => assert CreationOrder[0] == i;
    case Errors => assert CreationOrder[1] == i;
    case Successes => assert CreationOrder[2] == i;
    case Timeouts => assert CreationOrder[3] == i;
    case Canceled => assert CreationOrder[4] == i;
    case DeadlineExceeded => assert CreationOrder[5] == i;
    case TotalDuration => assert CreationOrder[6] == i;
    case InFlight => assert CreationOrder[7] == i;
    case Attempts => assert CreationOrder[8] == i;
    case Failures => assert CreationOrder[9] == i;
    case Redirects => assert CreationOrder[10] == i;
  }

  /** Index of the first name the meter refuses to create, or `|names|` when
      it accepts them all: `New` panics at the first failing creation. */
  function FirstRejected(names: seq<string>, rejects: set<string>): (k: nat)
    ensures k <= |names|
    ensures forall j :: 0 <= j < k ==> names[j] !in rejects
    ensures k < |names| ==> names[k] in rejects
  {
    if |names| == 0 then 0
    else if names[0] in rejects then 0
    else 1 + FirstRejected(names[1..], rejects)
  }

  /** Why construction aborts: a nil option (calling `apply` on it panics),
      a nil meter, or a meter call returning an error
      for the named instrument (`mustCounter` and its siblings panic). */
  datatype Panic = NilMeter | InstrumentError(name: string) | NilOption

  /** The bound instrument set: each instrument is registered on `meter`
      under `InstrumentName(prefix, i)`. */
  datatype Metrics = Metrics(meter: Meter, prefix: string)

  /** The `otelRoundTripper` struct. */
  datatype OtelRoundTripper = OtelRoundTripper(parent: Transport, attributes: seq<KeyValue>, metrics: Metrics)

  /** The construction half of `New`, from a finished configuration: it
      succeeds exactly when there is a meter and that meter accepts every
      instrument name; otherwise it reports the first refused name in
      creation order. */
  function Build(c: Config): (r: Result<OtelRoundTripper, Panic>)
    ensures r.Success? <==>
      c.meter.Some? && forall k :: 0 <= k < |CreationOrder| ==>
        InstrumentName(c.name, CreationOrder[k]) !in c.meter.value.rejects
    ensures r.Success? ==>
      r.value == OtelRoundTripper(c.parent, c.attributes, Metrics(c.meter.value, c.name))
    ensures c.meter.None? ==> r == Failure(NilMeter)
    ensures r.Failure? && c.meter.Some? ==>
      exists k :: 0 <= k < |CreationOrder| && r.error == InstrumentError(CreationNames(c.name)[k])
        && CreationNames(c.name)[k] in c.meter.value.rejects
        && forall j :: 0 <= j < k ==> CreationNames(c.name)[j] !in c.meter.value.rejects
  {
    match c.meter
    case None => Failure(NilMeter)
    case Some(m) =>
      var names := CreationNames(c.name);
      var k := FirstRejected(names, m.rejects);
      if k < |names| then Failure(InstrumentError(names[k]))
      else Success(OtelRoundTripper(c.parent, c.attributes, Metrics(m, c.name)))
  }

  /** `New(options...)`: apply the options to the default configuration, in
      order, then bind the instruments. `globalRejects` is what the global
      meter provider refuses. Whatever the options, a round tripper `New`
      returns names its instruments with a non-empty, trimmed prefix; and
      without a meter option `New` never fails for a nil meter. A nil option
      in the list aborts construction before any instrument is created. */
  function New(globalRejects: set<string>, opts: seq<Option<Options.ConfigOption>>): (r: Result<OtelRoundTripper, Panic>)
    ensures r == Failure(NilOption) <==> exists k :: 0 <= k < |opts| && opts[k].None?
    ensures r.Success? ==> r.value.metrics.prefix != [] && Strings.Trimmed(r.value.metrics.prefix)
    ensures (forall k :: 0 <= k < |opts| ==> opts[k].Some? && !opts[k].value.WithMeter?) ==> r != Failure(NilMeter)
  {
    if exists k :: 0 <= k < |opts| && opts[k].None? then Failure(NilOption)
    else Build(Options.ApplyAll(DefaultConfig(globalRejects), seq(|opts|, k requires 0 <= k < |opts| => opts[k].value)))
  }

  /** With no options, `New` succeeds exactly when the global meter accepts
      every "http.client" instrument name, and then yields the default
      transport, no static attributes, the global meter and the "http.client"
      prefix. Without an SDK installed, it always succeeds. */
  lemma NewWithoutOptions(globalRejects: set<string>)
    ensures New(globalRejects, []).Success? <==>
      forall k :: 0 <= k < |CreationOrder| ==> InstrumentName(DefaultName, CreationOrder[k]) !in globalRejects
    ensures New(globalRejects, []).Success? ==>
      New(globalRejects, []).value == OtelRoundTripper(DefaultTransport, [], Metrics(GlobalMeter(globalRejects), "http.client"))
    ensures New({}, []).Success?
  {
  }

  // ---------------------------------------------------------------------
  // Attributes

  /** The value an attribute set built from `attrs` holds for `key`: when a
      key repeats, the last occurrence wins, as in `attribute.NewSet`. */
  function LastValue(attrs: seq<KeyValue>, key: string): (v: Option<Value>)
    ensures v.None? <==> forall k :: 0 <= k < |attrs| ==> attrs[k].key != key
  {
    if |attrs| == 0 then None
    else if attrs[|attrs| - 1].key == key then Some(attrs[|attrs| - 1].value)
    else LastValue(attrs[..|attrs| - 1], key)
  }

  /** The value found is that of the key's last occurrence. */
  lemma {:induction false} LastValueIsLastOccurrence(attrs: seq<KeyValue>, key: string)
    requires LastValue(attrs, key).Some?
    ensures exists k ::
      && 0 <= k < |attrs| && attrs[k] == KeyValue(key, LastValue(attrs, key).value)
      && forall j :: k < j < |attrs| ==> attrs[j].key != key
    decreases |attrs|
  {
    var n := |attrs| - 1;
    if attrs[n].key == key {
      assert attrs[n] == KeyValue(key, LastValue(attrs, key).value);
    } else {
      var front := attrs[..n];
      LastValueIsLastOccurrence(front, key);
      var k :|
        && 0 <= k < |front| && front[k] == KeyValue(key, LastValue(front, key).value)
        && forall j :: k < j < |front| ==> front[j].key != key;
      assert attrs[k] == front[k];
      assert forall j :: k < j < |attrs| ==> attrs[j].key != key by {
        forall j | k < j < |attrs| ensures attrs[j].key != key {
          if j < n { assert attrs[j] == front[j]; }
        }
      }
    }
  }

  /** The last occurrence of a key is the value found. */
  lemma {:induction false} LastOccurrenceIsFound(attrs: seq<KeyValue>, key: string, k: nat)
    requires k < |attrs| && attrs[k].key == key
    requires forall j :: k < j < |attrs| ==> attrs[j].key != key
    ensures LastValue(attrs, key) == Some(attrs[k].value)
    decreases |attrs|
  {
    var n := |attrs| - 1;
    if k < n {
      assert attrs[n].key != key;
      var front := attrs[..n];
      assert front[k] == attrs[k];
      assert forall j :: k < j < |front| ==> front[j] == attrs[j];
      LastOccurrenceIsFound(front, key, k);
    }
  }

  /** Appending attributes overrides exactly the keys the appended part holds. */
  lemma {:induction false} LastValueAppend(a: seq<KeyValue>, b: seq<KeyValue>, key: string)
    ensures LastValue(a + b, key) == if LastValue(b, key).Some? then LastValue(b, key) else LastValue(a, key)
    decreases |b|
  {
    if |b| == 0 {
      assert a + b == a;
    } else {
      assert (a + b)[..|a + b| - 1] == a + b[..|b| - 1];
      LastValueAppend(a, b[..|b| - 1], key);
    }
  }

  /** `extractRequestAttributes`: the URL and method of a request, nothing for nil. */
  function ExtractRequestAttributes(request: Option<Request>): (r: seq<KeyValue>)
    ensures r == [] <==> request.None?
    ensures request.Some? ==>
      && LastValue(r, HttpUrlKey) == Some(StringValue(request.value.url))
      && LastValue(r, HttpMethodKey) == Some(StringValue(request.value.httpMethod))
    ensures forall key :: key != HttpUrlKey && key != HttpMethodKey ==> LastValue(r, key) == None
  {
    match request
    case None => []
    case Some(req) => [KeyValue(HttpUrlKey, StringValue(req.url)), KeyValue(HttpMethodKey, StringValue(req.httpMethod))]
  }

  /** `extractResponseAttributes`: the status code and protocol of a response, nothing for nil. */
  function ExtractResponseAttributes(response: Option<Response>): (r: seq<KeyValue>)
    ensures r == [] <==> response.None?
    ensures response.Some? ==>
      && LastValue(r, HttpStatusCodeKey) == Some(IntValue(response.value.statusCode))
      && LastValue(r, HttpFlavorKey) == Some(StringValue(response.value.proto))
    ensures forall key :: key != HttpStatusCodeKey && key != HttpFlavorKey ==> LastValue(r, key) == None
  {
    match response
    case None => []
    case Some(resp) => [KeyValue(HttpStatusCodeKey, IntValue(resp.statusCode)), KeyValue(HttpFlavorKey, StringValue(resp.proto))]
  }

  /** `requestAttributes`: a fresh copy of the static attributes extended
      with the request's. The static attributes stay a prefix; a request sets
      "http.url" and "http.method" over any static value; every other key
      keeps its static value, and a nil request adds nothing. */
  function RequestAttributes(staticAttrs: seq<KeyValue>, request: Option<Request>): (r: seq<KeyValue>)
    ensures staticAttrs <= r
    ensures request.None? ==> r == staticAttrs
    ensures request.Some? ==>
      && LastValue(r, HttpUrlKey) == Some(StringValue(request.value.url))
      && LastValue(r, HttpMethodKey) == Some(StringValue(request.value.httpMethod))
    ensures forall key :: key != HttpUrlKey && key != HttpMethodKey ==> LastValue(r, key) == LastValue(staticAttrs, key)
  {
    var r := staticAttrs + ExtractRequestAttributes(request);
    assert forall key :: LastValue(r, key) == if LastValue(ExtractRequestAttributes(request), key).Some? then LastValue(ExtractRequestAttributes(request), key) else LastValue(staticAttrs, key) by {
      forall key { LastValueAppend(staticAttrs, ExtractRequestAttributes(request), key); }
    }
    r
  }

  /** `responseAttributes`: a fresh copy of `attrs` extended with the
      response's. `attrs` stays a prefix; a response sets "http.status_code"
      and "http.flavor"; every other key keeps its value, and a nil response
      adds nothing. */
  function ResponseAttributes(attrs: seq<KeyValue>, response: Option<Response>): (r: seq<KeyValue>)
    ensures attrs <= r
    ensures response.None? ==> r == attrs
    ensures response.Some? ==>
      && LastValue(r, HttpStatusCodeKey) == Some(IntValue(response.value.statusCode))
      && LastValue(r, HttpFlavorKey) == Some(StringValue(response.value.proto))
    ensures forall key :: key != HttpStatusCodeKey && key != HttpFlavorKey ==> LastValue(r, key) == LastValue(attrs, key)
  {
    var r := attrs + ExtractResponseAttributes(response);
    assert forall key :: LastValue(r, key) == if LastValue(ExtractResponseAttributes(response), key).Some? then LastValue(ExtractResponseAttributes(response), key) else LastValue(attrs, key) by {
      forall key { LastValueAppend(attrs, ExtractResponseAttributes(response), key); }
    }
    r
  }

  /** `extractCtx`: the request's own context when there is a request that
      carries one, the background context otherwise. */
  function ExtractCtx(request: Option<Request>): (ctx: Context)
    ensures ctx != Background ==> request.Some? && request.value.ctx == Some(ctx)
    ensures request.Some? && request.value.ctx.Some? ==> ctx == request.value.ctx.value
  {
    if request.Some? && request.value.ctx.Some? then request.value.ctx.value else Background
  }

  // ---------------------------------------------------------------------
  // Classification

  /** `isRedirection`: false for nil; otherwise the status lies in the
      redirection class 3xx of section 15.4 of RFC 9110. */
  function IsRedirection(response: Option<Response>): (b: bool)
    ensures response.None? ==> !b
    ensures response.Some? && ClassOf(response.value.statusCode).Some? ==>
      (b <==> ClassOf(response.value.statusCode) == Some(Redirection))
    ensures response.Some? && ClassOf(response.value.statusCode).None? ==> !b
  {
    match response
    case None => false
    case Some(resp) => resp.statusCode >= StatusMultipleChoices && resp.statusCode < StatusBadRequest
  }

  /** `isFailure`: false for nil; otherwise the status lies in the client-error
      or server-error classes of sections 15.5 and 15.6 of RFC 9110, or
      above 599. */
  function IsFailure(response: Option<Response>): (b: bool)
    ensures response.None? ==> !b
    ensures response.Some? && ClassOf(response.value.statusCode).Some? ==>
      (b <==> ClassOf(response.value.statusCode) in {Some(ClientError), Some(ServerError)})
    ensures response.Some? && ClassOf(response.value.statusCode).None? ==>
      (b <==> response.value.statusCode > 599)
  {
    match response
    case None => false
    case Some(resp) => resp.statusCode >= StatusBadRequest
  }

  /** The two predicates never both hold, so a non-error round trip is
      classified once: redirect, failure, or (everything else, nil and 1xx
      included) success. */
  lemma ClassificationIsExclusive(response: Option<Response>)
    ensures !(IsRedirection(response) && IsFailure(response))
    ensures !IsRedirection(response) && !IsFailure(response) <==>
      response.None? || response.value.statusCode < StatusMultipleChoices
  {
  }

  // ---------------------------------------------------------------------
  // The round trip

  /** One `Add` (counters, the in-flight gauge) or `Record` (the duration
      histogram) call: the context, the instrument, the delta or recorded
      value, and the attributes passed with it. */
  datatype Event = Event(ctx: Context, instrument: Instrument, value: int, attributes: seq<KeyValue>)

  /** What the parent transport's `RoundTrip` returned. */
  datatype ParentResult = ParentResult(response: Option<Response>, err: Option<Error>)

  /** What the decorator's `RoundTrip` returns, and the events it emitted in order. */
  datatype Trip = Trip(response: Option<Response>, err: Option<Error>, events: seq<Event>)

  /** `beforeHook`: the in-flight gauge goes up first, then one attempt is
      counted, and only after both, for a nil request, one no-request count. */
  function BeforeHook(ctx: Context, attrs: seq<KeyValue>, request: Option<Request>): seq<Event> {
    [Event(ctx, InFlight, 1, attrs), Event(ctx, Attempts, 1, attrs)]
    + (if request.None? then [Event(ctx, NoRequest, 1, attrs)] else [])
  }

  /** `errorHook`: in-flight down, one error, plus a timeout when the error is
      a timing-out `net.Error` and a cancellation when its text ends with
      "context canceled"; the two are independent. */
  function ErrorHook(ctx: Context, err: Error, attrs: seq<KeyValue>): seq<Event> {
    [Event(ctx, InFlight, -1, attrs), Event(ctx, Errors, 1, attrs)]
    + (if err.netTimeout then [Event(ctx, Timeouts, 1, attrs)] else [])
    + (if Strings.HasSuffix(err.message, CanceledMessage) then [Event(ctx, Canceled, 1, attrs)] else [])
  }

  /** `afterHook`: one duration sample. */
  function AfterHook(ctx: Context, duration: int, attrs: seq<KeyValue>): seq<Event> {
    [Event(ctx, TotalDuration, duration, attrs)]
  }

  /** `redirectHook`, `failureHook` and `successHook`: in-flight down and one
      count on the outcome's counter. */
  function OutcomeHook(ctx: Context, outcome: Instrument, attrs: seq<KeyValue>): seq<Event> {
    [Event(ctx, InFlight, -1, attrs), Event(ctx, outcome, 1, attrs)]
  }

  /** The counter a round trip without transport error increments: the
      redirect check runs first, then the failure check, and success is the
      fallback. */
  function OutcomeOf(response: Option<Response>): (i: Instrument)
    ensures i in {Redirects, Failures, Successes}
    ensures i == Redirects <==> IsRedirection(response)
    ensures i == Failures <==> IsFailure(response)
    ensures i == Successes <==> response.None? || response.value.statusCode < StatusMultipleChoices
  {
    ClassificationIsExclusive(response);
    if IsRedirection(response) then Redirects
    else if IsFailure(response) then Failures
    else Successes
  }

  /** `RoundTrip`: the parent's answer is returned exactly as it came. */
  function RoundTrip(rt: OtelRoundTripper, request: Option<Request>, parent: ParentResult, duration: int): (t: Trip)
    ensures t.response == parent.response && t.err == parent.err
  {
    var ctx := ExtractCtx(request);
    var attrs := RequestAttributes(rt.attributes, request);
    Trip(parent.response, parent.err, BeforeHook(ctx, attrs, request) + AfterParent(ctx, attrs, parent, duration))
  }

  /** The events emitted once the parent has answered: the error hook on a
      transport error; otherwise the duration sample and the outcome hook,
      both tagged with the response attributes as well. */
  function AfterParent(ctx: Context, attrs: seq<KeyValue>, parent: ParentResult, duration: int): seq<Event> {
    match parent.err
    case Some(err) => ErrorHook(ctx, err, attrs)
    case None =>
      var full := ResponseAttributes(attrs, parent.response);
      AfterHook(ctx, duration, full) + OutcomeHook(ctx, OutcomeOf(parent.response), full)
  }
}
