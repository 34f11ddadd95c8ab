# go-otelroundtripper in Dafny

A functional model of `otelroundtripper`, a Go `http.RoundTripper` decorator
that wraps a parent transport and, around each request, emits OpenTelemetry
metrics: an attempts counter, a no-request counter, error, timeout and
cancellation counters, redirect/failure/success counters, a duration
histogram and an in-flight up/down counter. The model also covers the
functional options that configure the decorator and the options of the small
sample API client in the same repository.

The model is pure. The decorator's configuration and the client's
configuration are immutable records, and every option is a total
`Config -> Config` update. `RoundTrip` is a total function. It takes the
round tripper, the optional request, what the parent transport returned,
and the elapsed milliseconds. It returns the (response, error) pair and the
ordered list of metric events the call emitted. An event records the context,
the instrument, the delta or recorded value, and the attribute list passed
with it.

Files and modules:

- `wrappers.dfy` (`Wrappers`): `Option` for Go nil references and `Result` for construction that may abort.
- `strings.dfy` (`Strings`): `strings.TrimSpace` with Go's Unicode white-space set, `strings.TrimRight` with a one-character cut set, and `strings.HasSuffix`.
- `http.dfy` (`Http`): request, response, error, context and transport shapes. Also the status classes of section 15 of RFC 9110 and the semantic-convention v1.18.0 keys `http.url`, `http.method`, `http.status_code` and `http.flavor`.
- `config.dfy` (`Configuration`): the `config` record, its validity invariant and `defaultConfig`.
- `options.dfy` (`Options`): `WithParent`, `WithName`, `WithMeter`, `WithAttributes` and their left-to-right application.
- `round_tripper.dfy` (`RoundTripper`): instrument naming and `New`, attribute extraction, classification, the hooks and `RoundTrip`.
- `round_trip_lemmas.dfy` (`RoundTripLemmas`): what one round trip emits, instrument by instrument.
- `in_flight_series.dfy` (`InFlightSeries`): the in-flight gauge per attribute set, as written and as evidently intended (see Findings).
- `client_config.dfy` (`ClientConfiguration`) and `client_options.dfy` (`ClientOptions`): the sample client's record, its defaults and its three options.

Where the source's doc comments and its code differ, the model follows the code:

- The doc comment of `WithParent` (option.go:23) says a nil parent means `http.DefaultTransport`. The code keeps whatever parent was set before.
- The doc comment of `WithMeter` (option.go:43) says the no-op meter is used by default. `defaultConfig` actually takes `otel.GetMeterProvider().Meter("http.client")`, the global provider's meter. That meter forwards to whatever SDK the process installed. The model therefore takes the set of instrument names the global meter refuses as a parameter of `DefaultConfig` and `New`. Without an SDK that set is empty.

A nil `Option` passed to `New` panics when its `apply` is called; the model returns `Failure(NilOption)`. `WithMeter` has no nil guard, so a nil meter can reach `New`, where calling it panics. The model returns `Failure(NilMeter)` for this case. A meter call that returns an error makes `must*` panic; the model returns `Failure(InstrumentError(name))` for the first such name in creation order.

## Model

| member | source | states |
|---|---|---|
| Strings.TrimSpace | option.go:36-37 | The trimmed name neither starts nor ends with white space. It is a slice of the input with only white space cut away around it. It is empty exactly when the input is blank. |
| Strings.TrimSpaceOfPadded | option.go:36-37 | A non-blank trimmed name with white space on both sides trims back to exactly that name. |
| Strings.TrimSpaceIdempotent | option.go:36-37 | Trimming a trimmed name changes nothing. |
| Strings.TrimRight | client_option.go:33 | The result is a prefix of the input. Everything cut away is `/`. The result does not end in `/`. |
| Strings.TrimRightIdempotent | client_option.go:33 | Trimming `/` twice gives the same result as trimming it once. |
| Configuration.DefaultConfig | config.go:18-23 | The default configuration is valid. Its name is "http.client". It uses `http.DefaultTransport`, the global provider's meter with scope "http.client" (refusing exactly what the installed SDK refuses) and no static attributes. |
| Options.ApplyParent | option.go:24-30 | A nil parent leaves the configuration unchanged. A non-nil parent is stored. No other field changes. |
| Options.ApplyName | option.go:34-40 | A blank or whitespace-only name leaves the configuration unchanged. Any other name is stored trimmed, and the result is valid. Validity is preserved. Only the name changes. |
| Options.ApplyMeter | option.go:44-48 | The meter is stored unconditionally, nil included. Only the meter changes. |
| Options.ApplyAttributes | option.go:51-55 | The attribute list is replaced, not appended to. Only the attributes change. |
| Options.Apply | option.go:18-20 | Applying any option keeps a configuration valid and changes only the field that option targets. |
| Options.ApplyAllAppend | round_tripper.go:38-42 | Options are applied left to right. Applying `a + b` is the same as applying `a` and then `b`. |
| Options.ApplyAll | round_tripper.go:38-42 | No sequence of options can make a valid configuration invalid. Without a meter option, the meter stays as it was. |
| Options.LaterOptionWins | option.go:24-55 | When two options target the same field and the later one passes its guard, the later one overrides the earlier. |
| Options.IneffectiveOptionIsNoOp | option.go:24-40 | A nil parent or a blank name is a no-op. |
| Options.DistinctFieldsCommute | option.go:24-55 | Options that target different fields commute. |
| Options.StoredNameIsFixedPoint | option.go:36-37 | Feeding the stored name back into `WithName` changes nothing. |
| Options.BlankNameExample | option_test.go:47-59 | `WithName("   ")` keeps the name "http.client". |
| Options.PaddedNameExample | option_test.go:61-74 | `WithName(" name ")` stores "name". |
| RoundTripper.InstrumentName | round_tripper.go:48-58 | Every instrument name starts with the configured prefix and is longer than it. |
| RoundTripper.InstrumentNamesDistinct | round_tripper.go:48-58 | For any prefix, two different instruments get two different names. |
| RoundTripper.CreationNames | round_tripper.go:48-58 | `New` registers eleven pairwise distinct names, one per instrument in creation order, each the prefix followed by that instrument's suffix. So the round tripper feeds eleven separate metric streams. |
| RoundTripper.CreationOrderIsComplete | round_tripper.go:47-59 | `New` creates each of the eleven instruments exactly once. |
| RoundTripper.FirstRejected | round_tripper.go:63-82 | The result is the index of the first name the meter refuses to create, or the number of names when it accepts all of them. |
| RoundTripper.Build | round_tripper.go:44-82 | Construction succeeds exactly when the meter is non-nil and accepts every instrument name. On success the result holds the configured parent, attributes and meter. Otherwise the result names the first instrument in creation order whose creation failed, or reports the nil meter. |
| RoundTripper.New | round_tripper.go:37-61 | `New` aborts with a nil-option panic exactly when some option passed to it is nil. Whatever options are given, a round tripper `New` returns uses a non-empty, trimmed prefix. Without a meter option, `New` never fails for a nil meter. |
| RoundTripper.NewWithoutOptions | round_tripper.go:37-61 | With no options, `New` succeeds exactly when the global meter accepts every "http.client" name. It then uses `http.DefaultTransport`, no static attributes, the global meter and the "http.client" prefix. Without an SDK installed, it always succeeds. |
| RoundTripper.LastValue | round_tripper.go:135-205 | The attribute set that `api.WithAttributes` builds from a list (through `attribute.NewSet`): a key has no value exactly when no attribute in the list has it. |
| RoundTripper.LastValueIsLastOccurrence | round_tripper.go:135-205 | When the set holds a value for a key, the list has an attribute with that key and value, and no later attribute has that key. |
| RoundTripper.LastOccurrenceIsFound | round_tripper.go:135-205 | The value of a key's last occurrence in the list is the value the set holds for that key. |
| RoundTripper.LastValueAppend | round_tripper.go:179-192 | In an appended attribute list, a key set in the appended part takes that part's value. Otherwise it keeps the first part's value. |
| RoundTripper.ExtractRequestAttributes | round_tripper.go:219-227 | Empty exactly for a nil request. For a request, the set maps `http.url` and `http.method` to its URL and method and holds no other key. |
| RoundTripper.ExtractResponseAttributes | round_tripper.go:209-217 | Empty exactly for a nil response. For a response, the set maps `http.status_code` and `http.flavor` to its status and protocol and holds no other key. |
| RoundTripper.RequestAttributes | round_tripper.go:185-193 | The static attributes stay a prefix of the result. A request sets `http.url` and `http.method`, overriding any static value for those keys. Every other key keeps its static value. A nil request adds nothing. |
| RoundTripper.ResponseAttributes | round_tripper.go:175-183 | The input attributes stay a prefix of the result. A response sets `http.status_code` and `http.flavor`. Every other key keeps its value. A nil response adds nothing. |
| RoundTripper.ExtractCtx | round_tripper.go:229-234 | The result is the request's own context when there is a request with a context. Otherwise it is the background context. |
| RoundTripper.IsRedirection | round_tripper.go:124-129 | False for a nil response. Within 100..599, true exactly for the 3xx class of RFC 9110. Outside that range, always false. |
| RoundTripper.IsFailure | round_tripper.go:117-122 | False for a nil response. Within 100..599, true exactly for the 4xx and 5xx classes. Outside that range, true exactly above 599. |
| RoundTripper.ClassificationIsExclusive | round_tripper.go:103-129 | Redirect and failure never both hold. Success (neither holds) happens exactly for a nil response or a status below 300. |
| RoundTripper.OutcomeOf | round_tripper.go:103-113 | Exactly one of redirect, failure and success is picked. Redirect exactly when `isRedirection`, failure exactly when `isFailure`, and success exactly for a nil response or a status below 300. |
| RoundTripper.RoundTrip | round_tripper.go:85-115 | The returned response and error are exactly what the parent returned. |
| RoundTripLemmas.BeforeHookCount | round_tripper.go:155-165 | `BeforeHook`: `beforeHook` raises the in-flight gauge by one and counts one attempt. It counts a missing request exactly when the request is nil. It moves nothing else. |
| RoundTripLemmas.AfterHookCount | round_tripper.go:167-173 | `AfterHook`: `afterHook` records one duration sample whose value is the elapsed time, and moves nothing else. |
| RoundTripLemmas.ErrorHookCount | round_tripper.go:195-207 | `ErrorHook`: `errorHook` moves the in-flight gauge and the error counter once each. It moves the timeout counter exactly for a timing-out network error, and the cancellation counter exactly when the error text ends with "context canceled". It moves nothing else. |
| RoundTripLemmas.ErrorHookNet | round_tripper.go:195-207 | `errorHook` lowers the in-flight gauge by exactly one. |
| RoundTripLemmas.CompletionCount | round_tripper.go:131-153 | `OutcomeHook`: each of `redirectHook`, `failureHook` and `successHook` moves the in-flight gauge and its own outcome counter once, and nothing else. |
| RoundTripLemmas.CompletionNet | round_tripper.go:131-153 | Each outcome hook lowers the in-flight gauge by exactly one. |
| RoundTripLemmas.AfterParentCount | round_tripper.go:95-115 | `AfterParent`: after the parent answers, an error runs only the error hook. A response runs the duration hook and exactly one outcome hook, chosen by the status. Either way the gauge goes down by one. |
| RoundTripLemmas.ExpectedCountSplits | round_tripper.go:85-115 | The per-instrument table of a whole call is the before-hook's share plus the share of the hooks after the parent answered. |
| RoundTripLemmas.RoundTripCounts | round_tripper.go:85-115 | For every instrument, the number of events one call emits for it equals an independent table written from the hooks' definitions. The in-flight gauge nets to zero. |
| RoundTripLemmas.AfterParentTagged | round_tripper.go:95-115 | The events after the parent answered use the request context. They carry the static attributes as a prefix, and their counters step by one. |
| RoundTripLemmas.InFlightNetsToZero | round_tripper.go:131-165 | The in-flight gauge moves exactly twice in every call. The first event of the call is its +1, and its deltas, summed over all attribute sets, net to zero on every path. Per attribute set they need not; see `InFlightSeries.AsWrittenSeriesSplit`. |
| RoundTripLemmas.AttemptCountedOnce | round_tripper.go:155-165 | Each call counts exactly one attempt, tagged with the request attributes. |
| RoundTripLemmas.NoRequestCountedIffNil | round_tripper.go:155-165 | The no-request counter moves exactly when the request is nil. It then moves on the background context with only the static attributes. |
| RoundTripLemmas.ErrorPathCounters | round_tripper.go:195-207 | On a transport error there is exactly one error count, emitted on the request context with the request attributes. A timeout is counted exactly when the error is a timing-out network error. A cancellation is counted exactly when the error text ends with "context canceled". No duration sample is recorded, and no redirect, failure or success is counted. |
| RoundTripLemmas.CompletedPathDurationSample | round_tripper.go:100-101 | Without a transport error, exactly one duration sample is recorded. It carries the duration and the static, request and response attributes, in that order. |
| RoundTripLemmas.CompletedPathHasNoErrorCounts | round_tripper.go:95-115 | Without a transport error, no error, timeout or cancellation is counted. |
| RoundTripLemmas.CompletedPathCounters | round_tripper.go:103-113 | Without a transport error, exactly one of the redirect, failure and success counters moves, and the status alone decides which. |
| RoundTripLemmas.DeadlineExceededIsDormant | round_tripper.go:53 | The deadline-exceeded counter is created but never incremented. |
| RoundTripLemmas.EventsShareContextAndStaticPrefix | round_tripper.go:86-101 | Every event is emitted on the extracted context and carries the configured static attributes as a prefix. Every counter event is a +1. |
| InFlightSeries.AsWrittenSeriesSplit | round_tripper.go:95-160 | On a transport error or a nil response, the gauge's +1 and -1 go to one series, which nets to zero. When a response arrives, the +1 goes to the request attributes' series and the -1 to a different list carrying the status code. Each of those two series ends the call at +1 and -1. When the static attributes hold no status code, the two lists are different attribute sets. |
| InFlightSeries.SplitSeriesExample | round_tripper.go:95-160 | A GET with no static attributes answered with 200 leaves the request attributes' gauge series at +1. |
| InFlightSeries.IntendedRoundTrip | round_tripper.go:85-115 | The corrected call returns the parent's answer unchanged. |
| InFlightSeries.IntendedRoundTripCounts | round_tripper.go:85-115 | The corrected call moves every instrument exactly as often as the independent table says, the same table the written call meets. |
| InFlightSeries.IntendedSeriesNetToZero | round_tripper.go:131-165 | In the corrected call, every series of the in-flight gauge, whatever its attributes, ends where it started. |
| ClientConfiguration.DefaultClientConfig | client_config.go:11-17 | The default client config uses `http.DefaultClient`, a delay of 0, and a base URL that does not end in `/`. |
| ClientOptions.ApplyHTTPClient | client_option.go:21-27 | A nil client leaves the client config unchanged. A non-nil client is stored. No other field changes. |
| ClientOptions.ApplyBaseURL | client_option.go:30-36 | "" leaves the client config unchanged. Any other URL is stored as its prefix without the trailing `/` run, so the stored URL never ends in `/`. No other field changes. |
| ClientOptions.ApplyDelay | client_option.go:40-46 | The delay is stored exactly when it is positive. No other field changes. |
| ClientOptions.Apply | client_option.go:15-17 | Applying any client option changes only the field that option targets. |
| ClientOptions.StoredBaseURLIsFixedPoint | client_option.go:32-33 | Feeding the stored base URL back into `WithBaseURL` changes nothing. |
| ClientOptions.DefaultBaseURLIsFixedPoint | client_config.go:15 | `WithBaseURL("https://httpstat.us")` leaves the default client config unchanged. |
| ClientOptions.SlashesOnlyBaseURLExample | client_option.go:32-33 | `WithBaseURL("///")` stores "". The emptiness check runs before trimming. |
| ClientOptions.DistinctFieldsCommute | client_option.go:21-46 | Client options that target different fields commute. |

## Findings

| source | as written | input that shows it | evidently intended | confidence | as-written member | corrected member |
|---|---|---|---|---|---|---|
| round_tripper.go:100-160 | `beforeHook` raises the in-flight up/down counter with the request attributes (line 160). After a response, the outcome hooks lower it with the request and response attributes (lines 135, 143, 151). The gauge is kept per attribute set, so after each call one series is left at +1 and another at -1. | A GET with no static attributes, answered by the parent with status 200 and no error. | The -1 is passed the same attributes as the +1, so every series returns to zero. | medium, not executed | InFlightSeries.AsWrittenSeriesSplit | InFlightSeries.IntendedSeriesNetToZero |

The rest of the model states its lemmas about `RoundTrip` as written. The per-instrument counts carry over unchanged to the corrected call (`InFlightSeries.IntendedRoundTripCounts`), since the fix changes only which attributes the gauge's -1 is passed.

## Left out

- Network I/O. The parent transport's `RoundTrip` is not modelled; its (response, error) result is an input to `RoundTrip`.
- Wall-clock time. `time.Now`/`time.Since` are not modelled; the elapsed milliseconds are an opaque integer input.
- The OpenTelemetry instruments and backend. Emissions are returned as an ordered event list. Attribute de-duplication is modelled only as the last-value-wins lookup `LastValue`.
- `errors.As` unwrapping. An error is a record holding a flag (the first `net.Error` in its chain reports `Timeout()`) and its message text.
- Go strings are bytes. The model works on Unicode code points, so invalid UTF-8 is not modelled.
- Configuration.DefaultConfig: which names the global meter refuses is a parameter, the set of names the installed SDK rejects. Later re-installation of the global provider, after `New` has run, is not modelled.
- The instrument handles. A bound instrument is identified by the instrument kind plus the meter and prefix it was registered with; creation failures are given by the meter's set of refused names.
- Concurrency. The model gives the event list of one call. The events of concurrent calls interleave in any order. The backend aggregates counters, the gauge and the histogram additively, so the totals of each call do not depend on that order; the order itself is not modelled.
- Options.ApplyAttributes: `WithAttributes` stores the caller's slice without copying, so a caller that changes the slice after `New` changes the static attributes. The model's attribute lists are values, so this aliasing is not modelled.
- Attribute values are limited to strings and integers (`Http.Value`); boolean, floating-point and slice values are not modelled, since no operation of the core inspects a value's kind.
- The request's URL is taken as already rendered by `URL.String()`. A nil URL, which would panic, is not modelled.
- The sample client's constructor and its `Status.Ok` call (HTTP and JSON plumbing). client.go is not part of this model, so client options have no left-to-right fold here.
- The test servers and the commented-out export example.
