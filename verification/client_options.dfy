/** The sample API client's functional options (client_option.go): each is a
    guarded update of exactly one field of the client configuration. */
module ClientOptions {

  import opened Wrappers
  import opened ClientConfiguration
  import Strings

  /** The three exported option constructors. */
  datatype ClientOption =
    | WithHTTPClient(httpClient: Option<HttpClient>)
    | WithBaseURL(baseURL: string)
    | WithDelay(delay: int)

  /** The closure of `WithHTTPClient`: a nil client is ignored. */
  function ApplyHTTPClient(c: ClientConfig, httpClient: Option<HttpClient>): (r: ClientConfig)
    ensures httpClient.None? ==> r == c
    ensures httpClient.Some? ==> r.httpClient == httpClient.value
    ensures r.delay == c.delay && r.baseURL == c.baseURL
  {
    match httpClient
    case None => c
    case Some(h) => c.(httpClient := h)
  }

  /** The closure of `WithBaseURL`: "" is ignored; any other URL is stored
      without its trailing run of "/", so the stored URL never ends in "/".
      The emptiness check comes before the trim, so "///" stores "". */
  function ApplyBaseURL(c: ClientConfig, baseURL: string): (r: ClientConfig)
    ensures baseURL == "" ==> r == c
    ensures baseURL != "" ==>
      && r.baseURL <= baseURL
      && (forall k :: |r.baseURL| <= k < |baseURL| ==> baseURL[k] == '/')
      && (r.baseURL == [] || r.baseURL[|r.baseURL| - 1] != '/')
    ensures r.httpClient == c.httpClient && r.delay == c.delay
  {
    if baseURL != "" then c.(baseURL := Strings.TrimRight(baseURL, '/')) else c
  }

  /** The closure of `WithDelay`: only a positive delay is stored. */
  function ApplyDelay(c: ClientConfig, delay: int): (r: ClientConfig)
    ensures r.delay == if delay > 0 then delay else c.delay
    ensures r.httpClient == c.httpClient && r.baseURL == c.baseURL
  {
    if delay > 0 then c.(delay := delay) else c
  }

  /** `option.apply(config)`: every option leaves the fields other than its
      own unchanged. */
  function Apply(opt: ClientOption, c: ClientConfig): (r: ClientConfig)
    ensures !opt.WithHTTPClient? ==> r.httpClient == c.httpClient
    ensures !opt.WithBaseURL? ==> r.baseURL == c.baseURL
    ensures !opt.WithDelay? ==> r.delay == c.delay
  {
    match opt
    case WithHTTPClient(h) => ApplyHTTPClient(c, h)
    case WithBaseURL(u) => ApplyBaseURL(c, u)
    case WithDelay(d) => ApplyDelay(c, d)
  }

  /** Feeding the stored base URL back into the base-URL option changes
      nothing once a base URL has been set: the stored URL is a fixed point
      of trimming. */
  lemma {:induction false} StoredBaseURLIsFixedPoint(c: ClientConfig, baseURL: string)
    requires c.baseURL == [] || c.baseURL[|c.baseURL| - 1] != '/'
    ensures var r := ApplyBaseURL(c, baseURL); ApplyBaseURL(r, r.baseURL) == r
  {
    var r := ApplyBaseURL(c, baseURL);
    if r.baseURL != [] {
      Strings.TrimRightIdempotent(r.baseURL, '/');
      assert Strings.TrimRight(r.baseURL, '/') == r.baseURL;
    }
  }

  /** Setting the default base URL on the default configuration changes nothing. */
  lemma DefaultBaseURLIsFixedPoint()
    ensures ApplyBaseURL(DefaultClientConfig(), DefaultBaseURL) == DefaultClientConfig()
  {
    StoredBaseURLIsFixedPoint(DefaultClientConfig(), []);
  }

  /** "///" stores the empty base URL. */
  lemma SlashesOnlyBaseURLExample(c: ClientConfig)
    ensures ApplyBaseURL(c, "///").baseURL == ""
  {
  }

  /** Options on different fields commute. */
  lemma DistinctFieldsCommute(c: ClientConfig, a: ClientOption, b: ClientOption)
    requires !(a.WithHTTPClient? && b.WithHTTPClient?)
    requires !(a.WithBaseURL? && b.WithBaseURL?)
    requires !(a.WithDelay? && b.WithDelay?)
    ensures Apply(b, Apply(a, c)) == Apply(a, Apply(b, c))
  {
  }
}
