/** The sample API client's configuration record and its defaults
    (client_config.go). */
module ClientConfiguration {

  /** An `*http.Client`: `http.DefaultClient` or another one. */
  datatype HttpClient = DefaultClient | HttpClient(id: nat)

  /** The base URL used when no base-URL option is given. */
  const DefaultBaseURL: string := "https://httpstat.us"

  /** The `clientConfig` record; `delay` is in milliseconds. */
  datatype ClientConfig = ClientConfig(httpClient: HttpClient, delay: int, baseURL: string)

  /** `defaultClientConfig()`: the default client, no delay, and a base URL
      that does not end in "/". */
  function DefaultClientConfig(): (c: ClientConfig)
    ensures c.httpClient == DefaultClient && c.delay == 0
    ensures c.baseURL != [] && c.baseURL[|c.baseURL| - 1] != '/'
  {
    ClientConfig(DefaultClient, 0, DefaultBaseURL)
  }
}
