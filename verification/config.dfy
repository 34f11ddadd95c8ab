/** The decorator's configuration record and its defaults (config.go). */
module Configuration {

  import opened Wrappers
  import opened Http
  import Strings

  /** A `metric.MeterProvider`: the process-wide global one or another. */
  datatype MeterProvider = GlobalProvider | MeterProvider(id: nat)

  /** A `metric.Meter`: the provider it belongs to, its instrumentation scope,
      and the instrument names for which its create calls return an error. */
  datatype Meter = Meter(provider: MeterProvider, scope: string, rejects: set<string>)

  /** The metric-name prefix used when no name option is given. */
  const DefaultName: string := "http.client"

  /** `otel.GetMeterProvider().Meter("http.client")`. The global provider
      forwards to whatever SDK the process installed, so which instrument names
      it refuses is process state, given here as `globalRejects`; without an
      SDK it refuses none. */
  function GlobalMeter(globalRejects: set<string>): (m: Meter)
    ensures m.provider == GlobalProvider && m.scope == DefaultName && m.rejects == globalRejects
  {
    Meter(GlobalProvider, DefaultName, globalRejects)
  }

  /** The `config` record. `parent` cannot be nil (no option can store a nil
      transport); `meter` can, since the meter option stores whatever it is given. */
  datatype Config = Config(name: string, parent: Transport, meter: Option<Meter>, attributes: seq<KeyValue>)

  /** The invariant every configuration reachable through the options keeps:
      the metric prefix is non-empty and has no surrounding white space. */
  predicate Valid(c: Config) {
    c.name != [] && Strings.Trimmed(c.name)
  }

  /** `defaultConfig()`: the "http.client" prefix, `http.DefaultTransport`,
      the global provider's meter and no static attributes. */
  function DefaultConfig(globalRejects: set<string>): (c: Config)
    ensures Valid(c)
    ensures c.parent == DefaultTransport && c.attributes == []
    ensures c.meter.Some? && c.meter.value.provider == GlobalProvider
    ensures c.name == DefaultName && c.meter.value.scope == DefaultName
    ensures c.meter.value.rejects == globalRejects
  {
    Config(DefaultName, DefaultTransport, Some(GlobalMeter(globalRejects)), [])
  }
}
