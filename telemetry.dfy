/** The application module's global state: the memoised configuration and
    parsed headers, and the per-site tracer and logger provider caches, with
    `get_config`, `get_tracer_provider_for_site`,
    `get_logger_provider_for_site` and the cache part of
    `setup_global_telemetry`. The SDK objects are abstract records: a provider
    is its resource labels and its exporter's target. */
module Telemetry {
  import opened Wrappers
  import opened OTelConfig
  import opened Headers

  /** The three OTLP signals, each exported to its own path. */
  datatype Signal = Traces | Logs | Metrics

  /** The URL path an OTLP/HTTP exporter of `signal` posts to. */
  function SignalPath(signal: Signal): (path: string)
  {
    match signal
    case Traces => "/v1/traces"
    case Logs => "/v1/logs"
    case Metrics => "/v1/metrics"
  }

  /** An OTLP/HTTP exporter: the URL it posts to and the headers it sends. */
  datatype Exporter = Exporter(endpoint: string, headers: map<string, string>)

  /** The exporter for `signal`: the collector URL followed by the signal's
      path, sending the given headers. */
  function ExporterFor(signal: Signal, config: Config, headers: map<string, string>): (e: Exporter)
    ensures signal == Traces ==> e.endpoint == config.endpoint + "/v1/traces"
    ensures signal == Logs ==> e.endpoint == config.endpoint + "/v1/logs"
    ensures signal == Metrics ==> e.endpoint == config.endpoint + "/v1/metrics"
    ensures e.headers == headers
  {
    Exporter(config.endpoint + SignalPath(signal), headers)
  }

  /** The resource labels of a provider: `service.name`, `service.version`,
      `deployment.environment` and `host.name`, plus `frappe.site` and
      `service.type` on the per-site providers only. */
  datatype Resource = Resource(
    serviceName: string,
    serviceVersion: string,
    deploymentEnvironment: string,
    hostName: string,
    site: Option<string>,
    serviceType: Option<string>)

  /** The `service.type` label of every per-site provider. */
  const ServiceType: string := "frappe-web"
  /** The site name of the default tracer and logger providers, and the
      service name of the shared meter provider. */
  const DefaultSite: string := "frappe-web"
  /** The metrics export period, in milliseconds. */
  const MetricExportIntervalMillis: nat := 30000

  /** The `host.name` label: `$HOSTNAME` if set, else the machine's node name. */
  function HostName(env: Environment, nodename: string): (hostName: string)
  {
    EnvGet(env, "HOSTNAME", nodename)
  }

  /** The resource labels of a per-site provider. */
  function SiteResource(site: string, config: Config, hostName: string): (r: Resource)
  {
    Resource(site, config.serviceVersion, config.environment, hostName, Some(site), Some(ServiceType))
  }

  /** The resource labels of the shared meter provider: no site. */
  function MeterResource(config: Config, hostName: string): (r: Resource)
  {
    Resource(DefaultSite, config.serviceVersion, config.environment, hostName, None, None)
  }

  /** The labels of two sites' providers, built from one configuration on one
      host, differ at most in `service.name` and `frappe.site`, both of which
      are the site name; so distinct sites get distinct labels. */
  lemma ResourcesDifferOnlyInSite(s1: string, s2: string, config: Config, hostName: string)
    ensures var r1, r2 := SiteResource(s1, config, hostName), SiteResource(s2, config, hostName);
      && r1.serviceName == s1 && r1.site == Some(s1)
      && r1.serviceType == Some("frappe-web")
      && r1.serviceVersion == config.serviceVersion && r1.deploymentEnvironment == config.environment
      && r1.hostName == hostName
      && r2 == r1.(serviceName := s2, site := Some(s2))
      && (s1 != s2 <==> r1 != r2)
  {
  }

  /** A tracer or logger provider: its resource labels and the exporter its
      batch processor feeds. Never changed after construction. */
  class Provider {
    const signal: Signal
    const resource: Resource
    const exporter: Exporter

    constructor (signal: Signal, resource: Resource, exporter: Exporter)
      ensures this.signal == signal && this.resource == resource && this.exporter == exporter
    {
      this.signal := signal;
      this.resource := resource;
      this.exporter := exporter;
    }
  }

  /** The shared metrics provider: labels without a site, the metrics
      exporter and its export period. */
  datatype MeterProvider = MeterProvider(resource: Resource, exporter: Exporter, intervalMillis: nat)

  /** No site occurs twice. */
  ghost predicate Distinct(s: seq<string>)
  {
    forall i, j :: 0 <= i < j < |s| ==> s[i] != s[j]
  }

  /** Whether `p` is the provider the module builds for `site` and `signal`
      from `config` and `headers` on some host. */
  ghost predicate BuiltFor(p: Provider, signal: Signal, site: string, config: Config, headers: map<string, string>)
  {
    && p.signal == signal
    && p.resource == SiteResource(site, config, p.resource.hostName)
    && p.exporter == ExporterFor(signal, config, headers)
  }

  /** The module-level globals `_config`, `_headers`, `_tracer_providers`,
      `_logger_providers` and `_meter_provider`. The ghost build logs record
      every provider construction, site by site. */
  class TelemetryState {
    var config: Option<Config>
    var headers: Option<map<string, string>>
    var tracerProviders: map<string, Provider>
    var loggerProviders: map<string, Provider>
    var meterProvider: Option<MeterProvider>
    ghost var tracerBuilds: seq<string>
    ghost var loggerBuilds: seq<string>

    /** The headers are always the parse of the memoised header string, and
        nothing is cached before the configuration is resolved. */
    ghost predicate ConfigValid()
      reads this`config, this`headers, this`tracerProviders, this`loggerProviders, this`meterProvider
    {
      && (config.None? <==> headers.None?)
      && (config.Some? ==> headers.value == HeadersOf(config.value.headers))
      && (tracerProviders != map[] || loggerProviders != map[] || meterProvider.Some? ==> config.Some?)
    }

    /** Every cached tracer provider was built for its own key from the
        memoised configuration, and each key was constructed exactly once. */
    ghost predicate TracersValid()
      reads this`config, this`headers, this`tracerProviders, this`loggerProviders, this`meterProvider
      reads this`tracerBuilds
      requires ConfigValid()
    {
      && (forall s :: s in tracerProviders ==>
            BuiltFor(tracerProviders[s], Traces, s, config.value, headers.value))
      && Distinct(tracerBuilds) && (forall s :: s in tracerBuilds <==> s in tracerProviders)
    }

    /** The same for the logger providers. */
    ghost predicate LoggersValid()
      reads this`config, this`headers, this`tracerProviders, this`loggerProviders, this`meterProvider
      reads this`loggerBuilds
      requires ConfigValid()
    {
      && (forall s :: s in loggerProviders ==>
            BuiltFor(loggerProviders[s], Logs, s, config.value, headers.value))
      && Distinct(loggerBuilds) && (forall s :: s in loggerBuilds <==> s in loggerProviders)
    }

    ghost predicate Valid()
      reads this
    {
      ConfigValid() && TracersValid() && LoggersValid()
    }

    /** The state at module import: nothing resolved, nothing cached. */
    constructor ()
      ensures Valid()
      ensures config == None && headers == None && meterProvider == None
      ensures tracerProviders == map[] && loggerProviders == map[]
    {
      config, headers := None, None;
      tracerProviders, loggerProviders := map[], map[];
      meterProvider := None;
      tracerBuilds, loggerBuilds := [], [];
    }

    /** `get_config`: the first call reads the environment and parses the
        header string; every later call returns the memoised pair and ignores
        `env`. */
    method GetConfig(env: Environment) returns (c: Config, h: map<string, string>)
      requires Valid()
      modifies this`config, this`headers
      ensures Valid()
      ensures old(config).Some? ==> config == old(config) && headers == old(headers)
      ensures old(config).None? ==> config == Some(GetOtelConfig(env))
      ensures config == Some(c) && headers == Some(h)
      ensures h == HeadersOf(c.headers)
    {
      if config.None? {
        var resolved := GetOtelConfig(env);
        var parsed := ParseHeaders(resolved.headers);
        config, headers := Some(resolved), Some(parsed);
      }
      c, h := config.value, headers.value;
    }

    /** `get_tracer_provider_for_site`: on a hit the cached provider, with
        nothing changed; on a miss a new provider for `site`, built from the
        (memoised) configuration, inserted under `site` and nowhere else. */
    method GetTracerProviderForSite(site: string, env: Environment, nodename: string) returns (p: Provider)
      requires Valid()
      modifies this
      ensures Valid()
      ensures tracerProviders == old(tracerProviders)[site := p]
      ensures site in old(tracerProviders) ==> p == old(tracerProviders)[site] && unchanged(this)
      ensures site !in old(tracerProviders) ==>
                && fresh(p)
                && tracerBuilds == old(tracerBuilds) + [site]
                && (old(config).Some? ==> config == old(config) && headers == old(headers))
                && (old(config).None? ==> config == Some(GetOtelConfig(env)))
                && p.resource == SiteResource(site, config.value, HostName(env, nodename))
                && p.exporter == ExporterFor(Traces, config.value, headers.value)
      ensures loggerProviders == old(loggerProviders) && loggerBuilds == old(loggerBuilds)
      ensures meterProvider == old(meterProvider)
    {
      if site in tracerProviders {
        return tracerProviders[site];
      }
      var c, h := GetConfig(env);
      var resource := SiteResource(site, c, HostName(env, nodename));
      p := new Provider(Traces, resource, ExporterFor(Traces, c, h));
      assert BuiltFor(p, Traces, site, c, h);
      ghost var before := tracerProviders;
      tracerProviders := tracerProviders[site := p];
      tracerBuilds := tracerBuilds + [site];
      forall s | s in tracerProviders ensures BuiltFor(tracerProviders[s], Traces, s, c, h) {
        if s != site {
          assert tracerProviders[s] == before[s];
        }
      }
      assert Distinct(tracerBuilds) by {
        assert site !in old(tracerBuilds);
      }
    }

    /** `get_logger_provider_for_site`: as for tracers, with the logs exporter. */
    method GetLoggerProviderForSite(site: string, env: Environment, nodename: string) returns (p: Provider)
      requires Valid()
      modifies this
      ensures Valid()
      ensures loggerProviders == old(loggerProviders)[site := p]
      ensures site in old(loggerProviders) ==> p == old(loggerProviders)[site] && unchanged(this)
      ensures site !in old(loggerProviders) ==>
                && fresh(p)
                && loggerBuilds == old(loggerBuilds) + [site]
                && (old(config).Some? ==> config == old(config) && headers == old(headers))
                && (old(config).None? ==> config == Some(GetOtelConfig(env)))
                && p.resource == SiteResource(site, config.value, HostName(env, nodename))
                && p.exporter == ExporterFor(Logs, config.value, headers.value)
      ensures tracerProviders == old(tracerProviders) && tracerBuilds == old(tracerBuilds)
      ensures meterProvider == old(meterProvider)
    {
      if site in loggerProviders {
        return loggerProviders[site];
      }
      var c, h := GetConfig(env);
      var resource := SiteResource(site, c, HostName(env, nodename));
      p := new Provider(Logs, resource, ExporterFor(Logs, c, h));
      assert BuiltFor(p, Logs, site, c, h);
      ghost var before := loggerProviders;
      loggerProviders := loggerProviders[site := p];
      loggerBuilds := loggerBuilds + [site];
      forall s | s in loggerProviders ensures BuiltFor(loggerProviders[s], Logs, s, c, h) {
        if s != site {
          assert loggerProviders[s] == before[s];
        }
      }
      assert Distinct(loggerBuilds) by {
        assert site !in old(loggerBuilds);
      }
    }

    /** The state-changing part of `setup_global_telemetry`: resolve the
        configuration, build the shared meter provider (labelled
        `frappe-web`, no site label, 30-second export period) and make sure
        the default site `frappe-web` has a tracer and a logger provider.
        Other cache entries are kept as they were. */
    method SetupGlobalTelemetry(env: Environment, nodename: string)
      requires Valid()
      modifies this
      ensures Valid()
      ensures old(config).Some? ==> config == old(config)
      ensures old(config).None? ==> config == Some(GetOtelConfig(env))
      ensures meterProvider == Some(MeterProvider(
                Resource("frappe-web", config.value.serviceVersion, config.value.environment,
                         HostName(env, nodename), None, None),
                ExporterFor(Metrics, config.value, headers.value),
                30000))
      ensures DefaultSite in tracerProviders && DefaultSite in loggerProviders
      ensures tracerProviders == old(tracerProviders)[DefaultSite := tracerProviders[DefaultSite]]
      ensures loggerProviders == old(loggerProviders)[DefaultSite := loggerProviders[DefaultSite]]
      ensures DefaultSite in old(tracerProviders) ==> tracerProviders == old(tracerProviders)
      ensures DefaultSite in old(loggerProviders) ==> loggerProviders == old(loggerProviders)
    {
      var c, h := GetConfig(env);
      var resource := MeterResource(c, HostName(env, nodename));
      meterProvider := Some(MeterProvider(resource, ExporterFor(Metrics, c, h), MetricExportIntervalMillis));
      assert Valid();
      var tracer := GetTracerProviderForSite(DefaultSite, env, nodename);
      var logger := GetLoggerProviderForSite(DefaultSite, env, nodename);
      assert tracerProviders[DefaultSite] == tracer && loggerProviders[DefaultSite] == logger;
    }
  }
}
