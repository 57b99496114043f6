/** `SiteAwareOTelMiddleware`: the WSGI entry point that picks the tenant
    from the request's `HTTP_HOST`, keeps one OpenTelemetry WSGI wrapper per
    site, stamps the site into the request environment and forwards the
    request to that site's wrapper. The wrapped Frappe application is an
    opaque value of type `A`. */
module Middleware {
  import opened Wrappers
  import opened OTelConfig
  import opened Site
  import opened Telemetry

  /** The environ key under which the resolved site is handed to Frappe. */
  const SiteNameKey: string := "OTEL_SITE_NAME"
  /** The environ key of the request's host header. */
  const HostKey: string := "HTTP_HOST"

  /** An `OpenTelemetryMiddleware` around the application, exporting its
      request spans through one tracer provider. */
  class OTelWrapper<A> {
    const app: A
    const tracerProvider: Provider

    constructor (app: A, tracerProvider: Provider)
      ensures this.app == app && this.tracerProvider == tracerProvider
    {
      this.app := app;
      this.tracerProvider := tracerProvider;
    }
  }

  /** A request's WSGI `environ` dictionary, which the middleware updates in
      place (string-valued entries only). */
  class Environ {
    var vars: map<string, string>

    constructor (vars: map<string, string>)
      ensures this.vars == vars
    {
      this.vars := vars;
    }
  }

  /** The site a request is attributed to: `environ.get("HTTP_HOST", "")`
      passed through `get_site_from_host`. */
  function RequestSite(vars: map<string, string>): (site: string)
    ensures HostKey !in vars || vars[HostKey] == "" ==> site == "unknown"
    ensures HostKey in vars && vars[HostKey] != "" ==> site == GetSiteFromHost(Some(vars[HostKey]))
  {
    GetSiteFromHost(Some(EnvGet(vars, HostKey, "")))
  }

  class SiteAwareOTelMiddleware<A> {
    const app: A
    /** The module-level state the middleware reaches through the provider functions. */
    const telemetry: TelemetryState
    var wsgiMiddlewares: map<string, OTelWrapper<A>>
    /** Every wrapper construction, site by site. */
    ghost var builds: seq<string>

    /** Each cached wrapper wraps the application and exports through the
        cached tracer provider of its own site; each site's wrapper was
        constructed exactly once. */
    ghost predicate Valid()
      reads this, telemetry
    {
      && telemetry.Valid()
      && (forall s :: s in wsgiMiddlewares ==>
            && wsgiMiddlewares[s].app == app
            && s in telemetry.tracerProviders
            && wsgiMiddlewares[s].tracerProvider == telemetry.tracerProviders[s])
      && Distinct(builds)
      && (forall s :: s in builds <==> s in wsgiMiddlewares)
    }

    constructor (app: A, telemetry: TelemetryState)
      requires telemetry.Valid()
      ensures Valid()
      ensures this.app == app && this.telemetry == telemetry && wsgiMiddlewares == map[]
    {
      this.app := app;
      this.telemetry := telemetry;
      wsgiMiddlewares := map[];
      builds := [];
    }

    /** `_get_middleware_for_site`: the cached wrapper of `site`, or a new
        one around the site's (cached or new) tracer provider, inserted
        under `site` only. */
    method GetMiddlewareForSite(site: string, env: Environment, nodename: string) returns (w: OTelWrapper<A>)
      requires Valid()
      modifies this, telemetry
      ensures Valid()
      ensures wsgiMiddlewares == old(wsgiMiddlewares)[site := w]
      ensures w.app == app && w.tracerProvider == telemetry.tracerProviders[site]
      ensures site in old(wsgiMiddlewares) ==>
                w == old(wsgiMiddlewares)[site] && builds == old(builds) && unchanged(telemetry)
      ensures site !in old(wsgiMiddlewares) ==>
                && fresh(w)
                && builds == old(builds) + [site]
                && telemetry.tracerProviders == old(telemetry.tracerProviders)[site := w.tracerProvider]
                && (site in old(telemetry.tracerProviders) ==> unchanged(telemetry))
      ensures telemetry.loggerProviders == old(telemetry.loggerProviders)
      ensures telemetry.meterProvider == old(telemetry.meterProvider)
      ensures old(telemetry.config).Some? ==>
                telemetry.config == old(telemetry.config) && telemetry.headers == old(telemetry.headers)
      ensures old(telemetry.config).None? ==> telemetry.config == Some(GetOtelConfig(env))
    {
      if site !in wsgiMiddlewares {
        var tracerProvider := telemetry.GetTracerProviderForSite(site, env, nodename);
        assert telemetry.tracerProviders == old(telemetry.tracerProviders)[site := tracerProvider];
        w := new OTelWrapper(app, tracerProvider);
        ghost var before := wsgiMiddlewares;
        wsgiMiddlewares := wsgiMiddlewares[site := w];
        builds := builds + [site];
        forall s | s in wsgiMiddlewares
          ensures s in telemetry.tracerProviders && wsgiMiddlewares[s].tracerProvider == telemetry.tracerProviders[s]
        {
          if s != site {
            assert wsgiMiddlewares[s] == before[s];
          }
        }
        assert Distinct(builds) by {
          assert site !in old(builds);
        }
      }
      w := wsgiMiddlewares[site];
    }

    /** `__call__`: derive the site from `HTTP_HOST`, fetch or create its
        wrapper, set `environ["OTEL_SITE_NAME"]` to the site and forward the
        request to that wrapper, which is returned. */
    method Call(environ: Environ, env: Environment, nodename: string) returns (forwardedTo: OTelWrapper<A>)
      requires Valid()
      modifies this, telemetry, environ
      ensures Valid()
      ensures var site := RequestSite(old(environ.vars));
        && environ.vars == old(environ.vars)[SiteNameKey := site]
        && wsgiMiddlewares == old(wsgiMiddlewares)[site := forwardedTo]
        && forwardedTo.app == app
        && forwardedTo.tracerProvider == telemetry.tracerProviders[site]
      ensures var site := RequestSite(old(environ.vars));
        site in old(wsgiMiddlewares) ==>
          forwardedTo == old(wsgiMiddlewares)[site] && builds == old(builds) && unchanged(telemetry)
      ensures var site := RequestSite(old(environ.vars));
        site !in old(wsgiMiddlewares) ==>
          && fresh(forwardedTo)
          && builds == old(builds) + [site]
          && telemetry.tracerProviders == old(telemetry.tracerProviders)[site := forwardedTo.tracerProvider]
          && (site in old(telemetry.tracerProviders) ==> unchanged(telemetry))
      ensures telemetry.loggerProviders == old(telemetry.loggerProviders)
      ensures telemetry.meterProvider == old(telemetry.meterProvider)
      ensures old(telemetry.config).Some? ==>
                telemetry.config == old(telemetry.config) && telemetry.headers == old(telemetry.headers)
      ensures old(telemetry.config).None? ==> telemetry.config == Some(GetOtelConfig(env))
    {
      var host := EnvGet(environ.vars, HostKey, "");
      var siteName := GetSiteFromHost(Some(host));
      forwardedTo := GetMiddlewareForSite(siteName, env, nodename);
      environ.vars := environ.vars[SiteNameKey := siteName];
    }
  }

  /** Two requests for one tenant, the first with a port in its host and the
      second without, are forwarded to the same wrapper. */
  method PortAndPortlessShareWrapper<A>(m: SiteAwareOTelMiddleware<A>, host: string, port: string,
                                        env: Environment, nodename: string)
    returns (first: OTelWrapper<A>, second: OTelWrapper<A>)
    requires m.Valid() && host != ""
    modifies m, m.telemetry
    ensures first == second
  {
    var e1 := new Environ(map[HostKey := host + ":" + port]);
    var e2 := new Environ(map[HostKey := host]);
    ghost var site := GetSiteFromHost(Some(host));
    SiteIgnoresPort(host, port);
    assert RequestSite(e1.vars) == site && RequestSite(e2.vars) == site;
    first := m.Call(e1, env, nodename);
    assert site in m.wsgiMiddlewares && m.wsgiMiddlewares[site] == first;
    second := m.Call(e2, env, nodename);
  }
}
