# simbotix_otel: per-site OpenTelemetry wiring for Frappe, in Dafny

`simbotix_otel` wraps the Frappe WSGI application so that every request's
telemetry is attributed to the Frappe site (tenant) it was addressed to.
Its logic lives in `simbotix_otel/app.py`:

- `get_otel_config` reads five `OTEL_*` environment variables, each with a
  default.
- `parse_headers` turns the comma-separated `key=value` header string into a
  dictionary.
- `get_config` memoises both.
- `get_site_from_host` maps the `Host` header to a site name.
- `get_tracer_provider_for_site` and `get_logger_provider_for_site` keep one
  provider per site in module-level dictionaries.
- `SiteAwareOTelMiddleware` keeps one OpenTelemetry WSGI wrapper per site and
  stamps the site into the request environment.

The model follows the file's own shape:

| file | module | form |
|---|---|---|
| `wrappers.dfy` | `Wrappers` | `Option` (Python's `None`) |
| `text.dfy` | `Text` | the Python `str` operations the code uses (`in`, `split(sep)`, `split(sep, 1)`, `strip()`), as functions with their characterising lemmas |
| `headers.dfy` | `Headers` | `parse_headers` as a method with a loop, proved equal to the specification function `HeadersOf`; lemmas about `HeadersOf` |
| `site.dfy` | `Site` | `get_site_from_host` as a function with lemmas |
| `config.dfy` | `OTelConfig` | `get_otel_config` as a function over an environment map |
| `telemetry.dfy` | `Telemetry` | the module globals `_config`, `_headers`, `_tracer_providers`, `_logger_providers` and `_meter_provider` as the class `TelemetryState` with state-changing methods |
| `middleware.dfy` | `Middleware` | `SiteAwareOTelMiddleware` as a class whose map field is the wrapper cache; the WSGI `environ` as an object the call updates in place |

## Design choices

- Providers and wrappers are objects whose fields never change. So "the same
  provider" is object identity: a cache hit returns the very object stored,
  and a miss returns a `fresh` one.
- Ghost build logs record every construction, site by site. The class
  invariants say each log has no repeats and holds exactly the cache's keys.
  Together these state "at most one construction per site".
- The environment (`os.environ`) and the machine's node name
  (`os.uname().nodename`) are parameters.
- The host name label is `$HOSTNAME` when that variable is set, else the node
  name. It is evaluated each time a provider is built, as in the source.
- The five `OTEL_*` variables are read only when `get_config` first runs.

## Model

| member | source | states |
|---|---|---|
| `Text.IndexOf` | simbotix_otel/app.py:85 | the result is the position of the first occurrence of the character, or the length when it is absent (no earlier occurrence, the character at the result, absent iff result is the length) |
| `Text.Split` | simbotix_otel/app.py:56 | `s.split(sep)` gives at least one piece and no piece contains the separator |
| `Text.JoinSplit` | simbotix_otel/app.py:56 | joining the pieces of `s.split(sep)` with `sep` gives back `s` |
| `Text.SplitJoin` | simbotix_otel/app.py:56 | splitting a join of separator-free pieces gives back the pieces (the other direction of the round trip) |
| `Text.SplitPiecesFromSource` | simbotix_otel/app.py:56-57 | every character of a piece occurs in the split string |
| `Text.SplitAtFirst` | simbotix_otel/app.py:58 | `item.split("=", 1)` gives a key without `=` and a value such that key + `=` + value is the item |
| `Text.SplitAtFirstUnique` | simbotix_otel/app.py:58 | that split is the only one whose left part holds no `=` |
| `Text.LeadingSpaces` | simbotix_otel/app.py:59 | counts exactly the whitespace prefix: all characters before it are whitespace and the next is not |
| `Text.TrailingStart` | simbotix_otel/app.py:59 | finds where the whitespace suffix begins: all characters from it on are whitespace and the one before is not |
| `Text.Strip` | simbotix_otel/app.py:59 | `strip()` yields a string with no whitespace at either end |
| `Text.StripSlice` | simbotix_otel/app.py:59 | `strip()` yields a slice of the input with only whitespace before and after it |
| `Text.StripTrimmed` | simbotix_otel/app.py:59 | `strip()` leaves a string without surrounding whitespace unchanged |
| `Headers.Entry` | simbotix_otel/app.py:58-59 | a kept item's key and value carry no surrounding whitespace |
| `Headers.ParseHeaders` | simbotix_otel/app.py:51-60 | the loop builds exactly `HeadersOf(headersStr)`, and the empty string gives `{}` |
| `Headers.CollectKeys` | simbotix_otel/app.py:56-59 | a key is present iff some item holding `=` gives that stripped key |
| `Headers.CollectLastWins` | simbotix_otel/app.py:56-59 | a key's value is the stripped value of the last item giving that key (a later duplicate overwrites) |
| `Headers.CollectTrimmed` | simbotix_otel/app.py:59 | all keys and values are stripped |
| `Headers.CollectNoPairs` | simbotix_otel/app.py:57 | items without `=` contribute nothing |
| `Headers.NoEqualsNoHeaders` | simbotix_otel/app.py:53-57 | a header string with no `=` at all gives `{}` |
| `Headers.HeadersOfItems` | simbotix_otel/app.py:51-60 | for any header string: key present iff some comma-separated item defines it, with the value of the last such item |
| `Headers.HeadersTrimmed` | simbotix_otel/app.py:59 | every key and value of the result is free of surrounding whitespace |
| `Headers.EntryOfItem` | simbotix_otel/app.py:58-59 | an item `k=v` whose `k` holds no `=` is kept and gives the stripped `k` and the stripped `v`; `v` may itself contain `=` |
| `Headers.EntryOfPair` | simbotix_otel/app.py:58-59 | `key=value` with an `=`-free key, where key and value both have no surrounding whitespace, gives exactly `(key, value)` |
| `Headers.TwoPairs` | simbotix_otel/app.py:55-60 | two well-formed items give `{k1: v1}` updated with `k2: v2` |
| `Headers.TwoPairsExample` | simbotix_otel/app.py:51-60 | `"a=1,b=2"` gives `{"a": "1", "b": "2"}` |
| `Headers.ValueKeepsEqualsExample` | simbotix_otel/app.py:58 | `"k=a=b"` gives `{"k": "a=b"}` |
| `Headers.DuplicateKeyExample` | simbotix_otel/app.py:59 | `"a=1,a=2"` gives `{"a": "2"}` |
| `Headers.MalformedAndEmptyExamples` | simbotix_otel/app.py:53-57 | `"bad,noequals"` and `""` both give `{}` |
| `Site.GetSiteFromHost` | simbotix_otel/app.py:80-86 | absent or empty host gives `"unknown"`; otherwise the result is a prefix of the host with no `:`, equal to the host or followed in it by `:` |
| `Site.SiteIsPrefix` | simbotix_otel/app.py:85 | the site of a non-empty host is its text up to the first `:` |
| `Site.SiteDropsPort` | simbotix_otel/app.py:85 | `p:port` with a colon-free `p` gives `p`, for any port, including an empty `p` |
| `Site.SiteOfPlainHost` | simbotix_otel/app.py:85 | a non-empty host without `:` is its own site |
| `Site.SiteIgnoresPort` | simbotix_otel/app.py:80-86 | `h:port` and `h` give the same site for every non-empty `h` |
| `Site.PortStrippedExample` | simbotix_otel/app.py:85-86 | `"site.example.com:8000"` gives `"site.example.com"` |
| `Site.PortOnlyExample` | simbotix_otel/app.py:82-86 | `":8000"` gives `""`, not `"unknown"` |
| `OTelConfig.EnvGet` | simbotix_otel/app.py:43 | `environ.get(name, default)`: the variable's value when it is set (even to `""`), the default otherwise |
| `OTelConfig.GetOtelConfig` | simbotix_otel/app.py:40-48 | each field equals its variable when set, else `"https://otel.appz.studio"`, `""`, `"frappe"`, `"15.91.0"`, `"production"` |
| `OTelConfig.ConfigReadsOnlyOtelVariables` | simbotix_otel/app.py:40-48 | two environments that agree on the five `OTEL_*` variables give the same configuration |
| `OTelConfig.DefaultConfig` | simbotix_otel/app.py:42-48 | with none of the variables set the configuration is all defaults |
| `Telemetry.ExporterFor` | simbotix_otel/app.py:109-112 | the exporter posts to the configured endpoint followed by `/v1/traces`, `/v1/logs` or `/v1/metrics` according to the signal, and sends the headers it is given (the provider methods pass the parsed headers, see below) |
| `Telemetry.ResourcesDifferOnlyInSite` | simbotix_otel/app.py:99-106 | a site's labels: `service.name` and `frappe.site` are the site, `service.type` is `"frappe-web"`, version and environment come from the config; two sites' labels differ only in those two fields, and differ iff the sites do |
| `Telemetry.Provider.constructor` | simbotix_otel/app.py:113-114 | a provider holds the given labels and exporter |
| `Telemetry.TelemetryState.constructor` | simbotix_otel/app.py:63-68 | at import nothing is resolved and both caches are empty |
| `Telemetry.TelemetryState.GetConfig` | simbotix_otel/app.py:72-77 | the first call stores `get_otel_config(env)` and its parsed headers; later calls return the stored pair and ignore the environment; the headers always equal the parse of the stored header string |
| `Telemetry.TelemetryState.GetTracerProviderForSite` | simbotix_otel/app.py:89-117 | hit: the stored provider, state unchanged; miss: a fresh provider with the site's labels and the `/v1/traces` exporter, inserted under the site only, logger cache untouched; the invariant keeps one construction per site |
| `Telemetry.TelemetryState.GetLoggerProviderForSite` | simbotix_otel/app.py:120-148 | the same for logger providers with the `/v1/logs` exporter, tracer cache untouched |
| `Telemetry.TelemetryState.SetupGlobalTelemetry` | simbotix_otel/app.py:151-183 | resolves the config, sets the meter provider (labels without a site, `/v1/metrics`, 30000 ms), and leaves `"frappe-web"` in both caches with other entries unchanged |
| `Middleware.RequestSite` | simbotix_otel/app.py:224-225 | a request without `HTTP_HOST`, or with an empty one, belongs to `"unknown"`; otherwise to the site of its host |
| `Middleware.OTelWrapper.constructor` | simbotix_otel/app.py:216-219 | a wrapper holds the application and the given tracer provider |
| `Middleware.SiteAwareOTelMiddleware.constructor` | simbotix_otel/app.py:208-210 | a new middleware wraps the application with an empty wrapper cache |
| `Middleware.SiteAwareOTelMiddleware.GetMiddlewareForSite` | simbotix_otel/app.py:212-220 | hit: the stored wrapper, nothing changed; miss: a fresh wrapper around the application and the site's tracer provider, inserted under the site only, the tracer cache gaining at most that site; in both cases the logger cache and the meter provider are unchanged and a resolved configuration stays as it was; every cached wrapper exports through its own site's cached tracer provider |
| `Middleware.SiteAwareOTelMiddleware.Call` | simbotix_otel/app.py:222-233 | `environ["OTEL_SITE_NAME"]` becomes the request's site and nothing else in `environ` changes; the request goes to that site's wrapper, the cached one (telemetry unchanged) or a fresh one inserted under the site, with the tracer cache gaining at most that site; the logger cache and the meter provider are unchanged and a resolved configuration stays as it was |
| `Middleware.PortAndPortlessShareWrapper` | simbotix_otel/app.py:222-233 | requests for `h:port` and then for `h` are forwarded to the same wrapper |

## Left out

- The OpenTelemetry SDK objects themselves are not modelled: `Resource`, `TracerProvider`, `BatchSpanProcessor`, the OTLP exporters, `MeterProvider`, `PeriodicExportingMetricReader` and `LoggerProvider`. They are foreign library code. A provider here is its labels plus its exporter's URL and headers.
- Background batching and network export are left out. They are asynchronous I/O inside the SDK.
- `Resource.create` also merges the SDK's default attributes (`telemetry.sdk.*`). Those are not modelled.
- Telemetry.TelemetryState.SetupGlobalTelemetry: the calls that install process-wide providers are not modelled: `metrics.set_meter_provider`, `trace.set_tracer_provider` and `set_logger_provider`. Nor are the `LoggingHandler` and the handler and level changes on the five loggers, or the Requests, Redis, PyMySQL and logging instrumentors. All of these are library configuration with no state this model can observe.
- Middleware.SiteAwareOTelMiddleware.Call: forwarding through `OpenTelemetryMiddleware` is not modelled, and neither is the call into the Frappe application. The request span, `start_response` and the WSGI response are the library's and the application's. The method returns the wrapper the request is handed to, not the response.
- The `environ` dictionary holds only string values here. WSGI's non-string entries (`wsgi.input` and the like) are never read or written by the middleware.
- Module import (app.py:236-246) is not modelled: the call to `setup_global_telemetry`, the import of `frappe.app` and the start-up log line. The model's counterpart is constructing a `TelemetryState`, calling `SetupGlobalTelemetry`, and constructing the middleware.
- Concurrency is not modelled. The source takes no lock around the check-then-insert on its caches, so two threads that miss on one site at the same moment can each build a provider. The caches are modelled as sequential code.
- Headers.ParseHeaders takes a `str`. The source's `not headers_str` also accepts `None`, but the module only ever passes the string from `get_otel_config`, whose default is `""`.
- The `service_name` field of the configuration is resolved but never read by the module. It is kept in `Config` and not used elsewhere.
- `simbotix_otel/hooks.py` and `simbotix_otel/__init__.py` are not part of this model. They hold app metadata constants and commented-out hooks.
