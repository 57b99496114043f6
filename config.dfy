/** `get_otel_config`: the exporter settings read from the process
    environment, each variable with its own default. */
module OTelConfig {

  /** The environment: variable name to value. */
  type Environment = map<string, string>

  const EndpointVar: string := "OTEL_EXPORTER_OTLP_ENDPOINT"
  const HeadersVar: string := "OTEL_EXPORTER_OTLP_HEADERS"
  const ServiceNameVar: string := "OTEL_SERVICE_NAME"
  const ServiceVersionVar: string := "OTEL_SERVICE_VERSION"
  const EnvironmentVar: string := "OTEL_DEPLOYMENT_ENVIRONMENT"

  const DefaultEndpoint: string := "https://otel.appz.studio"
  const DefaultHeaders: string := ""
  const DefaultServiceName: string := "frappe"
  const DefaultServiceVersion: string := "15.91.0"
  const DefaultEnvironment: string := "production"

  /** The configuration dictionary: the collector base URL, the raw header
      string, and the service name, version and deployment environment. */
  datatype Config = Config(
    endpoint: string,
    headers: string,
    serviceName: string,
    serviceVersion: string,
    environment: string)

  /** Python's `environ.get(name, default)`: a variable that is set, even to
      the empty string, wins over the default. */
  function EnvGet(env: Environment, name: string, default: string): (v: string)
    ensures name in env ==> v == env[name]
    ensures name !in env ==> v == default
  {
    if name in env then env[name] else default
  }

  /** Every field is the value of its variable when that variable is set and
      its literal default otherwise. */
  function GetOtelConfig(env: Environment): (c: Config)
    ensures EndpointVar in env ==> c.endpoint == env[EndpointVar]
    ensures EndpointVar !in env ==> c.endpoint == "https://otel.appz.studio"
    ensures HeadersVar in env ==> c.headers == env[HeadersVar]
    ensures HeadersVar !in env ==> c.headers == ""
    ensures ServiceNameVar in env ==> c.serviceName == env[ServiceNameVar]
    ensures ServiceNameVar !in env ==> c.serviceName == "frappe"
    ensures ServiceVersionVar in env ==> c.serviceVersion == env[ServiceVersionVar]
    ensures ServiceVersionVar !in env ==> c.serviceVersion == "15.91.0"
    ensures EnvironmentVar in env ==> c.environment == env[EnvironmentVar]
    ensures EnvironmentVar !in env ==> c.environment == "production"
  {
    Config(
      EnvGet(env, EndpointVar, DefaultEndpoint),
      EnvGet(env, HeadersVar, DefaultHeaders),
      EnvGet(env, ServiceNameVar, DefaultServiceName),
      EnvGet(env, ServiceVersionVar, DefaultServiceVersion),
      EnvGet(env, EnvironmentVar, DefaultEnvironment))
  }

  /** Whether two environments agree on one variable (both unset, or both set to the same value). */
  predicate SameVar(env1: Environment, env2: Environment, name: string)
  {
    (name in env1 <==> name in env2) && (name in env1 ==> env1[name] == env2[name])
  }

  /** The configuration depends on the five OTEL variables only. */
  lemma ConfigReadsOnlyOtelVariables(env1: Environment, env2: Environment)
    requires SameVar(env1, env2, EndpointVar) && SameVar(env1, env2, HeadersVar)
    requires SameVar(env1, env2, ServiceNameVar) && SameVar(env1, env2, ServiceVersionVar)
    requires SameVar(env1, env2, EnvironmentVar)
    ensures GetOtelConfig(env1) == GetOtelConfig(env2)
  {
  }

  /** With none of the variables set, every field takes its default. */
  lemma DefaultConfig(env: Environment)
    requires EndpointVar !in env && HeadersVar !in env && ServiceNameVar !in env
    requires ServiceVersionVar !in env && EnvironmentVar !in env
    ensures GetOtelConfig(env)
            == Config("https://otel.appz.studio", "", "frappe", "15.91.0", "production")
  {
  }
}
