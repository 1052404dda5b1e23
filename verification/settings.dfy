/**
  `Client::Config`, the settings one named client uses. The logger is not
  part of this model; durations are real numbers of seconds that the client
  hands to the transport and never interprets.
 */
module Settings {

  datatype Timeouts = Timeouts(open: real, read: real, write: real)

  datatype Config = Config(
    hostBase: string,
    hmacSecret: string,
    hmacSkew: int,
    timeouts: Timeouts,
    pollInterval: real,
    maxWaitTime: real)

  const HostVariable := "ORCH_AGENT_HOST"
  const SecretVariable := "HMAC_SECRET"

  /**
    `Config.new` in a process whose environment is `env`: the host and the
    secret come from the environment when it sets them, everything else is
    a fixed default.
   */
  function NewConfig(env: map<string, string>): (c: Config)
    ensures HostVariable in env ==> c.hostBase == env[HostVariable]
    ensures HostVariable !in env ==> c.hostBase == "http://localhost:4002/executions"
    ensures SecretVariable in env ==> c.hmacSecret == env[SecretVariable]
    ensures SecretVariable !in env ==> c.hmacSecret == "supersecret"
    ensures c.hmacSkew == 300 && c.timeouts == Timeouts(2.0, 3.0, 3.0)
    ensures c.pollInterval == 1.0 && c.maxWaitTime == 30.0
  {
    Config(
      if HostVariable in env then env[HostVariable] else "http://localhost:4002/executions",
      if SecretVariable in env then env[SecretVariable] else "supersecret",
      300,
      Timeouts(2.0, 3.0, 3.0),
      1.0,
      30.0)
  }

  /** Only the host and the secret depend on the environment; every other setting is the same default in any process. */
  lemma EnvironmentSetsOnlyHostAndSecret(env: map<string, string>, other: map<string, string>)
    ensures NewConfig(env).(hostBase := "", hmacSecret := "") == NewConfig(other).(hostBase := "", hmacSecret := "")
    ensures NewConfig(env).hmacSkew == 300
  {
  }

  /** Variables other than the two the configuration reads make no difference to it. */
  lemma UnrelatedVariablesIgnored(env: map<string, string>, name: string, value: string)
    requires name != HostVariable && name != SecretVariable
    ensures NewConfig(env[name := value]) == NewConfig(env)
    ensures NewConfig(map n | n in env && n in {HostVariable, SecretVariable} :: env[n]) == NewConfig(env)
  {
  }

  /** Setting a variable, even to the empty string, overrides the default: Ruby treats every String as true. */
  lemma SetVariablesWin(env: map<string, string>, host: string, secret: string)
    ensures NewConfig(env[HostVariable := host][SecretVariable := secret]).hostBase == host
    ensures NewConfig(env[HostVariable := host][SecretVariable := secret]).hmacSecret == secret
  {
  }
}
