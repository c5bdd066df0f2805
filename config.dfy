/** Start-up configuration: the exporter reads three environment variables
    once, before it serves any request. A missing mandatory variable ends the
    process; here that outcome is an error value naming the variable. */
module Config {

  const EnvTeslaWallboxIp: string := "TESLA_WALLBOX_IP"
  const EnvDebug: string := "DEBUG"
  const EnvKeepPowerMeter: string := "KEEP_POWER_METER"

  /** The environment as the process sees it: variable name to value. */
  type Environment = map<string, string>

  datatype Result<+T> = Ok(value: T) | MissingVariable(name: string)

  /** What start-up decides: the device address, whether debug logging is on
      and whether the stale-value guard is enabled. */
  datatype Settings = Settings(ipAddress: string, debug: bool, keepPowerMeters: bool)

  /** Looks a variable up; a variable that is not set at all is fatal, while a
      variable set to the empty string is a value like any other. */
  function GetEnvVariableOrDie(env: Environment, name: string): (r: Result<string>)
    ensures r.Ok? <==> name in env
    ensures r.Ok? ==> r.value == env[name]
    ensures r.MissingVariable? ==> r.name == name
  {
    if name in env then Ok(env[name]) else MissingVariable(name)
  }

  /** The configuration decision of the process's start-up. The device address
      is read first and then DEBUG, both through GetEnvVariableOrDie, so either
      one missing is fatal and a missing address is reported first. The guard
      flag is optional: only the exact value "true" turns it on. */
  function LoadSettings(env: Environment): (r: Result<Settings>)
    ensures r.Ok? <==> EnvTeslaWallboxIp in env && EnvDebug in env
    ensures EnvTeslaWallboxIp !in env ==> r == MissingVariable(EnvTeslaWallboxIp)
    ensures EnvTeslaWallboxIp in env && EnvDebug !in env ==> r == MissingVariable(EnvDebug)
    ensures r.Ok? ==> r.value.ipAddress == env[EnvTeslaWallboxIp]
    ensures r.Ok? ==> (r.value.debug <==> env[EnvDebug] == "true")
    ensures r.Ok? ==> (r.value.keepPowerMeters <==>
                         EnvKeepPowerMeter in env && env[EnvKeepPowerMeter] == "true")
  {
    match GetEnvVariableOrDie(env, EnvTeslaWallboxIp)
    case MissingVariable(name) => MissingVariable(name)
    case Ok(ipAddress) =>
      match GetEnvVariableOrDie(env, EnvDebug)
      case MissingVariable(name) => MissingVariable(name)
      case Ok(debugValue) =>
        var keep := EnvKeepPowerMeter in env && env[EnvKeepPowerMeter] == "true";
        Ok(Settings(ipAddress, debugValue == "true", keep))
  }

  /** Whether the guard flag is present or not never decides between success
      and failure: two environments that differ only in KEEP_POWER_METER both
      load or both fail, and agree on everything but the guard flag. */
  lemma KeepPowerMeterIsOptional(env: Environment, value: string)
    ensures var with := LoadSettings(env[EnvKeepPowerMeter := value]);
            var without := LoadSettings(env - {EnvKeepPowerMeter});
            && (with.Ok? <==> without.Ok?)
            && (with.Ok? ==> with.value == without.value.(keepPowerMeters := value == "true"))
            && (without.Ok? ==> !without.value.keepPowerMeters)
  {
  }
}
