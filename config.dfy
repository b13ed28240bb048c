/** Start-up configuration (config.py). The process environment, after
    `.env` has been loaded, is given as a map from variable name to value. */
module Config {
  import opened Wrappers

  type Environment = map<string, string>

  /** The variables the service cannot start without, in the order checked. */
  const RequiredVars: seq<string> := ["NOTION_TOKEN", "DEEPSEEK_API_KEY"]

  /** `os.getenv(name)`: `None` when the variable is not set. */
  function GetEnv(env: Environment, name: string): Option<string> {
    if name in env then Some(env[name]) else None
  }

  /** `not os.getenv(name)`: unset, or set to the empty string. */
  predicate Missing(env: Environment, name: string) {
    name !in env || env[name] == ""
  }

  /** The message of the `ValueError` raised for a missing variable. */
  function MissingMessage(name: string): string {
    "Missing required environment variable: " + name
  }

  /** `msg` reports the first required variable, in list order, that is
      missing. */
  predicate ReportsFirstMissing(env: Environment, msg: string) {
    exists i :: 0 <= i < |RequiredVars| && Missing(env, RequiredVars[i]) &&
      (forall j :: 0 <= j < i ==> !Missing(env, RequiredVars[j])) &&
      msg == MissingMessage(RequiredVars[i])
  }

  /** `load_config`: copies each required variable into the result, raising
      on the first one that is missing. */
  method LoadConfig(env: Environment) returns (r: Result<map<string, string>, string>)
    ensures r.Success? <==> forall v :: v in RequiredVars ==> !Missing(env, v)
    ensures r.Success? ==> r.value.Keys == set v | v in RequiredVars
    ensures r.Success? ==> forall v :: v in r.value ==> v in env && r.value[v] == env[v]
    ensures r.Failure? ==> ReportsFirstMissing(env, r.error)
  {
    var config: map<string, string> := map[];
    for i := 0 to |RequiredVars|
      invariant config.Keys == set j | 0 <= j < i :: RequiredVars[j]
      invariant forall j :: 0 <= j < i ==> !Missing(env, RequiredVars[j])
      invariant forall v :: v in config ==> v in env && config[v] == env[v]
    {
      var name := RequiredVars[i];
      var value := GetEnv(env, name);
      if value.None? || value.value == "" {
        assert RequiredVars[i] in RequiredVars;
        return Failure(MissingMessage(name));
      }
      config := config[name := value.value];
    }
    return Success(config);
  }

  /** With both variables missing, the error names NOTION_TOKEN. */
  lemma FirstMissingReported(env: Environment, msg: string)
    requires Missing(env, "NOTION_TOKEN")
    requires ReportsFirstMissing(env, msg)
    ensures msg == MissingMessage("NOTION_TOKEN")
  {
    var i :| 0 <= i < |RequiredVars| && Missing(env, RequiredVars[i]) &&
      (forall j :: 0 <= j < i ==> !Missing(env, RequiredVars[j])) &&
      msg == MissingMessage(RequiredVars[i]);
    assert RequiredVars[0] == "NOTION_TOKEN";
  }
}
