/** The configuration commands: the database connection settings and the
    API keys, read from the process environment. */
module Config {
  import opened Base

  /** The process environment: variable name to value. */
  type Environment = map<string, string>

  datatype SupabaseConfig = SupabaseConfig(url: string, anonKey: string)

  /** `get_supabase_config`: both variables must be set; the URL is
      looked up first, so when both are missing the URL is reported. */
  function GetSupabaseConfig(env: Environment): (r: Result<SupabaseConfig, string>)
    ensures r.Success? <==> "SUPABASE_URL" in env && "SUPABASE_ANON_KEY" in env
    ensures r.Success? ==> r.value == SupabaseConfig(env["SUPABASE_URL"], env["SUPABASE_ANON_KEY"])
    ensures "SUPABASE_URL" !in env ==> r == Failure("SUPABASE_URL is not set")
    ensures "SUPABASE_URL" in env && "SUPABASE_ANON_KEY" !in env ==> r == Failure("SUPABASE_ANON_KEY is not set")
  {
    if "SUPABASE_URL" !in env then Failure("SUPABASE_URL is not set")
    else if "SUPABASE_ANON_KEY" !in env then Failure("SUPABASE_ANON_KEY is not set")
    else Success(SupabaseConfig(env["SUPABASE_URL"], env["SUPABASE_ANON_KEY"]))
  }

  /** The environment variable holding the key of a provider, named in any
      case. */
  function EnvVarFor(keyName: string): Option<string>
  {
    match Lower(keyName)
    case "anthropic" => Some("ANTHROPIC_API_KEY")
    case "gemini" => Some("GEMINI_API_KEY")
    case _ => None
  }

  /** `get_api_key`: the variable's value, unchanged, or why there is none. */
  function GetApiKey(keyName: string, env: Environment): (r: Result<string, string>)
    ensures EnvVarFor(keyName).None? ==> r == Failure("Unknown key name: " + keyName)
    ensures EnvVarFor(keyName).Some? && EnvVarFor(keyName).value !in env ==>
      r == Failure(EnvVarFor(keyName).value + " is not set in environment")
    ensures EnvVarFor(keyName).Some? && EnvVarFor(keyName).value in env ==>
      r == Success(env[EnvVarFor(keyName).value])
  {
    match EnvVarFor(keyName)
    case None => Failure("Unknown key name: " + keyName)
    case Some(envKey) =>
      if envKey in env then Success(env[envKey]) else Failure(envKey + " is not set in environment")
  }

  /** `is_api_key_configured`. */
  function IsApiKeyConfigured(keyName: string, env: Environment): (configured: bool)
    ensures configured ==> EnvVarFor(keyName).Some?
  {
    match EnvVarFor(keyName)
    case None => false
    case Some(envKey) => envKey in env
  }

  /** A key is configured exactly when it can be read. */
  lemma ConfiguredIffReadable(keyName: string, env: Environment)
    ensures IsApiKeyConfigured(keyName, env) <==> GetApiKey(keyName, env).Success?
  {
  }

  /** The two providers, in any case, and nothing else. */
  lemma ProviderNames(keyName: string)
    ensures EnvVarFor(keyName).Some? <==> Lower(keyName) in {"anthropic", "gemini"}
    ensures EnvVarFor(keyName) == EnvVarFor(Lower(keyName))
    ensures EnvVarFor("anthropic") == Some("ANTHROPIC_API_KEY")
    ensures EnvVarFor("Gemini") == Some("GEMINI_API_KEY")
    ensures EnvVarFor("ANTHROPIC") == Some("ANTHROPIC_API_KEY")
  {
    LowerIdempotent(keyName);
    assert Lower("anthropic") == "anthropic";
    assert Lower("Gemini") == "gemini";
    assert Lower("ANTHROPIC") == "anthropic";
  }

  /** Reading a key does not depend on variables other than its own. */
  lemma ApiKeyReadsOnlyItsVariable(keyName: string, env: Environment, name: string, value: string)
    requires EnvVarFor(keyName).Some? && name != EnvVarFor(keyName).value
    ensures GetApiKey(keyName, env[name := value]) == GetApiKey(keyName, env)
  {
  }
}
