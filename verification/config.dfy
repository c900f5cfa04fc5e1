/**
 * The settings read from the environment once, when `Config` is first imported,
 * and `Config.validate`, which checks that the two API keys are set.
 */
module Config {
  import opened Wrappers
  import opened Text

  type Env = map<string, string>

  /** `os.getenv(name, default)`. */
  function Getenv(env: Env, name: string, default: string): string {
    if name in env then env[name] else default
  }

  /** `os.getenv(name, "True").lower() == "true"`, as HEADLESS_MODE and DEBUG are read. */
  function EnvFlag(env: Env, name: string): bool {
    Lower(Getenv(env, name, "True")) == "true"
  }

  /** `int(os.getenv(name, default))`; None stands for the ValueError `int` raises. */
  function EnvInt(env: Env, name: string, default: string): Option<int> {
    ParseInt(Getenv(env, name, default))
  }

  /** DEFAULT_SEARCH_RADIUS: 10 km, in metres. */
  const DefaultSearchRadius: int := 10000

  const DefaultLocation: string := "São Paulo, SP, Brasil"

  datatype Settings = Settings(
    openrouterApiKey: string,
    openrouterBaseUrl: string,
    openrouterModel: string,
    openrouterSiteUrl: string,
    openrouterSiteName: string,
    googleMapsApiKey: string,
    chromeDriverPath: string,
    headlessMode: bool,
    databaseUrl: string,
    debug: bool,
    maxResultsPerSearch: int,
    searchDelay: int)

  /**
   * The class attributes of `Config`, evaluated in declaration order; a Failure is the
   * ValueError that `int(...)` raises while the module is imported.
   */
  function LoadSettings(env: Env): (r: Result<Settings>)
    ensures r.Success? <==> EnvInt(env, "MAX_RESULTS_PER_SEARCH", "50").Some? && EnvInt(env, "SEARCH_DELAY", "2").Some?
    ensures r.Success? ==>
      && r.value.googleMapsApiKey == Getenv(env, "GOOGLE_MAPS_API_KEY", "")
      && r.value.openrouterApiKey == Getenv(env, "OPENROUTER_API_KEY", "")
      && r.value.headlessMode == EnvFlag(env, "HEADLESS_MODE") && r.value.debug == EnvFlag(env, "DEBUG")
      && Some(r.value.maxResultsPerSearch) == EnvInt(env, "MAX_RESULTS_PER_SEARCH", "50")
      && Some(r.value.searchDelay) == EnvInt(env, "SEARCH_DELAY", "2")
  {
    var maxResults := EnvInt(env, "MAX_RESULTS_PER_SEARCH", "50");
    var delay := EnvInt(env, "SEARCH_DELAY", "2");
    if maxResults.None? then Failure("invalid literal for int() with base 10")
    else if delay.None? then Failure("invalid literal for int() with base 10")
    else Success(Settings(
      openrouterApiKey := Getenv(env, "OPENROUTER_API_KEY", ""),
      openrouterBaseUrl := Getenv(env, "OPENROUTER_BASE_URL", "https://openrouter.ai/api/v1"),
      openrouterModel := Getenv(env, "OPENROUTER_MODEL", "openai/gpt-4"),
      openrouterSiteUrl := Getenv(env, "OPENROUTER_SITE_URL", ""),
      openrouterSiteName := Getenv(env, "OPENROUTER_SITE_NAME", ""),
      googleMapsApiKey := Getenv(env, "GOOGLE_MAPS_API_KEY", ""),
      chromeDriverPath := Getenv(env, "CHROME_DRIVER_PATH", "/usr/bin/chromedriver"),
      headlessMode := EnvFlag(env, "HEADLESS_MODE"),
      databaseUrl := Getenv(env, "DATABASE_URL", "sqlite:///leads.db"),
      debug := EnvFlag(env, "DEBUG"),
      maxResultsPerSearch := maxResults.value,
      searchDelay := delay.value))
  }

  /** A flag is on exactly when its text is some capitalisation of "true"; unset, it is on. */
  lemma EnvFlagMeaning(env: Env, name: string)
    ensures name !in env ==> EnvFlag(env, name)
    ensures name in env ==> (EnvFlag(env, name) <==> EqualsIgnoringCase(env[name], "true"))
  {
    if name !in env {
      assert Lower("True") == "true";
    }
  }

  /** Setting a flag to Python's own `str(b)` ("True" / "False") reads back as `b`. */
  lemma EnvFlagOfPythonBool(env: Env, name: string, b: bool)
    requires name in env && env[name] == (if b then "True" else "False")
    ensures EnvFlag(env, name) == b
  {
    if b {
      assert Lower("True") == "true";
    } else {
      assert |Lower("False")| == 5;
    }
  }

  /** The integer settings fall back to 50 and 2, and read back any integer written with `str`. */
  lemma EnvIntDefaults(env: Env, name: string, n: int)
    ensures "MAX_RESULTS_PER_SEARCH" !in env ==> EnvInt(env, "MAX_RESULTS_PER_SEARCH", "50") == Some(50)
    ensures "SEARCH_DELAY" !in env ==> EnvInt(env, "SEARCH_DELAY", "2") == Some(2)
    ensures name in env && env[name] == IntToString(n) ==> EnvInt(env, name, "0") == Some(n)
  {
    assert NatToString(5) == "5" && NatToString(2) == "2";
    assert IntToString(50) == "50" by { assert NatToString(50) == NatToString(5) + [DigitChar(0)]; }
    ParseIntOfIntToString(50);
    ParseIntOfIntToString(2);
    ParseIntOfIntToString(n);
  }

  /** The names `validate` requires, in the order it checks them. */
  const RequiredVars: seq<string> := ["OPENROUTER_API_KEY", "GOOGLE_MAPS_API_KEY"]

  const MissingVarsMessage: string := "Variáveis de ambiente obrigatórias não definidas: "

  /** `getattr(Config, name)` for the required names. */
  function Attr(s: Settings, name: string): string {
    if name == "OPENROUTER_API_KEY" then s.openrouterApiKey
    else if name == "GOOGLE_MAPS_API_KEY" then s.googleMapsApiKey
    else ""
  }

  /** The names among `names` whose setting is empty, in the order of `names`. */
  function Missing(s: Settings, names: seq<string>): (r: seq<string>)
    ensures |r| <= |names|
    ensures forall x :: x in r <==> x in names && Attr(s, x) == ""
  {
    if names == [] then []
    else (if Attr(s, names[0]) == "" then [names[0]] else []) + Missing(s, names[1..])
  }

  /**
   * `Config.validate()`: Success(true) when every required key is set; otherwise the
   * ValueError whose message lists the missing names, joined by ", ", in order.
   */
  method Validate(s: Settings) returns (r: Result<bool>)
    ensures r.Success? <==> s.openrouterApiKey != "" && s.googleMapsApiKey != ""
    ensures r.Success? ==> r.value
    ensures r.Failure? ==> r.error == MissingVarsMessage + Join(Missing(s, RequiredVars), ", ")
  {
    var missing: seq<string> := [];
    var i := 0;
    while i < |RequiredVars|
      invariant 0 <= i <= |RequiredVars|
      invariant missing == Missing(s, RequiredVars[..i])
    {
      assert RequiredVars[..i + 1] == RequiredVars[..i] + [RequiredVars[i]];
      MissingAppend(s, RequiredVars[..i], RequiredVars[i]);
      if Attr(s, RequiredVars[i]) == "" {
        missing := missing + [RequiredVars[i]];
      }
      i := i + 1;
    }
    assert RequiredVars[..i] == RequiredVars;
    if missing != [] {
      return Failure(MissingVarsMessage + Join(missing, ", "));
    }
    assert Attr(s, "OPENROUTER_API_KEY") != "" && Attr(s, "GOOGLE_MAPS_API_KEY") != "" by {
      assert "OPENROUTER_API_KEY" in RequiredVars && "GOOGLE_MAPS_API_KEY" in RequiredVars;
    }
    return Success(true);
  }

  lemma {:induction false} MissingAppend(s: Settings, names: seq<string>, x: string)
    ensures Missing(s, names + [x]) == Missing(s, names) + (if Attr(s, x) == "" then [x] else [])
    decreases |names|
  {
    if names == [] {
      assert names + [x] == [x];
    } else {
      assert (names + [x])[1..] == names[1..] + [x];
      MissingAppend(s, names[1..], x);
    }
  }

  /** The missing names are listed in the fixed order OPENROUTER_API_KEY, GOOGLE_MAPS_API_KEY. */
  lemma MissingOrder(s: Settings)
    ensures Missing(s, RequiredVars) ==
      (if s.openrouterApiKey == "" then ["OPENROUTER_API_KEY"] else [])
      + (if s.googleMapsApiKey == "" then ["GOOGLE_MAPS_API_KEY"] else [])
  {
    assert RequiredVars[1..] == ["GOOGLE_MAPS_API_KEY"];
    assert RequiredVars[1..][1..] == [];
  }

  /** When both keys are missing the message names both, separated by ", ". */
  lemma BothMissingMessage(s: Settings)
    requires s.openrouterApiKey == "" && s.googleMapsApiKey == ""
    ensures MissingVarsMessage + Join(Missing(s, RequiredVars), ", ")
      == MissingVarsMessage + "OPENROUTER_API_KEY, GOOGLE_MAPS_API_KEY"
  {
    MissingOrder(s);
    var xs := ["OPENROUTER_API_KEY", "GOOGLE_MAPS_API_KEY"];
    assert xs[1..] == ["GOOGLE_MAPS_API_KEY"];
  }
}
