/** Choosing and configuring the chat model (utils/LLMSelector.py): the supported name, the three
    settings checked in a fixed order, and the keyword arguments the OpenAI-compatible client is
    built from. The client itself is those keyword arguments. */
module LlmSelector {
  import opened Wrappers

  /** The one supported model name. */
  const SupportedName: string := "gemini-2.5-flash"

  /** The settings read from the environment; a variable that is not set reads as `None`. */
  datatype Settings = Settings(apiKey: Option<string>, baseUrl: Option<string>, model: Option<string>)

  /** A keyword argument's value: text, the float temperature, or anything else a caller passes
      (named by its `repr`). */
  datatype KwValue = KText(s: string) | KFloat(r: real) | KOther(repr: string)

  type Kwargs = map<string, KwValue>

  /** The names of `create_openai_llm`'s own parameters: Python binds these and never lets them
      into `**kwargs`. */
  const NamedParameters: set<string> := {"model", "base_url", "api_key", "temperature"}

  /** The message of the `ValueError` for a setting that is not set. */
  function MissingMessage(variable: string): string
  {
    variable + " 未设置，请检查 .env 文件"
  }

  function UnsupportedMessage(name: string): string
  {
    "Unsupported LLM: " + name
  }

  /** `create_openai_llm`: `model` and `temperature`, every extra keyword argument, and
      `base_url` and `api_key` only when they are non-empty. */
  function CreateOpenAiLlm(model: string, baseUrl: string, apiKey: string, temperature: real, extra: Kwargs): (r: Kwargs)
    requires extra.Keys !! NamedParameters
    ensures r.Keys == {"model", "temperature"} + extra.Keys
                      + (if baseUrl != "" then {"base_url"} else {})
                      + (if apiKey != "" then {"api_key"} else {})
    ensures r["model"] == KText(model) && r["temperature"] == KFloat(temperature)
    ensures baseUrl != "" ==> r["base_url"] == KText(baseUrl)
    ensures apiKey != "" ==> r["api_key"] == KText(apiKey)
    ensures forall k :: k in extra ==> r[k] == extra[k]
  {
    var base := map["model" := KText(model), "temperature" := KFloat(temperature)] + extra;
    var withUrl := if baseUrl != "" then base["base_url" := KText(baseUrl)] else base;
    if apiKey != "" then withUrl["api_key" := KText(apiKey)] else withUrl
  }

  /** `get_llm_by_name`: an unsupported name is an error; for the supported one the API key, the
      base URL and the model are checked in that order, and the client is built from
      (model, base URL, API key) with the default temperature 0.0 and no extra arguments. */
  function GetLlmByName(settings: Settings, name: string): (r: Result<Kwargs, string>)
    ensures r.Ok? <==> name == SupportedName && Truthy(settings.apiKey) && Truthy(settings.baseUrl)
                       && Truthy(settings.model)
    ensures r.Ok? ==> "model" in r.value && r.value["model"] == KText(settings.model.value)
    ensures r.Err? && name != SupportedName ==> r.error == UnsupportedMessage(name)
  {
    if name != SupportedName then Err(UnsupportedMessage(name))
    else if !Truthy(settings.apiKey) then Err(MissingMessage("GEMINI_2_5_FLASH_API_KEY"))
    else if !Truthy(settings.baseUrl) then Err(MissingMessage("GEMINI_2_5_FLASH_BASE_URL"))
    else if !Truthy(settings.model) then Err(MissingMessage("GEMINI_2_5_FLASH_MODEL"))
    else Ok(CreateOpenAiLlm(settings.model.value, settings.baseUrl.value, settings.apiKey.value, 0.0, map[]))
  }

  /** The settings in the order they are checked, each with its variable's name. */
  function CheckedSettings(settings: Settings): seq<(string, Option<string>)>
  {
    [("GEMINI_2_5_FLASH_API_KEY", settings.apiKey),
     ("GEMINI_2_5_FLASH_BASE_URL", settings.baseUrl),
     ("GEMINI_2_5_FLASH_MODEL", settings.model)]
  }

  /** The variable name of the first setting in `checks` that is unset or empty. */
  function FirstMissing(checks: seq<(string, Option<string>)>): (r: Option<string>)
    ensures r.None? <==> forall i :: 0 <= i < |checks| ==> Truthy(checks[i].1)
    ensures r.Some? ==> exists i :: 0 <= i < |checks| && checks[i].0 == r.value && !Truthy(checks[i].1)
                                    && forall j :: 0 <= j < i ==> Truthy(checks[j].1)
  {
    if checks == [] then None
    else if !Truthy(checks[0].1) then Some(checks[0].0)
    else
      var rest := FirstMissing(checks[1..]);
      assert forall i :: 0 <= i < |checks| - 1 ==> checks[1..][i] == checks[i + 1];
      rest
  }

  /** For the supported name, the call fails exactly when some setting is missing, and then it
      names the first missing one in checking order; otherwise it succeeds. */
  lemma ReportsFirstMissing(settings: Settings)
    ensures var r := GetLlmByName(settings, SupportedName);
      match FirstMissing(CheckedSettings(settings))
      case Some(variable) => r == Err(MissingMessage(variable))
      case None => r.Ok?
  {
    var checks := CheckedSettings(settings);
    assert checks[1..] == [checks[1], checks[2]];
    assert checks[1..][1..] == [checks[2]];
  }

  /** Any other name fails as unsupported, whatever the settings. */
  lemma OnlyOneNameSupported(settings: Settings, name: string)
    ensures GetLlmByName(settings, name).Ok? ==> name == SupportedName
    ensures name != SupportedName ==> GetLlmByName(settings, name) == Err(UnsupportedMessage(name))
  {
  }

  /** A successful selection passes each setting to its own parameter: the client gets exactly the
      model, the temperature 0.0, the base URL and the API key, none swapped. */
  lemma SelectedClientArguments(settings: Settings)
    requires GetLlmByName(settings, SupportedName).Ok?
    ensures var kw := GetLlmByName(settings, SupportedName).value;
      && kw.Keys == NamedParameters
      && kw["model"] == KText(settings.model.value)
      && kw["base_url"] == KText(settings.baseUrl.value)
      && kw["api_key"] == KText(settings.apiKey.value)
      && kw["temperature"] == KFloat(0.0)
  {
  }
}
