/** Site-wide settings read from the environment when the site is built. */
module Config {
  import opened Js

  /** The four environment variables that feed the Airtable settings (absent = undefined). */
  datatype Env = Env(
    keibaGuideBaseId: Option<JsString>,
    airtableBaseId: Option<JsString>,
    keibaGuideApiKey: Option<JsString>,
    airtableApiKey: Option<JsString>)

  datatype AirtableConfig = AirtableConfig(baseId: JsString, apiKey: JsString)

  /** The base used when neither base-id variable is set. */
  const DEFAULT_BASE_ID: JsString := Bmp("appiHsDBAFFSmCiBV")

  /**
   * The project-specific variable wins over the shared one; the base id
   * falls back to a built-in id, the API key to the empty string.
   */
  function Airtable(env: Env): (c: AirtableConfig)
    ensures c.baseId != []
    ensures IsTruthy(env.keibaGuideBaseId) ==> c.baseId == env.keibaGuideBaseId.value
    ensures !IsTruthy(env.keibaGuideBaseId) && IsTruthy(env.airtableBaseId) ==> c.baseId == env.airtableBaseId.value
    ensures !IsTruthy(env.keibaGuideBaseId) && !IsTruthy(env.airtableBaseId) ==> c.baseId == DEFAULT_BASE_ID
    ensures c.apiKey == [] <==> !IsTruthy(env.keibaGuideApiKey) && !IsTruthy(env.airtableApiKey)
    ensures c.apiKey != [] ==> Some(c.apiKey) == env.keibaGuideApiKey || Some(c.apiKey) == env.airtableApiKey
  {
    AirtableConfig(
      OrElse(env.keibaGuideBaseId, OrElse(env.airtableBaseId, DEFAULT_BASE_ID)),
      OrElse(env.keibaGuideApiKey, OrElse(env.airtableApiKey, [])))
  }

  /** The guard every data function applies before touching Airtable. */
  predicate CredentialsMissing(c: AirtableConfig) {
    c.apiKey == [] || c.baseId == []
  }

  /**
   * Because the base id always has a fallback, the settings are incomplete
   * exactly when no API-key variable is set: that is also when the start-up
   * warning is printed.
   */
  lemma MissingIffNoApiKey(env: Env)
    ensures CredentialsMissing(Airtable(env)) <==> !IsTruthy(env.keibaGuideApiKey) && !IsTruthy(env.airtableApiKey)
  {
  }

  /**
   * The start-up check of the maintenance scripts: an API key and a base id
   * are both needed, each from the project variable or the shared one, and
   * neither has a built-in fallback.
   */
  predicate ScriptCredentials(env: Env) {
    && OrElse(env.keibaGuideApiKey, OrElse(env.airtableApiKey, [])) != []
    && OrElse(env.keibaGuideBaseId, OrElse(env.airtableBaseId, [])) != []
  }
}
