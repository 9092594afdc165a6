/** The command line's check of the selected authentication method against the
    loaded settings and environment, which are taken here as inputs. The result
    is an error message, or None when the method can be used. */
module AuthConfig {
  import opened Common
  import CustomOAuth

  /** The authentication methods the command line knows, and any other name. */
  datatype AuthMethod = UseOpenAI | QwenOAuth | CustomOAuthMethod | Unrecognised(name: string)

  /** The custom-OAuth settings block (settings.merged.security.custom). */
  datatype CustomAuthSettings = CustomAuthSettings(
    apiUrl: Option<string>,
    staticApiKey: Option<string>,
    authServerUrl: Option<string>,
    clientId: Option<string>,
    scope: Option<string>)

  /** What the validation reads: the OPENAI_API_KEY environment variable, the
      settings' auth apiKey and the custom-OAuth block, each possibly absent. */
  datatype AuthInputs = AuthInputs(
    openAiKeyEnv: Option<string>,
    settingsApiKey: Option<string>,
    custom: Option<CustomAuthSettings>)

  const OpenAiKeyMissing := "OPENAI_API_KEY environment variable not found. You can enter it interactively or add it to your .env file."
  const ApiUrlMissing := "Custom OAuth requires apiUrl to be configured in settings."
  const AuthServerOrClientMissing := "Custom OAuth requires authServerUrl and clientId to be configured in settings unless a staticApiKey is provided."
  const InvalidMethod := "Invalid auth method selected."

  /** `value?.trim()` taken as a condition: present and not blank once trimmed. */
  predicate FilledIn(value: Option<string>)
    ensures FilledIn(value) <==> !Blank(value)
  {
    value.Some? && Trim(value.value) != ""
  }

  /** A setting that is missing, or present but blank. */
  predicate Blank(value: Option<string>)
  {
    value.None? || IsBlank(value.value)
  }

  function ValidateCustomOAuth(custom: Option<CustomAuthSettings>): Option<string>
  {
    if custom.None? || !FilledIn(custom.value.apiUrl) then Some(ApiUrlMissing)
    else if FilledIn(custom.value.staticApiKey) then None
    else if !FilledIn(custom.value.authServerUrl) || !FilledIn(custom.value.clientId) then Some(AuthServerOrClientMissing)
    else None
  }

  /** validateAuthMethod. OpenAI needs a key from the environment or the
      settings (untrimmed); Qwen OAuth needs nothing; custom OAuth needs an
      apiUrl first of all, and then either a static key or both authServerUrl
      and clientId, all judged after trimming; any other method is invalid. */
  function ValidateAuthMethod(authMethod: AuthMethod, inputs: AuthInputs): (r: Option<string>)
    ensures authMethod == QwenOAuth ==> r == None
    ensures authMethod.Unrecognised? ==> r == Some(InvalidMethod)
    ensures authMethod == UseOpenAI ==>
              (r == None <==> Truthy(inputs.openAiKeyEnv) || Truthy(inputs.settingsApiKey))
              && (r != None ==> r == Some(OpenAiKeyMissing))
    ensures authMethod == CustomOAuthMethod && (inputs.custom.None? || Blank(inputs.custom.value.apiUrl)) ==>
              r == Some(ApiUrlMissing)
    ensures authMethod == CustomOAuthMethod && inputs.custom.Some? && !Blank(inputs.custom.value.apiUrl)
            && !Blank(inputs.custom.value.staticApiKey) ==>
              r == None
    ensures authMethod == CustomOAuthMethod && inputs.custom.Some? && !Blank(inputs.custom.value.apiUrl)
            && Blank(inputs.custom.value.staticApiKey) ==>
              (r == None <==> !Blank(inputs.custom.value.authServerUrl) && !Blank(inputs.custom.value.clientId))
              && (r != None ==> r == Some(AuthServerOrClientMissing))
  {
    match authMethod
    case UseOpenAI =>
      if !(Truthy(inputs.openAiKeyEnv) || Truthy(inputs.settingsApiKey)) then Some(OpenAiKeyMissing) else None
    case QwenOAuth => None
    case CustomOAuthMethod => ValidateCustomOAuth(inputs.custom)
    case Unrecognised(_) => Some(InvalidMethod)
  }

  /** The client configuration built from the custom-OAuth settings block. */
  function ClientSettings(custom: CustomAuthSettings): CustomOAuth.CustomSettings
  {
    CustomOAuth.CustomSettings(custom.authServerUrl, custom.clientId, custom.staticApiKey, custom.scope)
  }

  /** Settings the command line accepts for custom OAuth also satisfy the
      client constructor, and both agree on whether static-key mode is used.
      (The converse fails: the constructor does not trim authServerUrl or
      clientId, and does not look at apiUrl.) */
  lemma ValidatedSettingsConstructClient(inputs: AuthInputs)
    requires ValidateAuthMethod(CustomOAuthMethod, inputs) == None
    ensures inputs.custom.Some?
    ensures var settings := ClientSettings(inputs.custom.value);
            && CustomOAuth.CheckSettings(settings).Ok?
            && (CustomOAuth.StaticKeyOf(settings).Some? <==> FilledIn(inputs.custom.value.staticApiKey))
  {
  }

  /** A concrete pair that shows the converse does not hold: a whitespace-only
      authServerUrl passes the client constructor but not the command line. */
  lemma ConstructorAcceptsWhatValidationRejects()
    ensures var custom := CustomAuthSettings(Some("https://api"), None, Some(" "), Some("cli"), None);
            && CustomOAuth.CheckSettings(ClientSettings(custom)).Ok?
            && ValidateAuthMethod(CustomOAuthMethod, AuthInputs(None, None, Some(custom))) == Some(AuthServerOrClientMissing)
  {
    var custom := CustomAuthSettings(Some("https://api"), None, Some(" "), Some("cli"), None);
    assert IsBlank(" ");
    assert !IsBlank("https://api") by { assert !IsWhitespace("https://api"[0]); }
    assert !FilledIn(custom.authServerUrl);
    assert FilledIn(custom.apiUrl) && !FilledIn(custom.staticApiKey);
    assert ValidateCustomOAuth(Some(custom)) == Some(AuthServerOrClientMissing);
    assert Truthy(custom.authServerUrl) && Truthy(custom.clientId);
  }
}
