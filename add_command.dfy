/** `cf-vault add <profile>` (the Run function at cmd/add.go:68-189): read an
    email address and a secret, classify the secret, build the profile,
    store it in the configuration under the trimmed profile name, and put
    the secret in the keyring. The prompts, the Cloudflare API, the
    configuration file and the keyring are outside the model: what they
    return is part of the input, and what is written to them is part of the
    outcome. */
module AddCommand {
  import opened Wrappers
  import opened GoStrings
  import opened Config
  import opened Credentials
  import opened Templates
  import opened KeyringKeys

  /** Everything Run reads. */
  datatype AddInput = AddInput(
    /** args[0]. */
    profileArg: string,
    /** The --session-duration and --profile-template flags ("" when unset). */
    sessionDuration: string,
    profileTemplate: string,
    /** The line typed after "Email address: ". */
    emailLine: string,
    /** The secret typed at the hidden prompt. */
    authValue: string,
    /** What toml.Unmarshal left in a fresh tomlConfig after reading the
        configuration file; its error is ignored, so an unreadable file
        gives the empty configuration. */
    existing: TomlConfig,
    /** The error of cloudflare.NewWithAPIToken or cloudflare.New, if any. */
    clientError: Option<string>,
    /** What api.UserDetails answers: the user's ID or an error. */
    userDetails: Result<string, string>,
    /** The errors of keyring.Open and of ring.Set, if any. */
    keyringOpenError: Option<string>,
    keyringSetError: Option<string>)

  /** What happens at the keyring once the configuration is written:
      keyring.Open fails, or the item is handed to ring.Set, which fails or
      stores it. */
  datatype KeyringStep =
    | OpenFailed(openError: string)
    | SetFailed(item: KeyringItem, setError: string)
    | Stored(item: KeyringItem)

  /** How Run ends. `Aborted`: a fatal error before the configuration file
      is rewritten. `Written`: the file was rewritten with `config`, then the
      keyring was used as `keyring` says. */
  datatype AddOutcome =
    | Aborted(message: string)
    | Written(config: TomlConfig, keyring: KeyringStep)

  /** The text printed after the keyring step: the success message with the
      line end fmt.Println adds, or the text handed to log.Fatal (logrus adds
      its own level and formatting around it, which are not modelled). */
  function KeyringMessage(step: KeyringStep): (message: string)
    // a failure message ends with the error, lower-cased when opening failed
    ensures step.OpenFailed? ==>
              |message| > |step.openError|
              && message[|message| - |step.openError|..] == ToLower(step.openError)
    ensures step.SetFailed? ==>
              |message| > |step.setError|
              && message[|message| - |step.setError|..] == step.setError
  {
    match step
    case OpenFailed(e) => "failed to open keyring backend: " + ToLower(e)
    case SetFailed(_, e) => "Error adding credentials to keyring: " + e
    case Stored(_) => StoredMessage
  }

  const StoredMessage: string := "\n" + "Success! Credentials have been set and are now ready for use!" + "\n"

  /** The success message is printed exactly when the secret was stored. */
  lemma StoredMessageOnlyWhenStored(step: KeyringStep)
    ensures KeyringMessage(step) == StoredMessage <==> step.Stored?
  {
    assert StoredMessage[0] == '\n';
    match step
    case OpenFailed(e) =>
      assert KeyringMessage(step)[0] == 'f';
    case SetFailed(_, e) =>
      assert KeyringMessage(step)[0] == 'E';
    case Stored(_) =>
  }

  const UserDetailsFailure: string :=
    "failed to fetch user ID from the Cloudflare API which is required to generate the predefined short lived token policies. If you are using API tokens, please allow the permission to access your user details and try again."

  /** The credential kind the trimmed secret is classified as. */
  function Classified(input: AddInput): (r: Result<string, string>)
  {
    DetermineAuthType(TrimSpace(input.authValue))
  }

  /** A template was asked for and the user lookup or the template name
      failed. */
  predicate TemplateFails(input: AddInput)
  {
    input.profileTemplate != ""
    && (input.userDetails.Failure?
        || GeneratePolicy(input.profileTemplate, input.userDetails.value).Failure?)
  }

  /** The policies a new profile gets: none without a template, the
      generated ones with one. */
  function TemplatePolicies(input: AddInput): (policies: seq<Policy>)
    requires !TemplateFails(input)
  {
    if input.profileTemplate == "" then []
    else GeneratePolicy(input.profileTemplate, input.userDetails.value).value
  }

  /** The profile assembly of cmd/add.go:118-159: the email address and the
      credential kind, the session duration only when the flag is set, the
      policies only when a template is given; a client error or a failed
      template stops the run. */
  method BuildProfile(input: AddInput, authType: string) returns (r: Result<Profile, string>)
    ensures r.Failure? <==> input.clientError.Some? || TemplateFails(input)
    ensures input.clientError.Some? ==> r == Failure(input.clientError.value)
    ensures input.clientError.None? && input.profileTemplate != "" && input.userDetails.Failure? ==>
              r == Failure(UserDetailsFailure)
    ensures input.clientError.None? && input.profileTemplate != "" && input.userDetails.Success?
            && GeneratePolicy(input.profileTemplate, input.userDetails.value).Failure? ==>
              r == Failure(UnknownTemplateError(input.profileTemplate))
    ensures r.Success? ==>
              r.value.email == TrimSpace(input.emailLine)
              && r.value.authType == authType
              && r.value.sessionDuration == input.sessionDuration
              && r.value.policies == TemplatePolicies(input)
  {
    var newProfile := Profile(TrimSpace(input.emailLine), authType, "", []);
    if input.sessionDuration != "" {
      newProfile := newProfile.(sessionDuration := input.sessionDuration);
    }

    if input.clientError.Some? {
      return Failure(input.clientError.value);
    }

    if input.profileTemplate != "" {
      if input.userDetails.Failure? {
        return Failure(UserDetailsFailure);
      }
      var generated := GeneratePolicy(input.profileTemplate, input.userDetails.value);
      if generated.Failure? {
        return Failure(generated.error);
      }
      newProfile := newProfile.(policies := generated.value);
    }
    return Success(newProfile);
  }

  method Run(input: AddInput) returns (outcome: AddOutcome)
    // The run stops before writing exactly when classification, the API
    // client, or the template (user lookup or name) fails.
    ensures outcome.Aborted? <==>
              Classified(input).Failure? || input.clientError.Some? || TemplateFails(input)
    ensures Classified(input).Failure? ==>
              outcome == Aborted("failed to detect authentication type: " + InvalidFormat)
    ensures Classified(input).Success? && input.clientError.Some? ==>
              outcome == Aborted(input.clientError.value)
    ensures Classified(input).Success? && input.clientError.None? && input.profileTemplate != ""
            && input.userDetails.Failure? ==>
              outcome == Aborted(UserDetailsFailure)
    ensures Classified(input).Success? && input.clientError.None? && input.profileTemplate != ""
            && input.userDetails.Success?
            && GeneratePolicy(input.profileTemplate, input.userDetails.value).Failure? ==>
              outcome == Aborted(UnknownTemplateError(input.profileTemplate))
    ensures outcome.Written? ==>
              var name := TrimSpace(input.profileArg);
              var profiles := outcome.config.profiles;
              // the new entry replaces any old one, every other entry stays
              name in profiles
              && profiles == input.existing.profiles[name := profiles[name]]
              // the new profile
              && profiles[name].email == TrimSpace(input.emailLine)
              && profiles[name].authType == Classified(input).value
              && IsAuthType(profiles[name].authType)
              && profiles[name].sessionDuration == input.sessionDuration
              && profiles[name].policies == TemplatePolicies(input)
              // the keyring item: the untrimmed secret under name-authType
              && (outcome.keyring.OpenFailed? <==> input.keyringOpenError.Some?)
              && (outcome.keyring.OpenFailed? ==> input.keyringOpenError == Some(outcome.keyring.openError))
              && (outcome.keyring.SetFailed? ==> input.keyringSetError == Some(outcome.keyring.setError))
              && (outcome.keyring.Stored? <==>
                    input.keyringOpenError.None? && input.keyringSetError.None?)
              && (!outcome.keyring.OpenFailed? ==>
                    outcome.keyring.item ==
                      KeyringItem(ItemKey(name, profiles[name].authType), input.authValue))
  {
    var profileName := TrimSpace(input.profileArg);

    var detected := DetermineAuthType(TrimSpace(input.authValue));
    if detected.Failure? {
      return Aborted("failed to detect authentication type: " + detected.error);
    }
    var authType := detected.value;

    var config := input.existing;
    // If this is the first profile, the map is created.
    if |config.profiles| == 0 {
      config := TomlConfig(map[]);
    }

    var built := BuildProfile(input, authType);
    if built.Failure? {
      return Aborted(built.error);
    }

    config := config.(profiles := config.profiles[profileName := built.value]);

    if input.keyringOpenError.Some? {
      return Written(config, OpenFailed(input.keyringOpenError.value));
    }
    var item := KeyringItem(ItemKey(profileName, authType), input.authValue);
    if input.keyringSetError.None? {
      outcome := Written(config, Stored(item));
    } else {
      outcome := Written(config, SetFailed(item, input.keyringSetError.value));
    }
  }
}
