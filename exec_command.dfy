/** `cf-vault exec <profile> <command>` (the Run function at
    cmd/exec.go:33-75): look the profile up in the configuration file, read
    its secret from the keyring, and start the command with the credentials
    added to its environment. The configuration file is read as INI sections
    (`[profile <name>]`); loading it, the keyring and the process are
    outside the model and appear as inputs and outcomes. */
module ExecCommand {
  import opened Wrappers
  import opened GoStrings
  import opened Config
  import opened KeyringKeys

  /** An INI section: its keys and values. */
  type Section = map<string, string>

  /** go-ini's Key(k).String(): the value, or "" for a missing key. */
  function KeyValue(section: Section, key: string): (v: string)
    ensures key !in section ==> v == ""
    ensures key in section ==> v == section[key]
  {
    if key in section then section[key] else ""
  }

  /** The name part of an environment entry `NAME=value`: everything before
      the first `=`. */
  function EntryName(entry: string): (name: string)
    ensures '=' !in name
    ensures |name| <= |entry| && name == entry[..|name|]
    ensures |name| < |entry| ==> entry[|name|] == '='
  {
    if entry == [] || entry[0] == '=' then [] else [entry[0]] + EntryName(entry[1..])
  }

  /** The value part of an environment entry: everything after the first `=`. */
  function EntryValue(entry: string): (value: string)
  {
    var n := |EntryName(entry)|;
    if n < |entry| then entry[n + 1..] else ""
  }

  lemma {:induction false} EntryOf(name: string, value: string)
    requires '=' !in name
    ensures EntryName(name + "=" + value) == name
    ensures EntryValue(name + "=" + value) == value
  {
    if name != [] {
      assert (name + "=" + value)[1..] == name[1..] + "=" + value;
      EntryOf(name[1..], value);
    } else {
      assert name + "=" + value == ['='] + value;
    }
  }

  /** The value a started process sees for `name`: os/exec keeps the last
      entry with that name. */
  function Lookup(env: seq<string>, name: string): (r: Option<string>)
    ensures r.Some? <==> exists k :: 0 <= k < |env| && EntryName(env[k]) == name
  {
    if env == [] then None
    else if EntryName(env[|env| - 1]) == name then Some(EntryValue(env[|env| - 1]))
    else
      var r := Lookup(env[..|env| - 1], name);
      assert forall k :: 0 <= k < |env| - 1 ==> env[..|env| - 1][k] == env[k];
      r
  }

  const EmailVariable: string := "CLOUDFLARE_EMAIL"

  /** The variable that carries the secret: CLOUDFLARE_API_TOKEN for an API
      token, CLOUDFLARE_API_KEY for an API key. */
  function SecretVariable(authType: string): (variable: string)
  {
    "CLOUDFLARE_" + ToUpper(authType)
  }

  /** The two credential kinds reach the child as CLOUDFLARE_API_TOKEN and
      CLOUDFLARE_API_KEY. */
  lemma SecretVariableNames()
    ensures SecretVariable(ApiToken) == "CLOUDFLARE_API_TOKEN"
    ensures SecretVariable(ApiKey) == "CLOUDFLARE_API_KEY"
  {
  }

  /** The child's environment (cmd/exec.go:63-66): the ambient environment,
      then the email address, then the secret. */
  function ChildEnvironment(environ: seq<string>, email: string, authType: string, secret: string): (env: seq<string>)
    ensures |env| == |environ| + 2 && env[..|environ|] == environ
  {
    environ + [EmailVariable + "=" + email, SecretVariable(authType) + "=" + secret]
  }

  /** Appending one entry makes it the value of its name and leaves every
      other name as it was. */
  lemma LookupAppend(env: seq<string>, entry: string, name: string)
    ensures Lookup(env + [entry], name) ==
              if EntryName(entry) == name then Some(EntryValue(entry)) else Lookup(env, name)
  {
  }

  /** In the child, CLOUDFLARE_EMAIL is the profile's email and the secret
      variable is the secret, whatever the ambient environment held; every
      other variable keeps its ambient value. The email survives unless the
      credential kind is itself "email" in some case, and the secret needs a
      kind without `=`. */
  lemma {:induction false} ChildEnvironmentLookup(environ: seq<string>, email: string, authType: string, secret: string, name: string)
    requires '=' !in authType
    ensures Lookup(ChildEnvironment(environ, email, authType, secret), SecretVariable(authType)) == Some(secret)
    ensures ToUpper(authType) != "EMAIL" ==>
              Lookup(ChildEnvironment(environ, email, authType, secret), EmailVariable) == Some(email)
    ensures name != EmailVariable && name != SecretVariable(authType) ==>
              Lookup(ChildEnvironment(environ, email, authType, secret), name) == Lookup(environ, name)
  {
    var first := EmailVariable + "=" + email;
    var second := SecretVariable(authType) + "=" + secret;
    assert '=' !in ToUpper(authType) by {
      forall k | 0 <= k < |authType| ensures ToUpper(authType)[k] != '=' {
        assert authType[k] != '=';
      }
    }
    assert '=' !in SecretVariable(authType);
    EntryOf(EmailVariable, email);
    EntryOf(SecretVariable(authType), secret);
    assert ChildEnvironment(environ, email, authType, secret) == (environ + [first]) + [second];
    LookupAppend(environ, first, name);
    LookupAppend(environ + [first], second, name);
    LookupAppend(environ, first, EmailVariable);
    LookupAppend(environ + [first], second, EmailVariable);
    LookupAppend(environ + [first], second, SecretVariable(authType));
    assert SecretVariable(authType)[11..] == ToUpper(authType);
    assert EmailVariable[11..] == "EMAIL";
  }

  /** Everything Run reads. */
  datatype ExecInput = ExecInput(
    /** The command-line arguments after `exec`. */
    args: seq<string>,
    /** The sections of the configuration file, or None when ini.Load
        failed (its error is ignored, leaving no file to read from). */
    config: Option<map<string, Section>>,
    /** The keyring's items by key, or None when keyring.Open failed (its
        error is ignored too). */
    keyring: Option<map<string, string>>,
    /** os.Environ(). */
    environ: seq<string>)

  /** Where Run panics instead of failing cleanly: reading from a
      configuration or keyring that was never opened, or indexing a
      command argument that is not there. */
  datatype Crash = ConfigNotLoaded | KeyringNotOpened | MissingCommand

  datatype ExecResult =
    /** log.Fatal: the configuration has no such section. */
    | MissingSection(section: string)
    /** log.Fatal: the section has no email address. */
    | NoProfile(message: string)
    | Crashed(crash: Crash)
    /** The command started with this program and environment. */
    | Launched(program: string, env: seq<string>)

  /** How Run ends: the keyring key read (None when the keyring was not
      read), what was printed to standard output before the command ran,
      and the result. */
  datatype ExecOutcome = ExecOutcome(keyringKey: Option<string>, printed: string, result: ExecResult)

  /** The INI section a profile lives in. */
  function SectionName(profileName: string): (name: string)
  {
    "profile " + profileName
  }

  /** The profile's section, when the configuration loaded and has it. */
  function ProfileSection(input: ExecInput): (r: Option<Section>)
    requires |input.args| >= 1
    ensures r.Some? <==> input.config.Some? && SectionName(input.args[0]) in input.config.value
    ensures r.Some? ==> r.value == input.config.value[SectionName(input.args[0])]
  {
    if input.config.Some? && SectionName(input.args[0]) in input.config.value
    then Some(input.config.value[SectionName(input.args[0])])
    else None
  }

  method Run(input: ExecInput) returns (outcome: ExecOutcome)
    requires |input.args| >= 1
    ensures input.config.None? ==> outcome == ExecOutcome(None, "", Crashed(ConfigNotLoaded))
    // ring.Get on a keyring that failed to open panics
    ensures ProfileSection(input).Some? && KeyValue(ProfileSection(input).value, "email") != ""
            && input.keyring.None? ==>
              outcome == ExecOutcome(None, "", Crashed(KeyringNotOpened))
    // args[1] is read only after the secret has been printed
    ensures outcome.keyringKey.Some? && |input.args| < 2 ==>
              outcome.result == Crashed(MissingCommand)
    ensures outcome.result.MissingSection? <==>
              input.config.Some? && ProfileSection(input).None?
    ensures outcome.result.MissingSection? ==>
              outcome.result.section == SectionName(input.args[0])
    // A profile without an email address is rejected, whatever its kind.
    ensures outcome.result.NoProfile? <==>
              ProfileSection(input).Some? && KeyValue(ProfileSection(input).value, "email") == ""
    ensures outcome.result.NoProfile? ==>
              outcome.result.message ==
                "no profile matching " + Quote(input.args[0])
                + " found in the configuration file at " + DefaultFullConfigPath
    // The keyring is read only for a profile with an email address.
    ensures outcome.keyringKey.Some? <==>
              ProfileSection(input).Some? && KeyValue(ProfileSection(input).value, "email") != ""
              && input.keyring.Some?
    ensures outcome.keyringKey.None? ==> outcome.printed == "" && !outcome.result.Launched?
    ensures outcome.keyringKey.Some? ==>
              var section := ProfileSection(input).value;
              var key := ItemKey(input.args[0], KeyValue(section, "auth_type"));
              // ring.Get's error is ignored: a missing item reads as ""
              var secret := if key in input.keyring.value then input.keyring.value[key] else "";
              outcome.keyringKey.value == key
              // the secret is printed before the command runs
              && outcome.printed == secret
              && (outcome.result.Launched? <==> |input.args| >= 2)
              && (outcome.result.Launched? ==>
                    // only args[1] is the command; further arguments are dropped
                    outcome.result.program == input.args[1]
                    && outcome.result.env ==
                         ChildEnvironment(input.environ, KeyValue(section, "email"),
                                          KeyValue(section, "auth_type"), secret))
  {
    var profileName := input.args[0];

    if input.config.None? {
      return ExecOutcome(None, "", Crashed(ConfigNotLoaded));
    }
    if SectionName(profileName) !in input.config.value {
      return ExecOutcome(None, "", MissingSection(SectionName(profileName)));
    }
    var profileSection := input.config.value[SectionName(profileName)];

    if KeyValue(profileSection, "email") == "" {
      return ExecOutcome(None, "", NoProfile(
        "no profile matching " + Quote(profileName)
        + " found in the configuration file at " + DefaultFullConfigPath));
    }

    if input.keyring.None? {
      return ExecOutcome(None, "", Crashed(KeyringNotOpened));
    }
    var key := ItemKey(profileName, KeyValue(profileSection, "auth_type"));
    var secret := if key in input.keyring.value then input.keyring.value[key] else "";

    if |input.args| < 2 {
      return ExecOutcome(Some(key), secret, Crashed(MissingCommand));
    }
    var env := ChildEnvironment(input.environ, KeyValue(profileSection, "email"),
                                KeyValue(profileSection, "auth_type"), secret);
    return ExecOutcome(Some(key), secret, Launched(input.args[1], env));
  }
}
