/** The records that `cf-vault add` writes to, and `cf-vault list` reads
    from, the TOML configuration file (cmd/add.go:24-45), and the constants
    that name the file (cmd/root.go:14-20). */
module Config {

  /** permissionGroup: an ID and an optional display name (never set by the
      templates, so omitted from the file). */
  datatype PermissionGroup = PermissionGroup(id: string, name: string)

  /** policy: an effect, an optional ID, the permission groups it grants and
      the resources it grants them on. In the source a resource maps to an
      `interface{}`; every resource the program builds maps to the string "*". */
  datatype Policy = Policy(
    effect: string,
    id: string,
    permissionGroups: seq<PermissionGroup>,
    resources: map<string, string>)

  /** profile: the email address, the credential kind, and the optional
      session duration and policies (empty when absent). */
  datatype Profile = Profile(
    email: string,
    authType: string,
    sessionDuration: string,
    policies: seq<Policy>)

  /** tomlConfig: the profiles, keyed by profile name. */
  datatype TomlConfig = TomlConfig(profiles: map<string, Profile>)

  /** The two credential kinds a profile can hold. */
  const ApiToken: string := "api_token"
  const ApiKey: string := "api_key"

  const ProjectName: string := "cf-vault"
  /** Relative to the user's home directory. */
  const DefaultConfigDirectory: string := "/." + ProjectName
  const DefaultFullConfigPath: string := DefaultConfigDirectory + "/config.toml"
}
