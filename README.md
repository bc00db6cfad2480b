# cf-vault, modelled in Dafny

cf-vault keeps Cloudflare credentials in the operating system's keyring and
hands them to other programs. This project models three of its commands:

- `cf-vault add <profile>` (module `AddCommand`) takes an email address and a
  secret. It classifies the secret as an API token or an API key
  (`Credentials`). It can attach one of two predefined policy templates
  (`Templates`, with the permission-group ID lists in `PermissionTables`).
  It stores the profile in the TOML configuration under the trimmed profile
  name. It puts the untrimmed secret in the keyring under `<profile>-<kind>`
  (`KeyringKeys`).
- `cf-vault exec <profile> <command>` (module `ExecCommand`) looks the
  profile up in the `[profile <name>]` INI section. It rejects a profile
  without an email address before it opens the keyring. It reads the
  secret and prints it. It then starts the command with the ambient
  environment followed by `CLOUDFLARE_EMAIL` and
  `CLOUDFLARE_<KIND IN UPPER CASE>`.
- `cf-vault list` (module `ListCommand`) prints one row per profile. A row
  holds the name, the credential kind and the email address, and the email
  address is shown only for api_key profiles.

The supporting modules are:

- `Config`: the records written to the configuration file.
- `GoStrings`: the parts of Go's `strings` and `fmt` that the commands use.
  These are `TrimSpace`, `ToUpper`, `ToLower`, `%q` and byte-wise string order.
- `HexIds`: permission-group IDs written as 32 hexadecimal digits. String
  order on these IDs agrees with numeric order.
- `Wrappers`: `Option` and `Result`.

The filesystem, the terminal prompts, the Cloudflare API, the keyring and
process start-up are outside the model. What they return becomes an input
of each command's `Run`. What is written to them becomes part of its
outcome.

The two regular-expression searches of `determineAuthType` are unanchored.
Each is modelled as "some window of 40 (or 37) consecutive characters lies
in the class". `FindRun` is the scan that decides this, and it is proved
equivalent to the existential.

The permission-group IDs are kept as the 128-bit numbers their hexadecimal
digits spell. `HexIds.HexIdOrder` shows that Go's `<` on the rendered
strings is `<` on the numbers. Ascending order, distinctness and the
disjointness of the two templates are proved on the numbers, a few entries
at a time, and carried over to the strings.

## Model

| member | source | states |
|---|---|---|
| Credentials.DetermineAuthType | cmd/add.go:192-202 | api_token exactly when some 40 consecutive characters are in `[A-Za-z0-9-_]`. Otherwise api_key exactly when some 37 consecutive characters are lower-case hex. Otherwise the error "invalid API token or API key format". |
| Credentials.FindRun | cmd/add.go:193-198 | The left-to-right scan for a run of n class characters answers true exactly when such a window exists. |
| Credentials.ShortInputRejected | cmd/add.go:196-200 | Every input shorter than 37 characters is rejected with the format error. |
| Credentials.LongHexIsToken | cmd/add.go:193-198 | Because the token search runs first, 40 consecutive lower-case hex characters classify as api_token. |
| Credentials.SliceRuns | cmd/add.go:86 | Cutting only white space off both ends of a string neither adds nor removes a run of class characters. |
| Credentials.TrimSpaceKeepsRuns | cmd/add.go:86 | A string and its TrimSpace contain the same runs. |
| Credentials.TrimSpaceKeepsAuthType | cmd/add.go:86 | Classifying the trimmed secret gives the same result as classifying the secret itself. |
| GoStrings.TrimSpace | cmd/add.go:69 | The result is a slice of the input with only white space outside it. It neither starts nor ends with white space. |
| GoStrings.SkipLeading | cmd/add.go:69 | Gives the first non-space position; everything skipped is white space. |
| GoStrings.SkipTrailing | cmd/add.go:69 | Gives the end once trailing white space is dropped; everything dropped is white space. |
| GoStrings.Quote | cmd/exec.go:48 | `%q` output is enclosed in double quotes and at least two characters longer than the input. A string of printable ASCII without `"` or `\` is quoted as itself between the quotes. |
| GoStrings.QuoteBody | cmd/add.go:523 | Escaping never shortens a string, and it leaves a string of printable ASCII without `"` or `\` unchanged. |
| GoStrings.QuoteChar | cmd/add.go:523 | A printable character other than `"` and `\` is written as itself. `"` becomes `\"` and `\` becomes `\\`. Every control character becomes a backslash escape. |
| GoStrings.LexLessIrreflexive | cmd/add.go:209-300 | Go's string `<` is irreflexive. |
| GoStrings.LexLessTransitive | cmd/add.go:209-300 | Go's string `<` is transitive. |
| GoStrings.LexLessAppend | cmd/add.go:209-300 | For equal-length strings, one trailing character decides the order when the prefixes are equal. |
| HexIds.Hex | cmd/add.go:210-300 | Renders a number as exactly w lower-case hex digits. |
| HexIds.HexOrder | cmd/add.go:210-300 | Within w digits, rendering preserves and reflects both `<` and equality. |
| HexIds.HexIdOrder | cmd/add.go:210-300 | Two 128-bit IDs compare as strings exactly as they compare as numbers. |
| HexIds.IdBoundIsPow16 | cmd/add.go:210 | 16^32 is the 128-bit bound on the IDs. |
| PermissionTables.Ids | cmd/add.go:209-509 | The six ID lists, in source order, hold 91, 35 and 3 IDs for read-only and 97, 39 and 2 for write-everything (account, zone, user). |
| PermissionTables.ReadOnlyWellFormed | cmd/add.go:205-353 | The three read-only lists are strictly ascending and every ID has 32 hex digits. |
| PermissionTables.WriteEverythingWellFormed | cmd/add.go:355-512 | The three write-everything lists are strictly ascending and every ID has 32 hex digits. |
| PermissionTables.ReadOnlyApartFromWriteEverything | cmd/add.go:209-509 | For each resource, the read-only and write-everything lists share no ID. |
| PermissionTables.DisjointFromShareNothing | cmd/add.go:209-509 | A merge walk over two ascending lists that meets no common entry proves them disjoint. |
| PermissionTables.IncreasingFromAscending | cmd/add.go:209-509 | A list whose neighbours are in order is ordered at every pair of positions. |
| Templates.Groups | cmd/add.go:209-300 | One nameless permission group per ID, in the listed order, each with the ID's 32-digit spelling. |
| Templates.GeneratePolicy | cmd/add.go:204-524 | Succeeds exactly for "read-only" and "write-everything", compared case-sensitively. A success is three allow policies with no ID, on the account wildcard, the zone wildcard and `com.cloudflare.api.user.`+userID, each mapped to "*". "read-only" grants the read-only account, zone and user lists, in that order (cmd/add.go:205-353). "write-everything" grants the write-everything lists (cmd/add.go:355-512). Any other name gets the `%q` error naming both valid templates. |
| Templates.UserIdOnlyInUserResource | cmd/add.go:344-352 | The user ID changes only the third policy's resource; everything else is the same for every user. |
| Templates.GroupsOrdered | cmd/add.go:209-300 | Groups of a well-formed list are strictly ascending as strings, pairwise distinct and 32 hex digits each. |
| Templates.GroupsApart | cmd/add.go:209-509 | Disjoint numeric lists give permission groups with no ID in common. |
| Templates.GeneratedIdsOrdered | cmd/add.go:205-512 | In every generated policy the IDs are strictly ascending, pairwise distinct and 32 hex digits. |
| Templates.TemplatesShareNoGroup | cmd/add.go:205-512 | For the same resource, read-only and write-everything grant no common permission group. |
| KeyringKeys.ItemKey | cmd/add.go:178-181 | The key is the profile name, a dash, then the credential kind. |
| KeyringKeys.ItemKeyInjective | cmd/add.go:178-181 | For the two kinds add stores, the key determines both the profile name and the kind. |
| AddCommand.BuildProfile | cmd/add.go:118-159 | Fails exactly on a client error or a failing template. The errors are checked in order: the client's error, then the fixed user-details message for a failed user lookup, then the unknown-template error. Otherwise the profile holds the trimmed email and the kind. The session duration and the policies are set only when given. |
| AddCommand.Run | cmd/add.go:68-189 | Aborts exactly when classification, the API client or the template fails. Each failure has its own message: the detection message, the client's error, the user-details message, or the unknown-template error. Otherwise the new profile goes under the trimmed name and replaces any old entry. Every other entry is unchanged. The untrimmed secret is handed to the keyring under name-kind unless the keyring fails to open. An Open or Set failure carries the keyring's own error. |
| AddCommand.KeyringMessage | cmd/add.go:173-188 | The line printed after the keyring step. An Open failure's message ends with the error lower-cased; a Set failure's message ends with the error as given. |
| AddCommand.StoredMessageOnlyWhenStored | cmd/add.go:173-188 | The success message is printed exactly when the keyring stored the secret. |
| ExecCommand.EntryName | cmd/exec.go:63-66 | The name of an environment entry is its prefix before the first `=`. |
| ExecCommand.EntryOf | cmd/exec.go:63-66 | `NAME=value` with `=` not in NAME splits back into NAME and value. |
| ExecCommand.Lookup | cmd/exec.go:63-66 | A name has a value in the child exactly when some entry carries that name; the last such entry wins. |
| ExecCommand.LookupAppend | cmd/exec.go:63-66 | An appended entry overrides its own name and leaves every other name alone. |
| ExecCommand.ChildEnvironment | cmd/exec.go:63-66 | The child environment is the ambient one, unchanged and in order, followed by exactly two entries. |
| ExecCommand.ChildEnvironmentLookup | cmd/exec.go:63-66 | In the child, `CLOUDFLARE_<KIND>` is the secret and `CLOUDFLARE_EMAIL` is the email, whatever the ambient environment held. Every other variable keeps its ambient value. |
| ExecCommand.ProfileSection | cmd/exec.go:42-45 | A section is found exactly when the loaded file has `profile <name>`, and then it is that section's contents. |
| ExecCommand.SecretVariableNames | cmd/exec.go:65 | An api_token secret reaches the child as CLOUDFLARE_API_TOKEN and an api_key secret as CLOUDFLARE_API_KEY. |
| ExecCommand.Run | cmd/exec.go:33-66 | The lookup uses section "profile "+args[0]. A missing section, or one with an empty email, is fatal before the keyring is touched, whatever the kind. The item key is args[0]-auth_type. Its data is printed, or "" when the keyring has no such item. Only args[1] is started, with ChildEnvironment. The run panics on an unloaded file (before the keyring), on an unopened keyring (before anything is printed), or on a missing args[1] (after the secret is printed). Keys are read from the profile section alone, without go-ini's parent-section fallback or `%(name)s` expansion (see "## Left out"). |
| ListCommand.BuildRows | cmd/list.go:46-60 | In whatever order the map is visited: one row per profile, none twice, each [name, kind, email]. The email appears only when the kind is api_key. |
| ListCommand.ListedRows | cmd/list.go:46-60 | As a set, the rows are exactly one row per profile, whatever order the loop took. |
| ListCommand.Run | cmd/list.go:30-60 | A read or decode error is fatal. An empty configuration prints "no profiles found at <home>/.cf-vault/config.toml". Otherwise the rows list the profiles as BuildRows states. |

## Left out

- Terminal prompts and the hidden secret prompt are inputs (the email line and the secret). The failure of the secret prompt, the home-directory lookup, and the file creation and opening at cmd/add.go:91-108 and 164-171 are I/O and are not modelled.
- The keyring passphrase prompt of cmd/root.go is I/O. A `CF_VAULT_FILE_PASSPHRASE` that is already set is used instead of prompting.
- TOML encoding and decoding (go-toml) and INI loading (go-ini) are foreign libraries. `add` and `list` see the configuration as a decoded `TomlConfig`, and `exec` sees it as INI sections. No claim is made that the two views agree.
- The keyring backends are foreign. Their outcome is an input: an error from Open or Set, or the stored items. `add` and `exec` open the keyring with different settings; both are opaque here.
- The Cloudflare client and `UserDetails` are foreign calls. Their results are inputs: a client error and the user's ID or an error.
- Process start-up, the child's output, stderr, and the table rendering of `list` are OS and UI I/O.
- The `log.Debug` output and cobra's wiring, flags and argument validation are left out. Run assumes at least one argument, as the Args check at cmd/exec.go:22-27 and its twin in cmd/add.go guarantee.
- GoStrings.ToUpper: maps ASCII letters only, while Go's strings.ToUpper maps all of Unicode. At cmd/exec.go:65 it upper-cases whatever `auth_type` the INI file holds, and exec never checks that value. For a non-ASCII `auth_type` Go changes the letters ("ключ" becomes "КЛЮЧ"), but the model leaves them unchanged. Its contract only spells out the character mapping; what the source relies on is stated by ExecCommand.SecretVariableNames.
- GoStrings.ToLower: maps ASCII letters only, while Go's strings.ToLower maps all of Unicode. It lowers the keyring's opaque error text, so the OpenFailed message differs from Go's for a non-ASCII error. Its contract only spells out the character mapping; its use is stated by AddCommand.KeyringMessage.
- ExecCommand.KeyValue: stands in for go-ini's `Key(k).String()`, where a missing key reads as "". Its contract only spells out that lookup. Two features of go-ini that this lookup leaves out:
  - Parent sections: go-ini looks up a key missing from a section whose name contains `.` in the parent section. So for `cf-vault exec a.b`, a `[profile a.b]` without `email` inherits the email of `[profile a]`, and the check at cmd/exec.go:47 passes. The model instead returns `NoProfile` there.
  - Value expansion: go-ini expands `%(name)s` references inside values. The model reads values verbatim.
- GoStrings.QuoteChar: escapes only ASCII control characters. Go's `%q` also escapes non-printable non-ASCII characters as `\u`/`\U`.
- Resource values are `interface{}` in the source. They are modelled as the string "*", which is the only value the program stores.
- ExecCommand.Run: a missing section is reported as `MissingSection` with the section name. go-ini's error text is not part of the model.
- ListCommand.BuildRows: the order of rows follows Go's map iteration, which is unspecified. The model picks any unvisited profile and states the rows up to order.
- AddCommand.Run: the encoding error of the rewritten configuration file is not modelled. The file is taken to be written.
- Token minting, session-duration parsing, a session-nesting guard and fetching the live permission catalogue are not in this code base's shown sources.
- cmd/version.go and tools/tools.go hold no logic.
