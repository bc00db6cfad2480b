/** The keyring item under which a profile's secret is kept: its key is the
    profile name and the credential kind joined by a dash (cmd/add.go:178-181,
    cmd/exec.go:56), its data the secret itself. */
module KeyringKeys {
  import opened Config

  datatype KeyringItem = KeyringItem(key: string, data: string)

  /** fmt.Sprintf("%s-%s", profileName, authType). */
  function ItemKey(profileName: string, authType: string): (key: string)
    ensures |key| == |profileName| + 1 + |authType|
    ensures key[..|profileName|] == profileName && key[|profileName|] == '-'
    ensures key[|profileName| + 1..] == authType
  {
    profileName + "-" + authType
  }

  /** The two credential kinds `add` can store. */
  predicate IsAuthType(authType: string)
  {
    authType == ApiToken || authType == ApiKey
  }

  /** Profiles stored by `add` never share a keyring item: for the two
      credential kinds, the key gives back both the profile name and the
      kind. (For an arbitrary kind it would not: "a-b" with "c" and "a" with
      "b-c" both give "a-b-c".) */
  lemma ItemKeyInjective(name1: string, type1: string, name2: string, type2: string)
    requires IsAuthType(type1) && IsAuthType(type2)
    requires ItemKey(name1, type1) == ItemKey(name2, type2)
    ensures name1 == name2 && type1 == type2
  {
  }
}
