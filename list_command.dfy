/** `cf-vault list` (the Run function at cmd/list.go:24-77): read the
    configuration and show one table row per profile. Reading and decoding
    the file are outside the model (their result is the input), and so is
    rendering the table (the rows are the outcome). */
module ListCommand {
  import opened Wrappers
  import opened Config

  datatype ListOutcome =
    /** log.Fatal with the error of reading or decoding the file. */
    | ListFailed(error: string)
    /** The message printed, before exiting, when there is no profile. */
    | NoProfiles(message: string)
    /** The rows handed to the table writer. */
    | Rows(rows: seq<seq<string>>)

  /** The row shown for one profile: its name, its credential kind and,
      for an api_key profile only, its email address. */
  function RowOf(name: string, profile: Profile): (row: seq<string>)
  {
    [name, profile.authType, if profile.authType == ApiKey then profile.email else ""]
  }

  /** `row` shows a profile of `profiles`: three columns, the profile's
      name, its credential kind and, exactly when that kind is api_key, its
      email address (the empty string otherwise). */
  predicate ShowsProfile(row: seq<string>, profiles: map<string, Profile>)
  {
    |row| == 3 && row[0] in profiles
    && row[1] == profiles[row[0]].authType
    && row[2] == (if row[1] == ApiKey then profiles[row[0]].email else "")
  }

  /** `rows` lists `profiles`: one row per profile, no profile twice. */
  predicate ListsProfiles(rows: seq<seq<string>>, profiles: map<string, Profile>)
  {
    |rows| == |profiles.Keys|
    && (forall i :: 0 <= i < |rows| ==> ShowsProfile(rows[i], profiles))
    && (forall i, j :: 0 <= i < j < |rows| ==> rows[i][0] != rows[j][0])
    && (forall name :: name in profiles ==> exists i :: 0 <= i < |rows| && rows[i][0] == name)
  }

  /** The loop at cmd/list.go:46-60. Go visits a map in no fixed order, so
      the next profile is any one not yet visited. */
  method BuildRows(profiles: map<string, Profile>) returns (tableData: seq<seq<string>>)
    ensures ListsProfiles(tableData, profiles)
  {
    tableData := [];
    var remaining := profiles.Keys;
    while remaining != {}
      invariant remaining <= profiles.Keys
      invariant |tableData| + |remaining| == |profiles.Keys|
      invariant forall i :: 0 <= i < |tableData| ==>
                  ShowsProfile(tableData[i], profiles) && tableData[i][0] !in remaining
      invariant forall i, j :: 0 <= i < j < |tableData| ==> tableData[i][0] != tableData[j][0]
      invariant forall name :: name in profiles && name !in remaining ==>
                  exists i :: 0 <= i < |tableData| && tableData[i][0] == name
      decreases remaining
    {
      var profileName :| profileName in remaining;
      var profile := profiles[profileName];
      var emailString := "";
      if profile.authType == ApiKey {
        emailString := profile.email;
      }
      ghost var visited := tableData;
      tableData := tableData + [[profileName, profile.authType, emailString]];
      forall name | name in profiles && name !in remaining - {profileName}
        ensures exists i :: 0 <= i < |tableData| && tableData[i][0] == name
      {
        if name == profileName {
          assert tableData[|visited|][0] == name;
        } else {
          var i :| 0 <= i < |visited| && visited[i][0] == name;
          assert tableData[i] == visited[i];
        }
      }
      remaining := remaining - {profileName};
    }
  }

  /** Whatever order the loop takes, the rows are those of RowOf, one per
      profile. */
  lemma ListedRows(rows: seq<seq<string>>, profiles: map<string, Profile>)
    requires ListsProfiles(rows, profiles)
    ensures (set i | 0 <= i < |rows| :: rows[i]) == (set name | name in profiles :: RowOf(name, profiles[name]))
  {
    forall i | 0 <= i < |rows|
      ensures rows[i] == RowOf(rows[i][0], profiles[rows[i][0]])
    {
    }
    forall name | name in profiles
      ensures RowOf(name, profiles[name]) in (set i | 0 <= i < |rows| :: rows[i])
    {
      var i :| 0 <= i < |rows| && rows[i][0] == name;
      assert rows[i] == RowOf(name, profiles[name]);
    }
  }

  method Run(home: string, loaded: Result<TomlConfig, string>) returns (outcome: ListOutcome)
    ensures outcome.ListFailed? <==> loaded.Failure?
    ensures loaded.Failure? ==> outcome.error == loaded.error
    ensures outcome.NoProfiles? <==> loaded.Success? && loaded.value.profiles == map[]
    ensures outcome.NoProfiles? ==>
              outcome.message == "no profiles found at " + home + DefaultFullConfigPath + "\n"
    ensures outcome.Rows? ==> ListsProfiles(outcome.rows, loaded.value.profiles)
  {
    if loaded.Failure? {
      return ListFailed(loaded.error);
    }
    var config := loaded.value;
    if |config.profiles| == 0 {
      return NoProfiles("no profiles found at " + home + DefaultFullConfigPath + "\n");
    }
    var tableData := BuildRows(config.profiles);
    return Rows(tableData);
  }
}
