/** determineAuthType (cmd/add.go:192-202): classifying a pasted secret as an
    API token or a global API key with two unanchored regular-expression
    searches, `[A-Za-z0-9-_]{40}` first and `[0-9a-f]{37}` second. */
module Credentials {
  import opened Wrappers
  import opened GoStrings
  import opened Config

  /** The two character classes searched for. In `[A-Za-z0-9-_]` the `-`
      between `9` and `_` is a literal dash, not a range. */
  datatype CharClass = TokenChars | KeyChars

  predicate InClass(cls: CharClass, c: char)
  {
    match cls
    case TokenChars => 'A' <= c <= 'Z' || 'a' <= c <= 'z' || '0' <= c <= '9' || c == '-' || c == '_'
    case KeyChars => '0' <= c <= '9' || 'a' <= c <= 'f'
  }

  /** The `n` characters of `s` from position `i` on are all in `cls`. */
  predicate RunAt(s: string, i: nat, n: nat, cls: CharClass)
  {
    i + n <= |s| && forall k :: i <= k < i + n ==> InClass(cls, s[k])
  }

  /** What `regexp.MatchString("<class>{n}", s)` decides: some `n`
      consecutive characters of `s`, anywhere, are all in the class. */
  predicate ContainsRun(s: string, n: nat, cls: CharClass)
  {
    exists i :: 0 <= i <= |s| && RunAt(s, i, n, cls)
  }

  /** A left-to-right scan for a run of `n` class characters. `run` counts
      the class characters that end just before position `i`, and no run of
      `n` ends at or before `i`. */
  function FindRun(s: string, n: nat, cls: CharClass, i: nat, run: nat): (found: bool)
    requires 0 < n && i <= |s| && run < n && run <= i
    requires RunAt(s, i - run, run, cls)
    requires i - run == 0 || !InClass(cls, s[i - run - 1])
    requires forall j :: 0 <= j && j + n <= i ==> !RunAt(s, j, n, cls)
    ensures found <==> ContainsRun(s, n, cls)
    decreases |s| - i
  {
    if i == |s| then
      false
    else if InClass(cls, s[i]) then
      if run + 1 == n then
        assert RunAt(s, i + 1 - n, n, cls);
        true
      else
        assert forall j :: 0 <= j && j + n == i + 1 ==> !RunAt(s, j, n, cls) by {
          forall j | 0 <= j && j + n == i + 1 ensures !RunAt(s, j, n, cls) {
            assert j <= i - run - 1 && !InClass(cls, s[i - run - 1]);
          }
        }
        FindRun(s, n, cls, i + 1, run + 1)
    else
      assert forall j :: 0 <= j && j + n == i + 1 ==> !RunAt(s, j, n, cls) by {
        forall j | 0 <= j && j + n == i + 1 ensures !RunAt(s, j, n, cls) {
          assert !InClass(cls, s[i]);
        }
      }
      FindRun(s, n, cls, i + 1, 0)
  }

  /** The search `regexp.MatchString` performs. */
  function MatchRun(s: string, n: nat, cls: CharClass): (found: bool)
    requires n > 0
    ensures found <==> ContainsRun(s, n, cls)
  {
    FindRun(s, n, cls, 0, 0)
  }

  const TokenLength: nat := 40
  const KeyLength: nat := 37
  const InvalidFormat: string := "invalid API token or API key format"

  /** determineAuthType: "api_token" when some 40 consecutive characters are
      token characters; otherwise "api_key" when some 37 consecutive
      characters are lower-case hexadecimal; otherwise an error. */
  function DetermineAuthType(s: string): (r: Result<string, string>)
    ensures r == Success(ApiToken) <==> ContainsRun(s, TokenLength, TokenChars)
    ensures r == Success(ApiKey) <==>
              !ContainsRun(s, TokenLength, TokenChars) && ContainsRun(s, KeyLength, KeyChars)
    ensures r.Failure? <==>
              !ContainsRun(s, TokenLength, TokenChars) && !ContainsRun(s, KeyLength, KeyChars)
    ensures r.Failure? ==> r.error == InvalidFormat
  {
    if MatchRun(s, TokenLength, TokenChars) then Success(ApiToken)
    else if MatchRun(s, KeyLength, KeyChars) then Success(ApiKey)
    else Failure(InvalidFormat)
  }

  /** Every input shorter than 37 characters is rejected. */
  lemma ShortInputRejected(s: string)
    requires |s| < KeyLength
    ensures DetermineAuthType(s) == Failure(InvalidFormat)
  {
  }

  /** Because the token search runs first, 40 or more consecutive lower-case
      hexadecimal characters classify as an API token, never as a key. */
  lemma LongHexIsToken(s: string)
    requires ContainsRun(s, TokenLength, KeyChars)
    ensures DetermineAuthType(s) == Success(ApiToken)
  {
    var i :| 0 <= i <= |s| && RunAt(s, i, TokenLength, KeyChars);
    assert RunAt(s, i, TokenLength, TokenChars);
  }

  /** A run of class characters in a string lies inside its TrimSpace, since
      white space belongs to neither class; so trimming the secret before
      classifying it (cmd/add.go:86) changes no classification. */
  lemma ClassCharNotSpace(cls: CharClass, c: char)
    requires InClass(cls, c)
    ensures !IsSpace(c)
  {
  }

  /** A run inside the slice `s[lo..hi]` is a run of `s`, and a run of `s`
      that avoids its first `lo` and last `|s| - hi` characters is a run of
      the slice. */
  lemma SliceRuns(s: string, lo: nat, hi: nat, n: nat, cls: CharClass)
    requires n > 0 && lo <= hi <= |s|
    requires forall m :: 0 <= m < lo ==> IsSpace(s[m])
    requires forall m :: hi <= m < |s| ==> IsSpace(s[m])
    ensures ContainsRun(s[lo..hi], n, cls) <==> ContainsRun(s, n, cls)
  {
    var t := s[lo..hi];
    if ContainsRun(s, n, cls) {
      var i :| 0 <= i <= |s| && RunAt(s, i, n, cls);
      ClassCharNotSpace(cls, s[i]);
      ClassCharNotSpace(cls, s[i + n - 1]);
      assert RunAt(t, i - lo, n, cls);
    }
    if ContainsRun(t, n, cls) {
      var i :| 0 <= i <= |t| && RunAt(t, i, n, cls);
      assert RunAt(s, i + lo, n, cls);
    }
  }

  lemma TrimSpaceKeepsRuns(s: string, n: nat, cls: CharClass)
    requires n > 0
    ensures ContainsRun(TrimSpace(s), n, cls) <==> ContainsRun(s, n, cls)
  {
    var lo, hi :| 0 <= lo <= hi <= |s| && TrimSpace(s) == s[lo..hi]
                  && (forall m :: 0 <= m < lo ==> IsSpace(s[m]))
                  && (forall m :: hi <= m < |s| ==> IsSpace(s[m]));
    SliceRuns(s, lo, hi, n, cls);
  }

  lemma TrimSpaceKeepsAuthType(s: string)
    ensures DetermineAuthType(TrimSpace(s)) == DetermineAuthType(s)
  {
    TrimSpaceKeepsRuns(s, TokenLength, TokenChars);
    TrimSpaceKeepsRuns(s, KeyLength, KeyChars);
  }
}
