/**
 * OAuth scopes. The `Scope` enum itself is not part of this model: a scope is named by its enum
 * constant, and the enum's table of constants and their wire values is a parameter.
 */
module Scopes {
  import opened Wrappers
  import opened Kotlin
  import opened Exceptions

  /** A constant of the `Scope` enum, by its name, e.g. `USER_LIBRARY_READ`. */
  datatype Scope = Scope(name: string)

  /** The `Scope` enum: each constant's name mapped to its wire value, e.g. "user-library-read". */
  type ScopeTable = map<string, string>

  // The constants that the modelled endpoints require.
  const UserReadPlaybackState := Scope("USER_READ_PLAYBACK_STATE")
  const UserModifyPlaybackState := Scope("USER_MODIFY_PLAYBACK_STATE")
  const UserReadCurrentlyPlaying := Scope("USER_READ_CURRENTLY_PLAYING")
  const UserReadRecentlyPlayed := Scope("USER_READ_RECENTLY_PLAYED")
  const UserLibraryRead := Scope("USER_LIBRARY_READ")
  const UserLibraryModify := Scope("USER_LIBRARY_MODIFY")

  /** The constant name a token of a granted-scope string stands for: upper-cased, '-' read as '_'. */
  function ScopeName(token: string): string {
    Replace(UpperAscii(token), '-', "_")
  }

  /** `Scope.valueOf(name)`, which throws `IllegalArgumentException` for a name the enum lacks. */
  function ValueOf(name: string, table: ScopeTable): (r: Result<Scope, Failure>)
    ensures r.Success? <==> name in table
    ensures r.Success? ==> r.value == Scope(name)
    ensures r.Failure? ==> r.error == IllegalArgument(name)
  {
    if name in table then Success(Scope(name)) else Failure(IllegalArgument(name))
  }

  /**
   * `tokens.map { Scope.valueOf(ScopeName(it)) }`: order and duplicates are kept, and the first
   * token that names no constant throws.
   */
  function ScopesOf(tokens: seq<string>, table: ScopeTable): (r: Result<seq<Scope>, Failure>)
    ensures r.Success? <==> forall i :: 0 <= i < |tokens| ==> ScopeName(tokens[i]) in table
    ensures r.Success? ==>
      && |r.value| == |tokens|
      && forall i :: 0 <= i < |tokens| ==> r.value[i] == Scope(ScopeName(tokens[i]))
    ensures r.Failure? ==>
      exists i :: 0 <= i < |tokens| && ScopeName(tokens[i]) !in table
        && r.error == IllegalArgument(ScopeName(tokens[i]))
        && forall j :: 0 <= j < i ==> ScopeName(tokens[j]) in table
  {
    if |tokens| == 0 then Success([])
    else
      match ValueOf(ScopeName(tokens[0]), table)
      case Failure(e) => Failure(e)
      case Success(first) =>
        match ScopesOf(tokens[1..], table)
        case Failure(e) =>
          var i :| && 0 <= i < |tokens[1..]| && ScopeName(tokens[1..][i]) !in table
                   && e == IllegalArgument(ScopeName(tokens[1..][i]))
                   && forall j :: 0 <= j < i ==> ScopeName(tokens[1..][j]) in table;
          assert forall j :: 0 <= j < i + 1 ==> ScopeName(tokens[j]) in table by {
            forall j | 0 <= j < i + 1 ensures ScopeName(tokens[j]) in table {
              if j > 0 { assert tokens[j] == tokens[1..][j - 1]; }
            }
          }
          Failure(e)
        case Success(rest) =>
          assert forall i :: 1 <= i < |tokens| ==> tokens[i] == tokens[1..][i - 1];
          Success([first] + rest)
  }

  /**
   * `scope.split(" ").map { Scope.valueOf(...) }`: the granted scopes of a token reply, one per
   * space-separated token and each a constant of the enum, or the `IllegalArgument` of `valueOf`.
   */
  function ParseScopes(scope: string, table: ScopeTable): (r: Result<seq<Scope>, Failure>)
    ensures r.Success? ==> |r.value| == |Split(scope, ' ')| && forall i :: 0 <= i < |r.value| ==> r.value[i].name in table
    ensures r.Failure? ==> r.error.IllegalArgument? && r.error.detail !in table
  {
    ScopesOf(Split(scope, ' '), table)
  }

  /** An empty scope string is one empty token, which names no enum constant. */
  lemma EmptyScopeStringThrows(table: ScopeTable)
    requires "" !in table
    ensures ParseScopes("", table) == Failure(IllegalArgument(""))
  {
    assert Split("", ' ') == [""];
    assert ScopeName("") == "";
  }
}
