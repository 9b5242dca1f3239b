/** `GitVersionInformation`: the build's git description, read from the
    GitInfo property list bundled with the app. */
module GitVersion {
  import opened Common

  const Placeholder: string := "<Not all properties set in GitInfo>"

  /** The four keys the description needs. */
  predicate HasAllKeys(dict: map<string, string>)
  {
    "BUILD_CURRENT_DATE" in dict && "GIT_BRANCH" in dict
    && "GIT_COMMIT_HASH" in dict && "GIT_DESCRIBE" in dict
  }

  /** `init()`: the property list's dictionary, or an empty one when the
      file is missing or is not a string dictionary (`plist == None`). */
  function Load(plist: Option<map<string, string>>): (dict: map<string, string>)
    ensures plist.None? ==> dict == map[]
    ensures plist.Some? ==> dict == plist.value
  {
    if plist.Some? then plist.value else map[]
  }

  /** `description`: "describe commit buildDate", or the placeholder when a
      key is missing. */
  function Description(dict: map<string, string>): (r: string)
    ensures !HasAllKeys(dict) ==> r == Placeholder
    ensures HasAllKeys(dict) ==>
              var describe := dict["GIT_DESCRIBE"];
              var commit := dict["GIT_COMMIT_HASH"];
              var buildDate := dict["BUILD_CURRENT_DATE"];
              |r| == |describe| + |commit| + |buildDate| + 2
              && r[..|describe|] == describe
              && r[|describe|] == ' '
              && r[|describe| + 1..|describe| + 1 + |commit|] == commit
              && r[|describe| + 1 + |commit|] == ' '
              && r[|describe| + |commit| + 2..] == buildDate
  {
    if !HasAllKeys(dict) then Placeholder
    else dict["GIT_DESCRIBE"] + " " + dict["GIT_COMMIT_HASH"] + " " + dict["BUILD_CURRENT_DATE"]
  }

  /** The branch must be present but never shows: any branch name, as long
      as there is one, gives the same description. */
  lemma BranchOnlyRequired(dict: map<string, string>, branch: string)
    requires "GIT_BRANCH" in dict
    ensures Description(dict["GIT_BRANCH" := branch]) == Description(dict)
  {
  }

  /** Without a GitInfo property list, the description is the placeholder. */
  lemma MissingPlistGivesPlaceholder()
    ensures Description(Load(None)) == Placeholder
  {
  }

  /** With all keys present and a describe string free of '<', the
      description cannot be mistaken for the placeholder. */
  lemma CompleteNeverPlaceholder(dict: map<string, string>)
    requires HasAllKeys(dict)
    requires forall c :: c in dict["GIT_DESCRIBE"] ==> c != '<'
    ensures Description(dict) != Placeholder
  {
    var r := Description(dict);
    if |dict["GIT_DESCRIBE"]| > 0 {
      assert dict["GIT_DESCRIBE"][0] in dict["GIT_DESCRIBE"];
      assert r[0] == dict["GIT_DESCRIBE"][0];
      assert Placeholder[0] == '<';
    } else {
      assert r[0] == ' ';
      assert Placeholder[0] == '<';
    }
  }
}
