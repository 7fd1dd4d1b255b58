/** The rows of the gitTrigger table tests, and two further messages, proved for the model. */
module GitTriggerRows {
  import opened Wrappers
  import opened GitTrigger

  /** TestCheckTrigger: whole-token containment, not prefix matching. */
  lemma CheckTriggerRows()
    ensures !CheckTrigger(GitTrigger(DefaultTrigger, "Testing testing"))
    ensures CheckTrigger(GitTrigger(DefaultTrigger, "Testing @rainforest testing"))
    ensures !CheckTrigger(GitTrigger(DefaultTrigger, "@rainfnf"))
  {
    var miss := "Testing testing";
    forall i | 0 <= i <= |miss| - |DefaultTrigger|
      ensures !OccursAt(miss, DefaultTrigger, i)
    {
      assert miss[i..i + |DefaultTrigger|][0] == miss[i] != '@';
    }
    assert OccursAt("Testing @rainforest testing", DefaultTrigger, 8);
  }

  /** TestGetTags, first row: no trigger, no tags. */
  lemma GetTagsRowUntriggered()
    ensures GetTags(GitTrigger(DefaultTrigger, "Testing testing")) == []
  {
    CheckTriggerRows();
  }

  /** TestGetTags, second row: `#` stripped, the comma dropped, order kept. */
  lemma GetTagsRowComma()
    ensures GetTags(GitTrigger(DefaultTrigger, "@rainforest #foo, #bar")) == ["foo", "bar"]
  {
    assert "@rainforest #foo, #bar" == [] + DefaultTrigger + " " + JoinTags(["foo", "bar"], [", "]);
    GetTagsAfterTrigger([], DefaultTrigger, " ", ["foo", "bar"], [", "]);
  }

  /** TestGetTags, third row: `-` and `_` belong to a tag, spaces separate tags. */
  lemma GetTagsRowSpaces()
    ensures GetTags(GitTrigger(DefaultTrigger, "@rainforest #foo #bar-baz #qwe_asd")) == ["foo", "bar-baz", "qwe_asd"]
  {
    assert "@rainforest #foo #bar-baz #qwe_asd"
        == [] + DefaultTrigger + " " + JoinTags(["foo", "bar-baz", "qwe_asd"], [" ", " "]);
    GetTagsAfterTrigger([], DefaultTrigger, " ", ["foo", "bar-baz", "qwe_asd"], [" ", " "]);
  }

  /** Text before the trigger is not scanned for tags; the tags after it are. */
  lemma GetTagsAfterLeadingText()
    ensures GetTags(GitTrigger(DefaultTrigger, "Testing @rainforest #foo")) == ["foo"]
  {
    var pre := "Testing ";
    forall j | 0 <= j < |pre|
      ensures !OccursAt(pre + DefaultTrigger, DefaultTrigger, j)
    {
      assert (pre + DefaultTrigger)[j..j + |DefaultTrigger|][0] == pre[j] != '@';
    }
    assert "Testing @rainforest #foo" == pre + DefaultTrigger + " " + JoinTags(["foo"], []);
    GetTagsAfterTrigger(pre, DefaultTrigger, " ", ["foo"], []);
  }

  /** Commas and spaces may be mixed between tags; hyphens and underscores stay inside them. */
  lemma GetTagsMixedSeparators()
    ensures GetTags(GitTrigger(DefaultTrigger, "@rainforest #a, #b #c-d #e_f")) == ["a", "b", "c-d", "e_f"]
  {
    assert "@rainforest #a, #b #c-d #e_f"
        == [] + DefaultTrigger + " " + JoinTags(["a", "b", "c-d", "e_f"], [", ", " ", " "]);
    GetTagsAfterTrigger([], DefaultTrigger, " ", ["a", "b", "c-d", "e_f"], [", ", " ", " "]);
  }

  /** TestGetRemote, TestGetRemoteTwoRemotes, TestGetRemoteMissing. */
  lemma GetRemoteRows()
    ensures GetRemote([Remote("lol", "git@github.com:rainforestapp/rainforest-cli.git")])
         == ("git@github.com:rainforestapp/rainforest-cli.git", None)
    ensures GetRemote([Remote("lol1", "git@github.com:rainforestapp/rainforest-cli1.git"),
                       Remote("lol2", "git@github.com:rainforestapp/rainforest-cli2.git")])
         == ("git@github.com:rainforestapp/rainforest-cli1.git", None)
    ensures GetRemote([]) == ("", Some(NoRemoteError))
  {
  }

  /** TestNewGitTrigger and TestGetLatestCommit: the trigger holds the committed message. */
  lemma LatestCommitRows()
    ensures NewGitTrigger(Ok("foo barred baz")) == (GitTrigger(DefaultTrigger, "foo barred baz"), None)
    ensures GetLatestCommit(GitTrigger(DefaultTrigger, ""), Ok("test commit in a test repo"))
         == (GitTrigger(DefaultTrigger, "test commit in a test repo"), None)
  {
  }
}
