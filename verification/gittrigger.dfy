/**
 * The commit trigger (package `gitTrigger`): decides from the last commit
 * message whether a run is requested and with which tags, and names the
 * repository's remote.  The git subprocesses are not modelled: the HEAD
 * subject and the list of remotes are inputs.
 */
module GitTrigger {
  import opened Wrappers

  /** The trigger token a new trigger is built with. */
  const DefaultTrigger: string := "@rainforest"

  /** The trigger token and the message of the last commit. */
  datatype GitTrigger = GitTrigger(trigger: string, lastCommit: string)

  /** A configured remote, as git lists it. */
  datatype Remote = Remote(name: string, url: string)

  datatype GitError =
    | RepositoryError(output: string)  // git failed; carries its raw output
    | NoRemoteError                    // the repository has no remote

  // ---------------------------------------------------------------------------
  // Substring search (Go's strings.Index / strings.Contains)

  /** `t` occurs in `s` starting at index `i`. */
  predicate OccursAt(s: string, t: string, i: int)
  {
    0 <= i && i + |t| <= |s| && s[i..i + |t|] == t
  }

  /** The first occurrence of `t` in `s` at or after `i`, or -1. */
  function IndexFrom(s: string, t: string, i: nat): (r: int)
    decreases |s| - i
    ensures r == -1 || (i <= r && OccursAt(s, t, r))
    ensures r == -1 ==> forall j :: i <= j ==> !OccursAt(s, t, j)
    ensures r != -1 ==> forall j :: i <= j < r ==> !OccursAt(s, t, j)
  {
    if i + |t| > |s| then -1
    else if s[i..i + |t|] == t then i
    else IndexFrom(s, t, i + 1)
  }

  /** The first occurrence of `t` in `s`, or -1 when there is none. */
  function IndexOf(s: string, t: string): (r: int)
    ensures r == -1 <==> forall j :: !OccursAt(s, t, j)
    ensures r != -1 ==> OccursAt(s, t, r) && forall j :: j < r ==> !OccursAt(s, t, j)
  {
    IndexFrom(s, t, 0)
  }

  // ---------------------------------------------------------------------------
  // CheckTrigger

  /** A run is requested exactly when the trigger token occurs anywhere in the message. */
  function CheckTrigger(g: GitTrigger): (triggered: bool)
    ensures triggered <==> exists i :: OccursAt(g.lastCommit, g.trigger, i)
  {
    IndexOf(g.lastCommit, g.trigger) != -1
  }

  // ---------------------------------------------------------------------------
  // GetTags

  /** The characters a tag is made of: ASCII letters and digits, `_` and `-`. */
  predicate IsTagChar(c: char)
  {
    ('a' <= c <= 'z') || ('A' <= c <= 'Z') || ('0' <= c <= '9') || c == '_' || c == '-'
  }

  predicate ValidTag(t: string)
  {
    |t| > 0 && forall i :: 0 <= i < |t| ==> IsTagChar(t[i])
  }

  /** Commas and whitespace: what may stand between tags. */
  predicate IsSeparator(sep: string)
  {
    forall i :: 0 <= i < |sep| ==> sep[i] in {',', ' ', '\t', '\n', '\r'}
  }

  /** The length of the longest prefix of `s` made of tag characters. */
  function TagRun(s: string): (n: nat)
    ensures n <= |s|
    ensures forall i :: 0 <= i < n ==> IsTagChar(s[i])
    ensures n < |s| ==> !IsTagChar(s[n])
  {
    if s != [] && IsTagChar(s[0]) then 1 + TagRun(s[1..]) else 0
  }

  /**
   * The `#name` tokens of `s`, left to right: a `#` followed by the longest
   * run of tag characters; a `#` followed by none is skipped.
   */
  function ScanTags(s: string): (tags: seq<string>)
    decreases |s|
    ensures forall k :: 0 <= k < |tags| ==> ValidTag(tags[k])
    ensures (forall i :: 0 <= i < |s| ==> s[i] != '#') ==> tags == []
  {
    if s == [] then []
    else if s[0] != '#' then ScanTags(s[1..])
    else
      var n := TagRun(s[1..]);
      if n == 0 then ScanTags(s[1..]) else [s[1..1 + n]] + ScanTags(s[1 + n..])
  }

  /** The tags that follow the first occurrence of the trigger; none when the commit does not trigger. */
  function GetTags(g: GitTrigger): (tags: seq<string>)
    ensures !CheckTrigger(g) ==> tags == []
    ensures forall k :: 0 <= k < |tags| ==> ValidTag(tags[k])
  {
    var i := IndexOf(g.lastCommit, g.trigger);
    if i == -1 then [] else ScanTags(g.lastCommit[i + |g.trigger|..])
  }

  /** A message fragment listing `tags` as `#tag`, with `seps[k]` between tag k and tag k + 1. */
  function JoinTags(tags: seq<string>, seps: seq<string>): string
    requires |tags| <= |seps| + 1
  {
    if tags == [] then []
    else if |tags| == 1 then "#" + tags[0]
    else "#" + tags[0] + seps[0] + JoinTags(tags[1..], seps[1..])
  }

  predicate AllSeparators(seps: seq<string>)
  {
    forall k :: 0 <= k < |seps| ==> IsSeparator(seps[k])
  }

  lemma {:induction false} TagRunOf(t: string, rest: string)
    requires forall i :: 0 <= i < |t| ==> IsTagChar(t[i])
    requires rest == [] || !IsTagChar(rest[0])
    ensures TagRun(t + rest) == |t|
  {
    if t != [] {
      assert (t + rest)[1..] == t[1..] + rest;
      TagRunOf(t[1..], rest);
    } else {
      assert t + rest == rest;
    }
  }

  /** Separators before a `#` contribute nothing. */
  lemma {:induction false} ScanTagsSkipsSeparator(sep: string, rest: string)
    requires IsSeparator(sep)
    ensures ScanTags(sep + rest) == ScanTags(rest)
  {
    if sep != [] {
      assert (sep + rest)[0] == sep[0];
      assert (sep + rest)[1..] == sep[1..] + rest;
      ScanTagsSkipsSeparator(sep[1..], rest);
    } else {
      assert sep + rest == rest;
    }
  }

  /** A `#tag` ended by a non-tag character (or the end) yields that tag, then the rest. */
  lemma ScanTagsTag(t: string, rest: string)
    requires ValidTag(t)
    requires rest == [] || !IsTagChar(rest[0])
    ensures ScanTags("#" + t + rest) == [t] + ScanTags(rest)
  {
    var s := "#" + t + rest;
    assert s[1..] == t + rest;
    TagRunOf(t, rest);
    assert s[1..1 + |t|] == t;
    assert s[1 + |t|..] == rest;
  }

  /**
   * Tags written out with commas or whitespace between them, a possibly
   * different separator in each gap, are read back exactly, in order and
   * with repeats.
   */
  lemma {:induction false} ScanJoinTags(tags: seq<string>, seps: seq<string>)
    requires forall k :: 0 <= k < |tags| ==> ValidTag(tags[k])
    requires |tags| <= |seps| + 1 && AllSeparators(seps)
    ensures ScanTags(JoinTags(tags, seps)) == tags
  {
    if |tags| == 1 {
      ScanTagsTag(tags[0], []);
      assert "#" + tags[0] + [] == "#" + tags[0];
    } else if |tags| > 1 {
      var next := JoinTags(tags[1..], seps[1..]);
      var rest := seps[0] + next;
      assert JoinTags(tags, seps) == "#" + tags[0] + rest;
      assert next[0] == '#';
      assert IsSeparator(seps[0]);
      ScanTagsTag(tags[0], rest);
      ScanTagsSkipsSeparator(seps[0], next);
      ScanJoinTags(tags[1..], seps[1..]);
    }
  }

  /** When `t` first occurs right after `pre`, its first occurrence in any continuation is at `|pre|`. */
  lemma IndexOfAfter(pre: string, t: string, rest: string)
    requires forall j :: 0 <= j < |pre| ==> !OccursAt(pre + t, t, j)
    ensures IndexOf(pre + t + rest, t) == |pre|
  {
    var msg := pre + t + rest;
    assert msg[|pre|..|pre| + |t|] == t;
    assert OccursAt(msg, t, |pre|);
    forall j | 0 <= j < |pre|
      ensures !OccursAt(msg, t, j)
    {
      assert !OccursAt(pre + t, t, j);
      assert msg[j..j + |t|] == (pre + t)[j..j + |t|];
    }
  }

  /**
   * A message whose first trigger occurrence is followed by separators and
   * then tags yields exactly those tags, whatever text comes before the
   * trigger.
   */
  lemma GetTagsAfterTrigger(pre: string, trigger: string, lead: string, tags: seq<string>, seps: seq<string>)
    requires forall j :: 0 <= j < |pre| ==> !OccursAt(pre + trigger, trigger, j)
    requires IsSeparator(lead) && AllSeparators(seps) && |tags| <= |seps| + 1
    requires forall k :: 0 <= k < |tags| ==> ValidTag(tags[k])
    ensures GetTags(GitTrigger(trigger, pre + trigger + lead + JoinTags(tags, seps))) == tags
  {
    var body := lead + JoinTags(tags, seps);
    var msg := pre + trigger + body;
    assert pre + trigger + lead + JoinTags(tags, seps) == msg;
    IndexOfAfter(pre, trigger, body);
    assert msg[|pre| + |trigger|..] == body;
    ScanTagsSkipsSeparator(lead, JoinTags(tags, seps));
    ScanJoinTags(tags, seps);
  }

  // ---------------------------------------------------------------------------
  // GetRemote

  /** The URL of the first-listed remote; with no remote, "" and an error. */
  function GetRemote(remotes: seq<Remote>): (r: (string, Option<GitError>))
    ensures r.1 == None <==> remotes != []
    ensures r.1 == None ==> r.0 == remotes[0].url
    ensures r.1 != None ==> r.0 == "" && r.1 == Some(NoRemoteError)
  {
    if remotes == [] then ("", Some(NoRemoteError)) else (remotes[0].url, None)
  }

  // ---------------------------------------------------------------------------
  // Reading the last commit

  /**
   * Re-reads the last commit: `head` is what git reports for HEAD's subject,
   * or git's raw output when it fails.
   */
  function GetLatestCommit(g: GitTrigger, head: Result<string, string>): (r: (GitTrigger, Option<GitError>))
    ensures r.0.trigger == g.trigger
    ensures head.Ok? ==> r.0.lastCommit == head.value && r.1 == None
    ensures head.Err? ==> r.0 == g && r.1 == Some(RepositoryError(head.error))
  {
    match head
    case Ok(subject) => (g.(lastCommit := subject), None)
    case Err(output) => (g, Some(RepositoryError(output)))
  }

  /** A trigger for the default token, holding the last commit's message. */
  function NewGitTrigger(head: Result<string, string>): (r: (GitTrigger, Option<GitError>))
    ensures r.0.trigger == DefaultTrigger
    ensures head.Ok? ==> r.0.lastCommit == head.value && r.1 == None
    ensures head.Err? ==> r.1 == Some(RepositoryError(head.error))
  {
    GetLatestCommit(GitTrigger(DefaultTrigger, ""), head)
  }
}
