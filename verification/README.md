# rainforest-cli: commit trigger and local run, modelled in Dafny

This project models two pieces of the Rainforest command line.

- **The commit trigger** (package `gitTrigger`). It decides from the last commit message whether a
  run is requested (`CheckTrigger`: the trigger token occurs in the message). It extracts the run's
  tags (`GetTags`: the `#name` tokens after the trigger, where a name is ASCII letters, digits, `-`
  and `_`, separated by commas or whitespace, in order, never absent). It names the repository's
  remote (`GetRemote`: the first-listed remote's URL, or `""` with an error when there is none).
  The git subprocesses are not modelled. HEAD's subject and the list of remotes are inputs.
- **The local run** (`local.go`). `startTunnel` resolves `RFLOCAL_HOST` (default `localhost`) and
  `RFLOCAL_PORT` (default `3000`). It parses the port with Go's `strconv.Atoi` and then asks for a
  tunnel. A port that does not parse makes `startTunnel` return `""` and the parse error.
  `makeRunParams` ignores that error and creates a temporary environment for the returned URL,
  even when the URL is `""`. It then builds the run parameters. `startRun` creates the run and
  hands it to monitoring. A failed environment creation or a failed run creation ends `startRun`
  with an exit error of code 1. Monitoring's own result, error or not, is returned unchanged.

Files:

- `wrappers.dfy`: `Option` and `Result`.
- `rainforest.dfy`: the API records: `Environment`, `EnvironmentParams`, `RunParams`, `RunStatus`,
  and the fixed temporary-environment name.
- `gittrigger.dfy`: the trigger record and its queries, with lemmas.
- `gittrigger_rows.dfy`: the rows of the package's table tests and two further messages, proved as
  lemmas.
- `strconv.dfy`: Go's `strconv.Atoi` on a 64-bit `int`. Its digit loop reads left to right. The
  first non-digit gives a syntax error. The first digit that takes the value past 2^64 - 1 gives a
  range error. Whichever comes first decides the error. A value that fits 64 unsigned bits but not
  the signed range is a range error as well. `Itoa` is its inverse.
- `local.dfy`: tunnel configuration and a fake collaborator class, `FakeRunnerAPI`. The fake stands
  in for the tunnel library, the API client and `monitorRunStatus`. It records every call in one
  log and answers from a script. The file also holds `LocalRunner`, whose methods are proved equal
  to the specification functions `StartTunnelSpec`, `MakeRunParamsSpec` and `StartRunSpec`. Lemmas
  about those functions state the ordering, success-path and abort properties.

The implementation file of package `gitTrigger` is not part of this model. Its behaviour is taken
from the package's tests (`gittrigger/gittrigger_test.go`). Where the tests cannot decide, the
model takes these as the intended behaviour:

- Tags are the `#name` tokens after the first occurrence of the trigger. A message that does not
  trigger has no tags, whatever `#` tokens it holds.
- `NewGitTrigger` uses the token `@rainforest`, which is the token every test uses.

`local.go` has no step that deletes the temporary environment, so the model states no such
property. An error from `startTunnel` does not stop the run (local.go:89-91).
`TunnelErrorDoesNotAbort` states this.

## Model

| member | source | states |
|---|---|---|
| `GitTrigger.CheckTrigger` | gittrigger/gittrigger_test.go:164-190 | true exactly when the trigger occurs at some position of the message (plain containment) |
| `GitTrigger.ScanTags` | gittrigger/gittrigger_test.go:193-220 | every tag read is non-empty and made of tag characters; a text without `#` yields no tag |
| `GitTrigger.GetTags` | gittrigger/gittrigger_test.go:193-220 | an untriggered message yields the empty sequence; every tag is non-empty and made of tag characters |
| `GitTrigger.ScanJoinTags` | gittrigger/gittrigger_test.go:203-210 | tags written as `#tag`, with commas or whitespace between them and a possibly different separator in each gap, are read back exactly, in order, repeats kept |
| `GitTrigger.GetTagsAfterTrigger` | gittrigger/gittrigger_test.go:203-210 | a message whose first trigger occurrence is followed by separators and tags yields exactly those tags, whatever text precedes the trigger |
| `GitTrigger.GetRemote` | gittrigger/gittrigger_test.go:119-162 | no error exactly when a remote exists; then the first-listed URL; otherwise `""` with `NoRemoteError` |
| `GitTrigger.GetLatestCommit` | gittrigger/gittrigger_test.go:105-117 | on success the last commit becomes HEAD's subject with no error; on failure the record is unchanged and the error carries git's output; the trigger never changes |
| `GitTrigger.NewGitTrigger` | gittrigger/gittrigger_test.go:92-103 | the new trigger has token `@rainforest` and holds HEAD's subject, or a repository error |
| `GitTriggerRows.CheckTriggerRows` | gittrigger/gittrigger_test.go:164-190 | "Testing testing" and "@rainfnf" do not trigger; "Testing @rainforest testing" does |
| `GitTriggerRows.GetTagsRowUntriggered` | gittrigger/gittrigger_test.go:199-202 | "Testing testing" yields the empty sequence |
| `GitTriggerRows.GetTagsRowComma` | gittrigger/gittrigger_test.go:203-206 | "@rainforest #foo, #bar" yields ["foo", "bar"] |
| `GitTriggerRows.GetTagsRowSpaces` | gittrigger/gittrigger_test.go:207-210 | "@rainforest #foo #bar-baz #qwe_asd" yields ["foo", "bar-baz", "qwe_asd"] |
| `GitTriggerRows.GetTagsAfterLeadingText` | gittrigger/gittrigger_test.go:193-220 | "Testing @rainforest #foo" yields ["foo"] |
| `GitTriggerRows.GetTagsMixedSeparators` | gittrigger/gittrigger_test.go:203-210 | "@rainforest #a, #b #c-d #e_f" yields ["a", "b", "c-d", "e_f"] |
| `GitTriggerRows.GetRemoteRows` | gittrigger/gittrigger_test.go:119-162 | one remote gives its URL; remotes R1 then R2 give R1's URL; none gives `""` with an error |
| `GitTriggerRows.LatestCommitRows` | gittrigger/gittrigger_test.go:92-117 | after reading, `LastCommit` equals the committed message |
| `Strconv.ParseUint` | local.go:53 | an empty string is a syntax error; otherwise the left-to-right digit loop ends in a range error when the leading digits pass 2^64 - 1, else a syntax error at a non-digit, else the value of the digits |
| `Strconv.Atoi` | local.go:53-57 | for decimal text: success exactly when the signed value fits 64 bits, with that value, else a range error; for other text: an error, a range error exactly when the leading digits pass 2^64 - 1; every error names `Atoi` and the input |
| `Strconv.AtoiItoa` | local.go:53 | every 64-bit integer is parsed back from its decimal form |
| `Strconv.AtoiRejectsNonDigit` | local.go:53-57 | a non-digit among the first 20 characters (a leading sign excepted) gives a syntax error, since at most 19 digits precede it |
| `Strconv.AtoiOverflowBeforeNonDigit` | local.go:53-57 | digits whose value passes 2^64 - 1 give a range error even when a non-digit follows them |
| `Local.ResolveTunnelConfig` | local.go:42-57 | an empty host becomes `localhost`, any other host is kept; the port string, `3000` when empty, is parsed, and a parse failure is the result's error |
| `Local.PortDefault` | local.go:48-53 | an unset or empty `RFLOCAL_PORT` resolves to port 3000 |
| `Local.PortFromDecimal` | local.go:53 | a port variable holding the decimal form of n resolves to n |
| `Local.FakeRunnerAPI.constructor` | local.go:27-29 | the fake starts with an empty call log and the given script |
| `Local.FakeRunnerAPI.GetTunnel` | local.go:59-60 | records the tunnel request for (port, host) and returns the tunnel's URL |
| `Local.FakeRunnerAPI.CreateTemporaryEnvironment` | rainforest/environments.go:18-35 | records a creation request named `temporary-env-for-custom-url-via-CLI` for the URL and returns the scripted environment or error |
| `Local.FakeRunnerAPI.CreateRun` | local.go:73 | records the run request with its parameters and returns the scripted status or error |
| `Local.FakeRunnerAPI.MonitorRunStatus` | local.go:79 | records the run identity handed to monitoring and returns monitoring's result |
| `Local.LocalRunner.constructor` | local.go:36-38 | the runner is built over the client it is given |
| `Local.LocalRunner.StartTunnel` | local.go:40-63 | appends exactly the calls of `StartTunnelSpec` to the log and returns its URL and error |
| `Local.LocalRunner.MakeRunParams` | local.go:82-107 | appends exactly the calls of `MakeRunParamsSpec` and returns its parameters and error |
| `Local.LocalRunner.StartRun` | local.go:65-80 | appends exactly the calls of `StartRunSpec` and returns its error |
| `Local.BadPortRequestsNoTunnel` | local.go:53-59 | a port that does not parse ends `startTunnel` with `""` and the parse error, before any tunnel is requested; the error is a range error for decimal text out of range or leading digits past 2^64 - 1, else a syntax error |
| `Local.StartTunnelSuccess` | local.go:53-62 | a port that parses leads to exactly one tunnel request, for the resolved port and host, returning the tunnel's URL and no error |
| `Local.TunnelErrorDoesNotAbort` | local.go:88-91 | after a `startTunnel` error the only call is the environment creation for URL `""`, and a successful creation still gives no error |
| `Local.MakeRunParamsSuccess` | local.go:83-106 | on success: crowd `automation`, tests [273861], browsers the expansion of ["chrome_1440_900"], the new environment's id, and the last call is the creation for the tunnel URL |
| `Local.EnvironmentFailureAborts` | local.go:65-94 | a failed environment creation gives empty parameters with that error; `startRun` exits with code 1 and never creates or monitors a run |
| `Local.RunFailureSkipsMonitoring` | local.go:73-79 | a failed run creation exits with code 1 after the run request, and monitoring never starts |
| `Local.StartRunSuccessPath` | local.go:65-106 | when the environment and the run are created, the calls are the tunnel calls, the environment creation for the tunnel URL, the run creation for that environment and monitoring of that run's id, and the result is monitoring's |
| `Local.StartRunCallOrder` | local.go:65-91 | calls come in the order tunnel, environment, run, monitoring, each at most once, and the environment is always requested |
| `Local.RunUsesCreatedIdentities` | local.go:68-106 | a run is created only for the environment just created; monitoring receives exactly the created run's id and its result is `startRun`'s |

## Left out

- The git subprocesses and the test repository setup (gittrigger/gittrigger_test.go:13-90). HEAD's
  subject (or git's failure output) and the listed remotes are inputs. Trimming of git's output is
  not modelled.
- `GitTrigger.GetLatestCommit`: that a failed read leaves the record unchanged is an assumption,
  because the implementation file is not part of this model.
- The tunnel library (`GetTunnel`, local.go:15-25). The fake always yields a URL. The error it may
  return is discarded at local.go:59. What `tunnel.URL()` does on a failed tunnel is library
  behaviour and is not modelled.
- `expandStringSlice` is not part of this model. It is an opaque function the runner is built with.
- `monitorRunStatus` and `cli.NewExitError` are not part of this model. Monitoring is a scripted
  result. An exit error is a message and a code.
- Strings are sequences of characters, not of bytes. `Atoi`'s outcome is the same either way,
  since a character outside ASCII is a non-digit in both readings.
- `Local.Message`: the quoting of the input in a parse error's text is simplified to plain double
  quotes. This error's text never reaches the caller, because `makeRunParams` overwrites it.
- Logging (local.go:44, 50, 55, 61, 77) and the unused CLI context parameter.
- The global `api` client (local.go:37). The client is passed to the runner's constructor.
- `IsEnvironmentDefault` and `SetEnvironmentDefault` (rainforest/environments.go:37-43) have empty
  bodies and are not called by the local run.
- Deleting the temporary environment. `local.go` has no such step.
