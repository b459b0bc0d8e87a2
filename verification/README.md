# Weekly merge automation, modelled in Dafny

This project models the core of a service that runs a weekly branch merge
across five repositories of one GitHub organisation:

- The merge manager (`services/mergeManager.js`) runs a merge in one
  direction (`master-to-release` or `release-to-develop`). It works in
  three phases, which follow a fixed plan: `danal-core`, then
  `smart-settlement-extapi`, then three more repositories whose merges run
  concurrently.
- It allows one run at a time.
- It emits an event at each step.
- It archives each completed run in a history of at most 50 runs, newest
  first.
- A run can be cancelled.
- The GitHub service (`services/githubService.js`) turns one repository's
  merge into two calls: create a hotfix branch from the base branch, then
  open a pull request into the target branch. It reports success or failure
  as a record and never throws.
- The configuration (`src/config/config.js`) resolves the token, the
  organisation and the repository list from the environment and a secure
  token store. It validates them with fixed Korean messages.
- The logger (`utils/logger.js`) keeps the 1000 newest log entries in
  memory, newest first. It filters them by level and reads the newest lines
  of a log file.

The modules:

- `Wrappers` (wrappers.dfy): `Option` and `Result`.
- `Decimal` (decimal.dfy): decimal digits, `String(n)` and zero-padded
  numbers, and the value of a digit string.
- `JsText` (js_text.dfy): the JavaScript built-ins the core relies on.
  These are `split` on a character, `trim`, `filter`, `slice` with negative
  indices, `reverse`, ASCII `toUpperCase`, `replace(/-/g, '')` and
  `parseInt`.
- `Config` (config.dfy): `src/config/config.js`. The environment is a
  `map<string, string>`, and the secure store's reply is a parameter.
- `Logging` (logger.dfy): `utils/logger.js`. `LogStream` is a class whose
  `logs` field is reassigned by `Add`.
- `GitHub` (github_service.dfy): `services/githubService.js`.
  - Every Octokit call becomes a reply value (`Reply<T>`) passed in by the
    caller.
  - The current date is a `CalendarDate` parameter.
  - `GitHubService` is a class holding the token state.
- `Orchestrator` (merge_manager.dfy): `services/mergeManager.js`.
  - `MergeManager` is a class with the fields `repositories`, `current` (the
    active run) and `history`, plus a ghost `events` trace of everything it
    emitted.
  - Each repository merge is an `Executor`, a function from (repository,
    direction) to what `processMerge` resolved to or threw.
  - The order in which the parallel merges settle is a permutation given by
    the caller.
  - A listener that throws is a `Fault`, either at `process-started` or at
    the `phase-started` of one phase.
  - The clock readings are a `Clock` parameter.
  - Each method states the new run, the new history and the exact events
    appended. These are the specification functions `CompletedRun`,
    `CompletedEvents`, `FailedRun` and `FailedEvents`. Lemmas then prove
    what the plan promises about them.

The model follows the code where it departs from what its comments suggest:

- A run whose direction is not supported still ends as `completed` and is
  archived. Each of its five records is a failure.
- A failed run is not archived.
- The config manager's repository list keeps the spaces around each name,
  while the manager's own fallback trims them (`RepositoryListsAgree`).
- `validate` accepts a repository setting made only of commas and blanks,
  though it yields no repository (`ValidWithNoRepositories`).

## Model

| member | source | states |
|---|---|---|
| JsText.Trim | services/mergeManager.js:16 | the result is the stretch of the input that starts after its leading white space and is followed only by white space; it is itself trimmed, so exactly the blank ends are removed; it is empty exactly when the input is all white space |
| JsText.Filter | src/config/config.js:103 | keeps exactly the elements that match, each taken from the input, in at most the input's length |
| JsText.FilterAppend | utils/logger.js:154 | filtering distributes over concatenation, so the entries kept keep their relative order |
| JsText.FilterCount | utils/logger.js:154 | filtering keeps each matching element exactly as often as it occurs and drops every other element |
| JsText.FilterAll | utils/logger.js:154 | filtering a sequence whose elements all match returns it unchanged |
| JsText.JoinSplit | src/config/config.js:103 | splitting on a character and joining the pieces with it gives the original string back |
| JsText.SplitAppend | src/config/config.js:103 | splitting at a separator gives the pieces of the text before it followed by the pieces of the text after it |
| JsText.SplitWithoutSeparator | src/config/config.js:103 | a string that does not contain the separator splits into itself alone |
| JsText.BoundedPrepend | utils/logger.js:142-145 | the new entry comes first, then the previous ones in order, truncated to the cap |
| JsText.BoundedPrependAllNewestFirst | utils/logger.js:142-145 | after a series of insertions the list is the newest entries first, the oldest evicted first, never longer than the cap |
| JsText.Reverse | utils/logger.js:116 | position i of the result is position n-1-i of the input |
| JsText.SliceIndex | utils/logger.js:116 | `slice`'s end index: a negative index counts from the back, and every index is clamped to the length |
| JsText.ToUpperAscii | services/githubService.js:633 | upper-cases each ASCII letter and keeps the length |
| JsText.ToUpperAsciiIdempotent | services/githubService.js:633 | upper-casing twice is the same as upper-casing once |
| JsText.RemoveChar | services/githubService.js:100 | the removed character no longer occurs, every other character occurs as often as in the input, and the string does not grow |
| JsText.RemoveCharIsFilter | services/githubService.js:100 | removing a character is filtering it out, so the other characters keep their order |
| JsText.RemoveCharAppend | services/githubService.js:100 | removing a character distributes over concatenation |
| JsText.RemoveAbsentChar | services/githubService.js:100 | removing a character that does not occur changes nothing |
| JsText.ParseIntDigits | services/githubService.js:659-661 | `parseInt` of a string of decimal digits is its decimal value |
| JsText.ParseIntOrZeroDecimal | services/githubService.js:659-661 | `parseInt(h) \|\| 0` reads back any natural number written in decimal |
| JsText.ParseIntOrZeroNonNumeric | services/githubService.js:659-661 | a header with no digit after the white space and the sign reads as 0 |
| Decimal.NatToDecimalValue | services/mergeManager.js:181 | the decimal rendering of a number has that number as its value |
| Decimal.NatToDecimalInjective | services/mergeManager.js:181 | distinct numbers render to distinct strings |
| Decimal.FixedValue | services/githubService.js:100 | a zero-padded rendering has the padded number as its value |
| Config.Get | src/config/config.js:85-87 | a present, non-empty variable is returned, and an absent or empty one yields the default |
| Config.Repositories | src/config/config.js:103 | each non-blank comma-separated piece of the setting is listed as often as it occurs, and nothing else is listed; no name holds a comma; an unset variable gives no repository |
| Config.RepositoriesAppend | src/config/config.js:103 | the names before a comma are listed, in order, before the names after it |
| Config.RepositoriesSingle | src/config/config.js:103 | a setting that is one non-blank name without commas lists exactly that name |
| Config.GitHubToken | src/config/config.js:38-55 | the stored token wins; the environment token is the fallback; an empty token or the placeholder is the "not set" error |
| Config.ErrorList | src/config/config.js:122-139 | each error message is present exactly when its check fails, in check order, with no other message |
| Config.Validate | src/config/config.js:122-151 | errors for the token, organisation and repository checks, each present exactly when the check fails and in that order; valid exactly when there is no error; the plaintext-token warning exactly when the environment holds a real token |
| Config.ValidWithNoRepositories | src/config/config.js:103-139 | a repository setting of blanks and commas validates, yet lists no repository |
| Config.ConfigManager.constructor | src/config/config.js:8-11 | construction runs the token migration |
| Config.ConfigManager.InitializeTokens | src/config/config.js:16-32 | a real environment token is copied into the secure store unless saving fails; otherwise the store is unchanged |
| Config.ConfigManager.SetGitHubToken | src/config/config.js:61-77 | an absent or empty token is rejected; a failed save is reported with the store's message; otherwise the token is stored, whatever its format |
| Logging.SelectLogs | utils/logger.js:150-158 | without a level the first `limit` entries; with a level only entries of that level, in order, at most `limit` of them |
| Logging.SelectNewestFirst | utils/logger.js:150-158 | when the newest entries already hold `limit` entries of the level, the older ones do not change the selection |
| Logging.LogStream.constructor | utils/logger.js:128-132 | the stream starts empty |
| Logging.LogStream.Add | utils/logger.js:134-148 | the entry is put first, the list is capped at 1000, and the entry is emitted |
| Logging.LogStream.GetLogs | utils/logger.js:150-158 | the selection by level and limit over the current entries, never more than are kept |
| Logging.Log | utils/logger.js:164-168 | every logged message enters the stream |
| Logging.KeptLines | utils/logger.js:113 | each non-blank line of the file is kept as often as it occurs, and nothing else is kept; no kept line holds a newline |
| Logging.KeptLinesAppend | utils/logger.js:113 | the lines kept from the text before a newline come before those kept from the text after it, so file order is kept |
| Logging.ReadLogFile | utils/logger.js:105-121 | a missing file gives no line; otherwise the last `lines` non-blank lines, newest first |
| GitHub.IsoDate | services/githubService.js:205 | `YYYY-MM-DD` with dashes at positions 4 and 7 and digit fields whose values are the year, month and day |
| GitHub.CompactDate | services/githubService.js:100 | eight digits whose fields have the date's year, month and day as values |
| GitHub.DirectionBranches | services/githubService.js:212-220 | exactly the two supported directions map to (base, target), with direction = base + "-to-" + target and base ≠ target |
| GitHub.HotfixBranchName | services/githubService.js:101 | `hotfix-<base>/merge-<base>-into-<target>-` followed by the compact date |
| GitHub.HotfixBranchNameInjective | services/githubService.js:100-101 | two runs on different days produce different branch names |
| GitHub.PullRequestTitle | services/githubService.js:226 | `[Auto] Merge <base> into <target> - ` followed by the ISO date |
| GitHub.GetBranch | services/githubService.js:78-92 | without a token, the "token not set" error; otherwise the remote reply |
| GitHub.CreateHotfixBranch | services/githubService.js:97-126 | without a token, the "token not set" error; a 422 from the base lookup or the ref creation still yields the branch; any other error propagates; success always names the hotfix branch |
| GitHub.ProcessMerge | services/githubService.js:204-258 | echoes the repository and direction; an unsupported direction and a missing token are failure records; a completed record names the hotfix branch and the pull request |
| GitHub.ProcessMergeSucceeds | services/githubService.js:204-247 | with a token and successful remote calls, the record is completed with the hotfix branch and the pull request's number and URL |
| GitHub.CheckRepositoryStatus | services/githubService.js:173-189 | always `ready`; each branch SHA is present exactly when that branch lookup succeeded |
| GitHub.NormalizeEndpoint | services/githubService.js:630 | the URL starts with `/`, and a leading `/` is added only when missing |
| GitHub.NormalizeEndpointIdempotent | services/githubService.js:630 | normalising twice is the same as normalising once |
| GitHub.Route | services/githubService.js:633-648 | exactly GET, POST, PUT and DELETE, in any letter case, are routed, as the upper-cased verb, a space and the URL |
| GitHub.RouteCaseInsensitive | services/githubService.js:633 | routing does not depend on the verb's letter case |
| GitHub.MakeApiCall | services/githubService.js:628-668 | an unsupported verb is an error; otherwise the request's error or its status plus the three rate-limit headers read with `parseInt(...) \|\| 0` |
| GitHub.GitHubService.constructor | services/githubService.js:5-17 | the given token wins over the environment's; configured exactly when one of them is non-empty |
| GitHub.GitHubService.SetToken | services/githubService.js:22-29 | the token is replaced and marked configured; it counts as configured only if non-empty |
| GitHub.GitHubService.CheckToken | services/githubService.js:69-73 | fails with the "token not set" message exactly when no non-empty token is configured |
| Orchestrator.TrimmedRepositories | services/mergeManager.js:16 | every listed name is non-empty, comma-free and trimmed |
| Orchestrator.TrimThenFilter | services/mergeManager.js:16 | trimming and then dropping the empty names is the same as dropping the blank names and then trimming |
| Orchestrator.RepositoryListsAgree | services/mergeManager.js:14-16 | the manager's own list is the config list with each name trimmed |
| Orchestrator.ExecutionOrder | services/mergeManager.js:145-155 | the plan has one, one and three repositories |
| Orchestrator.ExecutionOrderDistinct | services/mergeManager.js:145-155 | no repository occurs twice in the plan |
| Orchestrator.Settled | services/mergeManager.js:290-310 | a `repository-failed` event exactly when the merge threw, carrying the recorded outcome |
| Orchestrator.Duration | services/mergeManager.js:330-334 | the elapsed seconds, rounded to the nearest second |
| Orchestrator.DurationMonotone | services/mergeManager.js:330-334 | a later end never gives a shorter duration |
| Orchestrator.PhaseResults | services/mergeManager.js:254-271 | one outcome per repository, in plan order |
| Orchestrator.SerialEvents | services/mergeManager.js:262-269 | each repository's started event is directly followed by its settlement |
| Orchestrator.LaunchEvents | services/mergeManager.js:258-260 | one started event per repository, in plan order |
| Orchestrator.SettleEvents | services/mergeManager.js:258-261 | one settlement per repository, in the order the merges settle |
| Orchestrator.ParallelLaunchesFirst | services/mergeManager.js:256-261 | in a parallel phase every merge starts before any settles |
| Orchestrator.SettlementsPerPhase | services/mergeManager.js:244-280 | a phase's settlements are exactly one per repository: in list order in a sequential phase, and the same multiset in a parallel one |
| Orchestrator.SerialSettlements | services/mergeManager.js:262-269 | a sequential phase settles its repositories one by one, in list order |
| Orchestrator.ParallelSettlements | services/mergeManager.js:256-261 | a parallel phase settles each of its repositories once, in some order |
| Orchestrator.PermutedSettlements | services/mergeManager.js:258-261 | settling in a permuted order settles the same repositories, each as often |
| Orchestrator.PhaseStartsPerPhase | services/mergeManager.js:247-252 | a phase emits exactly one `phase-started` event |
| Orchestrator.InitialRun | services/mergeManager.js:181-190 | a new run is `running`, in phase 1 of 3, with no result, no end, no duration and no error |
| Orchestrator.RunIdFormat | services/mergeManager.js:181 | the run id is the direction, a dash, and digits whose value is the clock reading |
| Orchestrator.RunIdsDiffer | services/mergeManager.js:181 | runs started at different milliseconds get different ids |
| Orchestrator.PlanResultsAll | services/mergeManager.js:196-205 | the results of the three phases are the outcomes for all five repositories, in plan order |
| Orchestrator.CompletedRunFollowsPlan | services/mergeManager.js:196-223 | a completed run is in its last phase, with five results for the planned repositories and the run's direction |
| Orchestrator.CompletedEventsEnds | services/mergeManager.js:194-213 | a completed run's trace opens with `process-started` and closes with `process-completed` |
| Orchestrator.CompletedPhaseStarts | services/mergeManager.js:194-213 | a completed run emits phases 1, 2 and 3 in order, only the third one parallel |
| Orchestrator.PlanPhaseStarts | services/mergeManager.js:196-205 | the three phases emit their `phase-started` events in plan order |
| Orchestrator.CompletedEventsSettleAll | services/mergeManager.js:194-213 | a completed run settles exactly five merges |
| Orchestrator.PlanSettlements | services/mergeManager.js:196-205 | the three phases settle five merges between them |
| Orchestrator.MergeManager.constructor | services/mergeManager.js:6-20 | the repository list comes from the config manager or from the trimmed environment variable; no run, no history |
| Orchestrator.MergeManager.CurrentProcessStatus | services/mergeManager.js:316-318 | exactly the active run, which is `running`, or none |
| Orchestrator.MergeManager.GetProcessHistory | services/mergeManager.js:323-325 | the newest `limit` runs (10 by default), all completed |
| Orchestrator.MergeManager.ExecuteRepository | services/mergeManager.js:285-311 | emits the started event and then the settlement; a thrown error becomes a failure record |
| Orchestrator.MergeManager.Settle | services/mergeManager.js:290-310 | the outcome is recorded and emitted; a throw becomes a failure carrying its message |
| Orchestrator.MergeManager.RunParallel | services/mergeManager.js:256-261 | the results are in plan order whatever the settling order; all launches come first, then the settlements in settling order |
| Orchestrator.MergeManager.LaunchAll | services/mergeManager.js:258-260 | starts every merge in plan order |
| Orchestrator.MergeManager.SettleAll | services/mergeManager.js:258-261 | every merge settles once, in the given order, and each settled outcome is recorded |
| Orchestrator.MergeManager.RunSerial | services/mergeManager.js:262-269 | merges one repository after another; the results are in plan order |
| Orchestrator.MergeManager.ExecutePhase | services/mergeManager.js:244-280 | sets the current phase, emits `phase-started`, appends the phase's results and emits `phase-completed`; a throwing listener stops the phase before any merge |
| Orchestrator.MergeManager.RunPhases | services/mergeManager.js:196-205 | runs the phases in order and stops at the first phase whose listener throws |
| Orchestrator.MergeManager.ExecuteWeeklyMerge | services/mergeManager.js:176-239 | rejected while a run is active; otherwise it either completes and archives the run with the full trace, or fails without archiving it; it always ends with no active run |
| Orchestrator.MergeManager.CompleteRun | services/mergeManager.js:207-223 | marks the run completed with its end and duration, emits it, puts it first in the history capped at 50, and clears the active run |
| Orchestrator.MergeManager.FailRun | services/mergeManager.js:225-238 | marks the run failed with the message, end and duration, emits it, leaves the history alone, and clears the active run |
| Orchestrator.MergeManager.StopCurrentProcess | services/mergeManager.js:339-353 | false and no change without an active run; otherwise it emits the cancelled run and clears it, and the history is untouched |
| Orchestrator.HistoryKeepsNewest | services/mergeManager.js:216-219 | after a series of completed runs the history holds the 50 newest, newest first |
| Orchestrator.MergeExecutor | services/mergeManager.js:291 | the executor built on `processMerge` echoes the repository and direction and never throws |
| Orchestrator.UnsupportedDirectionCompletes | services/githubService.js:212-220 | a run in an unsupported direction completes with five failure records that name the direction |
| Orchestrator.RateLimitStatus | services/mergeManager.js:762-763 | good above 100 remaining calls, warning above 50, critical otherwise |

## Left out

- Octokit and the network are not modelled. Each remote call is a reply
  value or a function the caller supplies.
- The wall clock is not modelled. `new Date()` readings are parameters
  (`Clock`, `CalendarDate` and timestamp strings), and `toISOString`
  timestamps are opaque strings.
- Orchestrator.MergeExecutor: one title date and one branch date serve all
  five repositories of a run. In the source each `processMerge` reads the
  clock itself (services/githubService.js, lines 100 and 205), so a run that
  crosses midnight names its branches and pull requests with two dates.
- Concurrency is not modelled beyond `Promise.all`. The parallel phase's
  settling order is a permutation given by the caller. The interleaving of
  `stopCurrentProcess` with an in-flight run is not modelled: the model
  cancels only between operations. The source allows a stop while phases
  are awaited, after which the run finds no current process; that case is
  not represented. As a consequence no sequence of the class's own methods
  leaves a run active: the constructor and every path of
  `ExecuteWeeklyMerge` end with no current run. The "already running"
  rejection and the cancelling branch of `StopCurrentProcess` are reached
  only from a state with an active run. In the source such a state arises
  from calls that overlap in time.
- Listener exceptions are modelled only at `process-started` and at each
  `phase-started`. A throwing listener at `repository-completed` (which the
  source turns into a failure record), `phase-completed` or
  `process-completed` is not modelled.
- The events carry snapshots of the run. The JavaScript objects they share
  by reference with `currentProcess` are not modelled.
- Orchestrator.Duration: `Math.round` on a floating-point quotient is
  modelled as integer rounding of milliseconds, with halves rounded up.
- The `!startTime` guard in `getDuration` is not modelled; it never fires,
  because every run has a start time.
- JsText.ParseIntDigits: `parseInt` is exact on unbounded integers, with no
  loss of precision beyond 2^53.
- JsText.ToUpperAscii: only ASCII letters are upper-cased.
- GitHub.IsoDate: years beyond 9999, which `toISOString` writes with a sign
  and six digits, are outside `ValidDate`.
- The `catch` branch of `checkRepositoryStatus` (services/githubService.js,
  lines 190-197) is not modelled. Under the model's reply abstraction it
  cannot be reached, because a branch reply is its SHA. In the source, a
  reply without a `commit` field makes the reads at lines 184-186 throw
  inside the `try`, and that error reaches the `catch`.
- `createPullRequest` is not a separate member. Its reply is a parameter of
  `ProcessMerge`, and it passes its error through unchanged, without a token
  check.
- `mergePullRequest` is not modelled; no modelled operation calls it.
- The token methods of `MergeManager` (`setGitHubToken`, `verifyGitHubToken`
  and `getTokenStatus`, lines 25-140) are not modelled. Neither are its
  `checkAllRepositories` and its test methods (lines 355-786), apart from the
  `testRateLimit` classification (`RateLimitStatus`). They are thin wrappers
  over remote calls.
- In the GitHub service, `getTokenStatus`, the test methods (lines 260-623)
  and `checkRateLimit` are not modelled, for the same reason.
- The service is constructed at services/mergeManager.js:11 with the config
  manager where a token is expected. The model takes the token as given
  and does not reproduce that confusion.
- The secure token store (src/config/security.js) is not part of this
  model. Its load and save results are parameters.
- `getAll` is modelled only for its repository list. The port, the
  notification settings, the log level and the token status are not
  modelled.
- The winston transports, the log files' formats and rotation, `getLogFiles`
  (the directory listing, the modification-time sort and the size
  formatting) and the socket, route and UI layers are not modelled.
- The console messages and `logger` calls are not modelled, because they
  change no state the core reads.
