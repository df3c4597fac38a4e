# singularity core, modelled in Dafny

This project models the event-handling and configuration core of
*singularity*, a bridge between GitHub and a Jenkins CI server:

- **Hunk parser** (`hunks.dfy`, module `Hunks`). It splits each changed file's unified-diff patch
  into ranges `[start, start + length, modified_length, offset, deletions]`,
  as `checkFiles` does in `libraries/github.js`. The loop is an imperative
  method proved equal to a left fold (`ScanLines`) over the patch lines, and
  the properties of the ranges are proved about that fold.
- **Event classification and deduplication** (`github.dfy`, module `GitHub`).
  It covers `publish`, `checkFiles`, `handlePullRequest`, `processPull`,
  `handleIssueComment`, `handlePush`, the issue-versus-inline choice of
  `createComment` and the already-configured check of `setupRepoHook`.
  The library object is the class `GitHubLib`. Its pull records are a map
  and its seen pushes a set of keys, both updated by its methods, and the topics it publishes are a log the
  methods append to. GitHub API responses are method parameters.
- **Runtime configuration** (`singularity.dfy`, module `Singularity`).
  It covers `standardizeConfig`, `getConfig`/`formatProjectCfg`, `getDomain`,
  `addRepo`, `addRepoPRJob`, `addRepoPushJob`, `removeRepoConfigs`,
  `removeProjectConfigs` (with its pull/push variants) and `reloadConfigs`.
  The application object is the class `App`. It holds the configuration and
  the log of emitted events.
- **Change-payload schema** (`vcs_payload.dfy`, module `VcsPayload`). It
  holds the required fields and enumerations of `libraries/payloads/vcs.js`
  and a validator that returns the payload unchanged or a `SchemaError`.

`strings.dfy` holds the JavaScript string semantics the core relies on:
truthiness of an optional string, `indexOf(...) !== -1`, string `>`,
`split('\n')` and decimal digits. `sequences.dfy` holds `Array.prototype.filter`. `wrappers.dfy` holds `Option`.

JavaScript behaviour is modelled as the code has it:

- A TypeError is a value. `BlobSha` returns `None` where
  `blob_url.match(...)[1]` would throw. `Outcome.Threw` stands for `.some`
  or `.filter` applied to a job list that is an object rather than an array.
- `undefined === undefined` holds when a job clashes with the parameters.
- `splice(indexOf(x), 1)` removes the last repository when `x` is absent.
- A deletion line before the first hunk header is kept and lands in the
  first range. So the ordering lemma about deletions covers the first range
  only for a patch that begins with its header.
- `standardizeConfig` replaces a Jenkins section that has no `projects` by
  an empty array, so its token is lost. That array has no `projects`, so
  `addRepoPRJob` then throws.
- The default `push_projects` is `{}`, so `addRepoPushJob` and
  `removeRepoConfigs` throw on it.

The tests at `test/libraries/singularity.js:101-106` and `:122-134` expect a
log text, a config mutation and a `singularity.config_updated` event that the
code does not produce. The model follows the code.

## Model

| member | source | states |
|---|---|---|
| Hunks.ParsePatch | libraries/github.js:139-183 | the loop over the patch lines yields exactly the fold `PatchRanges` (absent or empty patch: no ranges) |
| Hunks.ParseHeaderLine | libraries/github.js:153 | a line `@@ -a,b +c,d @@...` is a hunk header and yields start `c` and length `d` whatever follows |
| Hunks.ParseHeader | libraries/github.js:153 | the pattern is anchored: a line that yields a header begins with `@@ -` |
| Hunks.HeaderNeedsCounts | libraries/github.js:153 | a header whose old range lacks `,count` is not a header |
| Hunks.NewRangeNeedsCount | libraries/github.js:153 | a header whose new range lacks `,count` (`@@ -a,b +c @@`) is not a header |
| Hunks.RangePerHeader | libraries/github.js:151-183 | one range per hunk header in patch order; start, end = start + length and modified_length = 1 + length + number of deletions |
| Hunks.OffsetsAccumulate | libraries/github.js:162-168 | the first range has offset 0 and each next offset is the previous offset plus its modified_length |
| Hunks.DeletionsSortedInHunk | libraries/github.js:155-176 | a range's deleted line numbers are non-decreasing and no smaller than its start (for the first range, when the patch begins with its header) |
| Hunks.EveryDeletionRecorded | libraries/github.js:162-182 | once a patch has a header, the ranges' deletion lists hold exactly one entry per `-` line |
| Hunks.GroupLinesPartitions | libraries/github.js:152-154 | cutting the patch lines at the header lines loses and reorders nothing: preamble and hunks together are the lines, no header sits in a body or the preamble, and each hunk's header is the one its first line parses to |
| Hunks.DeletedAtCounts | libraries/github.js:171-173 | the line numbers filed for a run of lines are one per `-` line |
| Hunks.DeletionsPerHunk | libraries/github.js:151-183 | range `k` is built from hunk `k` alone: its start, end and modified_length come from that hunk's header, and its deletions are exactly the new-file line numbers of that hunk's own `-` lines in order (the header's start plus the non-`-` lines before each), the first range also taking the `-` lines before the first header counted from 0 |
| Hunks.ModifiedLengthPerHunk | libraries/github.js:162-163 | range `k`'s modified_length is 1 + its hunk's length + the number of `-` lines in that hunk (plus those before the first header for range 0) |
| Sequences.Filter | libraries/github.js:135-137 | `.filter` never returns more elements than it is given (what it keeps is stated by the three lemmas below) |
| Sequences.FilterMembers | libraries/github.js:135-137 | `.filter` keeps exactly the accepted elements, and the whole list when every element is accepted |
| Sequences.FilterCounts | libraries/github.js:135-137 | `.filter` keeps each accepted element as often as it occurs and drops every other one |
| Sequences.FilterConcat | libraries/github.js:135-137 | `.filter` keeps the input order: the filter of `a + b` is the filter of `a` followed by the filter of `b` |
| Strings.Split | libraries/github.js:152 | `split('\n')` yields at least one line and no line holds a newline |
| Strings.JoinSplit | libraries/github.js:152 | `split('\n')` loses nothing: joining the lines with newlines gives the patch back |
| Strings.LexGreaterAsymmetric | libraries/github.js:272 | string `>` on timestamps is asymmetric: `a > b` and `b > a` never both hold |
| GitHub.Emitted | libraries/github.js:10-17 | publish delivers exactly `(topic, data)` when a publisher is set, and nothing otherwise |
| GitHub.GitHubLib.Publish | libraries/github.js:10-17 | the published log grows by that event, or not at all without a publisher |
| GitHub.KeptFiles | libraries/github.js:135-137 | the kept files are exactly the listed files whose filename is truthy and not `'undefined'`, each kept as often as it is listed; it is `Sequences.Filter`, so their order is the listing's |
| GitHub.BlobSha | libraries/github.js:148 | a found blob sha is non-empty and has no slash |
| GitHub.BlobShaMatches | libraries/github.js:148 | the sha is found exactly when `blob/` followed by a non-slash occurs; it is the slash-free run after the leftmost occurrence |
| GitHub.FileOf | libraries/github.js:146-148 | a file maps to a pull file exactly when its blob sha is found; the name and sha are carried over |
| GitHub.ParseAllSucceeds | libraries/github.js:138-186 | the mapped file list exists exactly when every kept file's sha is found (one failure fails the whole list) |
| GitHub.ParseAllValues | libraries/github.js:138-186 | a successful map holds one pull file per kept file, in order |
| GitHub.FilesOfShape | libraries/github.js:134-186 | every listed file has a usable name, a non-empty slash-free sha, nothing reported, and its own patch's ranges |
| GitHub.FilesOfFails | libraries/github.js:148 | a kept file without a blob sha makes the listing fail, so nothing is published |
| GitHub.ParseFiles | libraries/github.js:134-186 | the filter-and-map over the API file list yields exactly `FilesOf` |
| GitHub.GitHubLib.CheckFiles | libraries/github.js:133-193 | publishes `pull.found` with the parsed files only when the listing succeeds with at least one file |
| GitHub.RoutePull | libraries/github.js:348-389 | `closed` events go to the closed path; others need `opened`/`synchronize` (or a polled pull), mergeable not explicitly false and no `@user ignore` in a truthy body; each drop reason holds exactly when its condition does; proceeding pulls get `repo` = base repo name |
| GitHub.MarkClosed | libraries/github.js:353-359 | a stored pull ends `merged` if merged else `closed`; no record is created and others are untouched |
| GitHub.SetStatus | libraries/github.js:354 | `updatePull` changes only the status of an existing record; it creates no record and leaves the others untouched |
| GitHub.GitHubLib.UpdateStatus | libraries/github.js:354 | updatePull changes the status of an existing record only |
| GitHub.GitHubLib.HandlePullRequest | libraries/github.js:348-398 | store and published topics per route: closed publishes `pull.merged`/`pull.closed`; dropped changes nothing; proceeding publishes `pull.found` with no files when file listing is skipped, else what checkFiles publishes |
| GitHub.LastReported | libraries/github.js:229-236 | a file's reported lines come from the last stored file with the same name, and stay as they were when none matches |
| GitHub.CarryReported | libraries/github.js:229-236 | the nested loops give every file the reported lines of the last stored file of the same name |
| GitHub.FindRetestComment | libraries/github.js:258-276 | true exactly when some comment is from an allowed author (no whitelist, whitelisted, or the head user), is newer than the stored record and contains `@<auth user> retest` |
| GitHub.GitHubLib.ProcessPull | libraries/github.js:206-279 | no head or head repo: nothing; new pull: stored as open and `pull.processed` published once with no jobs; stored pull: reported lines carried, jobs restored, files updated, published only on a new head sha, `skip_comments` or a retest comment |
| GitHub.GitHubLib.HandleIssueComment | libraries/github.js:407-428 | a retest request on a pull request republishes the fetched pull as `pull_request` with `skip_comments` set; anything else publishes nothing |
| GitHub.GitHubLib.HandlePush | libraries/github.js:436-466 | a push with all six fields truthy and an unseen (repo, ref, after) is stored and published as `push.found`; otherwise nothing changes |
| GitHub.PushFoundAtMostOnce | libraries/github.js:444-464 | over any sequence of deliveries, each (repo, ref, after) is published at most once and never when already stored |
| GitHub.SamePushTwice | libraries/github.js:444-464 | the same push delivered twice is published once if new and never if stored |
| GitHub.CommentTarget | libraries/github.js:316-339 | an issue comment (body = the sha argument) exactly when file, position and comment are all falsy; otherwise an inline comment with all arguments |
| GitHub.SetupRepoHook | libraries/github.js:474-480 | refused as already configured exactly when the repo is in the configured list |
| GitHub.GitHubLib.constructor | libraries/github.js:19-27 | the library starts with the given configuration and store and an empty published log |
| Singularity.GithubDefaults | libraries/singularity.js:15-21 | a missing GitHub section becomes `{ repos: [] }`; a section without repos gets `repos = []` and keeps everything else; a section with repos is returned unchanged |
| Singularity.JenkinsDefaults | libraries/singularity.js:23-33 | a missing section, or one without `projects`, becomes an empty array holding only `push_projects = {}`; a section with projects gets `push_projects = {}` when it lacks it and is otherwise returned unchanged |
| Singularity.StandardizeConfig | libraries/singularity.js:10-36 | the result has plugins, GitHub repos, a Jenkins section and push projects; host and port are untouched |
| Singularity.StandardizeFillsDefaults | libraries/singularity.js:10-36 | standardizing fills `github.repos` with `[]` (creating the section if needed) and `jenkins.push_projects` with `{}`, keeping the rest of each section |
| Singularity.StandardizeKeeps | libraries/singularity.js:10-36 | values already present are kept: GitHub auth, a GitHub section with repos, and a Jenkins section that has projects (with its token) |
| Singularity.StandardizeResetsJenkins | libraries/singularity.js:27-33 | without `jenkins.projects` the section becomes an empty array with only `push_projects = {}`, losing its token |
| Singularity.StandardizeIdempotent | libraries/singularity.js:10-36 | standardizing twice equals standardizing once |
| Singularity.StandardizedFixedPoint | libraries/singularity.js:10-36 | a standardized configuration is left unchanged exactly when its Jenkins section has projects or is already the reset array |
| Singularity.IndexKeyParses | libraries/singularity.js:155 | array indices parse as integers |
| Singularity.NameKeyDoesNotParse | libraries/singularity.js:155 | a key starting with a letter or `_` does not parse as an integer |
| Singularity.SummaryOf | libraries/singularity.js:153-157 | name copied; `has_trigger_token` iff the token is truthy; repo is the job's when the key parses as an integer, else the key |
| Singularity.Entries | libraries/singularity.js:152 | for-in over an array visits indices `0..n-1` with their jobs |
| Singularity.SummariesEach | libraries/singularity.js:151-159 | one summary per visited entry, in order |
| Singularity.FormattedArray | libraries/singularity.js:147-160 | a job array yields one summary per job with the job's own repo |
| Singularity.FormattedNamedKeys | libraries/singularity.js:147-160 | an object keyed by repository names yields one summary per key with that key as repo |
| Singularity.FormatProjectCfg | libraries/singularity.js:147-160 | the for-in loop yields exactly `Formatted`; a missing list gives `[]` |
| Singularity.App.GetConfig | libraries/singularity.js:140-176 | `{}` without plugins; `ci_user` is the auth username or false, repositories default to `[]`, the global token flag is `!!token`, and both project lists are formatted |
| Singularity.SparseSummary | test/libraries/singularity.js:8-32 | an application built from `{}` reports no CI user, no repositories, no token and empty project lists |
| Singularity.GetDomain | libraries/singularity.js:235-237 | the exact domain in each of the four cases: `host:port`, with `localhost` and `80` standing in for a falsy host or port |
| Singularity.GetDomainSplits | libraries/singularity.js:235-237 | for a host without a colon, the text before the domain's first `:` is the host (or `localhost`) and the rest is the port (or `80`) |
| Singularity.TokenOrFalse | libraries/singularity.js:203 | the emitted token is the given one when truthy, else false |
| Singularity.DuplicateIn | libraries/singularity.js:189-191 | `.some` throws unless the list is an array; it holds exactly when a job shares the name or the repo |
| Singularity.Without | libraries/singularity.js:258-263 | the filter on repo (and, at `:286-291`, on name) keeps exactly the jobs whose field differs, each as often as it occurs, and changes nothing when none matches; order is `Sequences.FilterConcat` |
| Singularity.IndexOf | libraries/singularity.js:264 | `indexOf` is -1 exactly when absent, else the first position |
| Singularity.SpliceOutPresent | libraries/singularity.js:264 | a configured repo loses exactly one occurrence, its first: the list is what precedes it followed by what follows it |
| Singularity.SpliceOut | libraries/singularity.js:264 | `splice(indexOf(repo), 1)` always removes exactly one repo from a non-empty list and leaves an empty list empty |
| Singularity.SpliceOutAbsent | libraries/singularity.js:264 | removing an unconfigured repo drops the last configured repo |
| Singularity.NewRepoEmits | libraries/singularity.js:178-186 | `github.new_repo` is emitted exactly when the repo is not configured, and it is then the one event, carrying the requested repo |
| Singularity.App.constructor | libraries/singularity.js:38 | the application starts from the standardized form of the configuration it is given, with nothing emitted |
| Singularity.App.AddRepo | libraries/singularity.js:178-186 | returns true and emits `github.new_repo` exactly when the repo is not configured; the configuration is never changed |
| Singularity.App.AddRepoPRJob | libraries/singularity.js:188-208 | throws on a non-array job list; false with no emit on a name or repo clash; otherwise addRepo's emit then `jenkins.new_pr_job` with token or false, and true |
| Singularity.App.AddRepoPushJob | libraries/singularity.js:210-233 | as for PR jobs over push jobs; without rules it throws after addRepo's emit |
| Singularity.App.ReloadConfigs | libraries/singularity.js:295-298 | emits the Jenkins reload, then the GitHub reload |
| Singularity.App.RemoveRepoConfigs | libraries/singularity.js:254-266 | filters the repo out of PR and push jobs, splices it from the repos and reloads; a non-array list throws after the filters before it |
| Singularity.App.RemovePushProjectConfigs | libraries/singularity.js:268-271 | empties the push jobs and reloads |
| Singularity.App.RemovePullProjectConfigs | libraries/singularity.js:273-276 | empties the PR jobs and reloads |
| Singularity.App.RemoveProjectConfigs | libraries/singularity.js:278-293 | with a falsy name both lists are emptied with two reloads; otherwise jobs of that name leave both lists and one reload follows |
| VcsPayload.FirstMissing | libraries/payloads/vcs.js:5-21 | none exactly when all fields are present, else the earliest absent field |
| VcsPayload.FirstInvalid | libraries/payloads/vcs.js:22-26 | none exactly when every constrained present field is in its enumeration, else the first such field in declaration order, with its value |
| VcsPayload.ValidateAccepts | libraries/payloads/vcs.js:5-26 | a payload is accepted exactly when all thirteen fields are present, status is open/closed/merged/null and type is proposal/change; it is then returned unchanged |
| VcsPayload.Validate | libraries/payloads/vcs.js:5-26 | an accepted payload is returned unchanged; a missing-field rejection names a required field the payload lacks |
| VcsPayload.ValidateRejects | libraries/payloads/vcs.js:5-26 | a rejection names an absent required field, or a status/type outside its enumeration with its value |
| VcsPayload.MissingReportsFirst | libraries/payloads/vcs.js:5-21 | the missing field reported is the first in declaration order |
| VcsPayload.MissingChangeId | libraries/payloads/vcs.js:19 | a payload lacking only `change_id` is refused naming `change_id` |
| VcsPayload.NullStatusAccepted | libraries/payloads/vcs.js:23-24 | a null status is accepted |
| VcsPayload.UnconstrainedFieldsAcceptAnything | libraries/payloads/vcs.js:22-26 | fields other than status and type only need to be present |

## Left out

- GitHub API calls, polling, the webhook server, authentication and logging are left out. The responses the core reads are parameters: the file list, the comment list and the fetched pull.
- Store failures and `process.exit` on a failed insert (`libraries/github.js:220-225`, `:447-462`) are left out. Store callbacks are applied in program order, and a failed insert never happens in the model.
- GitHub.PushFoundAtMostOnce: deliveries are handled one at a time. In the source `findPush` and `insertPush` are separate asynchronous store calls, so two overlapping deliveries of one push can both find nothing and both publish `push.found`; concurrent handling is not modelled.
- GitHub.GitHubLib.ProcessPull: the record the store inserts has no `jobs`. The model stores an empty list, so a pull found later gets `[]` where the source gets `undefined`.
- GitHub.GitHubLib.ProcessPull: `head.label.split(':')[1]`, `ssh_url` and the extra arguments to `publish` are dropped, because `publish` passes on only the topic and the pull. A head without a label is not modelled.
- GitHub.GitHubLib.HandleIssueComment: an issue without a `pull_request` object makes the source throw. The model treats it like a missing URL.
- GitHub.GitHubLib.HandleIssueComment: a failed fetch of the pull is the `None` parameter and publishes nothing.
- `addRepo` in `libraries/github.js:29-42` is not part of this model. It refers to an undefined variable.
- `createStatus` and the other API wrappers are not part of this model. Neither is the remainder of `setupRepoHook` after the already-configured check.
- Integers are unbounded. `parseInt` on more digits than a double holds exactly would lose precision in JavaScript.
- `attemptDbConfigLoad`, `loadListeners`, the `singularity.configuration.updated` handler and the express app are left out. A stored configuration that replaces `app.config` without standardization is not modelled, so the `App` handlers take the standardized shape as a precondition.
- Singularity.App.AddRepoPushJob: rules stay strings. Compiling them with `new RegExp` is left out, and with it the exception an invalid pattern raises.
- Singularity.Entries: for-in over an object visits integer-like keys first in ascending order. The model visits `ProjectMap` entries in the order given.
- Singularity.ParsesAsInt: only ASCII whitespace, no-break space, BOM and the two line separators count as leading whitespace. Other Unicode space separators are not recognised.
- Singularity.App.constructor: `new Singularity()` without a configuration throws a TypeError on `config.db` (`libraries/singularity.js:40`) although `standardizeConfig(config || {})` runs first. The model's constructor requires a configuration, so no application exists without one.
- Singularity.GetDomain: a numeric port is modelled as its decimal string. A numeric port `0` is falsy in JavaScript and gives `:80`, while the string `"0"` is truthy and is kept, so a configured numeric `0` corresponds to an absent port in the model.
- `libraries/payloads/payload.js` (the validation routine) is not part of this model. The validator reports missing required fields first, in declaration order, then values outside `status` and `type` in that order. Payload values are JSON scalars only.
- The build fan-out in `libraries/adapters/build.js` and the build payload schema are outside the modelled core.
