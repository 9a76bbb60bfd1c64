# komodo-pr-deploy in Dafny

`deploy.mjs` deploys one branch of a repository to a Komodo server. It derives
names, an image tag and a host port from the branch name. It optionally
builds the image:

- find or create a builder;
- create or update a build;
- run it and poll its status.

It then deploys the image in one of three ways, chosen by `DEPLOYMENT_TYPE`:

- `deployment`: replace or create an image deployment;
- `stack` / `repo-then-stack`: delete and recreate the compose stack, pull the repository if asked, then deploy the stack;
- `container`: ensure a host-network container deployment exists and deploy it.

At the end it writes a JSON deployment-info record for the CI workflow.

This project models three parts of the script:

- **Branch-derived identifiers and string builders** (modules `Naming`,
  `EnvStrings`, `JsText`, `Requests`, `Settings`).
  - The branch suffix, the Docker tag, the 32-bit 31-multiplier hash and the host port.
  - The resource, build and builder names.
  - The build-argument string, the YAML `environment:` section, the stack's environment blob and the deployment's environment list.
  - The repository path and git-account choice, the image reference and the request payloads.
- **The build-status poll loop** (module `BuildPoll`).
  - It is a `while` loop (`PollBuild`) proved equal to a recursive specification (`PollFrom`).
  - Properties are proved about that specification.
- **The orchestration as a call-trace planner** (modules `Komodo`, `Plan`, `PlanProperties`, `Orchestrator`, `Report`).
  - Every Komodo read, write and execute, and every `setTimeout` delay, is an event of `datatype Call`.
  - What exists on the server (`Server`'s lists), which calls throw (`Server.reject`) and what each poll read finds (`Server.buildStatus`) are inputs.
  - `Plan` gives the resulting trace, error, record and exit code as functions.
  - `Orchestrator` runs the same control flow step by step, as methods, each proved to produce exactly its plan.
  - `PlanProperties` states what each branch does.

JavaScript behaviour the script relies on is written out:

- **Truthiness:** `""` and `undefined` are falsy (`Truthy`, `OrElse`).
- **Template literals:** `undefined` prints as `undefined` (`Show`).
- **ToInt32 wrap-around** of `<<` and `&` (`Naming.ToInt32`).
- **Truncating `%`** (`Naming.JsRemainder`).
- **Library functions:** `find` returns the first match; `join`; `split` on one character.
- **Characters:** a Dafny `char` is a Unicode scalar value, while a JavaScript string is a sequence of UTF-16 code units. The two agree on every character below U+10000 that is not a surrogate; "## Left out" says where they part.

Behaviour of the code that is easy to misread:

- **A failed build state does not stop polling at once.**
  - The `throw` for a `failed`/`error` state (line 321) sits inside the `try` whose `catch` (line 330) rethrows only on attempt 20.
  - On attempts 1-19 the script waits 30 seconds and reads again. A read error is handled the same way.
  - The model follows the code (`BuildPoll.EarlyFailureIsRetried`, `BuildPoll.PersistentFailure`).
- **A failed success-record write fails the run.**
  - Writing the success record (line 576) sits inside the main `try`, so when that write throws, the run ends with a failure record and exit code 1 (`PlanProperties.SuccessWriteFailure`).
  - Only a failure while writing the failure record is swallowed.
- **One name for every kind.** `stackName` and `deploymentName` are the same string, so the record's `resourceName` is that one name whatever the kind (`Report.SuccessRecordFields`).
- **`--build` as the first argument** is also taken as the branch name (`Settings.BuildFlagAsBranch`).
- **`repo` deploys nothing.**
  - `repo` is listed among the kinds that pull the repository (line 514), but the stack branch runs only for `stack` and `repo-then-stack`.
  - So `repo` issues no deployment call at all and still reports success (`PlanProperties.UnknownKindOnlyChecksConnection`).

## Model

| member | source | states |
|---|---|---|
| JsText.SplitFirstPiece | deploy.mjs:253 | the first piece of `split("/")` has no `/`, is a prefix of the string, and is followed by `/` unless it is the whole string |
| JsText.SplitJoin | deploy.mjs:37 | splitting a join on its separator gives the pieces back when no piece holds the separator |
| JsText.DecimalValue | deploy.mjs:390 | the decimal rendering of a number reads back as that number |
| Naming.BranchSuffix | deploy.mjs:90 | the suffix has the branch's length and only `[a-z0-9-]`; capitals are lowercased, lowercase letters, digits and `-` kept, every other character becomes `-` |
| Naming.StripDashes | deploy.mjs:98 | the result is a slice of the input with only dashes before and after it, and has no dash at either end, so exactly the leading and trailing dash runs are removed; empty exactly when the input is all dashes |
| Naming.CollapseDashes | deploy.mjs:99 | no `--` left, first and last character kept, no new characters, strings without `--` unchanged |
| Naming.CollapseDashesKeepsRunHeads | deploy.mjs:99 | collapsing equals the index-by-index reference: a character is kept exactly when it is not a dash that follows a dash |
| Naming.DockerTag | deploy.mjs:95-99 | the tag has only `[a-z0-9-]`, never starts or ends with `-`, never holds `--` |
| Naming.DockerTagEmptyIff | deploy.mjs:95-99 | the tag is empty exactly when the branch has no ASCII letter or digit |
| Naming.DockerTagFromSuffix | deploy.mjs:95-99 | the tag equals collapse(strip(branch suffix)) |
| Naming.DockerTagFixedPoint | deploy.mjs:95-99 | every string meeting the tag's guarantees is its own tag |
| Naming.DockerTagIdempotent | deploy.mjs:95-99 | the tag of a tag is the tag |
| Naming.ToInt32 | deploy.mjs:103-104 | the signed 32-bit wrap differs from its input by a multiple of 2^32 |
| Naming.HashStepTimes31 | deploy.mjs:103-104 | `(a << 5) - a + code` then `& a` is the wrapped `31 * a + code` |
| Naming.BranchHashIsHash31 | deploy.mjs:102-105 | the `reduce` fold equals the reference hash: start 0, step wrapInt32(31 * acc + code) |
| Naming.PortFromHash | deploy.mjs:106 | `3000 + Math.abs(h % 1000)` with truncating `%` is `3000 + abs(h) mod 1000`, in [3000, 3999] |
| Naming.HostPort | deploy.mjs:102-106 | the port is in [3000, 3999] and equals 3000 + abs(hash of the suffix) mod 1000 |
| Naming.EmptyBranchPort | deploy.mjs:102-106 | an empty suffix gives port 3000 |
| Naming.SameSuffixSamePort | deploy.mjs:102-106 | branches with the same suffix get the same port |
| Naming.DevBranchIdentifiers | deploy.mjs:90-106 | the default branch `dev` has suffix `dev`, tag `dev` and port 3349 |
| Naming.FeatureBranchIdentifiers | deploy.mjs:90-99 | `Feature/X_1` has suffix and tag `feature-x-1` |
| Naming.CleanSuffixIsTag | deploy.mjs:90-99 | a suffix without edge dashes and without `--` is the tag itself |
| Naming.NamesDetermineSuffix | deploy.mjs:91-92 | for one base name, the resource name and the build name each determine the suffix |
| EnvStrings.Assignments | deploy.mjs:37 | one `K=V` per loaded variable, in order |
| EnvStrings.BuildArgsAsJoin | deploy.mjs:255 | the build arguments are the space-join of `BRANCH=<b>` and the assignments (a trailing space when none are loaded) |
| EnvStrings.BuildArgsRoundTrip | deploy.mjs:255 | splitting the build arguments on spaces gives `BRANCH=<b>` and then every assignment, when nothing holds a space |
| EnvStrings.GenerateYamlEnvSection | deploy.mjs:47-54 | the loop's string is the newline-join of one `      K: V` line per variable and the `      BRANCH: b` line |
| EnvStrings.YamlEnvLines | deploy.mjs:47-54 | split into lines, the section is one line per variable and then the `BRANCH` line, when nothing holds a newline |
| EnvStrings.YamlEnvEndsWithBranch | deploy.mjs:52 | the section ends with the `BRANCH` line: no trailing newline |
| EnvStrings.DeploymentEnvironment | deploy.mjs:396 | the loaded variables in order, then `BRANCH` last; length n + 1 |
| EnvStrings.StackEnvironmentMatchesDeployment | deploy.mjs:505-507 | the stack blob is the newline-join of the deployment list's assignments; with no variables it starts with an empty line |
| EnvStrings.StackEnvironmentRoundTrip | deploy.mjs:505-507 | split on newlines, the stack blob is every assignment and then `BRANCH=<b>`, when nothing holds a newline |
| Komodo.Find | deploy.mjs:352 | `find` by name is undefined exactly when no element has the name, else an element with the name |
| Komodo.FindFirst | deploy.mjs:352 | `find` returns the first element with the name |
| Settings.Resolve | deploy.mjs:29-41 | branch: first argument, else `BRANCH_NAME`, else `dev`; kind is `DEPLOYMENT_TYPE` when that is set and non-empty, else `deployment`; build exactly when `BUILD_IMAGE` is `true` or an argument is `--build` |
| Settings.BuildFlagAsBranch | deploy.mjs:15-41 | `deploy --build` builds and deploys a branch named `--build` with suffix `--build` and tag `build` |
| Settings.SameSuffixSameResources | deploy.mjs:89-106 | equal suffixes give equal stack/deployment names, build names and ports |
| Requests.GitAccountOwnsRepo | deploy.mjs:249-253 | the printed form of the `git_account` field, then `/`, is a prefix of the `repo` sent: the account itself when one is sent, `undefined` when the field is dropped; with an owner in the repository name the account holds no `/` |
| Requests.BuiltImageIsDeployedImage | deploy.mjs:256-261 | the deployed image reference is the build's registry, account, name and `latest-` plus its tag |
| Requests.PortMappingFor | deploy.mjs:388-395 | the port mapping's `local` is four digits reading back as the host port, to container port 3000 over TCP on 127.0.0.1 |
| Requests.ContainerEnvironmentLines | deploy.mjs:545 | the container environment splits into `BRANCH=<b>`, `NODE_ENV=development`, `PORT=3001` |
| Requests.ComposeFileEndsWithEnvironment | deploy.mjs:496-504 | read line by line, the compose file ends with the YAML environment lines and the `BRANCH` line |
| BuildPoll.PollBuild | deploy.mjs:300-341 | the loop issues exactly the calls, and throws exactly the error, of the recursive poll specification |
| BuildPoll.PollStopsAtFirstSuccess | deploy.mjs:304-318 | a first success at attempt k ends the loop without error after k - 1 read-and-wait rounds and one read |
| BuildPoll.PollSuccessCounts | deploy.mjs:304-318 | success first seen at attempt k takes exactly k reads and k - 1 waits |
| BuildPoll.PollWithoutSuccess | deploy.mjs:330-340 | without any success the last attempt decides: its read error or failed-state error, or the timeout after a final wait |
| BuildPoll.PollSucceedsIff | deploy.mjs:300-341 | the build phase goes on exactly when some attempt's read saw `complete`, `success` or `Ok` |
| BuildPoll.PollBounded | deploy.mjs:302-304 | at most 20 reads, at most 20 waits, at most 40 events |
| BuildPoll.PollCalls | deploy.mjs:309-335 | polling issues only status reads and 30-second waits |
| BuildPoll.TimeoutMessageText | deploy.mjs:340 | the timeout message reads `Build did not complete within 10 minutes` |
| BuildPoll.EarlyFailureIsRetried | deploy.mjs:319-335 | `failed` on attempt 1 and `complete` on attempt 2: read, wait, read, success |
| BuildPoll.RunningThenComplete | deploy.mjs:316-324 | three `running` reads then `complete`: four reads, three waits, success |
| BuildPoll.PersistentFailure | deploy.mjs:319-334 | `error` on every attempt: 19 rounds, a last read, and `Build failed with state: error` |
| Report.SuccessRecordFields | deploy.mjs:566-573 | the success record's six keys; its resource name is `base-suffix` whatever the kind; port in range; tag Docker-safe |
| Report.FailureRecord | deploy.mjs:582-587 | the failure record is unsuccessful and carries the error message, or `Unknown error` when the message is empty |
| Report.FailureRecordFields | deploy.mjs:582-587 | the failure record has keys `success`, `branch`, `error`, `deploymentType` and no host port, resource name or image tag |
| Report.FailureRecordKeepsSettings | deploy.mjs:584-586 | for resolved settings the `unknown` fallbacks never apply |
| Report.InfoPath | deploy.mjs:117-131 | the record goes to `/app/workspace/deployment-info.json` exactly when the directory check finds the directory, else to `deployment-info.json` |
| PlanProperties.ExistingDeploymentReplaced | deploy.mjs:354-405 | an existing deployment: list, stop, wait 2 s, remove, wait 1 s, update under its id, deploy |
| PlanProperties.StopFailureStillUpdates | deploy.mjs:359-375 | a failing stop skips the removal and the waits; update and deploy still run |
| PlanProperties.RemoveFailureStillUpdates | deploy.mjs:366-375 | a failing removal skips the second wait; update and deploy still run |
| PlanProperties.UpdateFailureStops | deploy.mjs:377-404 | a failing update ends the kind with its error, before any deploy |
| PlanProperties.NewDeploymentCreated | deploy.mjs:406-466 | a new deployment: list, create, deploy, wait 10 s, read back; the run succeeds whether or not the read-back throws |
| PlanProperties.ReadBackFailureIgnored | deploy.mjs:442-465 | the read-back's failure, whatever its message, changes neither the calls nor the error of the deployment kind |
| PlanProperties.NewDeploymentNeverReplaces | deploy.mjs:406-466 | without an existing deployment nothing is stopped, removed or updated |
| PlanProperties.StackRecreated | deploy.mjs:480-523 | delete the stack from the connection check's list (by id) if present, create, pull if asked, deploy |
| PlanProperties.PullTargetByKind | deploy.mjs:514 | among the stack kinds, a pull happens exactly for `repo-then-stack` with a non-empty repository name |
| PlanProperties.DeploymentKindsNeverPull | deploy.mjs:348-560 | the image and container kinds never pull a repository |
| PlanProperties.PullOnlyForRepoThenStack | deploy.mjs:476-518 | any pull in a dispatch means kind `repo-then-stack` and a non-empty repository name |
| PlanProperties.StackWithoutPull | deploy.mjs:513-518 | without a pull target the stack kind issues no pull |
| PlanProperties.ContainerDeployed | deploy.mjs:526-559 | the container kind creates its deployment only when absent, then always deploys; the create needs to succeed only when it is issued |
| PlanProperties.DispatchByKind | deploy.mjs:348-560 | each known kind runs exactly its branch; every other kind, `repo` included, issues nothing |
| PlanProperties.BuildWriteChoice | deploy.mjs:237-290 | an existing build is updated under its id, otherwise created; the configuration is the same either way |
| PlanProperties.BuilderCreatedOnlyIfMissing | deploy.mjs:210-227 | a builder is created only when none has the expected name, and then always once the list read succeeds |
| PlanProperties.BuildNamesChosenBuilder | deploy.mjs:210-229 | the build's builder id is the listed builder's, or the created builder's |
| PlanProperties.BuildPhaseSucceedsIff | deploy.mjs:194-341 | with its calls accepted, the build phase succeeds exactly when some poll read saw a success |
| PlanProperties.BuildStepsAccepted | deploy.mjs:194-341 | with its calls before the poll accepted, the build phase issues, in order: list builders, create the builder if missing, list builds, create or update the build, run it; then exactly the poll's calls, ending with the poll's error |
| PlanProperties.MissingSettingsRefused | deploy.mjs:76-87 | without `KOMODO_URL`, `KOMODO_API_KEY` or `KOMODO_API_SECRET`: no call, no record, exit 1 |
| PlanProperties.MainStartsWithConnectionCheck | deploy.mjs:177-191 | every run's first call is `ListStacks`; when it throws nothing else is issued |
| PlanProperties.BuildFailureSkipsDispatch | deploy.mjs:194-346 | a failed build phase ends the run's calls before any deployment call |
| PlanProperties.RunIssuesMainCalls | deploy.mjs:147-576 | past the settings checks, the run issues exactly the main body's calls |
| PlanProperties.ExitZeroIffSuccessRecord | deploy.mjs:566-596 | exit 0 exactly when the body and the success write did not throw, and then the written record is the success record |
| PlanProperties.ErrorBecomesFailureRecord | deploy.mjs:577-596 | any error of the body gives exit 1 and the failure record with its message, unless writing that fails too |
| PlanProperties.SuccessWriteFailure | deploy.mjs:576-596 | a throwing success write gives exit 1 and a failure record with that message |
| PlanProperties.UnknownKindOnlyChecksConnection | deploy.mjs:348-562 | an unknown kind such as `repo`, without a build, only lists stacks and succeeds |
| Orchestrator.SetUpBuilder | deploy.mjs:196-229 | lists builders, creates the expected one only if missing, and yields the chosen builder's id |
| Orchestrator.WriteBuild | deploy.mjs:233-290 | lists builds, then updates the named one or creates it |
| Orchestrator.RunAndPoll | deploy.mjs:292-341 | runs the build, then polls it |
| Orchestrator.RunBuildPhase | deploy.mjs:194-346 | the build phase issues exactly the calls of its plan |
| Orchestrator.FreeNameAndPort | deploy.mjs:359-375 | stop, wait, remove, wait, stopping at the first failure, which is dropped |
| Orchestrator.UpdateAndDeploy | deploy.mjs:377-405 | update under the id, then deploy |
| Orchestrator.CreateAndDeploy | deploy.mjs:406-466 | create, deploy, wait, read back with its failure dropped |
| Orchestrator.ReplaceOrCreateDeployment | deploy.mjs:348-467 | the `deployment` kind issues exactly the calls of its plan |
| Orchestrator.RecreateStackKind | deploy.mjs:476-524 | the stack kinds issue exactly the calls of their plan |
| Orchestrator.EnsureContainerKind | deploy.mjs:526-560 | the `container` kind issues exactly the calls of its plan |
| Orchestrator.RunDispatch | deploy.mjs:348-560 | the dispatch on the kind issues exactly the calls of its plan |
| Orchestrator.RunBuildIfAsked | deploy.mjs:194-346 | the build phase's calls when the settings ask for a build, else none |
| Orchestrator.BuildThenDispatch | deploy.mjs:194-560 | the optional build, then the dispatch only if the build did not throw |
| Orchestrator.RunMain | deploy.mjs:147-563 | the main body issues exactly the calls of its plan |
| Orchestrator.RunScript | deploy.mjs:76-597 | the whole run's calls, record file and exit code are those of the run plan |

## Left out

- Loading `.env` and `docker.env` (deploy.mjs:6-12) uses a foreign library and file I/O. The list of loaded variables is an input of the model.
- `EnvStrings.EnvVar` lists: the script's list is `Object.entries` of the parsed object. Its names are distinct: a repeated name keeps its first position and its last value (`A=1`, `B=2`, `A=3` gives `A=3`, `B=2`), and integer-like names come first, in ascending order. The model accepts any list, repeated names included, and keeps the order it is given; it does not derive that list from the file text.
- The Komodo client (deploy.mjs:21-27) and the meaning of its RPCs are not modelled.
  - Each call is a `Call` event.
  - Whether it throws is the input `Server.reject`.
  - What the list reads return are the inputs `Server.stacks`, `builders`, `builds` and `deployments`.
  - `CreateBuilder`'s result is `Server.createdBuilder`.
- The status reads of the poll loop take their answers from `Server.buildStatus`, one per attempt, independently of `Server.reject`.
- Both reads of the deployment list see the same list. Whether the diagnostic re-read (deploy.mjs:443-463) throws is its own input, `Server.readBackReject`. The list it returns only goes to the log.
- Builder ids: only `.id` is modelled. The fallbacks to `_id.$oid` and `_id` (deploy.mjs:229) are left out.
- Values that are only logged are not modelled: the `id`s returned by `CreateBuild`, `CreateDeployment`, `CreateStack`, `RunBuild`, `Deploy`, `PullRepo` and `DeployStack`, and `KOMODO_BUILDER_ID` and `PANGOLIN_DOMAIN_ID`.
- The `global.fetch` interception and every `console` line (deploy.mjs:148-191 and throughout) are logging only.
- `setTimeout` delays appear as `Sleep(ms)` events, with no clock.
- Most file-system work in `writeDeploymentInfo` (deploy.mjs:114-145) is reduced to `Report.Disk`.
  - The model keeps:
    - what the directory check finds;
    - whether the success write throws, and with which message;
    - whether the failure write throws.
  - It does not model the file's contents as JSON text, the pretty-printing, or the post-write `existsSync` check, which is only logged.
- `process.exit` and the lifecycle of the process are reduced to the `exitCode` of `RunResult`: 0 when the script ends normally, 1 on both exits.
- `Naming.BranchSuffix`: a character above U+FFFF is one `char` here but two UTF-16 code units in JavaScript. The regex of deploy.mjs:90 has no `u` flag and replaces each unit, so the script writes two dashes where the model writes one (U+1F600 gives `--` there and `-` here). The resource names and the port built from the suffix differ in the same way. A lone surrogate code unit cannot be written as a Dafny `char`. For branch names without such characters the suffix is exact. Lowercasing only ASCII loses nothing at line 90, because it runs after every character outside `[a-zA-Z0-9-]` has become a dash.
- `Naming.DockerTag`: lowercases ASCII letters only. Line 96 lowercases before the replace, and JavaScript's full Unicode `toLowerCase` can turn a non-ASCII character into ASCII letters: U+212A (Kelvin sign) becomes `k`, and U+0130 becomes `i` followed by U+0307. The model turns those characters into a dash instead. A character above U+FFFF makes no difference to the tag, because its two dashes collapse into one.
- `Naming.BranchHash`: folds over `char`s, where `charCodeAt` reads code units. The suffix it hashes holds only ASCII characters, so the two coincide on every suffix the model produces.
- The compose file is an opaque string. Its YAML meaning, and the effect of a newline or a `: ` inside a value, are not modelled.
- Concurrent runs on the same branch are out of scope. The script assumes it alone owns the branch's resources.
