/**
 * The calls one run issues, as functions of the settings and of the server's
 * answers: the connection check, the optional build phase, the dispatch on
 * the deployment kind, and the record and exit code the run ends with.
 */
module Plan {
  import opened JsText
  import opened Komodo
  import opened Settings
  import opened Requests
  import opened BuildPoll
  import opened Report

  // ---------------------------------------------------------------------
  // Build phase
  // ---------------------------------------------------------------------

  /** The builder the build uses: the listed one named `builderName`, else the one created. */
  function ChosenBuilder(server: Server, builderName: string): Resource {
    var found := Find(server.builders, builderName);
    if found.Some? then found.value else server.createdBuilder
  }

  /** `CreateBuilder`, only when no listed builder has the expected name. */
  function BuilderSetup(server: Server, builderName: string, serverId: MaybeString): Outcome {
    if Find(server.builders, builderName).None? then Step(server, CreateBuilder(builderName, serverId)) else Done
  }

  /** `UpdateBuild` of the listed build named `buildName`, else `CreateBuild`, with one configuration. */
  function BuildWrite(server: Server, buildName: string, config: BuildConfig): Call {
    var existing := Find(server.builds, buildName);
    if existing.Some? then UpdateBuild(existing.value.id, config) else CreateBuild(buildName, config)
  }

  /**
   * List builders, maybe create one, list builds, write the build (its
   * configuration names the chosen builder's id), run it, poll.
   */
  function BuildSteps(server: Server, builderName: string, serverId: MaybeString, buildName: string,
                      configFor: string -> BuildConfig): Outcome
  {
    var config := configFor(ChosenBuilder(server, builderName).id);
    Then(Then(Step(server, ListBuilders), BuilderSetup(server, builderName, serverId)),
    Then(Then(Step(server, ListBuilds), Step(server, BuildWrite(server, buildName, config))),
      Then(Step(server, RunBuild(buildName)), PollFrom(server.buildStatus, 1))))
  }

  /** The build configuration of the settings `ctx`, for each possible builder id. */
  function ConfigFor(ctx: Context): string -> BuildConfig {
    id => BuildConfigFor(ctx, id)
  }

  /** The build phase (deploy.mjs:194-346) for the settings `ctx`. */
  function BuildPlan(server: Server, ctx: Context): Outcome {
    BuildSteps(server, BuilderName(ctx), ctx.serverIdBuild, BuildName(ctx), ConfigFor(ctx))
  }

  // ---------------------------------------------------------------------
  // The three deployment kinds
  // ---------------------------------------------------------------------

  /** The `try` block that frees the name and port of an existing deployment. */
  function StopAndRemove(server: Server, name: string): Outcome {
    Then(Step(server, StopDeployment(name)),
    Then(Step(server, Sleep(2000)),
    Then(Step(server, RemoveDeployment(name)),
      Step(server, Sleep(1000)))))
  }

  /** Replace the deployment named `name` if listed, else create it; deploy it either way. */
  function ReplaceOrCreate(server: Server, name: string, config: DeploymentConfig): Outcome {
    var existing := Find(server.deployments, name);
    Then(Step(server, ListDeployments),
      if existing.Some? then
        Then(Swallow(StopAndRemove(server, name)),
        Then(Step(server, UpdateDeployment(existing.value.id, config)),
          Step(server, Deploy(name))))
      else
        Then(Step(server, CreateDeployment(name, config)),
        Then(Step(server, Deploy(name)),
        Then(Step(server, Sleep(10000)),
          Swallow(ReadBack(server))))))
  }

  /** The `deployment` kind (deploy.mjs:348-475) for the settings `ctx`. */
  function DeploymentPlan(server: Server, ctx: Context): Outcome {
    ReplaceOrCreate(server, ResourceName(ctx), DeploymentConfigFor(ctx))
  }

  /** Whether the stack kind also pulls the repository first. */
  predicate PullsRepo(ctx: Context) {
    Truthy(ctx.repoName) && (ctx.deploymentType == "repo-then-stack" || ctx.deploymentType == "repo")
  }

  /** The repository the stack kind pulls, if any. */
  function PullTarget(ctx: Context): MaybeString {
    if PullsRepo(ctx) then ctx.repoName else None
  }

  /** Delete the stack named `name` if the connection check listed it, create it, maybe pull, deploy. */
  function RecreateStack(server: Server, name: string, config: StackConfig, pull: MaybeString): Outcome {
    var existing := Find(server.stacks, name);
    Then(if existing.Some? then Step(server, DeleteStack(existing.value.id)) else Done,
    Then(Step(server, CreateStack(name, config)),
    Then(if pull.Some? then Step(server, PullRepo(pull.value)) else Done,
      Step(server, Call.DeployStack(name)))))
  }

  /** The stack kinds (deploy.mjs:476-524) for the settings `ctx`. */
  function StackPlan(server: Server, ctx: Context): Outcome {
    RecreateStack(server, ResourceName(ctx), StackConfigFor(ctx), PullTarget(ctx))
  }

  /** Create the deployment named `name` only if absent, then deploy it. */
  function EnsureContainer(server: Server, name: string, config: DeploymentConfig): Outcome {
    Then(Step(server, ListDeployments),
    Then(if Find(server.deployments, name).None? then Step(server, CreateDeployment(name, config)) else Done,
      Step(server, Deploy(name))))
  }

  /** The `container` kind (deploy.mjs:526-560) for the settings `ctx`. */
  function ContainerPlan(server: Server, ctx: Context): Outcome {
    EnsureContainer(server, ResourceName(ctx), ContainerConfigFor(ctx))
  }

  predicate IsStackKind(kind: string) {
    kind == "stack" || kind == "repo-then-stack"
  }

  /**
   * The `deployment` / stack `if`-chain, then the separate `container` test,
   * given what each kind's branch does.
   */
  function Dispatch(kind: string, imageKind: Outcome, stackKind: Outcome, containerKind: Outcome): Outcome {
    Then(
      if kind == "deployment" then imageKind
      else if IsStackKind(kind) then stackKind
      else Done,
      if kind == "container" then containerKind else Done)
  }

  /** The dispatch on the kind (deploy.mjs:348-560) for the settings `ctx`. */
  function DispatchPlan(server: Server, ctx: Context): Outcome {
    Dispatch(ctx.deploymentType, DeploymentPlan(server, ctx), StackPlan(server, ctx), ContainerPlan(server, ctx))
  }

  /** The body of the main `try` up to the success record, given the build phase and the dispatch. */
  function Main(server: Server, build: Outcome, dispatch: Outcome): Outcome {
    Then(Step(server, ListStacks), Then(build, dispatch))
  }

  /** The build phase when the settings ask for it (deploy.mjs:194), else nothing. */
  function BuildIfAsked(server: Server, ctx: Context): Outcome {
    if ctx.buildImage then BuildPlan(server, ctx) else Done
  }

  /** The main `try` body (deploy.mjs:147-563) for the settings `ctx`. */
  function MainPlan(server: Server, ctx: Context): Outcome {
    Main(server, BuildIfAsked(server, ctx), DispatchPlan(server, ctx))
  }

  // ---------------------------------------------------------------------
  // The whole run
  // ---------------------------------------------------------------------

  /** The calls issued, the deployment-info file left behind (if any) and the exit code. */
  datatype RunResult = RunResult(trace: seq<Call>, file: Option<Written>, exitCode: nat)

  /** The `catch` of the main `try`: write the failure record if the disk allows, exit 1. */
  function FailedRunResult(trace: seq<Call>, ctx: Context, disk: Disk, message: string): RunResult {
    RunResult(trace,
      if disk.failureWriteFails then None else Some(Written(InfoPath(disk.probe), FailureRecord(ctx, message))),
      1)
  }

  /**
   * The end of the main `try` and its `catch`: the success record when the
   * body did not throw and writing it did not either, else the failure record
   * for the first error.
   */
  function Finish(main: Outcome, ctx: Context, disk: Disk): RunResult {
    if main.error.Some? then FailedRunResult(main.trace, ctx, disk, main.error.value)
    else if disk.successWriteError.Some? then FailedRunResult(main.trace, ctx, disk, disk.successWriteError.value)
    else RunResult(main.trace, Some(Written(InfoPath(disk.probe), SuccessRecord(ctx))), 0)
  }

  /** A run of the script: refused before any call without the connection settings. */
  function RunPlan(env: Environment, args: seq<string>, dockerEnv: seq<EnvStrings.EnvVar>, server: Server, disk: Disk): RunResult {
    if !RequiredPresent(env) then RunResult([], None, 1)
    else
      var ctx := Resolve(env, args, dockerEnv);
      Finish(MainPlan(server, ctx), ctx, disk)
  }
}
