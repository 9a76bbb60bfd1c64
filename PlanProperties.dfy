/**
 * What the planned runs promise: the call sequence of each deployment kind
 * (depending on what exists and on which calls the server rejects), the build
 * phase's choices, and how a run ends.
 */
module PlanProperties {
  import opened JsText
  import opened Komodo
  import opened Settings
  import opened Requests
  import opened BuildPoll
  import opened Report
  import opened Plan

  /** The server answers `c` without throwing. */
  predicate Accepts(server: Server, c: Call) {
    Rejection(server, c).None?
  }

  // ---------------------------------------------------------------------
  // The `deployment` kind
  // ---------------------------------------------------------------------

  /** An existing deployment is stopped, removed, updated in place (under its id) and deployed. */
  lemma ExistingDeploymentReplaced(server: Server, name: string, config: DeploymentConfig, d: Resource)
    requires Find(server.deployments, name) == Some(d)
    requires Accepts(server, ListDeployments) && Accepts(server, StopDeployment(name))
    requires Accepts(server, RemoveDeployment(name))
    requires Accepts(server, UpdateDeployment(d.id, config)) && Accepts(server, Deploy(name))
    ensures ReplaceOrCreate(server, name, config) == Outcome(
      [ListDeployments, StopDeployment(name), Sleep(2000), RemoveDeployment(name), Sleep(1000),
       UpdateDeployment(d.id, config), Deploy(name)], None)
  {
  }

  /** A failing stop skips the removal and both waits; the update and the deploy still run. */
  lemma StopFailureStillUpdates(server: Server, name: string, config: DeploymentConfig, d: Resource)
    requires Find(server.deployments, name) == Some(d)
    requires Accepts(server, ListDeployments) && !Accepts(server, StopDeployment(name))
    requires Accepts(server, UpdateDeployment(d.id, config)) && Accepts(server, Deploy(name))
    ensures ReplaceOrCreate(server, name, config) == Outcome(
      [ListDeployments, StopDeployment(name), UpdateDeployment(d.id, config), Deploy(name)], None)
  {
  }

  /** A failing removal skips the second wait; the update and the deploy still run. */
  lemma RemoveFailureStillUpdates(server: Server, name: string, config: DeploymentConfig, d: Resource)
    requires Find(server.deployments, name) == Some(d)
    requires Accepts(server, ListDeployments) && Accepts(server, StopDeployment(name))
    requires !Accepts(server, RemoveDeployment(name))
    requires Accepts(server, UpdateDeployment(d.id, config)) && Accepts(server, Deploy(name))
    ensures ReplaceOrCreate(server, name, config) == Outcome(
      [ListDeployments, StopDeployment(name), Sleep(2000), RemoveDeployment(name),
       UpdateDeployment(d.id, config), Deploy(name)], None)
  {
  }

  /** A failing update ends the kind with that error, before any deploy. */
  lemma UpdateFailureStops(server: Server, name: string, config: DeploymentConfig, d: Resource, message: string)
    requires Find(server.deployments, name) == Some(d)
    requires Accepts(server, ListDeployments)
    requires Rejection(server, UpdateDeployment(d.id, config)) == Some(message)
    ensures ReplaceOrCreate(server, name, config).error == Some(message)
    ensures Deploy(name) !in ReplaceOrCreate(server, name, config).trace
  {
  }

  /**
   * A new deployment is created, deployed, given ten seconds and read back;
   * whatever `server.readBackReject` says, the read-back cannot fail the run.
   */
  lemma NewDeploymentCreated(server: Server, name: string, config: DeploymentConfig)
    requires Find(server.deployments, name).None?
    requires Accepts(server, ListDeployments) && Accepts(server, CreateDeployment(name, config))
    requires Accepts(server, Deploy(name))
    ensures ReplaceOrCreate(server, name, config) == Outcome(
      [ListDeployments, CreateDeployment(name, config), Deploy(name), Sleep(10000), ListDeployments], None)
  {
  }

  /**
   * The diagnostic re-read after a create is caught: whether it throws, and with
   * which message, never changes the calls issued or the error of the kind.
   */
  lemma ReadBackFailureIgnored(server: Server, name: string, config: DeploymentConfig, failure: Option<string>)
    ensures ReplaceOrCreate(server.(readBackReject := failure), name, config) == ReplaceOrCreate(server, name, config)
  {
  }

  /** Without an existing deployment nothing is stopped, removed or updated, whatever fails. */
  lemma NewDeploymentNeverReplaces(server: Server, name: string, config: DeploymentConfig)
    requires Find(server.deployments, name).None?
    ensures forall c :: c in ReplaceOrCreate(server, name, config).trace ==>
      !c.StopDeployment? && !c.RemoveDeployment? && !c.UpdateDeployment?
  {
  }

  // ---------------------------------------------------------------------
  // The stack and container kinds
  // ---------------------------------------------------------------------

  /**
   * The stack kind deletes the stack the connection check listed (by id), always
   * creates it anew, pulls the repository when one is to be pulled, and deploys.
   */
  lemma StackRecreated(server: Server, name: string, config: StackConfig, pull: MaybeString)
    requires var existing := Find(server.stacks, name);
      existing.Some? ==> Accepts(server, DeleteStack(existing.value.id))
    requires Accepts(server, CreateStack(name, config))
    requires pull.Some? ==> Accepts(server, PullRepo(pull.value))
    requires Accepts(server, Call.DeployStack(name))
    ensures var existing := Find(server.stacks, name);
      RecreateStack(server, name, config, pull) == Outcome(
        (if existing.Some? then [DeleteStack(existing.value.id)] else [])
        + [CreateStack(name, config)]
        + (if pull.Some? then [PullRepo(pull.value)] else [])
        + [Call.DeployStack(name)], None)
  {
  }

  /** The stack kind pulls the named repository only for `repo-then-stack`. */
  lemma PullTargetByKind(ctx: Context)
    ensures IsStackKind(ctx.deploymentType) ==>
      (PullTarget(ctx).Some? <==> ctx.deploymentType == "repo-then-stack" && Truthy(ctx.repoName))
    ensures PullTarget(ctx).Some? ==> PullTarget(ctx) == ctx.repoName && ctx.repoName.value != ""
  {
  }

  /** The image and container kinds never pull a repository. */
  lemma DeploymentKindsNeverPull(server: Server, name: string, config: DeploymentConfig)
    ensures forall c :: c in ReplaceOrCreate(server, name, config).trace ==> !c.PullRepo?
    ensures forall c :: c in EnsureContainer(server, name, config).trace ==> !c.PullRepo?
  {
  }

  /** A repository is pulled only by the `repo-then-stack` kind, and only when it is named. */
  lemma PullOnlyForRepoThenStack(server: Server, ctx: Context)
    ensures (exists c :: c in DispatchPlan(server, ctx).trace && c.PullRepo?) ==>
      ctx.deploymentType == "repo-then-stack" && Truthy(ctx.repoName)
  {
    var kind := ctx.deploymentType;
    DispatchByKind(kind, DeploymentPlan(server, ctx), StackPlan(server, ctx), ContainerPlan(server, ctx));
    PullTargetByKind(ctx);
    if kind == "deployment" {
      DeploymentKindsNeverPull(server, ResourceName(ctx), DeploymentConfigFor(ctx));
    } else if kind == "container" {
      DeploymentKindsNeverPull(server, ResourceName(ctx), ContainerConfigFor(ctx));
    } else if IsStackKind(kind) && PullTarget(ctx).None? {
      StackWithoutPull(server, ResourceName(ctx), StackConfigFor(ctx));
    }
  }

  lemma StackWithoutPull(server: Server, name: string, config: StackConfig)
    ensures forall c :: c in RecreateStack(server, name, config, None).trace ==> !c.PullRepo?
  {
  }

  /** The container kind creates its deployment only when absent, then always deploys. */
  lemma ContainerDeployed(server: Server, name: string, config: DeploymentConfig)
    requires Accepts(server, ListDeployments)
    requires Find(server.deployments, name).None? ==> Accepts(server, CreateDeployment(name, config))
    requires Accepts(server, Deploy(name))
    ensures EnsureContainer(server, name, config) == Outcome(
      [ListDeployments]
      + (if Find(server.deployments, name).None? then [CreateDeployment(name, config)] else [])
      + [Deploy(name)], None)
  {
  }

  /** Each known kind runs exactly its own branch; every other kind, `repo` included, issues nothing. */
  lemma DispatchByKind(kind: string, imageKind: Outcome, stackKind: Outcome, containerKind: Outcome)
    ensures kind == "deployment" ==> Dispatch(kind, imageKind, stackKind, containerKind) == imageKind
    ensures IsStackKind(kind) ==> Dispatch(kind, imageKind, stackKind, containerKind) == stackKind
    ensures kind == "container" ==> Dispatch(kind, imageKind, stackKind, containerKind) == containerKind
    ensures kind !in {"deployment", "stack", "repo-then-stack", "container"} ==>
      Dispatch(kind, imageKind, stackKind, containerKind) == Done
  {
    if kind == "deployment" {
      assert imageKind.trace + [] == imageKind.trace;
    } else if IsStackKind(kind) {
      assert stackKind.trace + [] == stackKind.trace;
    }
  }

  // ---------------------------------------------------------------------
  // Build phase
  // ---------------------------------------------------------------------

  /** An existing build is updated under its own id, otherwise one is created; the configuration is the same either way. */
  lemma BuildWriteChoice(server: Server, buildName: string, config: BuildConfig)
    ensures var w := BuildWrite(server, buildName, config);
      (w.CreateBuild? || w.UpdateBuild?) && w.buildConfig == config
    ensures var existing := Find(server.builds, buildName);
      existing.Some? ==> BuildWrite(server, buildName, config) == UpdateBuild(existing.value.id, config)
    ensures Find(server.builds, buildName).None? ==> BuildWrite(server, buildName, config) == CreateBuild(buildName, config)
  {
  }

  /** A builder is created only when none has the expected name, and then always (once the list read succeeds). */
  lemma BuilderCreatedOnlyIfMissing(server: Server, builderName: string, serverId: MaybeString, buildName: string,
                                    configFor: string -> BuildConfig)
    ensures (exists c :: c in BuildSteps(server, builderName, serverId, buildName, configFor).trace && c.CreateBuilder?) ==>
      Find(server.builders, builderName).None?
    ensures Find(server.builders, builderName).None? && Accepts(server, ListBuilders) ==>
      CreateBuilder(builderName, serverId) in BuildSteps(server, builderName, serverId, buildName, configFor).trace
  {
    PollCalls(server.buildStatus, 1);
  }

  /** The configuration sent to the build names the existing builder's id, or the created builder's. */
  lemma BuildNamesChosenBuilder(server: Server, builderName: string)
    ensures var found := Find(server.builders, builderName);
      ChosenBuilder(server, builderName).id == (if found.Some? then found.value.id else server.createdBuilder.id)
    ensures ChosenBuilder(server, builderName) == server.createdBuilder || ChosenBuilder(server, builderName).name == builderName
  {
  }

  /** Once its four calls are accepted, the build phase succeeds exactly when some status read saw a success. */
  lemma BuildPhaseSucceedsIff(server: Server, builderName: string, serverId: MaybeString, buildName: string,
                              configFor: string -> BuildConfig)
    requires Accepts(server, ListBuilders) && Accepts(server, ListBuilds)
    requires Find(server.builders, builderName).None? ==> Accepts(server, CreateBuilder(builderName, serverId))
    requires Accepts(server, BuildWrite(server, buildName, configFor(ChosenBuilder(server, builderName).id)))
    requires Accepts(server, RunBuild(buildName))
    ensures BuildSteps(server, builderName, serverId, buildName, configFor).error.None? <==>
      exists k :: 1 <= k <= MaxAttempts && FinishedAt(server.buildStatus, k)
  {
    PollSucceedsIff(server.buildStatus);
  }

  /** The server accepts every call of the build phase before the poll. */
  predicate BuildCallsAccepted(server: Server, builderName: string, serverId: MaybeString, buildName: string,
                               configFor: string -> BuildConfig)
  {
    && Accepts(server, ListBuilders) && Accepts(server, ListBuilds)
    && (Find(server.builders, builderName).None? ==> Accepts(server, CreateBuilder(builderName, serverId)))
    && Accepts(server, BuildWrite(server, buildName, configFor(ChosenBuilder(server, builderName).id)))
    && Accepts(server, RunBuild(buildName))
  }

  /**
   * The build phase's calls before the poll, in order: list the builders,
   * create one if none has the name, list the builds, create or update the
   * build (naming the chosen builder), run it.
   */
  function SetupCalls(server: Server, builderName: string, serverId: MaybeString, buildName: string,
                      configFor: string -> BuildConfig): seq<Call>
  {
    var write := BuildWrite(server, buildName, configFor(ChosenBuilder(server, builderName).id));
    var setup := if Find(server.builders, builderName).None? then [CreateBuilder(builderName, serverId)] else [];
    [ListBuilders] + setup + [ListBuilds, write, RunBuild(buildName)]
  }

  /**
   * With its setup calls accepted, the build phase issues them in order (list
   * the builders, create one if missing, list the builds, create or update the
   * build, run it), then exactly the poll's calls, and ends with the poll's error.
   */
  lemma {:induction false} BuildStepsAccepted(server: Server, builderName: string, serverId: MaybeString, buildName: string,
                           configFor: string -> BuildConfig)
    requires BuildCallsAccepted(server, builderName, serverId, buildName, configFor)
    ensures var poll := PollFrom(server.buildStatus, 1);
      BuildSteps(server, builderName, serverId, buildName, configFor) ==
        Outcome(SetupCalls(server, builderName, serverId, buildName, configFor) + poll.trace, poll.error)
  {
    var write := BuildWrite(server, buildName, configFor(ChosenBuilder(server, builderName).id));
    var setup := if Find(server.builders, builderName).None? then [CreateBuilder(builderName, serverId)] else [];
    var poll := PollFrom(server.buildStatus, 1);
    var builder := Then(Step(server, ListBuilders), BuilderSetup(server, builderName, serverId));
    assert builder == Outcome([ListBuilders] + setup, None);
    var written := Then(Step(server, ListBuilds), Step(server, write));
    assert written == Outcome([ListBuilds, write], None);
    var run := Then(Step(server, RunBuild(buildName)), poll);
    assert run == Outcome([RunBuild(buildName)] + poll.trace, poll.error);
    assert Then(written, run) == Outcome([ListBuilds, write] + ([RunBuild(buildName)] + poll.trace), poll.error);
    assert BuildSteps(server, builderName, serverId, buildName, configFor) == Then(builder, Then(written, run));
    Regroup([ListBuilders] + setup, ListBuilds, write, RunBuild(buildName), poll.trace);
  }

  /** Regrouping the concatenation of the build phase's calls. */
  lemma {:induction false} Regroup(head: seq<Call>, a: Call, b: Call, c: Call, tail: seq<Call>)
    ensures head + ([a, b] + ([c] + tail)) == head + [a, b, c] + tail
  {
    assert [a, b] + ([c] + tail) == [a, b, c] + tail;
  }

  // ---------------------------------------------------------------------
  // The whole run
  // ---------------------------------------------------------------------

  /** Without the connection settings the script exits 1 before any call and writes nothing. */
  lemma MissingSettingsRefused(env: Environment, args: seq<string>, dockerEnv: seq<EnvStrings.EnvVar>, server: Server, disk: Disk)
    requires !RequiredPresent(env)
    ensures RunPlan(env, args, dockerEnv, server, disk) == RunResult([], None, 1)
  {
  }

  /**
   * The body of the main `try` starts with the `ListStacks` connection check;
   * when that throws, nothing else is issued.
   */
  lemma MainStartsWithConnectionCheck(server: Server, build: Outcome, dispatch: Outcome)
    ensures var t := Main(server, build, dispatch).trace;
      |t| > 0 && t[0] == ListStacks
    ensures !Accepts(server, ListStacks) ==> Main(server, build, dispatch) == Outcome([ListStacks], Rejection(server, ListStacks))
  {
  }

  /** A failed build ends the body before any deployment call. */
  lemma BuildFailureSkipsDispatch(server: Server, build: Outcome, dispatch: Outcome)
    requires build.error.Some?
    ensures Main(server, build, dispatch) == Then(Step(server, ListStacks), build)
  {
  }

  /** A run past the settings checks issues exactly the calls of the main body. */
  lemma RunIssuesMainCalls(env: Environment, args: seq<string>, dockerEnv: seq<EnvStrings.EnvVar>, server: Server, disk: Disk)
    requires RequiredPresent(env)
    ensures RunPlan(env, args, dockerEnv, server, disk) ==
      Finish(MainPlan(server, Resolve(env, args, dockerEnv)), Resolve(env, args, dockerEnv), disk)
    ensures RunPlan(env, args, dockerEnv, server, disk).trace == MainPlan(server, Resolve(env, args, dockerEnv)).trace
  {
    FinishKeepsTrace(MainPlan(server, Resolve(env, args, dockerEnv)), Resolve(env, args, dockerEnv), disk);
  }

  lemma FinishKeepsTrace(main: Outcome, ctx: Context, disk: Disk)
    ensures Finish(main, ctx, disk).trace == main.trace
  {
  }

  /**
   * The exit code is 0 exactly when the success record was written, and then
   * it is the success record of the settings (its one resource name serving
   * every kind), at the path the directory check chose.
   */
  lemma ExitZeroIffSuccessRecord(main: Outcome, ctx: Context, disk: Disk)
    ensures var r := Finish(main, ctx, disk);
      (r.exitCode == 0 || r.exitCode == 1)
      && (r.exitCode == 0 <==> r.file.Some? && SuccessFlag(r.file.value.record))
      && (r.exitCode == 0 <==> main.error.None? && disk.successWriteError.None?)
    ensures var r := Finish(main, ctx, disk);
      r.exitCode == 0 ==> r.file.value == Written(InfoPath(disk.probe), SuccessRecord(ctx))
  {
  }

  /** Any error of the body becomes the failure record (unless that write fails too) and exit code 1. */
  lemma ErrorBecomesFailureRecord(main: Outcome, ctx: Context, disk: Disk)
    requires main.error.Some?
    ensures var r := Finish(main, ctx, disk);
      r.exitCode == 1
      && r.file == (if disk.failureWriteFails then None else Some(Written(InfoPath(disk.probe), FailureRecord(ctx, main.error.value))))
  {
  }

  /**
   * Writing the success record sits inside the main `try`: when it throws, the
   * run writes a failure record with that message instead and exits 1.
   */
  lemma SuccessWriteFailure(main: Outcome, ctx: Context, disk: Disk, message: string)
    requires main.error.None? && disk.successWriteError == Some(message) && !disk.failureWriteFails
    ensures var r := Finish(main, ctx, disk);
      r.exitCode == 1 && r.file == Some(Written(InfoPath(disk.probe), FailureRecord(ctx, message)))
  {
  }

  /**
   * A kind the script does not know (such as `repo`), without a build, only
   * checks the connection and still reports success.
   */
  lemma UnknownKindOnlyChecksConnection(server: Server, kind: string, imageKind: Outcome, stackKind: Outcome, containerKind: Outcome)
    requires kind !in {"deployment", "stack", "repo-then-stack", "container"} && Accepts(server, ListStacks)
    ensures Main(server, Done, Dispatch(kind, imageKind, stackKind, containerKind)) == Outcome([ListStacks], None)
  {
    DispatchByKind(kind, imageKind, stackKind, containerKind);
  }
}
