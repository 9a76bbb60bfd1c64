/**
 * The script's control flow, step by step: each awaited call is appended to
 * the trace and, when the server rejects it, ends the enclosing block with
 * that error; `try`/`catch` blocks that only log keep their calls and drop
 * their error. Each method is proved to issue exactly the calls its plan
 * function describes.
 */
module Orchestrator {
  import opened JsText
  import opened Komodo
  import opened Settings
  import opened Requests
  import opened BuildPoll
  import opened Report
  import opened Plan
  import PlanProperties

  /** deploy.mjs:196-229: list the builders and create the expected one if it is missing; yields the builder's id. */
  method SetUpBuilder(server: Server, builderName: string, serverId: MaybeString)
    returns (trace: seq<Call>, error: Option<string>, builderId: string)
    ensures Outcome(trace, error) == Then(Step(server, ListBuilders), BuilderSetup(server, builderName, serverId))
    ensures builderId == ChosenBuilder(server, builderName).id
  {
    builderId := ChosenBuilder(server, builderName).id;
    trace := [ListBuilders];
    error := Rejection(server, ListBuilders);
    if error.Some? {
      return;
    }
    var availableBuilder := Find(server.builders, builderName);
    if availableBuilder.None? {
      trace := trace + [CreateBuilder(builderName, serverId)];
      error := Rejection(server, CreateBuilder(builderName, serverId));
      if error.Some? {
        return;
      }
      availableBuilder := Some(server.createdBuilder);
    }
    builderId := availableBuilder.value.id;
  }

  /** deploy.mjs:233-291: list the builds, then update the one with the build name or create it. */
  method WriteBuild(server: Server, buildName: string, config: BuildConfig)
    returns (trace: seq<Call>, error: Option<string>)
    ensures Outcome(trace, error) == Then(Step(server, ListBuilds), Step(server, BuildWrite(server, buildName, config)))
  {
    trace := [ListBuilds];
    error := Rejection(server, ListBuilds);
    if error.Some? {
      return;
    }
    var existingBuild := Find(server.builds, buildName);
    var write: Call;
    if existingBuild.Some? {
      var buildId := existingBuild.value.id;
      write := UpdateBuild(buildId, config);
    } else {
      write := CreateBuild(buildName, config);
    }
    trace := trace + [write];
    error := Rejection(server, write);
  }

  /** deploy.mjs:293-341: start the build and wait for it. */
  method RunAndPoll(server: Server, buildName: string) returns (trace: seq<Call>, error: Option<string>)
    ensures Outcome(trace, error) == Then(Step(server, RunBuild(buildName)), PollFrom(server.buildStatus, 1))
  {
    trace := [RunBuild(buildName)];
    error := Rejection(server, RunBuild(buildName));
    if error.Some? {
      return;
    }
    var pollTrace, pollError := PollBuild(server.buildStatus);
    trace := trace + pollTrace;
    error := pollError;
  }

  /** deploy.mjs:194-346: find or create the builder, create or update the build, run it and wait for it. */
  method RunBuildPhase(server: Server, builderName: string, serverId: MaybeString, buildName: string,
                       configFor: string -> BuildConfig)
    returns (trace: seq<Call>, error: Option<string>)
    ensures Outcome(trace, error) == BuildSteps(server, builderName, serverId, buildName, configFor)
  {
    var builderId;
    trace, error, builderId := SetUpBuilder(server, builderName, serverId);
    if error.Some? {
      return;
    }
    var t, e := WriteBuild(server, buildName, configFor(builderId));
    ghost var written := Outcome(t, e);
    if e.Some? {
      trace, error := trace + t, e;
      return;
    }
    var t2, e2 := RunAndPoll(server, buildName);
    assert Then(written, Outcome(t2, e2)).trace == t + t2;
    trace, error := trace + (t + t2), e2;
  }

  /** deploy.mjs:359-375: stop, wait, remove, wait; a failure is only logged. */
  method FreeNameAndPort(server: Server, name: string) returns (trace: seq<Call>)
    ensures Outcome(trace, None) == Swallow(StopAndRemove(server, name))
  {
    trace := [StopDeployment(name)];
    if Rejection(server, StopDeployment(name)).None? {
      trace := trace + [Sleep(2000), RemoveDeployment(name)];
      if Rejection(server, RemoveDeployment(name)).None? {
        trace := trace + [Sleep(1000)];
      }
    }
  }

  /** deploy.mjs:377-405: update the listed deployment under its id, then deploy it. */
  method UpdateAndDeploy(server: Server, name: string, id: string, config: DeploymentConfig)
    returns (trace: seq<Call>, error: Option<string>)
    ensures Outcome(trace, error) == Then(Step(server, UpdateDeployment(id, config)), Step(server, Deploy(name)))
  {
    trace := [UpdateDeployment(id, config)];
    error := Rejection(server, UpdateDeployment(id, config));
    if error.Some? {
      return;
    }
    trace := trace + [Deploy(name)];
    error := Rejection(server, Deploy(name));
  }

  /** deploy.mjs:406-466: create the deployment, deploy it, wait ten seconds, read its status (failures only logged). */
  method CreateAndDeploy(server: Server, name: string, config: DeploymentConfig)
    returns (trace: seq<Call>, error: Option<string>)
    ensures Outcome(trace, error) ==
      Then(Step(server, CreateDeployment(name, config)),
      Then(Step(server, Deploy(name)),
      Then(Step(server, Sleep(10000)),
        Swallow(ReadBack(server)))))
  {
    trace := [CreateDeployment(name, config)];
    error := Rejection(server, CreateDeployment(name, config));
    if error.Some? {
      return;
    }
    trace := trace + [Deploy(name)];
    error := Rejection(server, Deploy(name));
    if error.Some? {
      return;
    }
    // The re-read's own failure, `server.readBackReject`, is caught and only logged.
    trace := trace + [Sleep(10000), ListDeployments];
  }

  /** deploy.mjs:351-467: replace or create the image deployment, then deploy it. */
  method ReplaceOrCreateDeployment(server: Server, name: string, config: DeploymentConfig)
    returns (trace: seq<Call>, error: Option<string>)
    ensures Outcome(trace, error) == ReplaceOrCreate(server, name, config)
  {
    trace := [ListDeployments];
    error := Rejection(server, ListDeployments);
    if error.Some? {
      return;
    }
    var existing := Find(server.deployments, name);
    var t: seq<Call>;
    if existing.Some? {
      var freed := FreeNameAndPort(server, name);
      var e;
      t, e := UpdateAndDeploy(server, name, existing.value.id, config);
      t, error := freed + t, e;
    } else {
      t, error := CreateAndDeploy(server, name, config);
    }
    trace := trace + t;
  }

  /** deploy.mjs:476-524: delete a listed stack, create the stack, pull the repository if asked, deploy. */
  method RecreateStackKind(server: Server, name: string, config: StackConfig, pull: MaybeString)
    returns (trace: seq<Call>, error: Option<string>)
    ensures Outcome(trace, error) == RecreateStack(server, name, config, pull)
  {
    trace := [];
    var existingStack := Find(server.stacks, name);
    if existingStack.Some? {
      trace := trace + [DeleteStack(existingStack.value.id)];
      error := Rejection(server, DeleteStack(existingStack.value.id));
      if error.Some? {
        return;
      }
    }
    trace := trace + [CreateStack(name, config)];
    error := Rejection(server, CreateStack(name, config));
    if error.Some? {
      return;
    }
    if pull.Some? {
      trace := trace + [PullRepo(pull.value)];
      error := Rejection(server, PullRepo(pull.value));
      if error.Some? {
        return;
      }
    }
    trace := trace + [Call.DeployStack(name)];
    error := Rejection(server, Call.DeployStack(name));
  }

  /** deploy.mjs:526-560: create the container deployment if absent, then deploy it. */
  method EnsureContainerKind(server: Server, name: string, config: DeploymentConfig)
    returns (trace: seq<Call>, error: Option<string>)
    ensures Outcome(trace, error) == EnsureContainer(server, name, config)
  {
    trace := [ListDeployments];
    error := Rejection(server, ListDeployments);
    if error.Some? {
      return;
    }
    if Find(server.deployments, name).None? {
      trace := trace + [CreateDeployment(name, config)];
      error := Rejection(server, CreateDeployment(name, config));
      if error.Some? {
        return;
      }
    }
    trace := trace + [Deploy(name)];
    error := Rejection(server, Deploy(name));
  }

  /** deploy.mjs:348-560: the `deployment` / stack `if`-chain, then the separate `container` test. */
  method RunDispatch(server: Server, ctx: Context) returns (trace: seq<Call>, error: Option<string>)
    ensures Outcome(trace, error) == DispatchPlan(server, ctx)
  {
    var kind := ctx.deploymentType;
    var name := ResourceName(ctx);
    PlanProperties.DispatchByKind(kind, DeploymentPlan(server, ctx), StackPlan(server, ctx), ContainerPlan(server, ctx));
    trace, error := [], None;
    if kind == "deployment" {
      trace, error := ReplaceOrCreateDeployment(server, name, DeploymentConfigFor(ctx));
    } else if kind == "stack" || kind == "repo-then-stack" {
      trace, error := RecreateStackKind(server, name, StackConfigFor(ctx), PullTarget(ctx));
    }
    if error.Some? {
      return;
    }
    if kind == "container" {
      var t, e := EnsureContainerKind(server, name, ContainerConfigFor(ctx));
      trace := trace + t;
      error := e;
      assert trace == t;
    }
  }

  /** deploy.mjs:194-346: the build phase, only when the settings ask for it. */
  method RunBuildIfAsked(server: Server, ctx: Context) returns (trace: seq<Call>, error: Option<string>)
    ensures Outcome(trace, error) == BuildIfAsked(server, ctx)
  {
    trace, error := [], None;
    if ctx.buildImage {
      trace, error := RunBuildPhase(server, BuilderName(ctx), ctx.serverIdBuild, BuildName(ctx), ConfigFor(ctx));
    }
  }

  /** deploy.mjs:194-560: the optional build, then, unless it threw, the dispatch on the kind. */
  method BuildThenDispatch(server: Server, ctx: Context) returns (trace: seq<Call>, error: Option<string>)
    ensures Outcome(trace, error) == Then(BuildIfAsked(server, ctx), DispatchPlan(server, ctx))
  {
    trace, error := RunBuildIfAsked(server, ctx);
    if error.Some? {
      return;
    }
    var t, e := RunDispatch(server, ctx);
    trace := trace + t;
    error := e;
  }

  /** deploy.mjs:147-563: the connection check, then the optional build and the dispatch. */
  method RunMain(server: Server, ctx: Context) returns (trace: seq<Call>, error: Option<string>)
    ensures Outcome(trace, error) == MainPlan(server, ctx)
  {
    trace := [ListStacks];
    error := Rejection(server, ListStacks);
    if error.Some? {
      return;
    }
    var t, e := BuildThenDispatch(server, ctx);
    trace := trace + t;
    error := e;
  }

  /** The whole run: the settings checks, the main `try`, and the record written at the end. */
  method RunScript(env: Environment, args: seq<string>, dockerEnv: seq<EnvStrings.EnvVar>, server: Server, disk: Disk)
    returns (result: RunResult)
    ensures result == RunPlan(env, args, dockerEnv, server, disk)
  {
    if !RequiredPresent(env) {
      return RunResult([], None, 1);
    }
    var ctx := Resolve(env, args, dockerEnv);
    var trace, error := RunMain(server, ctx);
    var path := InfoPath(disk.probe);
    if error.None? && disk.successWriteError.None? {
      return RunResult(trace, Some(Written(path, SuccessRecord(ctx))), 0);
    }
    var message := if error.Some? then error.value else disk.successWriteError.value;
    var file: Option<Written> := None;
    if !disk.failureWriteFails {
      file := Some(Written(path, FailureRecord(ctx, message)));
    }
    result := RunResult(trace, file, 1);
  }
}
