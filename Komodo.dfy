/**
 * The Komodo control plane as the deploy script sees it: named resources, the
 * request payloads the script sends, every remote call (and every fixed delay)
 * as an event of a trace, and a server whose answers are inputs.
 */
module Komodo {
  import opened JsText
  import opened EnvStrings

  /** A resource descriptor returned by a `List*` read: only its name and id matter here. */
  datatype Resource = Resource(name: string, id: string)

  /** `resources.find((r) => r.name === name)`. */
  function Find(resources: seq<Resource>, name: string): (r: Option<Resource>)
    ensures r.None? <==> forall i :: 0 <= i < |resources| ==> resources[i].name != name
    ensures r.Some? ==> r.value in resources && r.value.name == name
    decreases |resources|
  {
    if |resources| == 0 then None
    else if resources[0].name == name then Some(resources[0])
    else
      var r := Find(resources[1..], name);
      assert forall i :: 1 <= i < |resources| ==> resources[i] == resources[1..][i - 1];
      r
  }

  /** `find` returns the first resource with the name, not just any. */
  lemma {:induction false} FindFirst(resources: seq<Resource>, name: string, i: nat)
    requires i < |resources| && resources[i].name == name
    requires forall j :: 0 <= j < i ==> resources[j].name != name
    ensures Find(resources, name) == Some(resources[i])
    decreases i
  {
    if i > 0 {
      assert resources[1..][i - 1] == resources[i];
      FindFirst(resources[1..], name, i - 1);
    }
  }

  /** The `config` of `CreateBuild` / `UpdateBuild`. Undefined settings stay undefined (`None`). */
  datatype BuildConfig = BuildConfig(
    serverId: MaybeString,
    builderId: string,
    repo: string,
    branch: string,
    gitProvider: string,
    gitHttps: bool,
    gitAccount: MaybeString,
    dockerfilePath: MaybeString,
    dockerBuildArgs: string,
    registryDomain: MaybeString,
    registryAccount: MaybeString,
    imageName: string,
    imageTag: string)

  /** One entry of a deployment's `ports` list. */
  datatype PortMapping = PortMapping(local: string, container: string, protocol: string, bindIp: string)

  /** The `config` of `CreateDeployment` / `UpdateDeployment`, for the two kinds that send one. */
  datatype DeploymentConfig =
    | ImageDeployment(
        serverId: MaybeString,
        image: string,
        network: string,
        ports: seq<PortMapping>,
        environment: seq<EnvVar>,
        restart: string)
    | HostContainer(
        serverId: MaybeString,
        image: string,
        network: string,
        restart: string,
        environmentText: string,
        portsText: string,
        autoUpdate: bool,
        pollForUpdates: bool)

  /** The `config` of `CreateStack`; the compose file is an opaque string. */
  datatype StackConfig = StackConfig(
    serverId: MaybeString,
    projectName: string,
    fileContents: string,
    environment: string)

  /** One event of a run: a Komodo read, write or execute, or a fixed delay. */
  datatype Call =
    | ListStacks
    | ListBuilders
    | ListBuilds
    | ListDeployments
    | CreateBuilder(name: string, serverId: MaybeString)
    | CreateBuild(name: string, buildConfig: BuildConfig)
    | UpdateBuild(id: string, buildConfig: BuildConfig)
    | RunBuild(build: string)
    | CreateDeployment(name: string, deploymentConfig: DeploymentConfig)
    | UpdateDeployment(id: string, deploymentConfig: DeploymentConfig)
    | StopDeployment(target: string)
    | RemoveDeployment(target: string)
    | Deploy(target: string)
    | DeleteStack(id: string)
    | CreateStack(name: string, stackConfig: StackConfig)
    | PullRepo(repo: string)
    | DeployStack(stack: string)
    | Sleep(ms: nat)

  /** What one status read during build polling found for the build. */
  datatype PollObs =
    | ReadFailed(message: string)   // the ListBuilds read threw
    | NoBuildState                  // no build of that name, or no `info`
    | BuildState(state: string)     // `info.state` (an empty state is falsy, like no state)

  /**
   * The server's behaviour, as inputs: which calls throw (and with which
   * message), what each list read returns, what `CreateBuilder` returns, what
   * the status read of each polling attempt finds, and whether the diagnostic
   * re-read of the deployment list after a create throws (a later request
   * that can fail on its own, even when the first read of the list worked).
   */
  datatype Server = Server(
    reject: Call -> Option<string>,
    stacks: seq<Resource>,
    builders: seq<Resource>,
    createdBuilder: Resource,
    builds: seq<Resource>,
    deployments: seq<Resource>,
    buildStatus: nat -> PollObs,
    readBackReject: Option<string>)

  /** The calls issued so far and, when the sequence stopped on an exception, its message. */
  datatype Outcome = Outcome(trace: seq<Call>, error: Option<string>)

  const Done := Outcome([], None)

  /** Whether the server throws on this call (a delay never does). */
  function Rejection(server: Server, c: Call): Option<string> {
    if c.Sleep? then None else server.reject(c)
  }

  /** Awaiting one call: it is issued, and its exception (if any) propagates. */
  function Step(server: Server, c: Call): Outcome {
    Outcome([c], Rejection(server, c))
  }

  /** The diagnostic re-read of the deployment list: issued, and failing by its own input. */
  function ReadBack(server: Server): Outcome {
    Outcome([ListDeployments], server.readBackReject)
  }

  /** Sequential composition: `next` runs only when `first` did not throw. */
  function Then(first: Outcome, next: Outcome): Outcome {
    if first.error.Some? then first else Outcome(first.trace + next.trace, next.error)
  }

  /** A `try { … } catch { log }` around a block: its calls stay issued, its exception is dropped. */
  function Swallow(o: Outcome): Outcome {
    Outcome(o.trace, None)
  }

  /** Composition is associative, so a sequence of awaited steps can be grouped freely. */
  lemma ThenAssociative(a: Outcome, b: Outcome, c: Outcome)
    ensures Then(Then(a, b), c) == Then(a, Then(b, c))
  {
    if a.error.None? && b.error.None? {
      assert (a.trace + b.trace) + c.trace == a.trace + (b.trace + c.trace);
    }
  }

  /** Doing nothing before or after a sequence changes nothing. */
  lemma ThenDoneIdentity(o: Outcome)
    ensures Then(Done, o) == o
    ensures Then(o, Done) == o
  {
    if o.error.None? {
      assert o.trace + [] == o.trace;
    }
  }

  /** Number of occurrences of `c` in a trace. */
  function Count(trace: seq<Call>, c: Call): nat
    decreases |trace|
  {
    if |trace| == 0 then 0 else (if trace[0] == c then 1 else 0) + Count(trace[1..], c)
  }

  lemma {:induction false} CountAppend(a: seq<Call>, b: seq<Call>, c: Call)
    ensures Count(a + b, c) == Count(a, c) + Count(b, c)
    decreases |a|
  {
    if |a| > 0 {
      assert (a + b)[0] == a[0];
      assert (a + b)[1..] == a[1..] + b;
      CountAppend(a[1..], b, c);
    } else {
      assert a + b == b;
    }
  }
}
