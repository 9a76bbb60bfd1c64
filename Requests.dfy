/**
 * The payloads the script sends with its write calls, built from the resolved
 * settings: the build configuration (sent alike by `CreateBuild` and
 * `UpdateBuild`), the image deployment configuration (alike for
 * `CreateDeployment` and `UpdateDeployment`), the host-network container
 * configuration and the stack configuration with its compose file.
 */
module Requests {
  import opened JsText
  import opened EnvStrings
  import opened Komodo
  import opened Settings
  import Naming

  /** `repoName?.includes("/")`: undefined when the repository name is. */
  predicate RepoHasOwner(ctx: Context) {
    ctx.repoName.Some? && '/' in ctx.repoName.value
  }

  /** The `repo` field: the repository name when it has an owner part, else `${gitAccount}/${repoName}`. */
  function RepoPath(ctx: Context): string {
    if RepoHasOwner(ctx) then ctx.repoName.value else Show(ctx.gitAccount) + "/" + Show(ctx.repoName)
  }

  /** The `git_account` field: the owner part of the repository name, else `GIT_ACCOUNT` (possibly undefined). */
  function GitAccountField(ctx: Context): MaybeString {
    if RepoHasOwner(ctx) then Some(Split(ctx.repoName.value, '/')[0]) else ctx.gitAccount
  }

  /**
   * Whichever way the repository is named, the `git_account` field's printed
   * form is the owner part of the repository path: the path starts with it and
   * a slash. When an account is sent, the path starts with that account; when
   * none is (no owner part and no `GIT_ACCOUNT`), the field is dropped from
   * the request and the path starts with `undefined/`.
   */
  lemma GitAccountOwnsRepo(ctx: Context)
    ensures var owner := Show(GitAccountField(ctx)) + "/";
      |owner| <= |RepoPath(ctx)| && RepoPath(ctx)[..|owner|] == owner
    ensures GitAccountField(ctx).Some? ==> var sent := GitAccountField(ctx).value + "/";
      |sent| <= |RepoPath(ctx)| && RepoPath(ctx)[..|sent|] == sent
    ensures RepoHasOwner(ctx) ==> '/' !in GitAccountField(ctx).value
  {
    if RepoHasOwner(ctx) {
      var repo := ctx.repoName.value;
      SplitFirstPiece(repo, '/');
      var p := Split(repo, '/')[0];
      assert |p| < |repo| by {
        if |p| == |repo| {
          assert false;
        }
      }
      assert repo[..|p| + 1] == repo[..|p|] + [repo[|p|]];
    }
  }

  /** The build configuration for the builder with id `builderId`. */
  function BuildConfigFor(ctx: Context, builderId: string): BuildConfig
  {
    BuildConfig(
      serverId := ctx.serverIdBuild,
      builderId := builderId,
      repo := RepoPath(ctx),
      branch := ctx.branchName,
      gitProvider := "github.com",
      gitHttps := true,
      gitAccount := GitAccountField(ctx),
      dockerfilePath := ctx.dockerImage,
      dockerBuildArgs := BuildArgs(ctx.branchName, ctx.dockerEnv),
      registryDomain := ctx.dockerRegistry,
      registryAccount := ctx.dockerUsername,
      imageName := Show(ctx.baseName),
      imageTag := Tag(ctx))
  }

  /**
   * The image a build pushes, `registry/account/name:tag`, is the image the
   * deployment pulls once the tag is prefixed with `latest-`.
   */
  lemma BuiltImageIsDeployedImage(ctx: Context, builderId: string)
    ensures var c := BuildConfigFor(ctx, builderId);
      ImageRef(ctx) == Show(c.registryDomain) + "/" + Show(c.registryAccount) + "/" + c.imageName + ":latest-" + c.imageTag
  {
  }

  /** The single port mapping of an image deployment: the host port on loopback to container port 3000. */
  function PortMappingFor(ctx: Context): (m: PortMapping)
    ensures m.local == Decimal(Port(ctx))
    ensures |m.local| == 4 && DigitsValue(m.local) == Port(ctx)
    ensures m.container == "3000" && m.protocol == "tcp" && m.bindIp == "127.0.0.1"
  {
    var port := Port(ctx);
    DecimalValue(port);
    DecimalLength4(port);
    PortMapping(Decimal(port), "3000", "tcp", "127.0.0.1")
  }

  /** A number from 1000 to 9999 prints with four digits. */
  lemma DecimalLength4(n: nat)
    requires 1000 <= n <= 9999
    ensures |Decimal(n)| == 4
  {
    var a := n / 10;
    var b := a / 10;
    var c := b / 10;
    assert 100 <= a <= 999 && 10 <= b <= 99 && 1 <= c <= 9;
    assert |Decimal(c)| == 1;
    assert |Decimal(b)| == |Decimal(c)| + 1;
    assert |Decimal(a)| == |Decimal(b)| + 1;
    assert |Decimal(n)| == |Decimal(a)| + 1;
  }

  /** The configuration of an image deployment (the `deployment` kind). */
  function DeploymentConfigFor(ctx: Context): DeploymentConfig
  {
    ImageDeployment(
      serverId := ctx.serverIdDeploy,
      image := ImageRef(ctx),
      network := "bridge",
      ports := [PortMappingFor(ctx)],
      environment := DeploymentEnvironment(ctx.dockerEnv, ctx.branchName),
      restart := "unless-stopped")
  }

  /** The fixed environment text of a host-network container. */
  function ContainerEnvironment(branch: string): string {
    "BRANCH=" + branch + "\nNODE_ENV=development\nPORT=3001"
  }

  /**
   * Split into lines, the container's environment is the branch, the
   * development mode and port 3001, provided the branch holds no newline.
   */
  lemma ContainerEnvironmentLines(branch: string)
    requires '\n' !in branch
    ensures Split(ContainerEnvironment(branch), '\n') == ["BRANCH=" + branch, "NODE_ENV=development", "PORT=3001"]
  {
    var xs := ["BRANCH=" + branch, "NODE_ENV=development", "PORT=3001"];
    ContainerEnvironmentAsJoin(branch);
    FixedLinesWithoutNewline();
    assert '\n' !in xs[0];
    SplitJoin(xs, '\n');
  }

  lemma FixedLinesWithoutNewline()
    ensures '\n' !in "NODE_ENV=development" && '\n' !in "PORT=3001"
  {
  }

  lemma ContainerEnvironmentAsJoin(branch: string)
    ensures ContainerEnvironment(branch) == Join("\n", ["BRANCH=" + branch, "NODE_ENV=development", "PORT=3001"])
  {
    var xs := ["BRANCH=" + branch, "NODE_ENV=development", "PORT=3001"];
    var rest := ["NODE_ENV=development", "PORT=3001"];
    assert xs[1..] == rest && rest[1..] == ["PORT=3001"];
    assert Join("\n", rest) == "NODE_ENV=development\nPORT=3001";
  }

  /** The configuration of a host-network container (the `container` kind): `${baseName}:${branchName}`. */
  function ContainerConfigFor(ctx: Context): DeploymentConfig
  {
    HostContainer(
      serverId := ctx.serverIdDeploy,
      image := Show(ctx.baseName) + ":" + ctx.branchName,
      network := "host",
      restart := "unless-stopped",
      environmentText := ContainerEnvironment(ctx.branchName),
      portsText := "3001:3000",
      autoUpdate := true,
      pollForUpdates := true)
  }

  /** Everything of the compose file before its YAML environment section. */
  function ComposeHeader(ctx: Context): string {
    var name := ResourceName(ctx);
    "services:\n  " + name + ":\n    container_name: " + name + "\n    image: " + ImageRef(ctx)
      + "\n    restart: unless-stopped\n    ports:\n      - '127.0.0.1:" + Decimal(Port(ctx))
      + ":3000'\n    environment:\n"
  }

  /** The compose file: a single service named after the stack, then the environment section. */
  function ComposeFile(ctx: Context): string {
    ComposeHeader(ctx) + YamlEnv(ctx.dockerEnv, ctx.branchName)
  }

  /** The stack configuration: the compose file and the flattened environment. */
  function StackConfigFor(ctx: Context): StackConfig
  {
    StackConfig(
      serverId := ctx.serverIdDeploy,
      projectName := ResourceName(ctx),
      fileContents := ComposeFile(ctx),
      environment := StackEnvironment(ctx.dockerEnv, ctx.branchName))
  }

  /**
   * Read line by line, the compose file ends with one environment line per
   * loaded variable and then the `BRANCH` line, provided nothing in the
   * settings holds a newline.
   */
  lemma ComposeFileEndsWithEnvironment(ctx: Context)
    requires '\n' !in ctx.branchName && EnvFreeOf('\n', ctx.dockerEnv)
    ensures var lines := Split(ComposeFile(ctx), '\n');
      var tail := YamlLines(ctx.dockerEnv) + [BranchYamlLine(ctx.branchName)];
      |lines| >= |tail| && lines[|lines| - |tail|..] == tail
  {
    var h := ComposeHeader(ctx);
    var y := YamlEnv(ctx.dockerEnv, ctx.branchName);
    YamlEnvLines(ctx.dockerEnv, ctx.branchName);
    SplitAfterTerminated(h, '\n', y);
  }
}
