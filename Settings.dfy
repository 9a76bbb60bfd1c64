/**
 * The script's configuration: the process environment (after `.env` is
 * loaded), the command-line arguments and the variables of `docker.env`,
 * resolved into the settings the deploy uses, and the identifiers derived
 * from the branch name.
 */
module Settings {
  import opened JsText
  import opened EnvStrings
  import Naming

  /** The environment variables the script reads; an unset variable is `None`. */
  datatype Environment = Environment(
    komodoUrl: MaybeString,           // KOMODO_URL
    komodoApiKey: MaybeString,        // KOMODO_API_KEY
    komodoApiSecret: MaybeString,     // KOMODO_API_SECRET
    deploymentType: MaybeString,      // DEPLOYMENT_TYPE
    imageBaseName: MaybeString,       // DOCKER_IMAGEBASENAME
    branchName: MaybeString,          // BRANCH_NAME
    repoName: MaybeString,            // REPO_NAME
    serverIdDeploy: MaybeString,      // KOMODO_SERVER_ID_DEPLOY
    serverIdBuild: MaybeString,       // KOMODO_SERVER_ID_BUILD
    dockerImage: MaybeString,         // DOCKER_IMAGE
    dockerRegistry: MaybeString,      // DOCKER_REGISTRY
    dockerUsername: MaybeString,      // DOCKER_USERNAME
    gitAccount: MaybeString,          // GIT_ACCOUNT
    buildImage: MaybeString)          // BUILD_IMAGE

  /** The resolved settings of one run. */
  datatype Context = Context(
    deploymentType: string,
    baseName: MaybeString,
    branchName: string,
    repoName: MaybeString,
    serverIdDeploy: MaybeString,
    serverIdBuild: MaybeString,
    dockerImage: MaybeString,
    dockerRegistry: MaybeString,
    dockerUsername: MaybeString,
    gitAccount: MaybeString,
    buildImage: bool,
    dockerEnv: seq<EnvVar>)

  /** `args[i]`, undefined past the end. */
  function ArgAt(args: seq<string>, i: nat): MaybeString {
    if i < |args| then Some(args[i]) else None
  }

  /**
   * The settings: the first argument, then `BRANCH_NAME`, then `dev` name the
   * branch; `DEPLOYMENT_TYPE` defaults to `deployment`; the build phase runs
   * when `BUILD_IMAGE` is exactly `true` or some argument is `--build`.
   */
  function Resolve(env: Environment, args: seq<string>, dockerEnv: seq<EnvVar>): (ctx: Context)
    ensures ctx.branchName != "" && ctx.deploymentType != ""
    ensures Truthy(ArgAt(args, 0)) ==> ctx.branchName == args[0]
    ensures !Truthy(ArgAt(args, 0)) && Truthy(env.branchName) ==> ctx.branchName == env.branchName.value
    ensures !Truthy(ArgAt(args, 0)) && !Truthy(env.branchName) ==> ctx.branchName == "dev"
    ensures Truthy(env.deploymentType) ==> ctx.deploymentType == env.deploymentType.value
    ensures !Truthy(env.deploymentType) ==> ctx.deploymentType == "deployment"
    ensures ctx.deploymentType == "deployment" <==> !Truthy(env.deploymentType) || env.deploymentType.value == "deployment"
    ensures ctx.buildImage <==> env.buildImage == Some("true") || "--build" in args
    ensures ctx.dockerEnv == dockerEnv
  {
    Context(
      deploymentType := OrElse(env.deploymentType, "deployment"),
      baseName := env.imageBaseName,
      branchName := OrElse(ArgAt(args, 0), OrElse(env.branchName, "dev")),
      repoName := env.repoName,
      serverIdDeploy := env.serverIdDeploy,
      serverIdBuild := env.serverIdBuild,
      dockerImage := env.dockerImage,
      dockerRegistry := env.dockerRegistry,
      dockerUsername := env.dockerUsername,
      gitAccount := env.gitAccount,
      buildImage := env.buildImage == Some("true") || "--build" in args,
      dockerEnv := dockerEnv)
  }

  /** The three connection settings the script refuses to run without. */
  predicate RequiredPresent(env: Environment) {
    Truthy(env.komodoUrl) && Truthy(env.komodoApiKey) && Truthy(env.komodoApiSecret)
  }

  /**
   * The first argument is taken as the branch even when it is the `--build`
   * flag: `deploy --build` builds, and deploys a branch named `--build`, whose
   * tag is `build`.
   */
  lemma BuildFlagAsBranch(env: Environment, dockerEnv: seq<EnvVar>)
    ensures var ctx := Resolve(env, ["--build"], dockerEnv);
      ctx.buildImage && ctx.branchName == "--build" && Naming.BranchSuffix(ctx.branchName) == "--build"
      && Naming.DockerTag(ctx.branchName) == "build"
  {
    var ctx := Resolve(env, ["--build"], dockerEnv);
    assert "--build"[0] == '-';
    BuildFlagIdentifiers();
  }

  lemma BuildFlagIdentifiers()
    ensures Naming.BranchSuffix("--build") == "--build"
    ensures Naming.DockerTag("--build") == "build"
  {
    BuildFlagSuffix();
    BuildFlagStripped();
    BuildFlagCollapsed();
    Naming.DockerTagFromSuffix("--build");
  }

  lemma BuildFlagSuffix()
    ensures Naming.BranchSuffix("--build") == "--build"
  {
    var s := Naming.BranchSuffix("--build");
    assert s[0] == '-' && s[1] == '-' && s[2] == 'b' && s[3] == 'u';
    assert s[4] == 'i' && s[5] == 'l' && s[6] == 'd';
  }

  lemma BuildFlagStripped()
    ensures Naming.StripDashes("--build") == "build"
  {
    BuildFlagLeadingStripped();
    BuildTrailingKept();
  }

  lemma BuildFlagLeadingStripped()
    ensures Naming.StripLeadingDashes("--build") == "build"
  {
    var s := "--build";
    assert s[0] == '-' && s[1..] == "-build";
    assert "-build"[0] == '-' && "-build"[1..] == "build";
    assert "build"[0] == 'b';
    calc {
      Naming.StripLeadingDashes(s);
      Naming.StripLeadingDashes("-build");
      Naming.StripLeadingDashes("build");
      "build";
    }
  }

  lemma BuildTrailingKept()
    ensures Naming.StripTrailingDashes("build") == "build"
  {
    assert "build"[|"build"| - 1] == 'd';
  }


  lemma BuildFlagCollapsed()
    ensures Naming.CollapseDashes("build") == "build"
  {
    var s := "build";
    forall i | 0 <= i < |s| - 1 ensures !(s[i] == '-' && s[i + 1] == '-') {
      assert s[i] != '-';
    }
  }

  /** `branchSuffix`. */
  function Suffix(ctx: Context): string {
    Naming.BranchSuffix(ctx.branchName)
  }

  /** `stackName` and `deploymentName`: both `${baseName}-${branchSuffix}`. */
  function ResourceName(ctx: Context): string {
    Naming.ResourceName(Show(ctx.baseName), Suffix(ctx))
  }

  /** `${baseName}-build-${branchSuffix}`. */
  function BuildName(ctx: Context): string {
    Naming.BuildName(Show(ctx.baseName), Suffix(ctx))
  }

  /** `${serverIdBuild}_builder`. */
  function BuilderName(ctx: Context): string {
    Naming.BuilderName(Show(ctx.serverIdBuild))
  }

  function Tag(ctx: Context): string {
    Naming.DockerTag(ctx.branchName)
  }

  function Port(ctx: Context): (port: nat)
    ensures 3000 <= port <= 3999
  {
    Naming.HostPort(ctx.branchName)
  }

  /** `${dockerRegistry}/${dockerUsername}/${baseName}:latest-${dockerTag}`. */
  function ImageRef(ctx: Context): string {
    Show(ctx.dockerRegistry) + "/" + Show(ctx.dockerUsername) + "/" + Show(ctx.baseName) + ":latest-" + Tag(ctx)
  }

  /** Two runs on branches with the same suffix work on the same stack, deployment, build and port. */
  lemma SameSuffixSameResources(a: Context, b: Context)
    requires a.baseName == b.baseName && Suffix(a) == Suffix(b)
    ensures ResourceName(a) == ResourceName(b) && BuildName(a) == BuildName(b) && Port(a) == Port(b)
  {
    Naming.SameSuffixSamePort(a.branchName, b.branchName);
  }
}
