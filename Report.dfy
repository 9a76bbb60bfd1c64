/**
 * The deployment-info record the script leaves for the CI workflow, and where
 * it is written.
 */
module Report {
  import opened JsText
  import opened Settings
  import Naming

  /** The JSON object written at the end of a run, field for field. */
  datatype Record =
    | Succeeded(branch: string, hostPort: nat, resourceName: string, imageTag: string, deploymentType: string)
    | FailedRun(branch: string, error: string, deploymentType: string)

  /** The keys of the written object, in the order the script lists them. */
  function Keys(r: Record): seq<string> {
    match r
    case Succeeded(_, _, _, _, _) => ["success", "branch", "hostPort", "resourceName", "imageTag", "deploymentType"]
    case FailedRun(_, _, _) => ["success", "branch", "error", "deploymentType"]
  }

  /** The `success` field. */
  function SuccessFlag(r: Record): bool {
    r.Succeeded?
  }

  /** The success record of a run with settings `ctx`. */
  function SuccessRecord(ctx: Context): Record
  {
    Succeeded(ctx.branchName, Port(ctx), ResourceName(ctx), Tag(ctx), ctx.deploymentType)
  }

  /**
   * The success record lists the six keys; its resource name is the stack name
   * and the deployment name alike, whatever the kind; its port is in range and
   * its tag is Docker-safe.
   */
  lemma SuccessRecordFields(ctx: Context)
    ensures var r := SuccessRecord(ctx);
      Keys(r) == ["success", "branch", "hostPort", "resourceName", "imageTag", "deploymentType"]
      && SuccessFlag(r) && r.branch == ctx.branchName && r.deploymentType == ctx.deploymentType
      && r.resourceName == Show(ctx.baseName) + "-" + Suffix(ctx)
      && 3000 <= r.hostPort <= 3999 && Naming.AllTagChars(r.imageTag)
  {
  }

  /** The failure record for an error with message `message`: `branch || "unknown"`, `message || "Unknown error"`. */
  function FailureRecord(ctx: Context, message: string): (r: Record)
    ensures !SuccessFlag(r) && r.error != ""
    ensures message != "" ==> r.error == message
    ensures message == "" ==> r.error == "Unknown error"
  {
    FailedRun(
      OrElse(Some(ctx.branchName), "unknown"),
      OrElse(Some(message), "Unknown error"),
      OrElse(Some(ctx.deploymentType), "unknown"))
  }

  /**
   * The failure record names the success flag, branch, error and kind, and
   * none of the host port, resource name or image tag.
   */
  lemma FailureRecordFields(ctx: Context, message: string)
    ensures Keys(FailureRecord(ctx, message)) == ["success", "branch", "error", "deploymentType"]
    ensures forall k :: k in ["hostPort", "resourceName", "imageTag"] ==> k !in Keys(FailureRecord(ctx, message))
  {
  }

  /**
   * For settings resolved from any environment, the `unknown` fallbacks of the
   * failure record never apply: the branch and the kind always have a value.
   */
  lemma FailureRecordKeepsSettings(env: Environment, args: seq<string>, dockerEnv: seq<EnvStrings.EnvVar>, message: string)
    ensures var ctx := Resolve(env, args, dockerEnv);
      var r := FailureRecord(ctx, message);
      r.branch == ctx.branchName && r.deploymentType == ctx.deploymentType
  {
  }

  /** What checking for the `/app/workspace` directory finds. */
  datatype DirProbe = DirExists | DirMissing | ProbeFails

  const WorkspaceDir := "/app/workspace"
  const InfoFileName := "deployment-info.json"
  /** The workspace file; the directory probed is its `dirname`. */
  const WorkspacePath := WorkspaceDir + "/" + InfoFileName

  /** The file the record goes to: the workspace file, or the same name in the current directory. */
  function InfoPath(probe: DirProbe): (path: string)
    ensures path == WorkspacePath <==> probe.DirExists?
    ensures path == WorkspacePath || path == InfoFileName
  {
    if probe.DirExists? then WorkspacePath else InfoFileName
  }

  /**
   * The file system at the end of a run: what the directory check finds,
   * whether writing the success record throws (and with which message), and
   * whether writing the failure record throws.
   */
  datatype Disk = Disk(probe: DirProbe, successWriteError: Option<string>, failureWriteFails: bool)

  /** A record written to a path. */
  datatype Written = Written(path: string, record: Record)
}
