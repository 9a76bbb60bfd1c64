/**
 * The extra variables loaded from `docker.env`, and the four renderings the
 * deploy script makes of them: the build-argument string, the YAML
 * `environment:` section of the compose file, the stack's flattened
 * environment blob and the deployment's environment list. Every rendering
 * keeps the order of the loaded list and adds `BRANCH`.
 */
module EnvStrings {
  import opened JsText

  /** One `{ variable, value }` pair of the loaded list. */
  datatype EnvVar = EnvVar(variable: string, value: string)

  /** `${env.variable}=${env.value}`. */
  function Assignment(e: EnvVar): string {
    e.variable + "=" + e.value
  }

  /** `envVars.map((env) => `${env.variable}=${env.value}`)`. */
  function Assignments(env: seq<EnvVar>): (r: seq<string>)
    ensures |r| == |env|
    ensures forall i :: 0 <= i < |env| ==> r[i] == Assignment(env[i])
  {
    seq(|env|, i requires 0 <= i < |env| => Assignment(env[i]))
  }

  /** `BRANCH=${branchName} ${dockerBuildArgs}` with the arguments joined by single spaces. */
  function BuildArgs(branch: string, env: seq<EnvVar>): string {
    "BRANCH=" + branch + " " + Join(" ", Assignments(env))
  }

  /**
   * The build arguments are the space-join of `BRANCH=<branch>` followed by the
   * loaded assignments; with no loaded variables a trailing space remains.
   */
  lemma BuildArgsAsJoin(branch: string, env: seq<EnvVar>)
    ensures |env| > 0 ==> BuildArgs(branch, env) == Join(" ", ["BRANCH=" + branch] + Assignments(env))
    ensures |env| == 0 ==> BuildArgs(branch, env) == "BRANCH=" + branch + " "
  {
    var xs := ["BRANCH=" + branch] + Assignments(env);
    if |env| > 0 {
      assert xs[1..] == Assignments(env);
    }
  }

  /** No variable name or value of `env` holds `c`. */
  predicate EnvFreeOf(c: char, env: seq<EnvVar>) {
    forall i :: 0 <= i < |env| ==> c !in env[i].variable && c !in env[i].value
  }

  lemma AssignmentFreeOf(c: char, e: EnvVar)
    requires c != '=' && c !in e.variable && c !in e.value
    ensures c !in Assignment(e)
  {
  }

  /**
   * A consumer that splits the build arguments on spaces gets back
   * `BRANCH=<branch>` first and then every loaded assignment in order,
   * provided no name or value holds a space.
   */
  lemma BuildArgsRoundTrip(branch: string, env: seq<EnvVar>)
    requires |env| > 0
    requires ' ' !in branch && EnvFreeOf(' ', env)
    ensures Split(BuildArgs(branch, env), ' ') == ["BRANCH=" + branch] + Assignments(env)
  {
    BuildArgsAsJoin(branch, env);
    var xs := ["BRANCH=" + branch] + Assignments(env);
    forall i | 0 <= i < |xs| ensures ' ' !in xs[i] {
      if i > 0 {
        AssignmentFreeOf(' ', env[i - 1]);
      }
    }
    SplitJoin(xs, ' ');
  }

  /** `      ${env.variable}: ${env.value}` (six spaces of indentation). */
  function YamlLine(e: EnvVar): string {
    "      " + e.variable + ": " + e.value
  }

  /** `      BRANCH: ${branchName}`. */
  function BranchYamlLine(branch: string): string {
    "      BRANCH: " + branch
  }

  function YamlLines(env: seq<EnvVar>): (r: seq<string>)
    ensures |r| == |env|
    ensures forall i :: 0 <= i < |env| ==> r[i] == YamlLine(env[i])
  {
    seq(|env|, i requires 0 <= i < |env| => YamlLine(env[i]))
  }

  /**
   * The YAML environment section: one line per loaded variable and a last
   * `BRANCH` line, separated by newlines, with no newline after the last line.
   */
  function YamlEnv(env: seq<EnvVar>, branch: string): string {
    Join("\n", YamlLines(env) + [BranchYamlLine(branch)])
  }

  /** Every line followed by its own newline. */
  function Terminated(lines: seq<string>): string
    decreases |lines|
  {
    if |lines| == 0 then "" else Terminated(lines[..|lines| - 1]) + lines[|lines| - 1] + "\n"
  }

  /** Newline-terminated lines followed by one last line are the newline-join of all of them. */
  lemma {:induction false} TerminatedThenLast(lines: seq<string>, last: string)
    ensures Terminated(lines) + last == Join("\n", lines + [last])
    decreases |lines|
  {
    if |lines| > 0 {
      var init := lines[..|lines| - 1];
      var l := lines[|lines| - 1];
      TerminatedThenLast(init, l);
      assert init + [l] == lines;
      JoinSnoc("\n", lines, last);
    }
  }

  /**
   * `generateYamlEnvSection`: appends one `K: V` line and a newline per
   * variable, then the `BRANCH` line.
   */
  method GenerateYamlEnvSection(env: seq<EnvVar>, branch: string) returns (yaml: string)
    ensures yaml == YamlEnv(env, branch)
  {
    yaml := "";
    for i := 0 to |env|
      invariant yaml == Terminated(YamlLines(env[..i]))
    {
      assert YamlLines(env[..i + 1]) == YamlLines(env[..i]) + [YamlLine(env[i])];
      yaml := yaml + YamlLine(env[i]) + "\n";
    }
    yaml := yaml + BranchYamlLine(branch);
    assert env[..|env|] == env;
    TerminatedThenLast(YamlLines(env), BranchYamlLine(branch));
  }

  /**
   * Splitting the YAML section on newlines gives exactly one line per variable
   * and the `BRANCH` line last, provided no name, value or branch holds a newline.
   */
  lemma YamlEnvLines(env: seq<EnvVar>, branch: string)
    requires '\n' !in branch && EnvFreeOf('\n', env)
    ensures Split(YamlEnv(env, branch), '\n') == YamlLines(env) + [BranchYamlLine(branch)]
  {
    var xs := YamlLines(env) + [BranchYamlLine(branch)];
    forall i | 0 <= i < |xs| ensures '\n' !in xs[i] {
    }
    SplitJoin(xs, '\n');
  }

  /** The section ends with the `BRANCH` line itself: no trailing newline. */
  lemma YamlEnvEndsWithBranch(env: seq<EnvVar>, branch: string)
    ensures var y := YamlEnv(env, branch);
      |y| >= |BranchYamlLine(branch)| && y[|y| - |BranchYamlLine(branch)|..] == BranchYamlLine(branch)
  {
    TerminatedThenLast(YamlLines(env), BranchYamlLine(branch));
  }

  /** The stack's `environment` blob: assignments joined by newlines, then `\nBRANCH=<branch>`. */
  function StackEnvironment(env: seq<EnvVar>, branch: string): string {
    Join("\n", Assignments(env)) + "\nBRANCH=" + branch
  }

  /** `[...dockerEnvVars, { variable: "BRANCH", value: branchName }]`. */
  function DeploymentEnvironment(env: seq<EnvVar>, branch: string): (r: seq<EnvVar>)
    ensures |r| == |env| + 1
    ensures r[..|env|] == env
    ensures r[|env|] == EnvVar("BRANCH", branch)
  {
    env + [EnvVar("BRANCH", branch)]
  }

  lemma AssignmentsOfDeploymentEnvironment(env: seq<EnvVar>, branch: string)
    ensures Assignments(DeploymentEnvironment(env, branch)) == Assignments(env) + ["BRANCH=" + branch]
  {
    var full := DeploymentEnvironment(env, branch);
    var a, b := Assignments(full), Assignments(env) + ["BRANCH=" + branch];
    assert Assignment(EnvVar("BRANCH", branch)) == "BRANCH=" + branch;
    forall i | 0 <= i < |a| ensures a[i] == b[i] {
      if i < |env| {
        assert full[i] == env[i];
      }
    }
  }

  /**
   * The stack blob lists the same pairs, in the same order, as the deployment's
   * environment list, one `K=V` per line; with no loaded variable it starts with
   * an empty line.
   */
  lemma StackEnvironmentMatchesDeployment(env: seq<EnvVar>, branch: string)
    ensures |env| > 0 ==> StackEnvironment(env, branch) == Join("\n", Assignments(DeploymentEnvironment(env, branch)))
    ensures |env| == 0 ==> StackEnvironment(env, branch) == "\nBRANCH=" + branch
  {
    if |env| > 0 {
      AssignmentsOfDeploymentEnvironment(env, branch);
      JoinSnoc("\n", Assignments(env), "BRANCH=" + branch);
    }
  }

  /**
   * A consumer splitting the stack blob on newlines gets every loaded
   * assignment and then `BRANCH=<branch>`, provided nothing holds a newline.
   */
  lemma StackEnvironmentRoundTrip(env: seq<EnvVar>, branch: string)
    requires |env| > 0
    requires '\n' !in branch && EnvFreeOf('\n', env)
    ensures Split(StackEnvironment(env, branch), '\n') == Assignments(env) + ["BRANCH=" + branch]
  {
    StackEnvironmentMatchesDeployment(env, branch);
    var full := DeploymentEnvironment(env, branch);
    var xs := Assignments(full);
    AssignmentsOfDeploymentEnvironment(env, branch);
    forall i | 0 <= i < |xs| ensures '\n' !in xs[i] {
      if i < |env| {
        AssignmentFreeOf('\n', env[i]);
      }
    }
    SplitJoin(xs, '\n');
  }
}
