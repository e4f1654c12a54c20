/** Resolution of the deployment parameters from the process environment,
    the CDK context and the `whoami` fallback (infra/bin/infra.ts, lines 10-35). */
module Context {
  import opened JsValues

  /** Everything the script reads from outside. The first three are
      environment variables, the rest are CDK context keys. */
  datatype Inputs = Inputs(
    cdkDefaultAccount: Option<string>,  // CDK_DEFAULT_ACCOUNT
    cdkDefaultRegion: Option<string>,   // CDK_DEFAULT_REGION
    user: Option<string>,               // USER
    codeConnectionArn: Option<string>,  // context "codeConnectionArn"
    repositoryName: Option<string>,     // context "repositoryName"
    branchName: Option<string>,         // context "branchName"
    environment: Option<string>,        // context "environment"
    buildPath: Option<string>)          // context "buildPath"

  /** What `execSync('whoami').toString().trim()` would give: it throws, or
      it yields the already-trimmed output (possibly empty). */
  datatype WhoamiResult = Failed | Output(s: string)

  const DefaultRegion := "us-east-1"
  const DefaultRepositoryName := "PawRush/Next-JS-Landing-Page-Starter-Template"
  const DefaultBranchName := "deploy-to-aws-20260128_174824-sergeyka"
  const DefaultBuildOutputPath := "../out"
  const PreviewPrefix := "preview-"
  const LocalPreview := "preview-local"

  /** The parameters resolved before the topology is chosen (lines 10-19). */
  datatype SharedContext = SharedContext(
    account: Option<string>,
    region: string,
    codeConnectionArn: Option<string>,
    repositoryName: string,
    branchName: string)

  function ResolveShared(inp: Inputs): (c: SharedContext)
    // the account is passed through untouched, even when undefined
    ensures c.account == inp.cdkDefaultAccount
    ensures c.codeConnectionArn == inp.codeConnectionArn
    // a supplied non-empty value is kept as it is
    ensures Truthy(inp.cdkDefaultRegion) ==> c.region == inp.cdkDefaultRegion.value
    ensures Truthy(inp.repositoryName) ==> c.repositoryName == inp.repositoryName.value
    ensures Truthy(inp.branchName) ==> c.branchName == inp.branchName.value
    // a missing or empty value gets its literal default
    ensures !Truthy(inp.cdkDefaultRegion) ==> c.region == DefaultRegion
    ensures !Truthy(inp.repositoryName) ==> c.repositoryName == DefaultRepositoryName
    ensures !Truthy(inp.branchName) ==> c.branchName == DefaultBranchName
    // so the pipeline's source coordinates are never empty
    ensures c.region != "" && c.repositoryName != "" && c.branchName != ""
  {
    SharedContext(
      inp.cdkDefaultAccount,
      Or(inp.cdkDefaultRegion, DefaultRegion),
      inp.codeConnectionArn,
      Or(inp.repositoryName, DefaultRepositoryName),
      Or(inp.branchName, DefaultBranchName))
  }

  /** A resolved environment name, and whether `whoami` had to be spawned. */
  datatype EnvironmentName = EnvironmentName(name: string, ranWhoami: bool)

  /** True of the names `getDefaultEnvironment` can produce. */
  predicate IsPreviewName(name: string) {
    |PreviewPrefix| <= |name| && name[..|PreviewPrefix|] == PreviewPrefix
  }

  /** `getDefaultEnvironment` (lines 23-31): `USER`, else the output of
      `whoami`, prefixed with "preview-"; "preview-local" if `whoami` throws. */
  function DefaultEnvironment(user: Option<string>, whoami: WhoamiResult): (r: EnvironmentName)
    // `whoami` is spawned exactly when USER is undefined or empty
    ensures r.ranWhoami <==> !Truthy(user)
    ensures IsPreviewName(r.name)
    ensures Truthy(user) ==> r.name == PreviewPrefix + user.value
    ensures !Truthy(user) && whoami.Output? ==> r.name == PreviewPrefix + whoami.s
    ensures !Truthy(user) && whoami.Failed? ==> r.name == LocalPreview
  {
    if Truthy(user) then
      EnvironmentName(PreviewPrefix + user.value, false)
    else
      match whoami
      case Output(s) => EnvironmentName(PreviewPrefix + s, true)
      case Failed => EnvironmentName(LocalPreview, true)
  }

  /** `tryGetContext('environment') || getDefaultEnvironment()` (lines 33-34):
      the right operand, and with it `whoami`, is evaluated only when needed. */
  function ResolveEnvironment(explicit: Option<string>, user: Option<string>, whoami: WhoamiResult): (r: EnvironmentName)
    ensures Truthy(explicit) ==> r.name == explicit.value
    ensures !Truthy(explicit) ==> IsPreviewName(r.name)
    ensures r.ranWhoami <==> !Truthy(explicit) && !Truthy(user)
    ensures r.name != ""
  {
    if Truthy(explicit) then EnvironmentName(explicit.value, false)
    else DefaultEnvironment(user, whoami)
  }

  /** The first-success chain of the environment name, case by case. */
  lemma EnvironmentChain(explicit: Option<string>, user: Option<string>, whoami: WhoamiResult)
    ensures Truthy(explicit) ==> ResolveEnvironment(explicit, user, whoami).name == explicit.value
    ensures !Truthy(explicit) && Truthy(user) ==>
      ResolveEnvironment(explicit, user, whoami).name == "preview-" + user.value
    ensures !Truthy(explicit) && !Truthy(user) && whoami.Output? ==>
      ResolveEnvironment(explicit, user, whoami).name == "preview-" + whoami.s
    ensures !Truthy(explicit) && !Truthy(user) && whoami == Output("") ==>
      ResolveEnvironment(explicit, user, whoami).name == "preview-"
    ensures !Truthy(explicit) && !Truthy(user) && whoami.Failed? ==>
      ResolveEnvironment(explicit, user, whoami).name == "preview-local"
  {
  }

  /** When the chain stops before `whoami`, what `whoami` would have said
      cannot matter. */
  lemma WhoamiIrrelevantWhenNotRun(explicit: Option<string>, user: Option<string>, w1: WhoamiResult, w2: WhoamiResult)
    requires !ResolveEnvironment(explicit, user, w1).ranWhoami
    ensures ResolveEnvironment(explicit, user, w1) == ResolveEnvironment(explicit, user, w2)
  {
  }

  /** The parameters resolved only on the standalone branch (lines 33-35). */
  datatype StandaloneContext = StandaloneContext(environment: string, buildOutputPath: string, ranWhoami: bool)

  function ResolveStandalone(inp: Inputs, whoami: WhoamiResult): (s: StandaloneContext)
    ensures s.environment != "" && s.buildOutputPath != ""
    ensures Truthy(inp.environment) ==> s.environment == inp.environment.value
    // otherwise it is what `getDefaultEnvironment()` returns
    ensures !Truthy(inp.environment) ==> s.environment == DefaultEnvironment(inp.user, whoami).name
    ensures Truthy(inp.buildPath) ==> s.buildOutputPath == inp.buildPath.value
    ensures !Truthy(inp.buildPath) ==> s.buildOutputPath == DefaultBuildOutputPath
    ensures s.ranWhoami <==> !Truthy(inp.environment) && !Truthy(inp.user)
  {
    var env := ResolveEnvironment(inp.environment, inp.user, whoami);
    StandaloneContext(env.name, Or(inp.buildPath, DefaultBuildOutputPath), env.ranWhoami)
  }
}
