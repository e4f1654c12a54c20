/** The parameter records handed to the two stack constructors
    (infra/bin/infra.ts, lines 37-43 and 50-57). The stacks themselves
    consume these records and are not part of this model. */
module Stacks {
  import opened JsValues
  import opened Context

  /** The `env: { account, region }` field of both records. */
  datatype StackEnv = StackEnv(account: Option<string>, region: string)

  datatype FrontendProps = FrontendProps(
    env: StackEnv,
    environment: string,
    buildOutputPath: string,
    description: string,
    terminationProtection: bool)

  datatype PipelineProps = PipelineProps(
    env: StackEnv,
    description: string,
    codeConnectionArn: string,
    repositoryName: string,
    branchName: string,
    terminationProtection: bool)

  /** One stack registered on the app: its construct id and its props. */
  datatype Stack =
    | FrontendStack(id: string, frontend: FrontendProps)
    | PipelineStack(id: string, pipeline: PipelineProps)
  {
    function Env(): StackEnv {
      match this
      case FrontendStack(_, p) => p.env
      case PipelineStack(_, p) => p.env
    }

    predicate TerminationProtected() {
      match this
      case FrontendStack(_, p) => p.terminationProtection
      case PipelineStack(_, p) => p.terminationProtection
    }
  }

  const FrontendIdPrefix := "NextLandingFrontend-"
  const FrontendDescriptionPrefix := "Static website hosting - "
  const PipelineStackId := "NextLandingPipelineStack"
  const PipelineDescription := "CI/CD Pipeline for NextLanding"
  const ProductionEnvironment := "prod"

  function FrontendStackId(environment: string): (id: string)
    ensures |id| == |FrontendIdPrefix| + |environment|
    ensures id[..|FrontendIdPrefix|] == FrontendIdPrefix && id[|FrontendIdPrefix|..] == environment
  {
    FrontendIdPrefix + environment
  }

  /** Distinct environments get distinct standalone stacks. */
  lemma FrontendStackIdInjective(e1: string, e2: string)
    requires FrontendStackId(e1) == FrontendStackId(e2)
    ensures e1 == e2
  {
  }

  /** No standalone stack can take the pipeline stack's id, whatever the
      environment is called. */
  lemma FrontendIdIsNeverPipelineId(environment: string)
    ensures FrontendStackId(environment) != PipelineStackId
  {
    var id := FrontendStackId(environment);
    assert id[11] == FrontendIdPrefix[11] == 'F';
    assert PipelineStackId[11] == 'P';
  }

  /** `new FrontendStack(app, ...)` (lines 37-43). */
  function BuildFrontend(c: SharedContext, s: StandaloneContext): (st: Stack)
    ensures st.FrontendStack?
    ensures st.id == FrontendStackId(s.environment)
    ensures st.Env() == StackEnv(c.account, c.region)
    ensures st.frontend.environment == s.environment
    ensures st.frontend.buildOutputPath == s.buildOutputPath
    ensures st.frontend.description == FrontendDescriptionPrefix + s.environment
    // only the production environment is protected against deletion
    ensures st.TerminationProtected() <==> s.environment == ProductionEnvironment
  {
    FrontendStack(
      FrontendStackId(s.environment),
      FrontendProps(
        StackEnv(c.account, c.region),
        s.environment,
        s.buildOutputPath,
        FrontendDescriptionPrefix + s.environment,
        s.environment == ProductionEnvironment))
  }

  /** `new PipelineStack(app, ...)` (lines 50-57); the script reaches it only
      with a truthy code-connection ARN. */
  function BuildPipeline(c: SharedContext): (st: Stack)
    requires Truthy(c.codeConnectionArn)
    ensures st.PipelineStack?
    ensures st.id == PipelineStackId && st.pipeline.description == PipelineDescription
    ensures st.Env() == StackEnv(c.account, c.region)
    ensures st.pipeline.codeConnectionArn == c.codeConnectionArn.value != ""
    ensures st.pipeline.repositoryName == c.repositoryName
    ensures st.pipeline.branchName == c.branchName
    ensures st.TerminationProtected()
  {
    PipelineStack(
      PipelineStackId,
      PipelineProps(
        StackEnv(c.account, c.region),
        PipelineDescription,
        c.codeConnectionArn.value,
        c.repositoryName,
        c.branchName,
        true))
  }
}
