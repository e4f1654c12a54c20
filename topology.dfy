/** The choice between the two topologies and everything one run produces
    (infra/bin/infra.ts, lines 10-61), as a value. */
module Topology {
  import opened JsValues
  import opened Context
  import opened Stacks
  import opened Tagging

  /** One run's outcome: the single stack registered on the app, the app's
      final tags, and whether `whoami` was spawned along the way. */
  datatype Synthesis = Synthesis(stack: Stack, tags: map<string, string>, ranWhoami: bool)

  function Resolve(inp: Inputs, whoami: WhoamiResult): (r: Synthesis)
    // a truthy code-connection ARN selects the pipeline, anything else the standalone stack
    ensures r.stack.PipelineStack? <==> Truthy(inp.codeConnectionArn)
    ensures r.stack.FrontendStack? <==> !Truthy(inp.codeConnectionArn)
    // the pipeline is always protected; a standalone stack only in "prod"
    ensures r.stack.TerminationProtected() <==>
      r.stack.PipelineStack? || r.stack.frontend.environment == ProductionEnvironment
    // `whoami` runs only when neither the ARN, the context environment nor USER is truthy
    ensures r.ranWhoami <==>
      !Truthy(inp.codeConnectionArn) && !Truthy(inp.environment) && !Truthy(inp.user)
    ensures r.stack.Env() == StackEnv(inp.cdkDefaultAccount, Or(inp.cdkDefaultRegion, DefaultRegion))
    ensures r.tags == FinalTags(r.stack)
  {
    var c := ResolveShared(inp);
    if !Truthy(c.codeConnectionArn) then
      var s := ResolveStandalone(inp, whoami);
      var stack := BuildFrontend(c, s);
      Synthesis(stack, FinalTags(stack), s.ranWhoami)
    else
      var stack := BuildPipeline(c);
      Synthesis(stack, FinalTags(stack), false)
  }

  /** The pipeline stack's id, description and source coordinates. */
  lemma PipelineTopology(inp: Inputs, whoami: WhoamiResult)
    requires Truthy(inp.codeConnectionArn)
    ensures var st := Resolve(inp, whoami).stack;
      && st.id == "NextLandingPipelineStack"
      && st.pipeline.description == "CI/CD Pipeline for NextLanding"
      && st.pipeline.codeConnectionArn == inp.codeConnectionArn.value
      && st.pipeline.repositoryName == Or(inp.repositoryName, DefaultRepositoryName)
      && st.pipeline.branchName == Or(inp.branchName, DefaultBranchName)
      && st.pipeline.repositoryName != "" && st.pipeline.branchName != ""
      && st.TerminationProtected()
  {
  }

  /** The standalone stack's id, description and the fields it carries. */
  lemma StandaloneTopology(inp: Inputs, whoami: WhoamiResult)
    requires !Truthy(inp.codeConnectionArn)
    ensures var st := Resolve(inp, whoami).stack;
      var environment := ResolveEnvironment(inp.environment, inp.user, whoami).name;
      && st.id == "NextLandingFrontend-" + environment
      && st.frontend.description == "Static website hosting - " + environment
      && st.frontend.environment == environment
      && st.frontend.buildOutputPath == Or(inp.buildPath, DefaultBuildOutputPath)
      && (st.TerminationProtected() <==> environment == "prod")
  {
  }

  /** The pipeline stack is the same whatever the standalone-only inputs
      (environment, build path, USER, `whoami`) are. */
  lemma PipelineIgnoresPreviewInputs(inp: Inputs, w1: WhoamiResult, environment: Option<string>,
                                     buildPath: Option<string>, user: Option<string>, w2: WhoamiResult)
    requires Truthy(inp.codeConnectionArn)
    ensures Resolve(inp, w1)
         == Resolve(inp.(environment := environment, buildPath := buildPath, user := user), w2)
  {
  }

  /** Whether the ARN is set or not, the stack targets the same account and region. */
  lemma SameTargetForBothTopologies(inp: Inputs, w: WhoamiResult, arn: Option<string>)
    ensures Resolve(inp, w).stack.Env() == Resolve(inp.(codeConnectionArn := arn), w).stack.Env()
  {
  }

  /** When `whoami` is not spawned, what it would have printed cannot matter. */
  lemma WhoamiOnlyWhenNeeded(inp: Inputs, w1: WhoamiResult, w2: WhoamiResult)
    requires !Resolve(inp, w1).ranWhoami
    ensures Resolve(inp, w1) == Resolve(inp, w2)
  {
    if !Truthy(inp.codeConnectionArn) {
      WhoamiIrrelevantWhenNotRun(inp.environment, inp.user, w1, w2);
    }
  }
}
