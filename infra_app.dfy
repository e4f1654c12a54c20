/** The deployment script itself (infra/bin/infra.ts), run against a CDK
    app whose children and tags it changes step by step. */
module InfraApp {
  import opened JsValues
  import opened Context
  import opened Stacks
  import opened Tagging
  import opened Topology

  /** The root `cdk.App`: the stacks registered on it and its tag map. The
      ghost `tagLog` records every tag call made on it, in order. */
  class App {
    var stacks: seq<Stack>
    var tags: map<string, string>
    ghost var tagLog: seq<Tag>

    /** The tag map is what the logged calls build from an empty map. */
    ghost predicate Valid()
      reads this
    {
      tags == ApplyTags(map[], tagLog)
    }

    constructor ()
      ensures Valid()
      ensures stacks == [] && tags == map[] && tagLog == []
    {
      stacks := [];
      tags := map[];
      tagLog := [];
    }

    /** `new FrontendStack(app, ...)` / `new PipelineStack(app, ...)`: the
        stack becomes a child of the app. */
    method AddStack(stack: Stack)
      requires Valid()
      modifies this
      ensures Valid()
      ensures stacks == old(stacks) + [stack]
      ensures tags == old(tags) && tagLog == old(tagLog)
    {
      stacks := stacks + [stack];
    }

    /** `cdk.Tags.of(app).add(key, value)`. */
    method AddTag(key: string, value: string)
      requires Valid()
      modifies this
      ensures Valid()
      ensures tags == old(tags)[key := value]
      ensures tagLog == old(tagLog) + [Tag(key, value)]
      ensures stacks == old(stacks)
    {
      ApplyTagsAppend(map[], tagLog, Tag(key, value));
      tags := tags[key := value];
      tagLog := tagLog + [Tag(key, value)];
    }
  }

  /** The standalone branch (lines 22-46): build the frontend stack and tag
      the app with its environment. */
  method DeployStandalone(app: App, c: SharedContext, inp: Inputs, whoami: WhoamiResult)
    returns (ranWhoami: bool)
    requires app.Valid()
    modifies app
    ensures app.Valid()
    ensures app.stacks == old(app.stacks) + [BuildFrontend(c, ResolveStandalone(inp, whoami))]
    ensures app.tagLog == old(app.tagLog) + [Tag(EnvironmentKey, ResolveStandalone(inp, whoami).environment)]
    ensures ranWhoami == ResolveStandalone(inp, whoami).ranWhoami
  {
    var s := ResolveStandalone(inp, whoami);
    ranWhoami := s.ranWhoami;
    app.AddStack(BuildFrontend(c, s));
    app.AddTag(EnvironmentKey, s.environment);
  }

  /** The pipeline branch (lines 49-58): build the pipeline stack. */
  method DeployPipeline(app: App, c: SharedContext)
    requires app.Valid() && Truthy(c.codeConnectionArn)
    modifies app
    ensures app.Valid()
    ensures app.stacks == old(app.stacks) + [BuildPipeline(c)]
    ensures app.tagLog == old(app.tagLog)
  {
    app.AddStack(BuildPipeline(c));
  }

  /** The two tags every run puts on the app (lines 60-61). */
  method TagProject(app: App)
    requires app.Valid()
    modifies app
    ensures app.Valid()
    ensures app.stacks == old(app.stacks)
    ensures app.tagLog == old(app.tagLog) + [ProjectTag, ManagedByTag]
  {
    app.AddTag(ProjectTag.key, ProjectTag.value);
    app.AddTag(ManagedByTag.key, ManagedByTag.value);
  }

  /** One run of the script: two independent `if`s on the code-connection
      ARN, then the two fixed tags. Exactly one stack is registered, and
      the app ends up as `Resolve` describes. */
  method Synthesize(inp: Inputs, whoami: WhoamiResult) returns (app: App, ranWhoami: bool)
    ensures fresh(app) && app.Valid()
    ensures |app.stacks| == 1
    ensures app.stacks[0] == Resolve(inp, whoami).stack
    ensures app.tags == Resolve(inp, whoami).tags
    // each tag call is made once, in the order the script makes them
    ensures app.tagLog == TagCalls(Resolve(inp, whoami).stack)
    ensures ranWhoami == Resolve(inp, whoami).ranWhoami
  {
    ghost var r := Resolve(inp, whoami);
    app := new App();
    ranWhoami := false;
    var c := ResolveShared(inp);
    if !Truthy(c.codeConnectionArn) {
      ranWhoami := DeployStandalone(app, c, inp, whoami);
      assert r.stack == BuildFrontend(c, ResolveStandalone(inp, whoami));
      assert app.tagLog == EnvironmentTagCalls(r.stack);
    }
    if Truthy(c.codeConnectionArn) {
      DeployPipeline(app, c);
      assert r.stack == BuildPipeline(c);
      assert app.tagLog == EnvironmentTagCalls(r.stack);
    }
    TagProject(app);
    assert app.tagLog == TagCalls(r.stack);
    assert app.tags == FinalTags(r.stack) by {
      assert app.tags == ApplyTags(map[], TagCalls(r.stack));
    }
  }
}
