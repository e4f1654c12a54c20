# NextLanding deployment resolver, modelled in Dafny

The CDK entry script `infra/bin/infra.ts` of the Next.js landing-page template
decides, once per run, which of two infrastructure topologies to deploy:

- a standalone **FrontendStack** that hosts a preview of the static site;
- a **PipelineStack**, a CI/CD pipeline that provisions the hosting itself.

A truthy `codeConnectionArn` context value selects the pipeline. Every other
parameter comes from a fallback chain over the process environment
(`CDK_DEFAULT_ACCOUNT`, `CDK_DEFAULT_REGION`, `USER`), CDK context values and,
as a last resort, the output of `whoami`. The script then tags the root app.

The model has six modules:

- `JsValues` (`js_values.dfy`): optional strings, JavaScript truthiness, and
  the `||` fallback operator.
- `Context` (`context.dfy`): resolution of account, region, repository,
  branch, environment name and build path. The `whoami` call is an input
  (`WhoamiResult`). Each environment resolution records whether `whoami`
  would have been spawned.
- `Stacks` (`stacks.dfy`): the props records passed to the two stack
  constructors, with the construct id, description and termination
  protection of each.
- `Tagging` (`tagging.dfy`): the ordered `Tags.of(app).add` calls and their
  effect on the root's tag map.
- `Topology` (`topology.dfy`): `Resolve`, the whole run as a value, with
  lemmas that relate runs on different inputs.
- `InfraApp` (`infra_app.dfy`): the script as written. It is a method
  against a `cdk.App` object whose `stacks` and `tags` it changes step by
  step. A ghost log records the app's tag calls in order. The app's
  invariant ties its tag map to that log. `Synthesize`'s postcondition
  ties the final app and its log to `Resolve`.

Two behaviours of `infra.ts` are easy to miss:

- With `USER` unset and empty `whoami` output, the environment name is
  `"preview-"`, not `"preview-local"`. The `||` is applied to `USER` and
  the trimmed `whoami` output, and nothing checks the result for emptiness.
  `Context.EnvironmentChain` states this case explicitly.
- An empty string falls back exactly like an absent value wherever the
  script reads through `||`: region, repository, branch, context
  environment, `buildPath` and `USER`. The same holds for the
  code-connection ARN test. No input raises an error. The account
  (`CDK_DEFAULT_ACCOUNT`) is read without `||`, so an empty account is
  passed on as `""`, distinct from undefined.

## Model

| member | source | states |
|---|---|---|
| `JsValues.Or` | infra/bin/infra.ts:11 | `x \|\| default` keeps a defined non-empty value unchanged and yields the default for undefined or "" |
| `Context.ResolveShared` | infra/bin/infra.ts:10-19 | account and ARN pass through untouched; region, repository and branch keep a supplied non-empty value, else take their literal defaults ("us-east-1", the template repository, the generated branch); all three are non-empty |
| `Context.DefaultEnvironment` | infra/bin/infra.ts:23-31 | `whoami` runs iff USER is falsy; the result is "preview-" + USER, else "preview-" + the trimmed `whoami` output, else "preview-local" when `whoami` throws; always starts with "preview-" |
| `Context.ResolveEnvironment` | infra/bin/infra.ts:33-34 | a non-empty context environment is returned unchanged, otherwise a preview name; `whoami` runs iff neither the context environment nor USER is truthy; the name is never empty |
| `Context.EnvironmentChain` | infra/bin/infra.ts:23-34 | the four-step first-success chain, including the literal "preview-" for empty `whoami` output |
| `Context.WhoamiIrrelevantWhenNotRun` | infra/bin/infra.ts:26 | when the chain stops before `whoami`, the environment name does not depend on what `whoami` would return |
| `Context.ResolveStandalone` | infra/bin/infra.ts:33-35 | environment and build path are non-empty; a non-empty context environment is kept, otherwise it is `getDefaultEnvironment()`'s result; a non-empty `buildPath` is kept, otherwise "../out"; `whoami` runs iff context environment and USER are both falsy |
| `Stacks.FrontendStackId` | infra/bin/infra.ts:37 | the standalone stack id is the prefix "NextLandingFrontend-" followed by the environment name |
| `Stacks.FrontendStackIdInjective` | infra/bin/infra.ts:37 | distinct environment names give distinct standalone stack ids |
| `Stacks.FrontendIdIsNeverPipelineId` | infra/bin/infra.ts:37-50 | no environment name makes a standalone stack id equal to "NextLandingPipelineStack" |
| `Stacks.BuildFrontend` | infra/bin/infra.ts:37-43 | frontend props carry env {account, region}, the environment and build path unchanged, description "Static website hosting - " + environment, termination protection iff environment == "prod" |
| `Stacks.BuildPipeline` | infra/bin/infra.ts:50-57 | pipeline props have the fixed id and description, env {account, region}, the non-empty ARN, repository and branch unchanged, termination protection true |
| `Tagging.ApplyTags` | infra/bin/infra.ts:60-61 | issuing tag calls adds exactly the keys they name and no other key |
| `Tagging.ApplyTagsKeepsOthers` | infra/bin/infra.ts:60-61 | a key that no call names keeps its previous value |
| `Tagging.ApplyTagsLastCallWins` | infra/bin/infra.ts:60-61 | for every call that is the last one naming its key, that key ends with that call's value |
| `Tagging.ApplyTagsAppend` | infra/bin/infra.ts:60-61 | one more tag call updates exactly its key of the map the earlier calls built |
| `Tagging.ApplyTagsIsOverlay` | infra/bin/infra.ts:45-61 | applying tag calls to a map equals overlaying the map those calls build from nothing |
| `Tagging.ApplyTagsIdempotent` | infra/bin/infra.ts:60-61 | issuing the same tag calls twice gives the same map as issuing them once |
| `Tagging.TagCalls` | infra/bin/infra.ts:45-61 | three calls on the standalone branch, two on the pipeline branch; Project and ManagedBy are each issued exactly once; the Environment call carries the stack's environment and is issued iff the standalone stack was built |
| `Tagging.FinalTags` | infra/bin/infra.ts:45-61 | final tags hold Project = "NextLanding" and ManagedBy = "CDK"; Environment is present iff the stack is standalone, with the stack's environment as value; no other key |
| `Tagging.StandaloneTagCalls` | infra/bin/infra.ts:45-61 | the standalone run's three tag calls build exactly {Environment: environment, Project: NextLanding, ManagedBy: CDK} |
| `Tagging.PipelineTagCalls` | infra/bin/infra.ts:60-61 | the pipeline run's two tag calls build exactly {Project: NextLanding, ManagedBy: CDK} |
| `Tagging.TaggingTwiceIsTaggingOnce` | infra/bin/infra.ts:45-61 | re-applying a run's tag calls to its final tags changes nothing |
| `Topology.Resolve` | infra/bin/infra.ts:22-61 | exactly one stack: pipeline iff the ARN is truthy, frontend iff not; pipeline always termination-protected, frontend iff "prod"; `whoami` runs iff ARN, context environment and USER are all falsy; env is {account, region-or-"us-east-1"}; tags are the run's final tags |
| `Topology.PipelineTopology` | infra/bin/infra.ts:49-57 | with a truthy ARN the stack is "NextLandingPipelineStack" / "CI/CD Pipeline for NextLanding", carries the ARN and the defaulted, non-empty repository and branch, and is protected |
| `Topology.StandaloneTopology` | infra/bin/infra.ts:22-43 | without a truthy ARN the stack id and description are built from the resolved environment, which it carries with the defaulted build path; protected iff "prod" |
| `Topology.PipelineIgnoresPreviewInputs` | infra/bin/infra.ts:49-58 | the pipeline run does not depend on the context environment, `buildPath`, USER or `whoami` |
| `Topology.SameTargetForBothTopologies` | infra/bin/infra.ts:38-51 | setting or clearing the ARN does not change the account and region the stack targets |
| `Topology.WhoamiOnlyWhenNeeded` | infra/bin/infra.ts:22-34 | a run that does not spawn `whoami` gives the same result whatever `whoami` would return |
| `InfraApp.App.constructor` | infra/bin/infra.ts:8 | a new app has no stacks, no tags and an empty tag log, and its tag map matches its log |
| `InfraApp.App.AddStack` | infra/bin/infra.ts:37 | registering a stack appends it to the app's children and leaves the tags and the tag log alone |
| `InfraApp.App.AddTag` | infra/bin/infra.ts:60 | a tag call sets that one key, appends the call to the tag log, keeps the map equal to what the log builds, and leaves the children alone |
| `InfraApp.DeployStandalone` | infra/bin/infra.ts:22-46 | the standalone branch appends the frontend stack built from the resolved context and logs one Environment tag call with the resolved environment |
| `InfraApp.DeployPipeline` | infra/bin/infra.ts:49-58 | the pipeline branch appends the pipeline stack and makes no tag call |
| `InfraApp.TagProject` | infra/bin/infra.ts:60-61 | the fixed Project and ManagedBy tag calls are appended to the log in that order and the children are untouched |
| `InfraApp.Synthesize` | infra/bin/infra.ts:8-61 | the script registers exactly one stack, equal to `Resolve`'s; the app's final tags and the `whoami` spawn match `Resolve`; the tag log is exactly the run's tag calls, so each fixed tag is applied once |

## Left out

- `FrontendStack` and `PipelineStack` are not part of this model. Their
  sources are not available. The model produces only the props record
  each of them receives.
- `infra/lib/infra-stack.ts` is left out. It is a placeholder stack that
  forwards to `cdk.Stack` and adds one tag, and nothing in the entry script
  uses it.
- The Playwright end-to-end tests under `tests/e2e/` are left out. They
  measure timings, layout and the DOM of the rendered page, and contain no
  resolution logic.
- Spawning `whoami` and trimming its output are left out. `WhoamiResult`
  carries either a throw or the already-trimmed output. Reading
  `process.env` and CDK context is replaced by the `Inputs` record.
- CDK's propagation of tags from the root app to child constructs, and app
  synthesis, are left out. Tags are modelled only as the root's final map.
- Context values are assumed to be strings. `tryGetContext` can return
  arbitrary JSON, which is not modelled.
- Synthesize: assumes the two stack constructors accept every construct id.
  In CDK a stack name must start with a letter and contain only letters,
  digits and hyphens, so an environment such as "preview-first.last" would
  make the real `FrontendStack` constructor throw. The model still
  registers that stack.
