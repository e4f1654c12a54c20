/** Tags on the root app (infra/bin/infra.ts, lines 45 and 60-61). Each
    `cdk.Tags.of(app).add(key, value)` sets one key of the root's tag map;
    propagation of tags to child constructs is not modelled. */
module Tagging {
  import opened Stacks

  datatype Tag = Tag(key: string, value: string)

  const EnvironmentKey := "Environment"
  const ProjectTag := Tag("Project", "NextLanding")
  const ManagedByTag := Tag("ManagedBy", "CDK")

  /** No call after the `i`-th sets the same key. */
  predicate IsLastCallFor(calls: seq<Tag>, i: nat)
    requires i < |calls|
  {
    forall j :: i < j < |calls| ==> calls[j].key != calls[i].key
  }

  /** The keys a sequence of tag calls sets. */
  function KeysOf(calls: seq<Tag>): set<string> {
    set t | t in calls :: t.key
  }

  /** The effect of issuing the tag calls in order on a tag map. */
  function ApplyTags(m: map<string, string>, calls: seq<Tag>): (r: map<string, string>)
    // every key a call mentions is set, and no other key is added
    ensures r.Keys == m.Keys + KeysOf(calls)
    decreases |calls|
  {
    if calls == [] then m
    else
      var t, rest := calls[0], calls[1..];
      assert KeysOf(calls) == {t.key} + KeysOf(rest) by {
        assert calls == [t] + rest;
      }
      ApplyTags(m[t.key := t.value], rest)
  }

  /** A key that no call mentions keeps its old value. */
  lemma {:induction false} ApplyTagsKeepsOthers(m: map<string, string>, calls: seq<Tag>, k: string)
    requires k in m && k !in KeysOf(calls)
    ensures ApplyTags(m, calls)[k] == m[k]
    decreases |calls|
  {
    if calls != [] {
      var t, rest := calls[0], calls[1..];
      assert t in calls;
      forall u | u in rest ensures u.key != k {
        assert u in calls;
      }
      ApplyTagsKeepsOthers(m[t.key := t.value], rest, k);
    }
  }

  /** The last call for a key decides its value. */
  lemma {:induction false} ApplyTagsLastCallWins(m: map<string, string>, calls: seq<Tag>, i: nat)
    requires i < |calls| && IsLastCallFor(calls, i)
    ensures ApplyTags(m, calls)[calls[i].key] == calls[i].value
    decreases |calls|
  {
    var t, rest := calls[0], calls[1..];
    if i == 0 {
      forall j | 0 <= j < |rest| ensures rest[j].key != t.key {
        assert rest[j] == calls[j + 1];
      }
      ApplyTagsKeepsOthers(m[t.key := t.value], rest, t.key);
    } else {
      assert IsLastCallFor(rest, i - 1) by {
        forall j | i - 1 < j < |rest| ensures rest[j].key != rest[i - 1].key {
          assert rest[j] == calls[j + 1];
        }
      }
      ApplyTagsLastCallWins(m[t.key := t.value], rest, i - 1);
    }
  }

  /** Issuing one more call updates that one key of what the earlier calls built. */
  lemma {:induction false} ApplyTagsAppend(m: map<string, string>, calls: seq<Tag>, t: Tag)
    ensures ApplyTags(m, calls + [t]) == ApplyTags(m, calls)[t.key := t.value]
    decreases |calls|
  {
    if calls != [] {
      assert (calls + [t])[1..] == calls[1..] + [t];
      ApplyTagsAppend(m[calls[0].key := calls[0].value], calls[1..], t);
    }
  }

  /** Applying tag calls is overlaying one fixed map on what was there. */
  lemma {:induction false} ApplyTagsIsOverlay(m: map<string, string>, calls: seq<Tag>)
    ensures ApplyTags(m, calls) == m + ApplyTags(map[], calls)
    decreases |calls|
  {
    if calls != [] {
      var t, rest := calls[0], calls[1..];
      var x := ApplyTags(map[], rest);
      assert ApplyTags(m, calls) == ApplyTags(m[t.key := t.value], rest);
      assert ApplyTags(map[], calls) == ApplyTags(map[t.key := t.value], rest);
      ApplyTagsIsOverlay(m[t.key := t.value], rest);
      ApplyTagsIsOverlay(map[t.key := t.value], rest);
      MapUpdateOverlay(m, t.key, t.value, x);
    }
  }

  lemma MapUpdateOverlay(m: map<string, string>, k: string, v: string, x: map<string, string>)
    ensures m[k := v] + x == m + (map[k := v] + x)
  {
  }

  /** Issuing the same tag calls a second time changes nothing. */
  lemma ApplyTagsIdempotent(m: map<string, string>, calls: seq<Tag>)
    ensures ApplyTags(ApplyTags(m, calls), calls) == ApplyTags(m, calls)
  {
    ApplyTagsIsOverlay(m, calls);
    ApplyTagsIsOverlay(ApplyTags(m, calls), calls);
  }

  /** The tag calls the script makes, in order, once `stack` is built: the
      environment tag on the standalone branch only, then the two fixed tags. */
  function TagCalls(stack: Stack): (calls: seq<Tag>)
    // three calls on the standalone branch, two on the pipeline branch
    ensures |calls| == if stack.FrontendStack? then 3 else 2
    // the two fixed tags are issued exactly once each, whatever the topology
    ensures multiset(calls)[ProjectTag] == 1 && multiset(calls)[ManagedByTag] == 1
    // the environment tag, carrying the stack's environment, only for the standalone stack
    ensures stack.FrontendStack? ==> Tag(EnvironmentKey, stack.frontend.environment) in calls
    ensures (exists t :: t in calls && t.key == EnvironmentKey) <==> stack.FrontendStack?
  {
    var calls := EnvironmentTagCalls(stack) + [ProjectTag, ManagedByTag];
    assert stack.FrontendStack? ==> calls == [Tag(EnvironmentKey, stack.frontend.environment), ProjectTag, ManagedByTag];
    assert stack.PipelineStack? ==> calls == [ProjectTag, ManagedByTag];
    calls
  }

  /** The tag call made on the standalone branch only (line 45). */
  function EnvironmentTagCalls(stack: Stack): seq<Tag> {
    match stack
    case FrontendStack(_, p) => [Tag(EnvironmentKey, p.environment)]
    case PipelineStack(_, _) => []
  }

  /** The root app's final tags. */
  function FinalTags(stack: Stack): (tags: map<string, string>)
    ensures "Project" in tags && tags["Project"] == "NextLanding"
    ensures "ManagedBy" in tags && tags["ManagedBy"] == "CDK"
    ensures "Environment" in tags <==> stack.FrontendStack?
    ensures stack.FrontendStack? ==> tags["Environment"] == stack.frontend.environment
    ensures tags.Keys <= {"Environment", "Project", "ManagedBy"}
  {
    match stack
    case FrontendStack(_, p) =>
      StandaloneTagCalls(p.environment);
      assert TagCalls(stack) == [Tag(EnvironmentKey, p.environment), ProjectTag, ManagedByTag];
      ApplyTags(map[], TagCalls(stack))
    case PipelineStack(_, _) =>
      PipelineTagCalls();
      assert TagCalls(stack) == [ProjectTag, ManagedByTag];
      ApplyTags(map[], TagCalls(stack))
  }

  /** The standalone run's three tag calls build exactly three tags. */
  lemma StandaloneTagCalls(environment: string)
    ensures ApplyTags(map[], [Tag(EnvironmentKey, environment), ProjectTag, ManagedByTag])
         == map[EnvironmentKey := environment, "Project" := "NextLanding", "ManagedBy" := "CDK"]
  {
    var calls := [Tag(EnvironmentKey, environment), ProjectTag, ManagedByTag];
    assert KeysOf(calls) == {EnvironmentKey, "Project", "ManagedBy"};
    ApplyTagsLastCallWins(map[], calls, 0);
    ApplyTagsLastCallWins(map[], calls, 1);
    ApplyTagsLastCallWins(map[], calls, 2);
  }

  /** The pipeline run's two tag calls build exactly two tags. */
  lemma PipelineTagCalls()
    ensures ApplyTags(map[], [ProjectTag, ManagedByTag]) == map["Project" := "NextLanding", "ManagedBy" := "CDK"]
  {
    var calls := [ProjectTag, ManagedByTag];
    assert KeysOf(calls) == {"Project", "ManagedBy"};
    ApplyTagsLastCallWins(map[], calls, 0);
    ApplyTagsLastCallWins(map[], calls, 1);
  }

  /** Tagging twice with the same stack gives the same tags as tagging once. */
  lemma TaggingTwiceIsTaggingOnce(stack: Stack)
    ensures ApplyTags(FinalTags(stack), TagCalls(stack)) == FinalTags(stack)
  {
    ApplyTagsIdempotent(map[], TagCalls(stack));
  }
}
