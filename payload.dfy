/** The plan skeleton as JSON: what the generation endpoint returns and what
    the creation endpoint accepts as its request body. Every property may be
    missing, so every field is optional. */
module Payload {
  import opened Common

  datatype ResourceJson = ResourceJson(
    title: Option<string>,
    description: Option<string>,
    kind: Option<string>,          // the JSON property `type`
    url: Option<string>,
    completed: Option<bool>)

  datatype SubtopicJson = SubtopicJson(
    title: Option<string>,
    description: Option<string>,
    estimatedTime: Option<string>,
    resources: Option<seq<ResourceJson>>)

  datatype PlanJson = PlanJson(
    title: Option<string>,
    description: Option<string>,
    topic: Option<string>,
    difficulty: Option<string>,
    timeCommitment: Option<string>,
    estimatedDuration: Option<string>,
    subtopics: Option<seq<SubtopicJson>>,
    userId: Option<UserId>)

  /** Every subtopic carries a `resources` array, so that code reading
      `subtopic.resources` and its length does not throw. */
  predicate HasResourceArrays(subs: seq<SubtopicJson>)
  {
    forall i :: 0 <= i < |subs| ==> subs[i].resources.Some?
  }

  /** Total number of resources over a sequence of subtopics whose
      `resources` arrays are all present. */
  function ResourceTotal(subs: seq<SubtopicJson>): nat
    requires HasResourceArrays(subs)
  {
    if subs == [] then 0
    else ResourceTotal(subs[..|subs| - 1]) + |subs[|subs| - 1].resources.value|
  }

  /** Number of resources submitted with `completed: true`. */
  function CompletedCount(res: seq<ResourceJson>): nat
  {
    if res == [] then 0
    else (if res[0].completed == Some(true) then 1 else 0) + CompletedCount(res[1..])
  }

  /** CompletedCount summed over subtopics whose `resources` arrays are all
      present. */
  function CompletedTotal(subs: seq<SubtopicJson>): nat
    requires HasResourceArrays(subs)
  {
    if subs == [] then 0
    else CompletedTotal(subs[..|subs| - 1]) + CompletedCount(subs[|subs| - 1].resources.value)
  }

  /** The output shape requested from the completion service's
      `json_schema`: the five required string properties, a `subtopics`
      array whose items have the four required properties, resources with
      the five required properties and `type` one of the three kinds, and
      (additionalProperties false) nothing else: in particular no `topic`
      and no `userId`. */
  predicate ConformsToSchema(p: PlanJson)
  {
    && p.title.Some? && p.description.Some? && p.difficulty.Some?
    && p.timeCommitment.Some? && p.estimatedDuration.Some?
    && p.topic.None? && p.userId.None?
    && p.subtopics.Some?
    && forall i :: 0 <= i < |p.subtopics.value| ==> SubtopicConforms(p.subtopics.value[i])
  }

  predicate SubtopicConforms(s: SubtopicJson)
  {
    && s.title.Some? && s.description.Some? && s.estimatedTime.Some? && s.resources.Some?
    && forall j :: 0 <= j < |s.resources.value| ==> ResourceConforms(s.resources.value[j])
  }

  predicate ResourceConforms(r: ResourceJson)
  {
    && r.title.Some? && r.description.Some? && r.url.Some? && r.completed.Some?
    && r.kind.Some? && r.kind.value in {"video", "article", "quiz"}
  }
}
