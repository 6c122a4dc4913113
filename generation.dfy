/** POST /api/generate-study-plan: check the topic, ask the completion
    service for a plan skeleton, reset every resource to not completed and
    attach the caller's id. The service is an input; the skeleton it returns
    is normalised in place by a Draft object. */
module Generation {
  import opened Common
  import opened Payload
  import StudyPlans

  /** The request body `{ topic, difficulty, timeCommitment }`; difficulty
      and time commitment only shape the prompt. */
  datatype GenerateRequest = GenerateRequest(
    topic: Option<string>,
    difficulty: Option<string>,
    timeCommitment: Option<string>)

  /** What the completion service answered: its HTTP ok flag and the
      `choices` array, whose first message carries the skeleton as JSON
      text; `content` is None when that text does not parse. */
  datatype Message = Message(content: Option<PlanJson>)
  datatype Choice = Choice(message: Option<Message>)
  datatype Upstream = Upstream(ok: bool, choices: Option<seq<Choice>>)

  datatype GenerateResponse =
    | Generated(plan: PlanJson)   // 200, the normalised skeleton
    | TopicRequired               // 400
    | GenerationFailed            // 500

  const TopicRequiredMessage: string := "Topic is required"
  const GenerationFailedMessage: string := "Failed to generate study plan. Please try again."

  function Status(r: GenerateResponse): (code: int)
    ensures code == 200 <==> r.Generated?
    ensures code == 400 <==> r.TopicRequired?
    ensures code == 500 <==> r.GenerationFailed?
  {
    match r
    case Generated(_) => 200
    case TopicRequired => 400
    case GenerationFailed => 500
  }

  /** The `error` property of a failed response. */
  function ErrorMessage(r: GenerateResponse): string
    requires !r.Generated?
  {
    if r.TopicRequired? then TopicRequiredMessage else GenerationFailedMessage
  }

  /** `data.choices && data.choices[0] && data.choices[0].message`: the
      message of the first choice, when there is one. */
  function FirstMessage(u: Upstream): (m: Option<Message>)
    ensures m.Some? <==>
      u.choices.Some? && |u.choices.value| > 0 && u.choices.value[0].message.Some?
    ensures m.Some? ==> m == u.choices.value[0].message
  {
    if u.choices.Some? && |u.choices.value| > 0 then u.choices.value[0].message else None
  }

  // ------------------------------------------------------- normalisation

  function ResetResource(r: ResourceJson): ResourceJson
  {
    r.(completed := Some(false))
  }

  function ResetSubtopic(s: SubtopicJson): SubtopicJson
  {
    if s.resources.None? then s
    else
      var rs := s.resources.value;
      s.(resources := Some(seq(|rs|, j requires 0 <= j < |rs| => ResetResource(rs[j]))))
  }

  /** The first n subtopics reset, the others as they were. */
  function ResetFirst(subs: seq<SubtopicJson>, n: nat): (r: seq<SubtopicJson>)
    requires n <= |subs|
    ensures |r| == |subs|
  {
    seq(|subs|, k requires 0 <= k < |subs| => if k < n then ResetSubtopic(subs[k]) else subs[k])
  }

  /** The skeleton with every resource of every subtopic marked not
      completed. */
  function ResetAll(p: PlanJson): PlanJson
  {
    if p.subtopics.None? then p
    else p.(subtopics := Some(ResetFirst(p.subtopics.value, |p.subtopics.value|)))
  }

  /** Index of the first subtopic without a `resources` array, or the
      number of subtopics when every one has one. */
  function FirstWithoutResources(subs: seq<SubtopicJson>): (n: nat)
    ensures n <= |subs|
    ensures forall k :: 0 <= k < n ==> subs[k].resources.Some?
    ensures n < |subs| ==> subs[n].resources.None?
    decreases |subs|
  {
    if subs == [] || subs[0].resources.None? then 0
    else 1 + FirstWithoutResources(subs[1..])
  }

  /** `if (userId) studyPlan.userId = userId`. */
  function WithUser(p: PlanJson, userId: Option<UserId>): PlanJson
  {
    if Truthy(userId) then p.(userId := userId) else p
  }

  /** The skeleton with every `completed` flag erased: what normalisation
      must leave alone. */
  function Strip(p: PlanJson): PlanJson
  {
    if p.subtopics.None? then p
    else
      var subs := p.subtopics.value;
      p.(subtopics := Some(seq(|subs|, k requires 0 <= k < |subs| => StripSubtopic(subs[k]))))
  }

  function StripSubtopic(s: SubtopicJson): SubtopicJson
  {
    if s.resources.None? then s
    else
      var rs := s.resources.value;
      s.(resources := Some(seq(|rs|, j requires 0 <= j < |rs| => rs[j].(completed := None))))
  }

  predicate AllIncomplete(p: PlanJson)
  {
    p.subtopics.Some? &&
    forall k :: 0 <= k < |p.subtopics.value| ==>
      var s := p.subtopics.value[k];
      s.resources.Some? &&
      forall j :: 0 <= j < |s.resources.value| ==> s.resources.value[j].completed == Some(false)
  }

  /** A mutable skeleton, as the parsed JSON object the handler updates. */
  class Draft {
    var plan: PlanJson

    constructor (p: PlanJson)
      ensures plan == p
    {
      plan := p;
    }

    /** The two nested `forEach` loops setting `resource.completed = false`.
        They throw on a missing `subtopics` array (nothing changed yet) or
        on a subtopic without `resources` (the earlier subtopics are
        already reset); `ok` is false exactly then. */
    method ResetCompleted() returns (ok: bool)
      modifies this
      ensures ok <==> old(plan).subtopics.Some? && HasResourceArrays(old(plan).subtopics.value)
      ensures old(plan).subtopics.None? ==> plan == old(plan)
      ensures old(plan).subtopics.Some? ==>
        var subs := old(plan).subtopics.value;
        plan == old(plan).(subtopics := Some(ResetFirst(subs, FirstWithoutResources(subs))))
    {
      if plan.subtopics.None? {
        return false;
      }
      var subs := plan.subtopics.value;
      assert ResetFirst(subs, 0) == subs;
      var i := 0;
      while i < |subs|
        invariant 0 <= i <= |subs|
        invariant forall k :: 0 <= k < i ==> subs[k].resources.Some?
        invariant plan == old(plan).(subtopics := Some(ResetFirst(subs, i)))
      {
        var s := plan.subtopics.value[i];
        if s.resources.None? {
          assert i == FirstWithoutResources(subs) by {
            FirstWithoutResourcesAt(subs, i);
          }
          return false;
        }
        var rs := s.resources.value;
        var j := 0;
        while j < |rs|
          invariant 0 <= j <= |rs|
          invariant |rs| == |s.resources.value|
          invariant forall m :: 0 <= m < j ==> rs[m] == ResetResource(s.resources.value[m])
          invariant forall m :: j <= m < |rs| ==> rs[m] == s.resources.value[m]
        {
          rs := rs[j := ResetResource(rs[j])];
          j := j + 1;
        }
        assert s == subs[i];
        assert rs == seq(|rs|, m requires 0 <= m < |rs| => ResetResource(s.resources.value[m]));
        assert s.(resources := Some(rs)) == ResetSubtopic(subs[i]);
        plan := plan.(subtopics := Some(plan.subtopics.value[i := s.(resources := Some(rs))]));
        assert ResetFirst(subs, i)[i := ResetSubtopic(subs[i])] == ResetFirst(subs, i + 1);
        i := i + 1;
      }
      FirstWithoutResourcesAll(subs);
      return true;
    }

    /** Attaches the caller's id when it is truthy; otherwise the skeleton
        stays as it is. */
    method AttachUser(userId: Option<UserId>)
      modifies this
      ensures plan == WithUser(old(plan), userId)
      ensures Truthy(userId) ==> plan.userId == userId
      ensures !Truthy(userId) ==> plan == old(plan)
    {
      if Truthy(userId) {
        plan := plan.(userId := userId);
      }
    }
  }

  lemma {:induction false} FirstWithoutResourcesAt(subs: seq<SubtopicJson>, i: nat)
    requires i < |subs| && subs[i].resources.None?
    requires forall k :: 0 <= k < i ==> subs[k].resources.Some?
    ensures FirstWithoutResources(subs) == i
    decreases i
  {
    if i > 0 {
      FirstWithoutResourcesAt(subs[1..], i - 1);
    }
  }

  lemma {:induction false} FirstWithoutResourcesAll(subs: seq<SubtopicJson>)
    requires HasResourceArrays(subs)
    ensures FirstWithoutResources(subs) == |subs|
    decreases |subs|
  {
    if subs != [] {
      FirstWithoutResourcesAll(subs[1..]);
    }
  }

  // ------------------------------------------------------------- handler

  /** The response for a request, a caller and the service's answer. */
  function GenerateSpec(session: Option<UserId>, request: Option<GenerateRequest>, upstream: Upstream): GenerateResponse
  {
    if request.None? then GenerationFailed                   // body is not a JSON object
    else if !Truthy(request.value.topic) then TopicRequired
    else if !upstream.ok then GenerationFailed
    else if FirstMessage(upstream).None? then GenerationFailed
    else
      var content := FirstMessage(upstream).value.content;
      if content.None? then GenerationFailed                 // JSON.parse throws
      else if content.value.subtopics.None? then GenerationFailed
      else if !HasResourceArrays(content.value.subtopics.value) then GenerationFailed
      else Generated(WithUser(ResetAll(content.value), Caller(session)))
  }

  method Generate(session: Option<UserId>, request: Option<GenerateRequest>, upstream: Upstream)
    returns (resp: GenerateResponse)
    ensures resp == GenerateSpec(session, request, upstream)
  {
    if request.None? {
      return GenerationFailed;
    }
    if !Truthy(request.value.topic) {
      return TopicRequired;
    }
    if !upstream.ok {
      return GenerationFailed;
    }
    var message := FirstMessage(upstream);
    if message.None? || message.value.content.None? {
      return GenerationFailed;
    }
    var draft := new Draft(message.value.content.value);
    var ok := draft.ResetCompleted();
    if !ok {
      return GenerationFailed;
    }
    ResetFirstAll(draft.plan, message.value.content.value);
    draft.AttachUser(Caller(session));
    return Generated(draft.plan);
  }

  lemma ResetFirstAll(after: PlanJson, before: PlanJson)
    requires before.subtopics.Some? && HasResourceArrays(before.subtopics.value)
    requires after == before.(subtopics := Some(ResetFirst(before.subtopics.value,
                                                           FirstWithoutResources(before.subtopics.value))))
    ensures after == ResetAll(before)
  {
    FirstWithoutResourcesAll(before.subtopics.value);
  }

  // ------------------------------------------------ facts about the reset

  /** After the reset every resource of every subtopic is not completed,
      whatever the service sent. */
  lemma ResetAllIncomplete(p: PlanJson)
    requires p.subtopics.Some? && HasResourceArrays(p.subtopics.value)
    ensures AllIncomplete(ResetAll(p))
  {
  }

  /** The reset changes no field other than `completed`: same title and
      other fields, same number and order of subtopics and resources. */
  lemma ResetAllKeepsShape(p: PlanJson)
    ensures Strip(ResetAll(p)) == Strip(p)
    ensures ResetAll(p).subtopics.Some? <==> p.subtopics.Some?
    ensures p.subtopics.Some? ==> |ResetAll(p).subtopics.value| == |p.subtopics.value|
  {
    if p.subtopics.Some? {
      var subs := p.subtopics.value;
      var r := ResetAll(p).subtopics.value;
      forall k | 0 <= k < |subs| ensures StripSubtopic(r[k]) == StripSubtopic(subs[k]) {
        if subs[k].resources.Some? {
          var a := StripSubtopic(r[k]).resources.value;
          var b := StripSubtopic(subs[k]).resources.value;
          assert |a| == |b|;
          forall j | 0 <= j < |a| ensures a[j] == b[j] {
          }
          assert a == b;
        }
      }
      assert Strip(ResetAll(p)).subtopics.value == Strip(p).subtopics.value;
    }
  }

  /** Stripping is a faithful summary of the reset: two skeletons that
      differ only in their `completed` flags reset to the same skeleton. */
  lemma ResetAllDependsOnShape(p: PlanJson, q: PlanJson)
    requires Strip(p) == Strip(q)
    ensures ResetAll(p) == ResetAll(q)
  {
    if p.subtopics.Some? {
      var ps := p.subtopics.value;
      var qs := q.subtopics.value;
      assert |ps| == |Strip(q).subtopics.value| == |qs|;
      forall k | 0 <= k < |ps| ensures ResetSubtopic(ps[k]) == ResetSubtopic(qs[k]) {
        assert StripSubtopic(ps[k]) == Strip(p).subtopics.value[k];
        assert StripSubtopic(qs[k]) == Strip(q).subtopics.value[k];
        if ps[k].resources.Some? {
          var a := ps[k].resources.value;
          var b := qs[k].resources.value;
          assert |a| == |StripSubtopic(ps[k]).resources.value| == |b|;
          forall j | 0 <= j < |a| ensures ResetResource(a[j]) == ResetResource(b[j]) {
            assert a[j].(completed := None) == StripSubtopic(ps[k]).resources.value[j];
            assert b[j].(completed := None) == StripSubtopic(qs[k]).resources.value[j];
          }
          assert ResetSubtopic(ps[k]).resources.value == ResetSubtopic(qs[k]).resources.value;
        } else {
          assert StripSubtopic(qs[k]).resources.None?;
        }
      }
      assert ResetFirst(ps, |ps|) == ResetFirst(qs, |qs|);
    } else {
      assert Strip(q).subtopics.None?;
    }
  }

  /** Resetting twice is resetting once. */
  lemma ResetAllIdempotent(p: PlanJson)
    ensures ResetAll(ResetAll(p)) == ResetAll(p)
  {
    if p.subtopics.Some? {
      var r := ResetAll(p).subtopics.value;
      forall k | 0 <= k < |r| ensures ResetSubtopic(r[k]) == r[k] {
        if r[k].resources.Some? {
          assert ResetSubtopic(r[k]).resources.value == r[k].resources.value;
        }
      }
      assert ResetFirst(r, |r|) == r;
    }
  }

  // ---------------------------------------------- facts about the handler

  /** A falsy topic is answered 400 "Topic is required", and nothing the
      service would have answered matters: it is never asked. A present
      body with a truthy topic is never answered 400. */
  lemma TopicChecked(session: Option<UserId>, request: Option<GenerateRequest>, u1: Upstream, u2: Upstream)
    ensures GenerateSpec(session, request, u1).TopicRequired?
      <==> request.Some? && !Truthy(request.value.topic)
    ensures request.Some? && !Truthy(request.value.topic) ==>
      GenerateSpec(session, request, u1) == GenerateSpec(session, request, u2)
      && ErrorMessage(GenerateSpec(session, request, u1)) == "Topic is required"
  {
  }

  /** A non-ok service answer, or one without a first choice carrying a
      message, is answered 500 with the fixed message. */
  lemma UpstreamFailureFails(session: Option<UserId>, request: Option<GenerateRequest>, upstream: Upstream)
    requires request.Some? && Truthy(request.value.topic)
    requires !upstream.ok || upstream.choices.None? || |upstream.choices.value| == 0
             || upstream.choices.value[0].message.None?
    ensures GenerateSpec(session, request, upstream) == GenerationFailed
    ensures Status(GenerateSpec(session, request, upstream)) == 500
    ensures ErrorMessage(GenerateSpec(session, request, upstream))
            == "Failed to generate study plan. Please try again."
  {
  }

  /** A generated skeleton is the service's skeleton with every resource
      not completed, nothing else changed but `userId`, which is the
      caller's id when the caller has a truthy one and is otherwise what
      the service sent. */
  lemma GeneratedPlan(session: Option<UserId>, request: Option<GenerateRequest>, upstream: Upstream)
    requires GenerateSpec(session, request, upstream).Generated?
    ensures var p := GenerateSpec(session, request, upstream).plan;
      var sent := FirstMessage(upstream).value.content.value;
      && AllIncomplete(p)
      && Strip(p.(userId := sent.userId)) == Strip(sent)
      && (Truthy(session) ==> p.userId == session)
      && (!Truthy(session) ==> p.userId == sent.userId)
  {
    var sent := FirstMessage(upstream).value.content.value;
    ResetAllIncomplete(sent);
    ResetAllKeepsShape(sent);
    var p := GenerateSpec(session, request, upstream).plan;
    assert p.(userId := sent.userId) == ResetAll(sent);
  }

  /** With a skeleton that has no `userId` of its own (as the requested
      schema demands), the generated plan carries a `userId` exactly when
      the caller has a truthy id, and then that id. */
  lemma GeneratedUserId(session: Option<UserId>, request: Option<GenerateRequest>, upstream: Upstream)
    requires GenerateSpec(session, request, upstream).Generated?
    requires FirstMessage(upstream).value.content.value.userId.None?
    ensures GenerateSpec(session, request, upstream).plan.userId.Some? <==> Truthy(session)
    ensures Truthy(session) ==> GenerateSpec(session, request, upstream).plan.userId == session
  {
  }

  // ------------------------------------------- generation, then saving

  /** The skeleton saved as generated: the creation endpoint refuses every
      skeleton the requested schema allows, because that schema has no
      `topic` property. */
  lemma GeneratedSkeletonRejected(
    session: Option<UserId>, request: Option<GenerateRequest>, upstream: Upstream,
    t: StudyPlans.Tables, now: int)
    requires GenerateSpec(session, request, upstream).Generated?
    requires ConformsToSchema(FirstMessage(upstream).value.content.value)
    ensures var body := GenerateSpec(session, request, upstream).plan;
      StudyPlans.CreateSpec(t, session, body, now) == (StudyPlans.MissingFields, t)
  {
  }

  /** The generation endpoint with the requested topic attached to the
      skeleton it returns. It answers with the handler's status and error
      message; a skeleton it returns carries the requested (truthy) topic,
      has every resource not completed, and agrees with the handler's
      skeleton on every other field. */
  function GenerateWithTopic(session: Option<UserId>, request: Option<GenerateRequest>, upstream: Upstream): (r: GenerateResponse)
    ensures Status(r) == Status(GenerateSpec(session, request, upstream))
    ensures !r.Generated? ==> ErrorMessage(r) == ErrorMessage(GenerateSpec(session, request, upstream))
    ensures r.Generated? ==> request.Some? && Truthy(r.plan.topic) && r.plan.topic == request.value.topic
    ensures r.Generated? ==> AllIncomplete(r.plan)
    ensures r.Generated? ==>
      r.plan.(topic := None) == GenerateSpec(session, request, upstream).plan.(topic := None)
  {
    var g := GenerateSpec(session, request, upstream);
    if g.Generated? then
      GeneratedPlan(session, request, upstream);
      Generated(g.plan.(topic := request.value.topic))
    else g
  }

  /** With the topic attached, a schema-conforming skeleton whose title,
      difficulty and time commitment are non-empty is accepted by the
      creation endpoint. */
  lemma GeneratedWithTopicSaved(
    session: Option<UserId>, request: Option<GenerateRequest>, upstream: Upstream,
    t: StudyPlans.Tables, now: int)
    requires GenerateWithTopic(session, request, upstream).Generated?
    requires ConformsToSchema(FirstMessage(upstream).value.content.value)
    requires var sent := FirstMessage(upstream).value.content.value;
      Truthy(sent.title) && Truthy(sent.difficulty) && Truthy(sent.timeCommitment)
    ensures var body := GenerateWithTopic(session, request, upstream).plan;
      StudyPlans.CreateSpec(t, session, body, now).0.Created?
  {
    var sent := FirstMessage(upstream).value.content.value;
    var body := GenerateWithTopic(session, request, upstream).plan;
    ResetAllKeepsShape(sent);
    assert Strip(body.(userId := sent.userId, topic := sent.topic)) == Strip(sent);
    assert body.title == sent.title && body.difficulty == sent.difficulty
        && body.timeCommitment == sent.timeCommitment;
    assert StudyPlans.RequiredPresent(body);
  }
}
