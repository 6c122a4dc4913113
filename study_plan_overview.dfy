/** The study-plan overview component: per-subtopic and overall resource
    counts and progress, the set of expanded subtopics, the decision taken
    when a resource is clicked, and the refresh of the plan after an
    update. */
module Overview {
  import opened Common

  /** A resource as the component reads it; ids are the database's, absent
      for a plan that was not saved. */
  datatype ResourceView = ResourceView(
    id: Option<nat>,
    kind: Option<string>,      // `type`
    url: Option<string>,
    completed: Option<bool>)

  datatype SubtopicView = SubtopicView(resources: seq<ResourceView>)

  datatype PlanView = PlanView(id: Option<nat>, subtopics: seq<SubtopicView>)

  /** JavaScript truthiness of an optional numeric id (0 is falsy). */
  predicate IdTruthy(id: Option<nat>)
  {
    id.Some? && id.value != 0
  }

  predicate IsCompleted(r: ResourceView)
  {
    r.completed == Some(true)
  }

  // -------------------------------------------------------------- counts

  /** `resources.filter((r) => r.completed).length`. */
  function CompletedIn(rs: seq<ResourceView>): nat
  {
    if rs == [] then 0 else (if IsCompleted(rs[0]) then 1 else 0) + CompletedIn(rs[1..])
  }

  /** A subtopic's completed count never exceeds its resource count; it
      reaches it exactly when every resource is completed and is 0 exactly
      when none is. */
  lemma {:induction false} CompletedInBounds(rs: seq<ResourceView>)
    ensures CompletedIn(rs) <= |rs|
    ensures CompletedIn(rs) == |rs| <==> forall j :: 0 <= j < |rs| ==> IsCompleted(rs[j])
    ensures CompletedIn(rs) == 0 <==> forall j :: 0 <= j < |rs| ==> !IsCompleted(rs[j])
  {
    if rs != [] {
      CompletedInBounds(rs[1..]);
      assert forall j :: 1 <= j < |rs| ==> rs[j] == rs[1..][j - 1];
    }
  }

  lemma {:induction false} CompletedInConcat(a: seq<ResourceView>, b: seq<ResourceView>)
    ensures CompletedIn(a + b) == CompletedIn(a) + CompletedIn(b)
  {
    if a != [] {
      assert (a + b)[0] == a[0];
      assert (a + b)[1..] == a[1..] + b;
      CompletedInConcat(a[1..], b);
    } else {
      assert a + b == b;
    }
  }

  /** `(completed / total) * 100` for a subtopic with resources, else 0. */
  function SubtopicProgress(s: SubtopicView): real
  {
    if |s.resources| > 0 then (CompletedIn(s.resources) as real / |s.resources| as real) * 100.0 else 0.0
  }

  /** Subtopic progress is 0 without resources, within 0..100, and 100
      exactly when every resource is completed. */
  lemma SubtopicProgressBounds(s: SubtopicView)
    ensures |s.resources| == 0 ==> SubtopicProgress(s) == 0.0
    ensures 0.0 <= SubtopicProgress(s) <= 100.0
    ensures |s.resources| > 0 ==>
      (SubtopicProgress(s) == 100.0 <==> forall j :: 0 <= j < |s.resources| ==> IsCompleted(s.resources[j]))
  {
    CompletedInBounds(s.resources);
    if |s.resources| > 0 {
      var c := CompletedIn(s.resources) as real;
      var t := |s.resources| as real;
      QuotientAtMostOne(c, t);
    }
  }

  lemma QuotientAtMostOne(c: real, t: real)
    requires 0.0 <= c <= t && t > 0.0
    ensures 0.0 <= c / t <= 1.0
    ensures c / t == 1.0 <==> c == t
  {
    var q := c / t;
    assert q * t == c;
  }

  /** `subtopics.reduce((total, s) => total + s.resources.length, 0)`. */
  function OverallTotal(subs: seq<SubtopicView>): nat
  {
    if subs == [] then 0 else OverallTotal(subs[..|subs| - 1]) + |subs[|subs| - 1].resources|
  }

  /** `subtopics.reduce((total, s) => total + completed(s), 0)`. */
  function OverallCompleted(subs: seq<SubtopicView>): nat
  {
    if subs == [] then 0 else OverallCompleted(subs[..|subs| - 1]) + CompletedIn(subs[|subs| - 1].resources)
  }

  /** Every resource of the plan, subtopic after subtopic. */
  function AllResources(subs: seq<SubtopicView>): seq<ResourceView>
  {
    if subs == [] then [] else AllResources(subs[..|subs| - 1]) + subs[|subs| - 1].resources
  }

  /** The overall counts are those of the plan's resources taken all
      together; hence completed never exceeds total. */
  lemma {:induction false} OverallCounts(subs: seq<SubtopicView>)
    ensures OverallTotal(subs) == |AllResources(subs)|
    ensures OverallCompleted(subs) == CompletedIn(AllResources(subs))
    ensures OverallCompleted(subs) <= OverallTotal(subs)
  {
    if subs != [] {
      var n := |subs| - 1;
      OverallCounts(subs[..n]);
      CompletedInConcat(AllResources(subs[..n]), subs[n].resources);
    }
    CompletedInBounds(AllResources(subs));
  }

  /** Two plans side by side count as their parts do. */
  lemma {:induction false} OverallConcat(a: seq<SubtopicView>, b: seq<SubtopicView>)
    ensures OverallTotal(a + b) == OverallTotal(a) + OverallTotal(b)
    ensures OverallCompleted(a + b) == OverallCompleted(a) + OverallCompleted(b)
    decreases |b|
  {
    if b == [] {
      assert a + b == a;
    } else {
      var n := |b| - 1;
      assert (a + b)[..|a + b| - 1] == a + b[..n];
      OverallConcat(a, b[..n]);
    }
  }

  /** `(completed / total) * 100` over the whole plan, 0 without
      resources. */
  function OverallProgress(plan: PlanView): real
  {
    var t := OverallTotal(plan.subtopics);
    if t > 0 then (OverallCompleted(plan.subtopics) as real / t as real) * 100.0 else 0.0
  }

  lemma OverallProgressBounds(plan: PlanView)
    ensures OverallTotal(plan.subtopics) == 0 ==> OverallProgress(plan) == 0.0
    ensures 0.0 <= OverallProgress(plan) <= 100.0
  {
    OverallCounts(plan.subtopics);
    var t := OverallTotal(plan.subtopics);
    if t > 0 {
      var c := OverallCompleted(plan.subtopics) as real;
      QuotientAtMostOne(c, t as real);
    }
  }

  // ------------------------------------------------- clicking a resource

  /** The PUT `/api/resources/{id}` request with body `{ completed }`. */
  datatype UpdateRequest = UpdateRequest(resourceId: nat, completed: bool)

  /** What a click does: the page it opens, and the update it sends. */
  datatype Decision = Decision(opens: Option<string>, update: Option<UpdateRequest>)

  /** `handleResourceAction`: a quiz is marked completed; a video or an
      article with a url opens it and is then marked completed; marking
      happens only for a resource not yet completed that has an id. */
  function Decide(r: ResourceView): Decision
  {
    var update := if !IsCompleted(r) && IdTruthy(r.id) then Some(UpdateRequest(r.id.value, true)) else None;
    if r.kind == Some("quiz") then Decision(None, update)
    else if Truthy(r.url) then Decision(r.url, update)
    else Decision(None, None)
  }

  /** An update is sent exactly for a resource that is not completed, has
      an id and is a quiz or has a url; it is for that id and always marks
      the resource completed, never uncompleted. A quiz opens nothing, any
      other resource opens its url when it has one. */
  lemma DecideSpec(r: ResourceView)
    ensures Decide(r).update.Some? <==>
      !IsCompleted(r) && IdTruthy(r.id) && (r.kind == Some("quiz") || Truthy(r.url))
    ensures Decide(r).update.Some? ==>
      Decide(r).update.value == UpdateRequest(r.id.value, true)
    ensures Decide(r).opens.Some? <==> r.kind != Some("quiz") && Truthy(r.url)
    ensures Decide(r).opens.Some? ==> Decide(r).opens == r.url
  {
  }

  /** Clicking a completed resource never sends anything. */
  lemma DecideIdempotentOnCompleted(r: ResourceView)
    requires IsCompleted(r)
    ensures Decide(r).update.None?
  {
  }

  // ------------------------------------------------------- the component

  /** `new Set(expanded)` with `index` deleted when present, added
      otherwise. */
  function Toggle(expanded: set<int>, index: int): set<int>
  {
    if index in expanded then expanded - {index} else expanded + {index}
  }

  /** Toggling flips exactly the given index, and toggling twice restores
      the set. */
  lemma ToggleSpec(expanded: set<int>, index: int)
    ensures index in Toggle(expanded, index) <==> index !in expanded
    ensures forall k :: k != index ==> (k in Toggle(expanded, index) <==> k in expanded)
    ensures Toggle(Toggle(expanded, index), index) == expanded
  {
  }

  class OverviewState {
    var studyPlan: PlanView
    var expandedSubtopics: set<int>

    /** The first subtopic starts expanded. */
    constructor (initial: PlanView)
      ensures studyPlan == initial && expandedSubtopics == {0}
    {
      studyPlan := initial;
      expandedSubtopics := {0};
    }

    method ToggleSubtopic(index: int)
      modifies this
      ensures expandedSubtopics == Toggle(old(expandedSubtopics), index)
      ensures studyPlan == old(studyPlan)
    {
      var next := expandedSubtopics;
      if index in next {
        next := next - {index};
      } else {
        next := next + {index};
      }
      expandedSubtopics := next;
    }

    /** `handleResourceUpdate`: a plan with an id is fetched again and
        replaced by the answer when it is ok (`fetched` is None otherwise);
        a plan without id is never refreshed. */
    method Refresh(fetched: Option<PlanView>) returns (requested: bool)
      modifies this
      ensures requested <==> IdTruthy(old(studyPlan).id)
      ensures studyPlan == (if requested && fetched.Some? then fetched.value else old(studyPlan))
      ensures expandedSubtopics == old(expandedSubtopics)
    {
      requested := IdTruthy(studyPlan.id);
      if requested && fetched.Some? {
        studyPlan := fetched.value;
      }
    }
  }
}
