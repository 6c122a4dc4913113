/** The "My Study Plans" page: a card per listed plan with its progress,
    the search box and completion filter over the listed plans, and the
    removal of a deleted plan from the list. The listed plans are the
    summaries the listing endpoint returns. */
module MyStudyPlans {
  import opened Common
  import opened StudyPlans

  // ------------------------------------------------------------ progress

  /** The card's percentage: `Math.round(completed / total * 100)` for a
      plan with resources, 0 otherwise. Math.round on the exact quotient is
      floor(100c/t + 1/2) = floor((200c + t) / 2t). */
  function CardProgress(plan: PlanSummary): int
  {
    var c := plan.completedResources;
    var t := plan.totalResources;
    if t > 0 then (200 * c + t) / (2 * t) else 0
  }

  /** The card shows the percentage nearest to the exact one, halves
      rounded up; it is 0 without resources, and within 0..100 when no
      more resources are completed than exist. */
  lemma CardProgressNearest(plan: PlanSummary)
    ensures var p := CardProgress(plan);
      var c := plan.completedResources;
      var t := plan.totalResources;
      && (t == 0 ==> p == 0)
      && (t > 0 ==> 200 * c - t < 2 * t * p <= 200 * c + t)
      && 0 <= p
      && (c <= t ==> p <= 100)
  {
    var c := plan.completedResources;
    var t := plan.totalResources;
    if t > 0 {
      var p := CardProgress(plan);
      var d := 2 * t;
      var n := 200 * c + t;
      assert p == n / d;
      DivisionBounds(n, d);
      if c <= t && p > 100 {
        MulNonneg(d, p - 101);
      }
    }
  }

  lemma DivisionBounds(n: int, d: int)
    requires n >= 0 && d > 0
    ensures d * (n / d) <= n < d * (n / d) + d
    ensures n / d >= 0
  {
  }

  lemma MulNonneg(a: int, b: int)
    requires a >= 0 && b >= 0
    ensures a * b >= 0
  {
  }

  /** A plan with 199 of 200 resources completed shows 100% on its card
      while the "completed" filter leaves it out. */
  lemma AlmostCompleteShowsHundred()
    ensures var plan := PlanSummary(1, "Go", Some(""), "Go", "easy", "1h", None, 0, 0, 1, 200, 199);
      CardProgress(plan) == 100 && !Keep(plan, "", "completed")
  {
    var plan := PlanSummary(1, "Go", Some(""), "Go", "easy", "1h", None, 0, 0, 1, 200, 199);
    IncludesEmpty(Lower("Go"));
    KeepMeaning(plan, "", "completed");
  }

  // ----------------------------------------------------- search and filter

  /** The search test as the page writes it: the title is searched first
      and the description only when the title does not match; a plan
      without description (null) then throws, shown as None. */
  function MatchesSearchAsWritten(plan: PlanSummary, term: string): (r: Option<bool>)
    ensures r.None? <==> !Includes(Lower(plan.title), Lower(term)) && plan.description.None?
  {
    if Includes(Lower(plan.title), Lower(term)) then Some(true)
    else if plan.description.None? then None
    else Some(Includes(Lower(plan.description.value), Lower(term)))
  }

  /** The search test with a missing description searched as no text. */
  function MatchesSearch(plan: PlanSummary, term: string): bool
  {
    Includes(Lower(plan.title), Lower(term))
    || (plan.description.Some? && Includes(Lower(plan.description.value), Lower(term)))
  }

  /** The page's search fails on a plan saved without description whose
      title does not contain the term. */
  lemma SearchThrowsWithoutDescription()
    ensures MatchesSearchAsWritten(PlanSummary(1, "Go", None, "Go", "easy", "1h", None, 0, 0, 0, 0, 0), "x").None?
  {
    var title := Lower("Go");
    assert Lower("x") == "x";
    assert title == "go";
    assert !Includes(title, "x") by {
      forall k | 0 <= k <= |title| ensures !OccursAt(title, "x", k) {
        if k + 1 <= |title| { assert title[k] != 'x'; }
      }
    }
  }

  /** Wherever the page's test does not throw it agrees with the corrected
      one; a match is case-insensitive on title or description, and the
      empty term matches every plan. */
  lemma MatchesSearchAgrees(plan: PlanSummary, term: string)
    ensures MatchesSearchAsWritten(plan, term).Some? ==>
      MatchesSearchAsWritten(plan, term).value == MatchesSearch(plan, term)
    ensures plan.description.Some? ==> MatchesSearchAsWritten(plan, term) == Some(MatchesSearch(plan, term))
    ensures term == "" ==> MatchesSearch(plan, term)
  {
    if term == "" {
      IncludesEmpty(Lower(plan.title));
    }
  }

  /** The unrounded percentage the filters compare. */
  function Percent(plan: PlanSummary): real
  {
    if plan.totalResources > 0
    then (plan.completedResources as real / plan.totalResources as real) * 100.0
    else 0.0
  }

  /** The filter callback of `filteredPlans` with the corrected search. */
  function Keep(plan: PlanSummary, term: string, filterBy: string): bool
  {
    KeepGiven(MatchesSearch(plan, term), plan, filterBy)
  }

  /** The filter callback once the search test has given `matches`. */
  function KeepGiven(matches: bool, plan: PlanSummary, filterBy: string): bool
  {
    if filterBy == "all" then matches
    else if filterBy == "in-progress" then matches && Percent(plan) > 0.0 && Percent(plan) < 100.0
    else if filterBy == "completed" then matches && Percent(plan) == 100.0
    else if filterBy == "not-started" then matches && plan.completedResources == 0
    else matches
  }

  predicate NotStarted(plan: PlanSummary)
  {
    plan.completedResources == 0
  }

  predicate InProgress(plan: PlanSummary)
  {
    plan.totalResources > 0 && 0 < plan.completedResources < plan.totalResources
  }

  predicate Completed(plan: PlanSummary)
  {
    plan.totalResources > 0 && plan.completedResources == plan.totalResources
  }

  lemma PercentFacts(plan: PlanSummary)
    requires plan.totalResources > 0
    ensures Percent(plan) > 0.0 <==> plan.completedResources > 0
    ensures Percent(plan) < 100.0 <==> plan.completedResources < plan.totalResources
    ensures Percent(plan) == 100.0 <==> plan.completedResources == plan.totalResources
  {
    var c := plan.completedResources as real;
    var t := plan.totalResources as real;
    QuotientCompare(c, t);
    assert Percent(plan) == (c / t) * 100.0;
  }

  lemma QuotientCompare(c: real, t: real)
    requires t > 0.0
    ensures c / t > 0.0 <==> c > 0.0
    ensures c / t < 1.0 <==> c < t
    ensures c / t == 1.0 <==> c == t
  {
    var q := c / t;
    assert q * t == c;
    ScaleCompare(q, t);
  }

  lemma ScaleCompare(q: real, t: real)
    requires t > 0.0
    ensures q > 0.0 <==> q * t > 0.0
    ensures q < 1.0 <==> q * t < t
    ensures q == 1.0 <==> q * t == t
  {
    assert t - q * t == (1.0 - q) * t;
    if q > 0.0 { MulPositive(q, t); }
    if q < 0.0 { MulPositive(-q, t); }
    if q < 1.0 { MulPositive(1.0 - q, t); }
    if q > 1.0 { MulPositive(q - 1.0, t); }
  }

  lemma MulPositive(a: real, b: real)
    requires a > 0.0 && b > 0.0
    ensures a * b > 0.0
  {
  }

  /** What each filter keeps, in terms of the counts: "completed" the
      matches with resources all completed, "in-progress" the matches with
      some but not all completed, "not-started" the matches with none
      completed (a plan without resources included), and "all" or any
      other value every match. */
  lemma KeepMeaning(plan: PlanSummary, term: string, filterBy: string)
    ensures filterBy == "completed" ==>
      (Keep(plan, term, filterBy) <==> MatchesSearch(plan, term) && Completed(plan))
    ensures filterBy == "in-progress" ==>
      (Keep(plan, term, filterBy) <==> MatchesSearch(plan, term) && InProgress(plan))
    ensures filterBy == "not-started" ==>
      (Keep(plan, term, filterBy) <==> MatchesSearch(plan, term) && NotStarted(plan))
    ensures filterBy !in {"completed", "in-progress", "not-started"} ==>
      (Keep(plan, term, filterBy) <==> MatchesSearch(plan, term))
  {
    if plan.totalResources > 0 {
      PercentFacts(plan);
    }
  }

  /** With no more completed resources than resources, a plan is exactly
      one of not started, in progress and completed. */
  lemma ExactlyOneStatus(plan: PlanSummary)
    requires plan.completedResources <= plan.totalResources
    ensures NotStarted(plan) ==> !InProgress(plan) && !Completed(plan)
    ensures InProgress(plan) ==> !NotStarted(plan) && !Completed(plan)
    ensures Completed(plan) ==> !NotStarted(plan) && !InProgress(plan)
    ensures NotStarted(plan) || InProgress(plan) || Completed(plan)
  {
  }

  /** `studyPlans.filter(...)`. */
  function Filtered(plans: seq<PlanSummary>, term: string, filterBy: string): seq<PlanSummary>
  {
    if plans == [] then []
    else (if Keep(plans[0], term, filterBy) then [plans[0]] else []) + Filtered(plans[1..], term, filterBy)
  }

  /** `studyPlans.filter(...)` as the page writes it: None when the search
      test throws on some listed plan, which makes the render fail. */
  function FilteredAsWritten(plans: seq<PlanSummary>, term: string, filterBy: string): Option<seq<PlanSummary>>
  {
    if plans == [] then Some([])
    else
      var m := MatchesSearchAsWritten(plans[0], term);
      var rest := FilteredAsWritten(plans[1..], term, filterBy);
      if m.None? || rest.None? then None
      else Some((if KeepGiven(m.value, plans[0], filterBy) then [plans[0]] else []) + rest.value)
  }

  /** The page's filter throws exactly when its search test throws on one
      of the listed plans; otherwise it yields the corrected filter's list. */
  lemma {:induction false} FilteredAsWrittenAgrees(plans: seq<PlanSummary>, term: string, filterBy: string)
    ensures FilteredAsWritten(plans, term, filterBy).Some?
      <==> forall k :: 0 <= k < |plans| ==> MatchesSearchAsWritten(plans[k], term).Some?
    ensures FilteredAsWritten(plans, term, filterBy).Some? ==>
      FilteredAsWritten(plans, term, filterBy).value == Filtered(plans, term, filterBy)
  {
    if plans != [] {
      FilteredAsWrittenAgrees(plans[1..], term, filterBy);
      MatchesSearchAgrees(plans[0], term);
      assert forall k :: 1 <= k < |plans| ==> plans[k] == plans[1..][k - 1];
    }
  }

  /** xs is ys with some elements left out, the rest in their order. */
  predicate Subsequence<T(==)>(xs: seq<T>, ys: seq<T>)
    decreases |ys|
  {
    if xs == [] then true
    else if ys == [] then false
    else (xs[0] == ys[0] && Subsequence(xs[1..], ys[1..])) || Subsequence(xs, ys[1..])
  }

  lemma {:induction false} SubsequenceOfFilter<T>(ys: seq<T>, keep: bool, rest: seq<T>)
    requires ys != [] && Subsequence(rest, ys[1..])
    ensures Subsequence((if keep then [ys[0]] else []) + rest, ys)
  {
    if keep {
      assert ([ys[0]] + rest)[1..] == rest;
    } else {
      assert [] + rest == rest;
      if rest != [] {
        assert Subsequence(rest, ys[1..]);
      }
    }
  }

  /** The filtered list keeps the listed plans' order, and holds exactly
      the listed plans the filter keeps. */
  lemma {:induction false} FilteredSubsequence(plans: seq<PlanSummary>, term: string, filterBy: string)
    ensures Subsequence(Filtered(plans, term, filterBy), plans)
    ensures forall p :: p in Filtered(plans, term, filterBy) <==> p in plans && Keep(p, term, filterBy)
  {
    if plans != [] {
      FilteredSubsequence(plans[1..], term, filterBy);
      SubsequenceOfFilter(plans, Keep(plans[0], term, filterBy), Filtered(plans[1..], term, filterBy));
      assert plans == [plans[0]] + plans[1..];
    }
  }

  // -------------------------------------------------------------- delete

  /** `studyPlans.filter(p => p.id !== plan.id)`. */
  function RemoveId(plans: seq<PlanSummary>, id: nat): seq<PlanSummary>
  {
    if plans == [] then []
    else (if plans[0].id != id then [plans[0]] else []) + RemoveId(plans[1..], id)
  }

  /** After a delete no plan has the deleted id, every other plan stays,
      in order, and deleting again changes nothing. */
  lemma {:induction false} RemoveIdSpec(plans: seq<PlanSummary>, id: nat)
    ensures Subsequence(RemoveId(plans, id), plans)
    ensures forall p :: p in RemoveId(plans, id) <==> p in plans && p.id != id
    ensures RemoveId(RemoveId(plans, id), id) == RemoveId(plans, id)
    ensures (forall k :: 0 <= k < |plans| ==> plans[k].id != id) ==> RemoveId(plans, id) == plans
  {
    if plans != [] {
      RemoveIdSpec(plans[1..], id);
      SubsequenceOfFilter(plans, plans[0].id != id, RemoveId(plans[1..], id));
      assert plans == [plans[0]] + plans[1..];
      if plans[0].id != id {
        assert ([plans[0]] + RemoveId(plans[1..], id))[0] == plans[0];
        assert ([plans[0]] + RemoveId(plans[1..], id))[1..] == RemoveId(plans[1..], id);
      } else {
        assert [] + RemoveId(plans[1..], id) == RemoveId(plans[1..], id);
      }
    }
  }

  // ---------------------------------------------------------------- page

  /** The page's state cells. */
  class MyStudyPlansPage {
    var studyPlans: seq<PlanSummary>
    var loading: bool
    var searchTerm: string
    var filterBy: string

    constructor ()
      ensures studyPlans == [] && loading && searchTerm == "" && filterBy == "all"
    {
      studyPlans := [];
      loading := true;
      searchTerm := "";
      filterBy := "all";
    }

    /** The list shown under the search box. */
    function FilteredPlans(): seq<PlanSummary>
      reads this
    {
      Filtered(studyPlans, searchTerm, filterBy)
    }

    /** The end of `fetchStudyPlans`: the plans on an ok response (None
        otherwise), and loading over either way. */
    method Fetched(response: Option<seq<PlanSummary>>)
      modifies this
      ensures studyPlans == (if response.Some? then response.value else old(studyPlans))
      ensures !loading
      ensures searchTerm == old(searchTerm) && filterBy == old(filterBy)
    {
      if response.Some? {
        studyPlans := response.value;
      }
      loading := false;
    }

    method SetSearchTerm(term: string)
      modifies this
      ensures searchTerm == term
      ensures studyPlans == old(studyPlans) && loading == old(loading) && filterBy == old(filterBy)
    {
      searchTerm := term;
    }

    method SetFilterBy(value: string)
      modifies this
      ensures filterBy == value
      ensures studyPlans == old(studyPlans) && loading == old(loading) && searchTerm == old(searchTerm)
    {
      filterBy := value;
    }

    /** `handleDeletePlan`: after the user confirmed and the server answered
        ok, the plan is removed from the list; otherwise nothing changes. */
    method DeletePlan(id: nat, confirmed: bool, ok: bool)
      modifies this
      ensures studyPlans == (if confirmed && ok then RemoveId(old(studyPlans), id) else old(studyPlans))
      ensures loading == old(loading) && searchTerm == old(searchTerm) && filterBy == old(filterBy)
    {
      if confirmed && ok {
        studyPlans := RemoveId(studyPlans, id);
      }
    }
  }
}
