/** The study-plan store behind `/api/study-plans`: three tables (plans,
    subtopics, resources) with a fresh-id counter, the creating POST as a
    transactional method, and the listing GET as a pure function. */
module StudyPlans {
  import opened Common
  import opened Payload

  // ---------------------------------------------------------------- rows

  datatype PlanRow = PlanRow(
    id: nat,
    title: string,
    description: Option<string>,
    topic: string,
    difficulty: string,
    timeCommitment: string,
    estimatedDuration: Option<string>,
    owner: Option<UserId>,          // user_id; None is SQL NULL (a shared plan)
    createdAt: int,
    updatedAt: int)

  datatype SubtopicRow = SubtopicRow(
    id: nat,
    planId: nat,
    title: Option<string>,
    description: Option<string>,
    estimatedTime: Option<string>,
    orderIndex: nat)

  datatype ResourceRow = ResourceRow(
    id: nat,
    subtopicId: nat,
    title: Option<string>,
    description: Option<string>,
    kind: Option<string>,           // resource_type
    url: Option<string>,
    completed: bool,
    orderIndex: nat)

  /** The whole store at one moment: the three tables and the next free id
      (one counter serves all three tables). */
  datatype Tables = Tables(
    plans: seq<PlanRow>,
    subtopics: seq<SubtopicRow>,
    resources: seq<ResourceRow>,
    nextId: nat)

  // The id columns of the three tables. The row types differ, so the same
  // projection is written once per table.

  function PlanIds(rows: seq<PlanRow>): (ids: seq<nat>)
    ensures |ids| == |rows| && forall i :: 0 <= i < |rows| ==> ids[i] == rows[i].id
  {
    seq(|rows|, i requires 0 <= i < |rows| => rows[i].id)
  }

  function SubtopicIds(rows: seq<SubtopicRow>): (ids: seq<nat>)
    ensures |ids| == |rows| && forall i :: 0 <= i < |rows| ==> ids[i] == rows[i].id
  {
    seq(|rows|, i requires 0 <= i < |rows| => rows[i].id)
  }

  function ResourceIds(rows: seq<ResourceRow>): (ids: seq<nat>)
    ensures |ids| == |rows| && forall i :: 0 <= i < |rows| ==> ids[i] == rows[i].id
  {
    seq(|rows|, i requires 0 <= i < |rows| => rows[i].id)
  }

  predicate Increasing(xs: seq<nat>)
  {
    forall i, j :: 0 <= i < j < |xs| ==> xs[i] < xs[j]
  }

  predicate InRange(xs: seq<nat>, lo: nat, hi: nat)
  {
    forall i :: 0 <= i < |xs| ==> lo <= xs[i] < hi
  }

  /** The store's integrity: ids are handed out in increasing order and are
      below the counter, every subtopic references an existing plan and
      every resource an existing subtopic. */
  ghost predicate TablesValid(t: Tables)
  {
    && Increasing(PlanIds(t.plans)) && InRange(PlanIds(t.plans), 0, t.nextId)
    && Increasing(SubtopicIds(t.subtopics)) && InRange(SubtopicIds(t.subtopics), 0, t.nextId)
    && Increasing(ResourceIds(t.resources)) && InRange(ResourceIds(t.resources), 0, t.nextId)
    && (forall i :: 0 <= i < |t.subtopics| ==> t.subtopics[i].planId in PlanIds(t.plans))
    && (forall i :: 0 <= i < |t.resources| ==> t.resources[i].subtopicId in SubtopicIds(t.subtopics))
  }

  // ------------------------------------------------------------ creation

  datatype CreateResponse =
    | Created(plan: PlanRow)   // 201 with the inserted plan row
    | MissingFields            // 400 "Missing required fields"
    | CreateFailed             // 500 "Failed to create study plan"

  /** The guard `!title || !topic || !difficulty || !timeCommitment ||
      !subtopics`, negated: an empty `subtopics` array is truthy. */
  predicate RequiredPresent(body: PlanJson)
  {
    Truthy(body.title) && Truthy(body.topic) && Truthy(body.difficulty)
    && Truthy(body.timeCommitment) && body.subtopics.Some?
  }

  /** `resource.completed || false`. */
  function StoredCompleted(c: Option<bool>): (r: bool)
    ensures r <==> c == Some(true)
  {
    c.Some? && c.value
  }

  function PlanRowOf(id: nat, body: PlanJson, owner: Option<UserId>, now: int): PlanRow
    requires RequiredPresent(body)
  {
    PlanRow(id, body.title.value, body.description, body.topic.value, body.difficulty.value,
            body.timeCommitment.value, body.estimatedDuration, owner, now, now)
  }

  function SubtopicRowOf(id: nat, planId: nat, s: SubtopicJson, order: nat): SubtopicRow
  {
    SubtopicRow(id, planId, s.title, s.description, s.estimatedTime, order)
  }

  function ResourceRowOf(id: nat, subtopicId: nat, r: ResourceJson, order: nat): ResourceRow
  {
    ResourceRow(id, subtopicId, r.title, r.description, r.kind, r.url, StoredCompleted(r.completed), order)
  }

  /** The resource rows inserted for one subtopic, with ids from `first` on
      and 1-based order indexes. */
  function ResourceRowsFor(subtopicId: nat, first: nat, res: seq<ResourceJson>): seq<ResourceRow>
  {
    seq(|res|, j requires 0 <= j < |res| => ResourceRowOf(first + j, subtopicId, res[j], j + 1))
  }

  /** The subtopic and resource rows inserted for the submitted subtopics,
      in insertion order: each subtopic takes the next id, then its
      resources take the ids after it. */
  function TreeRows(planId: nat, first: nat, subs: seq<SubtopicJson>): (seq<SubtopicRow>, seq<ResourceRow>)
    requires HasResourceArrays(subs)
    decreases |subs|
  {
    if subs == [] then ([], [])
    else
      var n := |subs| - 1;
      assert HasResourceArrays(subs[..n]) by {
        forall i | 0 <= i < n ensures subs[..n][i].resources.Some? { assert subs[..n][i] == subs[i]; }
      }
      var prev := TreeRows(planId, first, subs[..n]);
      var id := first + |prev.0| + |prev.1|;
      (prev.0 + [SubtopicRowOf(id, planId, subs[n], n + 1)],
       prev.1 + ResourceRowsFor(id, id + 1, subs[n].resources.value))
  }

  /** What one creation request does to the store: the response and the
      tables afterwards. A rejected or failed request leaves them as they
      were (the transaction is rolled back). */
  function CreateSpec(t: Tables, session: Option<UserId>, body: PlanJson, now: int): (CreateResponse, Tables)
  {
    if !RequiredPresent(body) then (MissingFields, t)
    else if !HasResourceArrays(body.subtopics.value) then (CreateFailed, t)
    else
      var plan := PlanRowOf(t.nextId, body, Caller(session), now);
      var rows := TreeRows(t.nextId, t.nextId + 1, body.subtopics.value);
      (Created(plan),
       Tables(t.plans + [plan], t.subtopics + rows.0, t.resources + rows.1,
              t.nextId + 1 + |rows.0| + |rows.1|))
  }

  /** The POST handler on the request body as `request.json()` reads it:
      an unparsable or null body throws inside the `try`, which answers 500
      "Failed to create study plan" with nothing inserted. */
  function CreateRequestSpec(t: Tables, session: Option<UserId>, request: Option<PlanJson>, now: int): (CreateResponse, Tables)
  {
    if request.None? then (CreateFailed, t) else CreateSpec(t, session, request.value, now)
  }

  class PlanStore {
    var plans: seq<PlanRow>
    var subtopics: seq<SubtopicRow>
    var resources: seq<ResourceRow>
    var nextId: nat

    ghost function State(): Tables
      reads this
    {
      Tables(plans, subtopics, resources, nextId)
    }

    ghost predicate Valid()
      reads this
    {
      TablesValid(State())
    }

    constructor ()
      ensures Valid() && State() == Tables([], [], [], 1)
    {
      plans, subtopics, resources, nextId := [], [], [], 1;
    }

    /** POST /api/study-plans. The rows are built in local buffers by the
        same nested loops as the source and written to the tables only once
        every insert has succeeded. */
    method Create(session: Option<UserId>, request: Option<PlanJson>, now: int) returns (resp: CreateResponse)
      requires Valid()
      modifies this
      ensures Valid()
      ensures (resp, State()) == CreateRequestSpec(old(State()), session, request, now)
    {
      if request.None? {
        return CreateFailed;
      }
      var body := request.value;
      if !RequiredPresent(body) {
        return MissingFields;
      }
      var subs := body.subtopics.value;
      var planId := nextId;
      var plan := PlanRowOf(planId, body, Caller(session), now);
      var id := planId + 1;
      var newSubs: seq<SubtopicRow> := [];
      var newRes: seq<ResourceRow> := [];
      var i := 0;
      while i < |subs|
        invariant 0 <= i <= |subs|
        invariant HasResourceArrays(subs[..i])
        invariant (newSubs, newRes) == TreeRows(planId, planId + 1, subs[..i])
        invariant id == planId + 1 + |newSubs| + |newRes|
        invariant State() == old(State())
      {
        var s := subs[i];
        if s.resources.None? {
          // `subtopic.resources.length` throws; the transaction rolls back
          return CreateFailed;
        }
        TreeRowsExtend(planId, subs, i, newSubs, newRes);
        var subId := id;
        newSubs := newSubs + [SubtopicRowOf(subId, planId, s, i + 1)];
        var rows := ResourceInserts(subId, s.resources.value);
        newRes := newRes + rows;
        id := subId + 1 + |rows|;
        i := i + 1;
      }
      assert subs[..i] == subs;
      ghost var t0 := State();
      CreateSpecAccepted(t0, session, body, now);
      CreatePreservesValid(t0, session, body, now);
      plans := plans + [plan];
      subtopics := subtopics + newSubs;
      resources := resources + newRes;
      nextId := id;
      resp := Created(plan);
      assert State() == CreateSpec(t0, session, body, now).1;
    }
  }

  /** One more turn of the outer loop: the rows of subtopic i follow the
      rows of the subtopics before it. */
  lemma TreeRowsExtend(planId: nat, subs: seq<SubtopicJson>, i: nat,
                       sr: seq<SubtopicRow>, rr: seq<ResourceRow>)
    requires i < |subs| && HasResourceArrays(subs[..i]) && subs[i].resources.Some?
    requires (sr, rr) == TreeRows(planId, planId + 1, subs[..i])
    ensures HasResourceArrays(subs[..i + 1])
    ensures var id := planId + 1 + |sr| + |rr|;
      TreeRows(planId, planId + 1, subs[..i + 1])
        == (sr + [SubtopicRowOf(id, planId, subs[i], i + 1)],
            rr + ResourceRowsFor(id, id + 1, subs[i].resources.value))
  {
    var next := subs[..i + 1];
    assert next[..i] == subs[..i];
    assert next[i] == subs[i];
    assert HasResourceArrays(next) by {
      forall k | 0 <= k < i + 1 ensures next[k].resources.Some? {
        if k < i { assert next[k] == subs[..i][k]; }
      }
    }
    TreeRowsStep(planId, planId + 1, next);
  }

  /** The inner loop of the POST handler: the resource rows of one
      subtopic, inserted one by one with the ids after the subtopic's and
      1-based order indexes. */
  method ResourceInserts(subId: nat, rs: seq<ResourceJson>) returns (rows: seq<ResourceRow>)
    ensures rows == ResourceRowsFor(subId, subId + 1, rs)
    ensures |rows| == |rs|
  {
    rows := [];
    var id := subId + 1;
    var j := 0;
    while j < |rs|
      invariant 0 <= j <= |rs|
      invariant rows == ResourceRowsFor(subId, subId + 1, rs[..j])
      invariant id == subId + 1 + j
    {
      rows := rows + [ResourceRowOf(id, subId, rs[j], j + 1)];
      id := id + 1;
      j := j + 1;
      assert ResourceRowsFor(subId, subId + 1, rs[..j])
          == ResourceRowsFor(subId, subId + 1, rs[..j - 1]) + [ResourceRowOf(id - 1, subId, rs[j - 1], j)];
    }
    assert rs[..j] == rs;
  }

  // ------------------------------------------------ facts about creation

  /** One unfolding of TreeRows: the last subtopic's rows come after the
      rows of the ones before it. */
  lemma TreeRowsStep(planId: nat, first: nat, subs: seq<SubtopicJson>)
    requires HasResourceArrays(subs) && subs != []
    ensures HasResourceArrays(subs[..|subs| - 1])
    ensures var n := |subs| - 1;
      var prev := TreeRows(planId, first, subs[..n]);
      var id := first + |prev.0| + |prev.1|;
      TreeRows(planId, first, subs)
        == (prev.0 + [SubtopicRowOf(id, planId, subs[n], n + 1)],
            prev.1 + ResourceRowsFor(id, id + 1, subs[n].resources.value))
  {
    var n := |subs| - 1;
    forall i | 0 <= i < n ensures subs[..n][i].resources.Some? { assert subs[..n][i] == subs[i]; }
  }

  lemma {:induction false} TreeRowsSizes(planId: nat, first: nat, subs: seq<SubtopicJson>)
    requires HasResourceArrays(subs)
    ensures |TreeRows(planId, first, subs).0| == |subs|
    ensures |TreeRows(planId, first, subs).1| == ResourceTotal(subs)
    decreases |subs|
  {
    if subs != [] {
      TreeRowsStep(planId, first, subs);
      TreeRowsSizes(planId, first, subs[..|subs| - 1]);
    }
  }

  /** The k-th submitted subtopic (0-based) becomes the k-th new subtopic
      row: it references the plan, has order index k+1 and the submitted
      title, description and estimated time. */
  lemma {:induction false} TreeRowsSubtopics(planId: nat, first: nat, subs: seq<SubtopicJson>)
    requires HasResourceArrays(subs)
    ensures var sr := TreeRows(planId, first, subs).0;
      |sr| == |subs| &&
      forall k :: 0 <= k < |sr| ==> sr[k] == SubtopicRowOf(sr[k].id, planId, subs[k], k + 1)
    decreases |subs|
  {
    TreeRowsSizes(planId, first, subs);
    if subs != [] {
      var n := |subs| - 1;
      TreeRowsStep(planId, first, subs);
      TreeRowsSubtopics(planId, first, subs[..n]);
      var sr := TreeRows(planId, first, subs).0;
      var prev := TreeRows(planId, first, subs[..n]).0;
      forall k | 0 <= k < |sr| ensures sr[k] == SubtopicRowOf(sr[k].id, planId, subs[k], k + 1) {
        if k < n {
          assert sr[k] == prev[k];
          assert subs[..n][k] == subs[k];
        }
      }
    }
  }

  /** The resource rows built for one subtopic: consecutive increasing ids
      from `first`, all referencing the subtopic. */
  lemma ResourceRowsForIds(subtopicId: nat, first: nat, res: seq<ResourceJson>)
    ensures var block := ResourceRowsFor(subtopicId, first, res);
      && Increasing(ResourceIds(block)) && InRange(ResourceIds(block), first, first + |res|)
      && forall m :: 0 <= m < |block| ==> block[m].subtopicId == subtopicId
  {
  }

  /** The ids of the inserted rows: increasing within each table, all in
      [first, first + number of rows), and every resource references an
      inserted subtopic. */
  lemma {:induction false} TreeRowsIds(planId: nat, first: nat, subs: seq<SubtopicJson>)
    requires HasResourceArrays(subs)
    ensures var r := TreeRows(planId, first, subs);
      RowIdsWellFormed(r.0, r.1, first, first + |r.0| + |r.1|)
    decreases |subs|
  {
    if subs != [] {
      var n := |subs| - 1;
      TreeRowsStep(planId, first, subs);
      TreeRowsIds(planId, first, subs[..n]);
      var prev := TreeRows(planId, first, subs[..n]);
      var id := first + |prev.0| + |prev.1|;
      var res := subs[n].resources.value;
      ResourceRowsForIds(id, id + 1, res);
      AppendBlockIds(prev.0, prev.1, first, SubtopicRowOf(id, planId, subs[n], n + 1),
                     ResourceRowsFor(id, id + 1, res));
    } else {
      assert SubtopicIds([]) == [] && ResourceIds([]) == [];
    }
  }

  /** The ids of the subtopic and resource rows are increasing and within
      `first .. next`, and every resource row references one of the
      subtopic rows. */
  predicate RowIdsWellFormed(sr: seq<SubtopicRow>, rr: seq<ResourceRow>, first: nat, next: nat)
  {
    && Increasing(SubtopicIds(sr)) && InRange(SubtopicIds(sr), first, next)
    && Increasing(ResourceIds(rr)) && InRange(ResourceIds(rr), first, next)
    && (forall m :: 0 <= m < |rr| ==> rr[m].subtopicId in SubtopicIds(sr))
  }

  /** Appending one subtopic row with the next id and its block of resource
      rows with the ids after it keeps the ids of both sequences increasing
      and in range, and every resource under an appended subtopic. */
  lemma AppendBlockIds(sr: seq<SubtopicRow>, rr: seq<ResourceRow>, first: nat, row: SubtopicRow, block: seq<ResourceRow>)
    requires row.id == first + |sr| + |rr|
    requires RowIdsWellFormed(sr, rr, first, row.id)
    requires Increasing(ResourceIds(block)) && InRange(ResourceIds(block), row.id + 1, row.id + 1 + |block|)
    requires forall m :: 0 <= m < |block| ==> block[m].subtopicId == row.id
    ensures RowIdsWellFormed(sr + [row], rr + block, first, row.id + 1 + |block|)
  {
    assert SubtopicIds(sr + [row]) == SubtopicIds(sr) + [row.id];
    assert ResourceIds(rr + block) == ResourceIds(rr) + ResourceIds(block);
    IncreasingConcat(SubtopicIds(sr), [row.id], row.id);
    IncreasingConcat(ResourceIds(rr), ResourceIds(block), row.id + 1);
    forall m | 0 <= m < |rr + block| ensures (rr + block)[m].subtopicId in SubtopicIds(sr + [row]) {
      if m < |rr| {
        assert (rr + block)[m] == rr[m];
      } else {
        assert (rr + block)[m] == block[m - |rr|];
        assert SubtopicIds(sr + [row])[|sr|] == row.id;
      }
    }
  }

  /** Filtering the resource rows that reference one subtopic. */
  function ResourcesOf(rows: seq<ResourceRow>, subtopicId: nat): (r: seq<ResourceRow>)
    ensures |r| <= |rows|
  {
    if rows == [] then []
    else (if rows[0].subtopicId == subtopicId then [rows[0]] else []) + ResourcesOf(rows[1..], subtopicId)
  }

  lemma {:induction false} ResourcesOfConcat(a: seq<ResourceRow>, b: seq<ResourceRow>, subtopicId: nat)
    ensures ResourcesOf(a + b, subtopicId) == ResourcesOf(a, subtopicId) + ResourcesOf(b, subtopicId)
  {
    if a != [] {
      assert (a + b)[0] == a[0];
      assert (a + b)[1..] == a[1..] + b;
      ResourcesOfConcat(a[1..], b, subtopicId);
    } else {
      assert a + b == b;
    }
  }

  lemma {:induction false} ResourcesOfAll(rows: seq<ResourceRow>, subtopicId: nat)
    requires forall m :: 0 <= m < |rows| ==> rows[m].subtopicId == subtopicId
    ensures ResourcesOf(rows, subtopicId) == rows
  {
    if rows != [] {
      ResourcesOfAll(rows[1..], subtopicId);
      assert rows == [rows[0]] + rows[1..];
    }
  }

  lemma {:induction false} ResourcesOfNone(rows: seq<ResourceRow>, subtopicId: nat)
    requires forall m :: 0 <= m < |rows| ==> rows[m].subtopicId != subtopicId
    ensures ResourcesOf(rows, subtopicId) == []
  {
    if rows != [] { ResourcesOfNone(rows[1..], subtopicId); }
  }

  /** The resources stored under the k-th inserted subtopic are exactly the
      rows built from that subtopic's submitted resources, in order. */
  lemma {:induction false} TreeRowsGrouping(planId: nat, first: nat, subs: seq<SubtopicJson>, k: nat)
    requires HasResourceArrays(subs) && k < |subs|
    ensures var r := TreeRows(planId, first, subs);
      && k < |r.0|
      && ResourcesOf(r.1, r.0[k].id) == ResourceRowsFor(r.0[k].id, r.0[k].id + 1, subs[k].resources.value)
    decreases |subs|
  {
    var n := |subs| - 1;
    TreeRowsStep(planId, first, subs);
    TreeRowsSizes(planId, first, subs[..n]);
    TreeRowsIds(planId, first, subs[..n]);
    var prev := TreeRows(planId, first, subs[..n]);
    var id := first + |prev.0| + |prev.1|;
    var block := ResourceRowsFor(id, id + 1, subs[n].resources.value);
    var row := SubtopicRowOf(id, planId, subs[n], n + 1);
    ResourceRowsForIds(id, id + 1, subs[n].resources.value);
    if k < n {
      TreeRowsGrouping(planId, first, subs[..n], k);
      assert subs[..n][k] == subs[k];
      assert (prev.0 + [row])[k] == prev.0[k];
      assert SubtopicIds(prev.0)[k] == prev.0[k].id;
      GroupingKeepsOld(prev.1, block, prev.0[k].id, id);
    } else {
      assert (prev.0 + [row])[k] == row;
      GroupingOfNew(prev.0, prev.1, block, first, id);
    }
  }

  /** Appending a block under another subtopic leaves the resources of a
      subtopic as they were. */
  lemma GroupingKeepsOld(rr: seq<ResourceRow>, block: seq<ResourceRow>, sid: nat, bid: nat)
    requires sid != bid
    requires forall m :: 0 <= m < |block| ==> block[m].subtopicId == bid
    ensures ResourcesOf(rr + block, sid) == ResourcesOf(rr, sid)
  {
    ResourcesOfConcat(rr, block, sid);
    ResourcesOfNone(block, sid);
  }

  /** Rows that belong to subtopics with ids below `hi` contribute nothing
      to the resources of a subtopic with id `hi` or above. */
  lemma OldRowsIgnored(sr: seq<SubtopicRow>, rr: seq<ResourceRow>, block: seq<ResourceRow>, lo: nat, hi: nat, sid: nat)
    requires InRange(SubtopicIds(sr), lo, hi) && hi <= sid
    requires forall m :: 0 <= m < |rr| ==> rr[m].subtopicId in SubtopicIds(sr)
    ensures ResourcesOf(rr + block, sid) == ResourcesOf(block, sid)
  {
    ResourcesOfConcat(rr, block, sid);
    forall m | 0 <= m < |rr| ensures rr[m].subtopicId != sid {
      var w :| 0 <= w < |sr| && SubtopicIds(sr)[w] == rr[m].subtopicId;
    }
    ResourcesOfNone(rr, sid);
  }

  /** The resources of a new subtopic, appended after rows that belong to
      subtopics with smaller ids, are exactly its block. */
  lemma GroupingOfNew(sr: seq<SubtopicRow>, rr: seq<ResourceRow>, block: seq<ResourceRow>, lo: nat, bid: nat)
    requires InRange(SubtopicIds(sr), lo, bid)
    requires forall m :: 0 <= m < |rr| ==> rr[m].subtopicId in SubtopicIds(sr)
    requires forall m :: 0 <= m < |block| ==> block[m].subtopicId == bid
    ensures ResourcesOf(rr + block, bid) == block
  {
    OldRowsIgnored(sr, rr, block, lo, bid, bid);
    ResourcesOfAll(block, bid);
  }

  lemma IncreasingConcat(a: seq<nat>, b: seq<nat>, n: nat)
    requires Increasing(a) && Increasing(b)
    requires forall i :: 0 <= i < |a| ==> a[i] < n
    requires forall i :: 0 <= i < |b| ==> n <= b[i]
    ensures Increasing(a + b)
  {
  }

  /** CreateSpec on an accepted request, spelled out. */
  lemma CreateSpecAccepted(t: Tables, session: Option<UserId>, body: PlanJson, now: int)
    requires RequiredPresent(body) && HasResourceArrays(body.subtopics.value)
    ensures var r := TreeRows(t.nextId, t.nextId + 1, body.subtopics.value);
      var plan := PlanRowOf(t.nextId, body, Caller(session), now);
      CreateSpec(t, session, body, now)
        == (Created(plan), Tables(t.plans + [plan], t.subtopics + r.0, t.resources + r.1, t.nextId + 1 + |r.0| + |r.1|))
  {
  }

  /** Appending a new plan row with fresh ids, subtopic rows that
      reference it and resource rows that reference those subtopics keeps
      the store's integrity. */
  lemma AppendKeepsValid(t: Tables, plan: PlanRow, sr: seq<SubtopicRow>, rr: seq<ResourceRow>, next: nat)
    requires TablesValid(t)
    requires plan.id == t.nextId < next
    requires Increasing(SubtopicIds(sr)) && InRange(SubtopicIds(sr), t.nextId + 1, next)
    requires Increasing(ResourceIds(rr)) && InRange(ResourceIds(rr), t.nextId + 1, next)
    requires forall k :: 0 <= k < |sr| ==> sr[k].planId == plan.id
    requires forall m :: 0 <= m < |rr| ==> rr[m].subtopicId in SubtopicIds(sr)
    ensures TablesValid(Tables(t.plans + [plan], t.subtopics + sr, t.resources + rr, next))
  {
    var plans := t.plans + [plan];
    var subtopics := t.subtopics + sr;
    var resources := t.resources + rr;
    assert PlanIds(plans) == PlanIds(t.plans) + [t.nextId];
    assert SubtopicIds(subtopics) == SubtopicIds(t.subtopics) + SubtopicIds(sr);
    assert ResourceIds(resources) == ResourceIds(t.resources) + ResourceIds(rr);
    IncreasingConcat(PlanIds(t.plans), [t.nextId], t.nextId);
    IncreasingConcat(SubtopicIds(t.subtopics), SubtopicIds(sr), t.nextId);
    IncreasingConcat(ResourceIds(t.resources), ResourceIds(rr), t.nextId);
    forall i | 0 <= i < |subtopics| ensures subtopics[i].planId in PlanIds(plans) {
      if i < |t.subtopics| {
        assert subtopics[i] == t.subtopics[i];
      } else {
        assert subtopics[i] == sr[i - |t.subtopics|];
        assert PlanIds(plans)[|t.plans|] == plan.id;
      }
    }
    forall i | 0 <= i < |resources| ensures resources[i].subtopicId in SubtopicIds(subtopics) {
      if i < |t.resources| {
        assert resources[i] == t.resources[i];
      } else {
        assert resources[i] == rr[i - |t.resources|];
      }
    }
  }

  /** Creation keeps the store's integrity. */
  lemma CreatePreservesValid(t: Tables, session: Option<UserId>, body: PlanJson, now: int)
    requires TablesValid(t)
    ensures TablesValid(CreateSpec(t, session, body, now).1)
  {
    if RequiredPresent(body) && HasResourceArrays(body.subtopics.value) {
      var subs := body.subtopics.value;
      CreateSpecAccepted(t, session, body, now);
      var plan := PlanRowOf(t.nextId, body, Caller(session), now);
      var r := TreeRows(t.nextId, t.nextId + 1, subs);
      TreeRowsIds(t.nextId, t.nextId + 1, subs);
      TreeRowsSubtopics(t.nextId, t.nextId + 1, subs);
      AppendKeepsValid(t, plan, r.0, r.1, t.nextId + 1 + |r.0| + |r.1|);
    }
  }

  /** A request without one of the required fields is answered 400 and
      changes nothing; an empty subtopics array is accepted. */
  lemma CreateRejectsMissingFields(t: Tables, session: Option<UserId>, body: PlanJson, now: int)
    ensures CreateSpec(t, session, body, now).0 == MissingFields <==> !RequiredPresent(body)
    ensures !RequiredPresent(body) ==> CreateSpec(t, session, body, now).1 == t
    ensures RequiredPresent(body) && body.subtopics == Some([]) ==>
      CreateSpec(t, session, body, now).0.Created? &&
      CreateSpec(t, session, body, now).1 == Tables(t.plans + [CreateSpec(t, session, body, now).0.plan],
                                                     t.subtopics, t.resources, t.nextId + 1)
  {
    if RequiredPresent(body) && body.subtopics == Some([]) {
      assert HasResourceArrays([]);
    }
  }

  /** All or nothing: unless the plan is created the tables are unchanged;
      when it is, exactly one plan row, one row per submitted subtopic and
      one row per submitted resource are appended and the existing rows
      are kept as they were. */
  lemma CreateAllOrNothing(t: Tables, session: Option<UserId>, body: PlanJson, now: int)
    ensures var r := CreateSpec(t, session, body, now);
      && (!r.0.Created? ==> r.1 == t)
      && (r.0.Created? <==> RequiredPresent(body) && HasResourceArrays(body.subtopics.value))
      && (r.0.Created? ==>
            && r.1.plans == t.plans + [r.0.plan]
            && |r.1.subtopics| == |t.subtopics| + |body.subtopics.value|
            && |r.1.resources| == |t.resources| + ResourceTotal(body.subtopics.value)
            && r.1.subtopics[..|t.subtopics|] == t.subtopics
            && r.1.resources[..|t.resources|] == t.resources)
  {
    if RequiredPresent(body) && HasResourceArrays(body.subtopics.value) {
      CreateSpecAccepted(t, session, body, now);
      TreeRowsSizes(t.nextId, t.nextId + 1, body.subtopics.value);
      var r := TreeRows(t.nextId, t.nextId + 1, body.subtopics.value);
      assert (t.subtopics + r.0)[..|t.subtopics|] == t.subtopics;
      assert (t.resources + r.1)[..|t.resources|] == t.resources;
    }
  }

  /** The created plan is owned by the caller, or by nobody when there is
      no (truthy) caller id; it takes the submitted fields and the fresh id. */
  lemma CreatedPlanOwner(t: Tables, session: Option<UserId>, body: PlanJson, now: int)
    requires CreateSpec(t, session, body, now).0.Created?
    ensures var p := CreateSpec(t, session, body, now).0.plan;
      && (Truthy(session) ==> p.owner == session)
      && (!Truthy(session) ==> p.owner.None?)
      && p.id == t.nextId && Some(p.title) == body.title && Some(p.topic) == body.topic
      && p.createdAt == now
  {
  }

  /** The k-th submitted subtopic is stored with order index k+1 and
      references the new plan. */
  lemma CreatedSubtopics(t: Tables, session: Option<UserId>, body: PlanJson, now: int, k: nat)
    requires CreateSpec(t, session, body, now).0.Created?
    requires k < |body.subtopics.value|
    ensures var r := CreateSpec(t, session, body, now);
      var s := body.subtopics.value[k];
      && |t.subtopics| + k < |r.1.subtopics|
      && r.1.subtopics[|t.subtopics| + k].planId == r.0.plan.id
      && r.1.subtopics[|t.subtopics| + k].orderIndex == k + 1
      && r.1.subtopics[|t.subtopics| + k] == SubtopicRowOf(r.1.subtopics[|t.subtopics| + k].id, r.0.plan.id, s, k + 1)
  {
    var subs := body.subtopics.value;
    CreateSpecAccepted(t, session, body, now);
    TreeRowsSubtopics(t.nextId, t.nextId + 1, subs);
    var sr := TreeRows(t.nextId, t.nextId + 1, subs).0;
    assert CreateSpec(t, session, body, now).1.subtopics[|t.subtopics| + k] == sr[k];
  }

  /** The resources stored under the k-th new subtopic row are the ones
      submitted for it, in order: the j-th has order index j+1, the
      submitted fields, and completed true exactly when it was submitted
      as true. */
  lemma CreatedResources(t: Tables, session: Option<UserId>, body: PlanJson, now: int, k: nat)
    requires TablesValid(t)
    requires CreateSpec(t, session, body, now).0.Created?
    requires k < |body.subtopics.value|
    ensures var t' := CreateSpec(t, session, body, now).1;
      var res := body.subtopics.value[k].resources.value;
      && |t.subtopics| + k < |t'.subtopics|
      && var sub := t'.subtopics[|t.subtopics| + k];
         var stored := ResourcesOf(t'.resources, sub.id);
         && |stored| == |res|
         && forall j :: 0 <= j < |res| ==>
              && stored[j].subtopicId == sub.id && stored[j].orderIndex == j + 1
              && stored[j].title == res[j].title && stored[j].kind == res[j].kind && stored[j].url == res[j].url
              && (stored[j].completed <==> res[j].completed == Some(true))
  {
    var subs := body.subtopics.value;
    CreateSpecAccepted(t, session, body, now);
    StoredUnderNew(t, subs, k);
    var r := TreeRows(t.nextId, t.nextId + 1, subs);
    var t' := CreateSpec(t, session, body, now).1;
    assert t'.subtopics[|t.subtopics| + k] == r.0[k];
    assert t'.resources == t.resources + r.1;
    ResourceRowsForContents(r.0[k].id, subs[k].resources.value);
  }

  /** In a valid store, the resources stored under the k-th new subtopic
      are exactly the block inserted for it. */
  lemma StoredUnderNew(t: Tables, subs: seq<SubtopicJson>, k: nat)
    requires TablesValid(t) && HasResourceArrays(subs) && k < |subs|
    ensures var r := TreeRows(t.nextId, t.nextId + 1, subs);
      && k < |r.0|
      && ResourcesOf(t.resources + r.1, r.0[k].id) == ResourceRowsFor(r.0[k].id, r.0[k].id + 1, subs[k].resources.value)
  {
    TreeRowsGrouping(t.nextId, t.nextId + 1, subs, k);
    TreeRowsIds(t.nextId, t.nextId + 1, subs);
    var r := TreeRows(t.nextId, t.nextId + 1, subs);
    assert SubtopicIds(r.0)[k] == r.0[k].id;
    OldRowsIgnored(t.subtopics, t.resources, r.1, 0, t.nextId, r.0[k].id);
  }

  lemma ResourceRowsForContents(sid: nat, res: seq<ResourceJson>)
    ensures var b := ResourceRowsFor(sid, sid + 1, res);
      && |b| == |res|
      && forall j :: 0 <= j < |res| ==>
           && b[j].subtopicId == sid && b[j].orderIndex == j + 1
           && b[j].title == res[j].title && b[j].kind == res[j].kind && b[j].url == res[j].url
           && (b[j].completed <==> res[j].completed == Some(true))
  {
  }

  // -------------------------------------------------------------- listing

  /** One element of the GET response: the plan's columns and the three
      aggregated counts. */
  datatype PlanSummary = PlanSummary(
    id: nat,
    title: string,
    description: Option<string>,
    topic: string,
    difficulty: string,
    timeCommitment: string,
    estimatedDuration: Option<string>,
    createdAt: int,
    updatedAt: int,
    subtopicCount: nat,
    totalResources: nat,
    completedResources: nat)

  datatype ListResponse =
    | Listed(plans: seq<PlanSummary>)   // 200
    | ListFailed                        // 500 "Failed to fetch study plans"

  /** `parseInt(...) || 10`, given parseInt's result (None for NaN). */
  function LimitOf(parsed: Option<int>): (limit: int)
    ensures limit != 0
    ensures parsed.Some? && parsed.value != 0 ==> limit == parsed.value
    ensures parsed.None? || parsed.value == 0 ==> limit == 10
  {
    if parsed.Some? && parsed.value != 0 then parsed.value else 10
  }

  /** `parseInt(...) || 0`, given parseInt's result (None for NaN). */
  function OffsetOf(parsed: Option<int>): (offset: int)
    ensures parsed.Some? ==> offset == parsed.value
    ensures parsed.None? ==> offset == 0
  {
    if parsed.Some? then parsed.value else 0
  }

  /** `WHERE sp.user_id = ${userId}`, or `WHERE sp.user_id IS NULL` when
      there is no caller: both are `owner == Caller(session)`. */
  function VisibleTo(plans: seq<PlanRow>, owner: Option<UserId>): seq<PlanRow>
  {
    if plans == [] then []
    else (if plans[0].owner == owner then [plans[0]] else []) + VisibleTo(plans[1..], owner)
  }

  /** The subtopic rows joined to one plan. */
  function SubtopicsOf(rows: seq<SubtopicRow>, planId: nat): seq<SubtopicRow>
  {
    if rows == [] then []
    else (if rows[0].planId == planId then [rows[0]] else []) + SubtopicsOf(rows[1..], planId)
  }

  /** The resource rows joined to any of the given subtopic ids. */
  function ResourcesUnder(rows: seq<ResourceRow>, subtopicIds: seq<nat>): seq<ResourceRow>
  {
    if rows == [] then []
    else (if rows[0].subtopicId in subtopicIds then [rows[0]] else []) + ResourcesUnder(rows[1..], subtopicIds)
  }

  /** The resource rows with `completed = true`. */
  function CompletedOnly(rows: seq<ResourceRow>): seq<ResourceRow>
  {
    if rows == [] then []
    else (if rows[0].completed then [rows[0]] else []) + CompletedOnly(rows[1..])
  }

  function IdSet(xs: seq<nat>): set<nat>
  {
    set x | x in xs
  }

  /** The aggregate row of one plan: `COUNT(DISTINCT st.id)`,
      `COUNT(DISTINCT r.id)` and `COUNT(DISTINCT CASE WHEN r.completed =
      true THEN r.id END)` over the left joins. */
  function Summarize(p: PlanRow, subs: seq<SubtopicRow>, res: seq<ResourceRow>): (s: PlanSummary)
    ensures s.id == p.id && s.title == p.title && s.createdAt == p.createdAt
    ensures s.completedResources <= s.totalResources
    ensures SubtopicsOf(subs, p.id) == [] ==>
      s.subtopicCount == 0 && s.totalResources == 0 && s.completedResources == 0
  {
    var mine := SubtopicsOf(subs, p.id);
    var under := ResourcesUnder(res, SubtopicIds(mine));
    ResourcesUnderNothing(res, SubtopicIds(mine));
    CompletedOnlyWithin(under);
    SubsetCard(IdSet(ResourceIds(CompletedOnly(under))), IdSet(ResourceIds(under)));
    PlanSummary(p.id, p.title, p.description, p.topic, p.difficulty, p.timeCommitment,
                p.estimatedDuration, p.createdAt, p.updatedAt,
                |IdSet(SubtopicIds(mine))|, |IdSet(ResourceIds(under))|,
                |IdSet(ResourceIds(CompletedOnly(under)))|)
  }

  lemma SubsetCard(a: set<nat>, b: set<nat>)
    requires a <= b
    ensures |a| <= |b|
  {
    assert b == a + (b - a);
  }

  /** Insertion into a newest-first sequence; a plan goes before the plans
      created at the same time. */
  function InsertNewest(p: PlanRow, sorted: seq<PlanRow>): seq<PlanRow>
  {
    if sorted == [] || p.createdAt >= sorted[0].createdAt then [p] + sorted
    else [sorted[0]] + InsertNewest(p, sorted[1..])
  }

  /** `ORDER BY sp.created_at DESC`; plans created at the same time keep
      their order in the table. */
  function NewestFirst(plans: seq<PlanRow>): seq<PlanRow>
  {
    if plans == [] then [] else InsertNewest(plans[0], NewestFirst(plans[1..]))
  }

  predicate SortedNewestFirst(plans: seq<PlanRow>)
  {
    forall i, j :: 0 <= i < j < |plans| ==> plans[i].createdAt >= plans[j].createdAt
  }

  predicate NoNewerThan(plans: seq<PlanRow>, c: int)
  {
    forall i :: 0 <= i < |plans| ==> plans[i].createdAt <= c
  }

  /** `LIMIT limit OFFSET offset`. */
  function Window<T>(s: seq<T>, limit: nat, offset: nat): (w: seq<T>)
    ensures |w| <= limit
    ensures forall k :: 0 <= k < |w| ==> offset + k < |s| && w[k] == s[offset + k]
    ensures offset + limit <= |s| ==> |w| == limit
    ensures offset == 0 && |s| <= limit ==> w == s
    ensures |w| == (if offset >= |s| then 0 else if offset + limit <= |s| then limit else |s| - offset)
  {
    var lo := if offset < |s| then offset else |s|;
    var hi := if offset + limit < |s| then offset + limit else |s|;
    s[lo..hi]
  }

  /** GET /api/study-plans. A negative limit or offset reaches the
      database, which refuses it (PostgreSQL rejects a negative LIMIT or
      OFFSET): the handler then answers 500. */
  function ListPlans(t: Tables, session: Option<UserId>, limitParam: Option<int>, offsetParam: Option<int>): ListResponse
  {
    var limit := LimitOf(limitParam);
    var offset := OffsetOf(offsetParam);
    if limit < 0 || offset < 0 then ListFailed
    else
      Listed(Summaries(Window(NewestFirst(VisibleTo(t.plans, Caller(session))), limit, offset),
                       t.subtopics, t.resources))
  }

  /** The summary of every plan of a page, in the page's order. */
  function Summaries(page: seq<PlanRow>, subs: seq<SubtopicRow>, res: seq<ResourceRow>): (r: seq<PlanSummary>)
    ensures |r| == |page|
    ensures forall i :: 0 <= i < |page| ==> r[i] == Summarize(page[i], subs, res)
  {
    seq(|page|, i requires 0 <= i < |page| => Summarize(page[i], subs, res))
  }

  // ---------------------------------------------------- facts about listing

  lemma {:induction false} VisibleToMembers(plans: seq<PlanRow>, owner: Option<UserId>)
    ensures forall q :: q in VisibleTo(plans, owner) <==> q in plans && q.owner == owner
  {
    if plans != [] {
      VisibleToMembers(plans[1..], owner);
      assert plans == [plans[0]] + plans[1..];
    }
  }

  lemma {:induction false} InsertNewestMultiset(p: PlanRow, sorted: seq<PlanRow>)
    ensures multiset(InsertNewest(p, sorted)) == multiset(sorted) + multiset{p}
  {
    if sorted != [] && p.createdAt < sorted[0].createdAt {
      InsertNewestMultiset(p, sorted[1..]);
      assert sorted == [sorted[0]] + sorted[1..];
      assert multiset(sorted) == multiset{sorted[0]} + multiset(sorted[1..]);
    }
  }

  lemma {:induction false} InsertNewestBound(p: PlanRow, sorted: seq<PlanRow>, c: int)
    requires NoNewerThan(sorted, c) && p.createdAt <= c
    ensures NoNewerThan(InsertNewest(p, sorted), c)
  {
    if sorted != [] && p.createdAt < sorted[0].createdAt {
      InsertNewestBound(p, sorted[1..], c);
      var rest := InsertNewest(p, sorted[1..]);
      assert forall i :: 0 < i < |[sorted[0]] + rest| ==> ([sorted[0]] + rest)[i] == rest[i - 1];
    }
  }

  lemma SortedCons(x: PlanRow, rest: seq<PlanRow>)
    requires SortedNewestFirst(rest) && NoNewerThan(rest, x.createdAt)
    ensures SortedNewestFirst([x] + rest)
  {
    forall i, j | 0 <= i < j < |[x] + rest|
      ensures ([x] + rest)[i].createdAt >= ([x] + rest)[j].createdAt
    {
      assert ([x] + rest)[j] == rest[j - 1];
      if i > 0 { assert ([x] + rest)[i] == rest[i - 1]; }
    }
  }

  lemma {:induction false} InsertNewestSorted(p: PlanRow, sorted: seq<PlanRow>)
    requires SortedNewestFirst(sorted)
    ensures SortedNewestFirst(InsertNewest(p, sorted))
  {
    if sorted == [] || p.createdAt >= sorted[0].createdAt {
      assert NoNewerThan(sorted, p.createdAt) by {
        forall i | 0 <= i < |sorted| ensures sorted[i].createdAt <= p.createdAt {
          if i > 0 { assert sorted[0].createdAt >= sorted[i].createdAt; }
        }
      }
      SortedCons(p, sorted);
    } else {
      var tail := sorted[1..];
      assert SortedNewestFirst(tail) by {
        forall i, j | 0 <= i < j < |tail| ensures tail[i].createdAt >= tail[j].createdAt {
          assert sorted[i + 1].createdAt >= sorted[j + 1].createdAt;
        }
      }
      assert NoNewerThan(tail, sorted[0].createdAt) by {
        forall i | 0 <= i < |tail| ensures tail[i].createdAt <= sorted[0].createdAt {
          assert sorted[0].createdAt >= sorted[i + 1].createdAt;
        }
      }
      InsertNewestSorted(p, tail);
      InsertNewestBound(p, tail, sorted[0].createdAt);
      SortedCons(sorted[0], InsertNewest(p, tail));
    }
  }

  /** The ordering is newest first and lists each plan exactly as often as
      the input does. */
  lemma {:induction false} NewestFirstSorted(plans: seq<PlanRow>)
    ensures SortedNewestFirst(NewestFirst(plans))
    ensures multiset(NewestFirst(plans)) == multiset(plans)
  {
    if plans != [] {
      NewestFirstSorted(plans[1..]);
      InsertNewestSorted(plans[0], NewestFirst(plans[1..]));
      InsertNewestMultiset(plans[0], NewestFirst(plans[1..]));
      assert plans == [plans[0]] + plans[1..];
    }
  }

  /** The listing fails exactly when the limit or the offset is negative. */
  lemma ListPlansFails(t: Tables, session: Option<UserId>, limitParam: Option<int>, offsetParam: Option<int>)
    ensures ListPlans(t, session, limitParam, offsetParam).ListFailed?
      <==> LimitOf(limitParam) < 0 || OffsetOf(offsetParam) < 0
  {
  }

  /** A successful listing holds at most `limit` summaries, newest first,
      with no more completed resources than resources in any of them. */
  lemma ListPlansOrdered(t: Tables, session: Option<UserId>, limitParam: Option<int>, offsetParam: Option<int>)
    requires ListPlans(t, session, limitParam, offsetParam).Listed?
    ensures var r := ListPlans(t, session, limitParam, offsetParam).plans;
      && |r| <= LimitOf(limitParam)
      && (forall i, j :: 0 <= i < j < |r| ==> r[i].createdAt >= r[j].createdAt)
      && (forall i :: 0 <= i < |r| ==> r[i].completedResources <= r[i].totalResources)
  {
    var visible := VisibleTo(t.plans, Caller(session));
    var w := Window(NewestFirst(visible), LimitOf(limitParam), OffsetOf(offsetParam));
    NewestFirstSorted(visible);
    WindowSorted(NewestFirst(visible), LimitOf(limitParam), OffsetOf(offsetParam));
    SummariesOrdered(w, t.subtopics, t.resources);
  }

  lemma WindowSorted(s: seq<PlanRow>, limit: nat, offset: nat)
    requires SortedNewestFirst(s)
    ensures SortedNewestFirst(Window(s, limit, offset))
  {
    var w := Window(s, limit, offset);
    forall i, j | 0 <= i < j < |w| ensures w[i].createdAt >= w[j].createdAt {
      assert w[i] == s[offset + i] && w[j] == s[offset + j];
    }
  }

  lemma WindowMembers<T>(s: seq<T>, limit: nat, offset: nat)
    ensures forall x :: x in Window(s, limit, offset) ==> x in s
  {
    var w := Window(s, limit, offset);
    forall x | x in w ensures x in s {
      var k :| 0 <= k < |w| && w[k] == x;
      assert s[offset + k] == x;
    }
  }

  lemma SummariesOrdered(page: seq<PlanRow>, subs: seq<SubtopicRow>, res: seq<ResourceRow>)
    requires SortedNewestFirst(page)
    ensures var r := Summaries(page, subs, res);
      && (forall i, j :: 0 <= i < j < |r| ==> r[i].createdAt >= r[j].createdAt)
      && (forall i :: 0 <= i < |r| ==> r[i].completedResources <= r[i].totalResources)
  {
  }

  /** Any page of a listing: its length is what LIMIT/OFFSET leave of the
      caller's plans sorted newest first, the i-th of those plans in the
      window is summarised at position i - offset, and the plans sorted are
      exactly the caller's. So every plan the caller may see is listed on
      the page whose window covers its position. */
  lemma ListPlansPage(t: Tables, session: Option<UserId>, limitParam: Option<int>, offsetParam: Option<int>)
    requires ListPlans(t, session, limitParam, offsetParam).Listed?
    ensures var r := ListPlans(t, session, limitParam, offsetParam).plans;
      var sorted := NewestFirst(VisibleTo(t.plans, Caller(session)));
      var limit := LimitOf(limitParam);
      var offset := OffsetOf(offsetParam);
      && |r| == (if offset >= |sorted| then 0 else if offset + limit <= |sorted| then limit else |sorted| - offset)
      && (forall i :: offset <= i < |sorted| && i < offset + limit ==>
            r[i - offset] == Summarize(sorted[i], t.subtopics, t.resources))
      && (forall q :: q in sorted <==> q in t.plans && q.owner == Caller(session))
  {
    var sorted := NewestFirst(VisibleTo(t.plans, Caller(session)));
    var limit: nat := LimitOf(limitParam);
    var offset: nat := OffsetOf(offsetParam);
    ListPlansUnfold(t, session, limitParam, offsetParam, sorted, limit, offset);
    PageOf(sorted, limit, offset, t.subtopics, t.resources);
    SortedMembers(t.plans, Caller(session));
  }

  lemma ListPlansUnfold(t: Tables, session: Option<UserId>, limitParam: Option<int>, offsetParam: Option<int>,
                        sorted: seq<PlanRow>, limit: nat, offset: nat)
    requires ListPlans(t, session, limitParam, offsetParam).Listed?
    requires sorted == NewestFirst(VisibleTo(t.plans, Caller(session)))
    requires limit == LimitOf(limitParam) && offset == OffsetOf(offsetParam)
    ensures ListPlans(t, session, limitParam, offsetParam).plans
         == Summaries(Window(sorted, limit, offset), t.subtopics, t.resources)
  {
  }

  /** The summaries of a window, position by position. */
  lemma PageOf(sorted: seq<PlanRow>, limit: nat, offset: nat, subs: seq<SubtopicRow>, res: seq<ResourceRow>)
    ensures var r := Summaries(Window(sorted, limit, offset), subs, res);
      && |r| == (if offset >= |sorted| then 0 else if offset + limit <= |sorted| then limit else |sorted| - offset)
      && (forall i :: offset <= i < |sorted| && i < offset + limit ==>
            r[i - offset] == Summarize(sorted[i], subs, res))
  {
    var w := Window(sorted, limit, offset);
    forall i | offset <= i < |sorted| && i < offset + limit
      ensures Summaries(w, subs, res)[i - offset] == Summarize(sorted[i], subs, res)
    {
      assert w[i - offset] == sorted[i];
    }
  }

  /** The plans sorted for a listing are exactly those of the owner. */
  lemma SortedMembers(plans: seq<PlanRow>, owner: Option<UserId>)
    ensures forall q :: q in NewestFirst(VisibleTo(plans, owner)) <==> q in plans && q.owner == owner
  {
    var visible := VisibleTo(plans, owner);
    var sorted := NewestFirst(visible);
    VisibleToMembers(plans, owner);
    NewestFirstSorted(visible);
    forall q ensures q in sorted <==> q in visible {
      assert q in sorted <==> q in multiset(sorted);
      assert q in visible <==> q in multiset(visible);
    }
  }

  /** Every summary in a listing is that of a plan owned by the caller, or
      of a plan without owner when there is no caller. */
  lemma ListPlansOwned(t: Tables, session: Option<UserId>, limitParam: Option<int>, offsetParam: Option<int>)
    requires ListPlans(t, session, limitParam, offsetParam).Listed?
    ensures var r := ListPlans(t, session, limitParam, offsetParam).plans;
      forall i :: 0 <= i < |r| ==>
        exists q :: q in t.plans && q.owner == Caller(session)
                    && r[i] == Summarize(q, t.subtopics, t.resources)
  {
    var sorted := NewestFirst(VisibleTo(t.plans, Caller(session)));
    var w := Window(sorted, LimitOf(limitParam), OffsetOf(offsetParam));
    var r := Summaries(w, t.subtopics, t.resources);
    assert ListPlans(t, session, limitParam, offsetParam).plans == r;
    SortedMembers(t.plans, Caller(session));
    WindowMembers(sorted, LimitOf(limitParam), OffsetOf(offsetParam));
    forall i | 0 <= i < |r|
      ensures exists q :: q in t.plans && q.owner == Caller(session)
                          && r[i] == Summarize(q, t.subtopics, t.resources)
    {
      assert w[i] in w && w[i] in sorted;
    }
  }

  /** With no offset and a limit that covers them, every plan visible to
      the caller is in the listing. */
  lemma ListPlansComplete(t: Tables, session: Option<UserId>, limitParam: Option<int>, offsetParam: Option<int>, q: PlanRow)
    requires ListPlans(t, session, limitParam, offsetParam).Listed?
    requires OffsetOf(offsetParam) == 0
    requires |t.plans| <= LimitOf(limitParam)
    requires q in t.plans && q.owner == Caller(session)
    ensures Summarize(q, t.subtopics, t.resources) in ListPlans(t, session, limitParam, offsetParam).plans
  {
    var r := ListPlans(t, session, limitParam, offsetParam).plans;
    var visible := VisibleTo(t.plans, Caller(session));
    var sorted := NewestFirst(visible);
    VisibleToMembers(t.plans, Caller(session));
    NewestFirstSorted(visible);
    VisibleToLength(t.plans, Caller(session));
    assert |sorted| == |visible| by {
      assert |multiset(sorted)| == |multiset(visible)|;
    }
    var w := Window(sorted, LimitOf(limitParam), 0);
    assert w == sorted;
    assert q in multiset(sorted);
    var k :| 0 <= k < |w| && w[k] == q;
    assert r[k] == Summarize(q, t.subtopics, t.resources);
  }

  lemma {:induction false} VisibleToLength(plans: seq<PlanRow>, owner: Option<UserId>)
    ensures |VisibleTo(plans, owner)| <= |plans|
  {
    if plans != [] { VisibleToLength(plans[1..], owner); }
  }

  // -------------------------------------------- counts after a creation

  lemma {:induction false} SubtopicsOfConcat(a: seq<SubtopicRow>, b: seq<SubtopicRow>, planId: nat)
    ensures SubtopicsOf(a + b, planId) == SubtopicsOf(a, planId) + SubtopicsOf(b, planId)
  {
    if a != [] {
      assert (a + b)[0] == a[0];
      assert (a + b)[1..] == a[1..] + b;
      SubtopicsOfConcat(a[1..], b, planId);
    } else {
      assert a + b == b;
    }
  }

  lemma {:induction false} SubtopicsOfOnly(rows: seq<SubtopicRow>, planId: nat, all: bool)
    requires forall k :: 0 <= k < |rows| ==> (rows[k].planId == planId <==> all)
    ensures SubtopicsOf(rows, planId) == if all then rows else []
  {
    if rows != [] {
      SubtopicsOfOnly(rows[1..], planId, all);
      assert rows == [rows[0]] + rows[1..];
    }
  }

  lemma {:induction false} ResourcesUnderConcat(a: seq<ResourceRow>, b: seq<ResourceRow>, ids: seq<nat>)
    ensures ResourcesUnder(a + b, ids) == ResourcesUnder(a, ids) + ResourcesUnder(b, ids)
  {
    if a != [] {
      assert (a + b)[0] == a[0];
      assert (a + b)[1..] == a[1..] + b;
      ResourcesUnderConcat(a[1..], b, ids);
    } else {
      assert a + b == b;
    }
  }

  lemma {:induction false} ResourcesUnderOnly(rows: seq<ResourceRow>, ids: seq<nat>, all: bool)
    requires forall k :: 0 <= k < |rows| ==> (rows[k].subtopicId in ids <==> all)
    ensures ResourcesUnder(rows, ids) == if all then rows else []
  {
    if rows != [] {
      ResourcesUnderOnly(rows[1..], ids, all);
      assert rows == [rows[0]] + rows[1..];
    }
  }

  lemma {:induction false} ResourcesUnderNothing(rows: seq<ResourceRow>, ids: seq<nat>)
    ensures ids == [] ==> ResourcesUnder(rows, ids) == []
  {
    if rows != [] { ResourcesUnderNothing(rows[1..], ids); }
  }

  lemma {:induction false} CompletedOnlyWithin(rows: seq<ResourceRow>)
    ensures forall x :: x in CompletedOnly(rows) ==> x in rows && x.completed
  {
    if rows != [] { CompletedOnlyWithin(rows[1..]); }
  }

  lemma {:induction false} CompletedOnlyConcat(a: seq<ResourceRow>, b: seq<ResourceRow>)
    ensures CompletedOnly(a + b) == CompletedOnly(a) + CompletedOnly(b)
  {
    if a != [] {
      assert (a + b)[0] == a[0];
      assert (a + b)[1..] == a[1..] + b;
      CompletedOnlyConcat(a[1..], b);
    } else {
      assert a + b == b;
    }
  }

  // ------------------------------------------- counts of any listed plan

  /** In a valid store, the three counts of a plan's aggregate row are the
      number of its subtopic rows, the number of resource rows under them,
      and the number of those that are completed: ids are unique, so
      counting distinct ids counts rows. */
  lemma SummarizeCounts(t: Tables, p: PlanRow)
    requires TablesValid(t)
    ensures var mine := SubtopicsOf(t.subtopics, p.id);
      var under := ResourcesUnder(t.resources, SubtopicIds(mine));
      var s := Summarize(p, t.subtopics, t.resources);
      && s.subtopicCount == |mine|
      && s.totalResources == |under|
      && s.completedResources == |CompletedOnly(under)|
  {
    var mine := SubtopicsOf(t.subtopics, p.id);
    var under := ResourcesUnder(t.resources, SubtopicIds(mine));
    SubtopicsOfIncreasing(t.subtopics, p.id);
    ResourcesUnderIncreasing(t.resources, SubtopicIds(mine));
    CompletedOnlyIncreasing(under);
    IncreasingCard(SubtopicIds(mine));
    IncreasingCard(ResourceIds(under));
    IncreasingCard(ResourceIds(CompletedOnly(under)));
  }

  /** The rows counted as the subtopics of a plan are exactly the rows of
      the table that reference it. */
  lemma {:induction false} SubtopicsOfWithin(rows: seq<SubtopicRow>, planId: nat)
    ensures forall x :: x in SubtopicsOf(rows, planId) <==> x in rows && x.planId == planId
  {
    if rows != [] {
      SubtopicsOfWithin(rows[1..], planId);
      assert rows == [rows[0]] + rows[1..];
    }
  }

  lemma SubtopicsOfIncreasing(rows: seq<SubtopicRow>, planId: nat)
    requires Increasing(SubtopicIds(rows))
    ensures Increasing(SubtopicIds(SubtopicsOf(rows, planId)))
  {
    var c := SubtopicsOf(rows, planId);
    assert SubtopicRowIdsIncreasing(rows) by {
      forall i, j | 0 <= i < j < |rows| ensures rows[i].id < rows[j].id {
        assert SubtopicIds(rows)[i] < SubtopicIds(rows)[j];
      }
    }
    SubtopicsOfRowsIncreasing(rows, planId);
    forall i, j | 0 <= i < j < |c| ensures SubtopicIds(c)[i] < SubtopicIds(c)[j] {
      assert c[i].id < c[j].id;
    }
  }

  predicate SubtopicRowIdsIncreasing(rows: seq<SubtopicRow>)
  {
    forall i, j :: 0 <= i < j < |rows| ==> rows[i].id < rows[j].id
  }

  lemma {:induction false} SubtopicsOfRowsIncreasing(rows: seq<SubtopicRow>, planId: nat)
    requires SubtopicRowIdsIncreasing(rows)
    ensures SubtopicRowIdsIncreasing(SubtopicsOf(rows, planId))
  {
    if rows != [] {
      var rest := rows[1..];
      assert SubtopicRowIdsIncreasing(rest) by {
        forall i, j | 0 <= i < j < |rest| ensures rest[i].id < rest[j].id {
          assert rest[i] == rows[i + 1] && rest[j] == rows[j + 1];
        }
      }
      SubtopicsOfRowsIncreasing(rest, planId);
      var c := SubtopicsOf(rest, planId);
      if rows[0].planId == planId {
        SubtopicsOfWithin(rest, planId);
        forall x | x in c ensures rows[0].id < x.id {
          var m :| 0 <= m < |rest| && rest[m] == x;
          assert rows[m + 1] == x;
        }
        SubtopicRowIdsCons(rows[0], c);
      }
    }
  }

  lemma SubtopicRowIdsCons(x: SubtopicRow, rest: seq<SubtopicRow>)
    requires SubtopicRowIdsIncreasing(rest)
    requires forall y :: y in rest ==> x.id < y.id
    ensures SubtopicRowIdsIncreasing([x] + rest)
  {
    var d := [x] + rest;
    forall i, j | 0 <= i < j < |d| ensures d[i].id < d[j].id {
      assert d[j] == rest[j - 1] && rest[j - 1] in rest;
      if i > 0 { assert d[i] == rest[i - 1]; }
    }
  }

  lemma {:induction false} ResourcesUnderWithin(rows: seq<ResourceRow>, ids: seq<nat>)
    ensures forall x :: x in ResourcesUnder(rows, ids) <==> x in rows && x.subtopicId in ids
  {
    if rows != [] {
      ResourcesUnderWithin(rows[1..], ids);
      assert rows == [rows[0]] + rows[1..];
    }
  }

  lemma ResourcesUnderIncreasing(rows: seq<ResourceRow>, ids: seq<nat>)
    requires Increasing(ResourceIds(rows))
    ensures Increasing(ResourceIds(ResourcesUnder(rows, ids)))
  {
    var c := ResourcesUnder(rows, ids);
    assert RowIdsIncreasing(rows) by {
      forall i, j | 0 <= i < j < |rows| ensures rows[i].id < rows[j].id {
        assert ResourceIds(rows)[i] < ResourceIds(rows)[j];
      }
    }
    ResourcesUnderRowsIncreasing(rows, ids);
    forall i, j | 0 <= i < j < |c| ensures ResourceIds(c)[i] < ResourceIds(c)[j] {
      assert c[i].id < c[j].id;
    }
  }

  lemma {:induction false} ResourcesUnderRowsIncreasing(rows: seq<ResourceRow>, ids: seq<nat>)
    requires RowIdsIncreasing(rows)
    ensures RowIdsIncreasing(ResourcesUnder(rows, ids))
  {
    if rows != [] {
      var rest := rows[1..];
      assert RowIdsIncreasing(rest) by {
        forall i, j | 0 <= i < j < |rest| ensures rest[i].id < rest[j].id {
          assert rest[i] == rows[i + 1] && rest[j] == rows[j + 1];
        }
      }
      ResourcesUnderRowsIncreasing(rest, ids);
      var c := ResourcesUnder(rest, ids);
      if rows[0].subtopicId in ids {
        ResourcesUnderWithin(rest, ids);
        forall x | x in c ensures rows[0].id < x.id {
          var m :| 0 <= m < |rest| && rest[m] == x;
          assert rows[m + 1] == x;
        }
        RowIdsCons(rows[0], c);
      }
    }
  }

  lemma IncreasingTail(xs: seq<nat>)
    requires xs != [] && Increasing(xs)
    ensures Increasing(xs[1..])
  {
    forall i, j | 0 <= i < j < |xs[1..]| ensures xs[1..][i] < xs[1..][j] {
      assert xs[i + 1] < xs[j + 1];
    }
  }

  lemma IncreasingCons(x: nat, rest: seq<nat>)
    requires Increasing(rest)
    requires forall i :: 0 <= i < |rest| ==> x < rest[i]
    ensures Increasing([x] + rest)
  {
    forall i, j | 0 <= i < j < |[x] + rest| ensures ([x] + rest)[i] < ([x] + rest)[j] {
      assert ([x] + rest)[j] == rest[j - 1];
      if i > 0 { assert ([x] + rest)[i] == rest[i - 1]; }
    }
  }

  lemma CompletedOnlyIncreasing(rows: seq<ResourceRow>)
    requires Increasing(ResourceIds(rows))
    ensures Increasing(ResourceIds(CompletedOnly(rows)))
  {
    var c := CompletedOnly(rows);
    assert RowIdsIncreasing(rows) by {
      forall i, j | 0 <= i < j < |rows| ensures rows[i].id < rows[j].id {
        assert ResourceIds(rows)[i] < ResourceIds(rows)[j];
      }
    }
    CompletedRowsIncreasing(rows);
    forall i, j | 0 <= i < j < |c| ensures ResourceIds(c)[i] < ResourceIds(c)[j] {
      assert c[i].id < c[j].id;
    }
  }

  predicate RowIdsIncreasing(rows: seq<ResourceRow>)
  {
    forall i, j :: 0 <= i < j < |rows| ==> rows[i].id < rows[j].id
  }

  lemma {:induction false} CompletedRowsIncreasing(rows: seq<ResourceRow>)
    requires RowIdsIncreasing(rows)
    ensures RowIdsIncreasing(CompletedOnly(rows))
  {
    if rows != [] {
      var rest := rows[1..];
      assert RowIdsIncreasing(rest) by {
        forall i, j | 0 <= i < j < |rest| ensures rest[i].id < rest[j].id {
          assert rest[i] == rows[i + 1] && rest[j] == rows[j + 1];
        }
      }
      CompletedRowsIncreasing(rest);
      var c := CompletedOnly(rest);
      if rows[0].completed {
        CompletedOnlyWithin(rest);
        forall x | x in rest ensures rows[0].id < x.id {
          var m :| 0 <= m < |rest| && rest[m] == x;
          assert rows[m + 1] == x;
        }
        RowIdsCons(rows[0], c);
      }
    }
  }

  lemma RowIdsCons(x: ResourceRow, rest: seq<ResourceRow>)
    requires RowIdsIncreasing(rest)
    requires forall y :: y in rest ==> x.id < y.id
    ensures RowIdsIncreasing([x] + rest)
  {
    var d := [x] + rest;
    forall i, j | 0 <= i < j < |d| ensures d[i].id < d[j].id {
      assert d[j] == rest[j - 1] && rest[j - 1] in rest;
      if i > 0 { assert d[i] == rest[i - 1]; }
    }
  }

  /** Resource rows built from submitted resources, position by position,
      are completed exactly as often as the submission says. */
  lemma {:induction false} CompletedOnlyCount(rows: seq<ResourceRow>, res: seq<ResourceJson>)
    requires |rows| == |res|
    requires forall j :: 0 <= j < |rows| ==> rows[j].completed == StoredCompleted(res[j].completed)
    ensures |CompletedOnly(rows)| == CompletedCount(res)
  {
    if rows != [] { CompletedOnlyCount(rows[1..], res[1..]); }
  }

  lemma {:induction false} TreeRowsCompleted(planId: nat, first: nat, subs: seq<SubtopicJson>)
    requires HasResourceArrays(subs)
    ensures |CompletedOnly(TreeRows(planId, first, subs).1)| == CompletedTotal(subs)
    decreases |subs|
  {
    if subs != [] {
      var n := |subs| - 1;
      TreeRowsStep(planId, first, subs);
      TreeRowsCompleted(planId, first, subs[..n]);
      var prev := TreeRows(planId, first, subs[..n]);
      var id := first + |prev.0| + |prev.1|;
      var block := ResourceRowsFor(id, id + 1, subs[n].resources.value);
      CompletedOnlyConcat(prev.1, block);
      CompletedOnlyCount(block, subs[n].resources.value);
    }
  }

  lemma {:induction false} IncreasingCard(xs: seq<nat>)
    requires Increasing(xs)
    ensures |IdSet(xs)| == |xs|
  {
    if xs != [] {
      var rest := xs[1..];
      IncreasingTail(xs);
      IncreasingCard(rest);
      HeadNotInTail(xs);
      IdSetCons(xs);
    }
  }

  lemma IdSetCons(xs: seq<nat>)
    requires xs != []
    ensures IdSet(xs) == {xs[0]} + IdSet(xs[1..])
  {
    assert xs == [xs[0]] + xs[1..];
  }

  lemma HeadNotInTail(xs: seq<nat>)
    requires xs != [] && Increasing(xs)
    ensures xs[0] !in IdSet(xs[1..])
  {
    forall m | 0 <= m < |xs| - 1 ensures xs[1..][m] != xs[0] {
      assert xs[0] < xs[m + 1];
    }
  }

  /** Count consistency: listed right after its creation, a plan reports
      as many subtopics as were submitted, as many resources as were
      submitted under them, and as many completed resources as were
      submitted with `completed: true`. */
  lemma CreatedPlanCounts(t: Tables, session: Option<UserId>, body: PlanJson, now: int)
    requires TablesValid(t)
    requires CreateSpec(t, session, body, now).0.Created?
    ensures var r := CreateSpec(t, session, body, now);
      var s := Summarize(r.0.plan, r.1.subtopics, r.1.resources);
      && s.subtopicCount == |body.subtopics.value|
      && s.totalResources == ResourceTotal(body.subtopics.value)
      && s.completedResources == CompletedTotal(body.subtopics.value)
  {
    var subs := body.subtopics.value;
    CreateSpecAccepted(t, session, body, now);
    var plan := PlanRowOf(t.nextId, body, Caller(session), now);
    var tr := TreeRows(t.nextId, t.nextId + 1, subs);
    TreeRowsSizes(t.nextId, t.nextId + 1, subs);
    TreeRowsIds(t.nextId, t.nextId + 1, subs);
    TreeRowsSubtopics(t.nextId, t.nextId + 1, subs);
    TreeRowsCompleted(t.nextId, t.nextId + 1, subs);
    OnlyNewSubtopics(t, tr.0, plan.id);
    var ids := SubtopicIds(tr.0);
    OnlyNewResources(t, tr.1, ids);
    IncreasingCard(ids);
    IncreasingCard(ResourceIds(tr.1));
    CompletedOnlyIncreasing(tr.1);
    IncreasingCard(ResourceIds(CompletedOnly(tr.1)));
  }

  /** In a valid store, the subtopics of a plan with the next id are
      exactly the ones appended for it. */
  lemma OnlyNewSubtopics(t: Tables, added: seq<SubtopicRow>, planId: nat)
    requires TablesValid(t) && planId == t.nextId
    requires forall k :: 0 <= k < |added| ==> added[k].planId == planId
    ensures SubtopicsOf(t.subtopics + added, planId) == added
  {
    SubtopicsOfConcat(t.subtopics, added, planId);
    forall k | 0 <= k < |t.subtopics| ensures t.subtopics[k].planId != planId {
      var w :| 0 <= w < |t.plans| && PlanIds(t.plans)[w] == t.subtopics[k].planId;
    }
    SubtopicsOfOnly(t.subtopics, planId, false);
    SubtopicsOfOnly(added, planId, true);
  }

  /** In a valid store, the resources under subtopics with ids from the
      counter on are exactly the ones appended under them. */
  lemma OnlyNewResources(t: Tables, added: seq<ResourceRow>, ids: seq<nat>)
    requires TablesValid(t)
    requires forall k :: 0 <= k < |ids| ==> t.nextId <= ids[k]
    requires forall k :: 0 <= k < |added| ==> added[k].subtopicId in ids
    ensures ResourcesUnder(t.resources + added, ids) == added
  {
    ResourcesUnderConcat(t.resources, added, ids);
    forall k | 0 <= k < |t.resources| ensures t.resources[k].subtopicId !in ids {
      var w :| 0 <= w < |t.subtopics| && SubtopicIds(t.subtopics)[w] == t.resources[k].subtopicId;
    }
    ResourcesUnderOnly(t.resources, ids, false);
    ResourcesUnderOnly(added, ids, true);
  }
}
