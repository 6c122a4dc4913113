# AI Study Planner: a Dafny model of its study-plan core

A study plan is a tree. A plan has ordered subtopics, and each subtopic has
ordered resources (videos, articles and quizzes), each with a completed flag.
This project models the part of the AI Study Planner web application that
creates, lists, normalises and displays that tree, and proves what that part
promises:

- **Plan store** (`StudyPlans`, `study_plans.dfy`):
  - The three tables are a class, `PlanStore`, holding sequences of plan,
    subtopic and resource rows and a fresh-id counter.
  - `POST /api/study-plans` is the method `PlanStore.Create`. It checks the
    required fields, then builds the new rows with the route's two nested
    loops in local buffers. It writes them to the tables only when every
    insert has succeeded, so a failure leaves all three tables untouched.
  - `GET /api/study-plans` is the pure function `ListPlans`. It filters the
    plans by owner, computes the three counts the SQL query aggregates,
    orders newest first and applies `LIMIT`/`OFFSET`, using the
    `parseInt(...) || default` rules.
- **Plan generation** (`Generation`, `generation.dfy`):
  - `POST /api/generate-study-plan` is the method `Generate`. It checks the
    topic, then inspects the completion service's answer, which is an input.
  - The returned skeleton is normalised in place by a `Draft` object: the
    nested `forEach` resets every `completed` flag to false, then the
    caller's id is attached.
  - The JSON skeleton shared by both routes is defined in `Payload`
    (`payload.dfy`).
- **Client-side logic**:
  - `MyStudyPlans` (`my_study_plans.dfy`): the card percentage, the search
    and the completion filter, and removing a deleted plan from the list.
    The search is modelled both as the page writes it, where it can throw,
    and corrected; the filter is stated over the corrected search.
  - `Overview` (`study_plan_overview.dfy`): per-subtopic and overall
    counts, the set of expanded subtopics, and the decision a click on a
    resource takes.
  - `Sidebar` (`left_sidebar.dfy`): which menu item is highlighted, and the
    user's display name and email line.
  - `Settings` (`settings.dfy`): the label derived from a notification key,
    and the single-field updates of the settings record.
- **Shared helpers** (`Common`, `common.dfy`):
  - `Option`;
  - JavaScript truthiness of an optional string (`Truthy`);
  - the caller's id as the routes compute it (`Caller`, for
    `session?.user?.id` followed by `|| null`);
  - ASCII case mapping, and substring search (`Includes`).

The session lookup (`auth()`), the clock and the completion service are
parameters of the operations. For each handler, a response datatype names
every outcome: `Created` / `MissingFields` / `CreateFailed` for creation,
`Listed` / `ListFailed` for listing, and `Generated` / `TopicRequired` /
`GenerationFailed` for generation.

## Model

| member | source | states |
|---|---|---|
| StudyPlans.PlanStore.Create | src/app/api/study-plans/route.js:77-142 | The response and the new tables are those of `CreateRequestSpec`: an unparsable or null body answers 500 and changes nothing; otherwise `CreateSpec` decides: a rejected request changes nothing, an accepted one appends the rows its two nested loops insert. The store's integrity is kept: ids are fresh and increasing, every subtopic belongs to a stored plan and every resource to a stored subtopic. |
| StudyPlans.StoredCompleted | src/app/api/study-plans/route.js:126 | A resource is stored as completed exactly when it was submitted with `completed: true`. It is stored as false when `completed` is absent or false. |
| StudyPlans.CreateRejectsMissingFields | src/app/api/study-plans/route.js:94-99 | The answer is 400 exactly when title, topic, difficulty or timeCommitment is falsy or subtopics is absent, and the tables are then unchanged. An empty subtopics array passes and creates a plan with no subtopics. |
| StudyPlans.CreateAllOrNothing | src/app/api/study-plans/route.js:102-132 | All or nothing. Unless the plan is created, the tables are unchanged. A plan is created exactly when the fields are present and every subtopic has a resources array. When it is, exactly one plan row, \|subtopics\| subtopic rows and the total number of submitted resources are appended, and the earlier rows are kept as they were. |
| StudyPlans.CreatePreservesValid | src/app/api/study-plans/route.js:102-132 | Creation keeps referential integrity: ids stay unique and increasing, and every subtopic and resource refers to an existing parent. |
| StudyPlans.CreatedPlanOwner | src/app/api/study-plans/route.js:104-108 | The new plan is owned by the caller when the caller has a truthy id, and by nobody otherwise. It takes the fresh id, the submitted title and topic, and the creation time. |
| StudyPlans.CreatedSubtopics | src/app/api/study-plans/route.js:111-118 | The k-th submitted subtopic is the k-th new subtopic row. It references the new plan, has order index k+1 and carries the submitted fields. |
| StudyPlans.CreatedResources | src/app/api/study-plans/route.js:120-127 | The resources stored under the k-th new subtopic are exactly the ones submitted for it, in order. The j-th has order index j+1 and the submitted title, type and url, and it is completed exactly when submitted as true. |
| StudyPlans.CreatedPlanCounts | src/app/api/study-plans/route.js:29-34 | Listed after its creation, a plan reports the number of submitted subtopics, the number of submitted resources, and the number submitted as completed. |
| StudyPlans.LimitOf | src/app/api/study-plans/route.js:11 | The limit is the parsed integer unless parsing fails or gives 0, in which case it is 10; it is never 0. |
| StudyPlans.OffsetOf | src/app/api/study-plans/route.js:12 | The offset is the parsed integer, or 0 when parsing fails. |
| StudyPlans.Summarize | src/app/api/study-plans/route.js:29-34 | A summary carries the plan's id, title and creation time. Its completed count never exceeds its resource count, and a plan without subtopics reports three zeros. |
| StudyPlans.SummarizeCounts | src/app/api/study-plans/route.js:29-34 | For any plan of a valid store, the counts are exact. `subtopic_count` is the number of its subtopic rows. `total_resources` is the number of resource rows under those subtopics. `completed_resources` is the number of those rows that are completed. |
| StudyPlans.VisibleToMembers | src/app/api/study-plans/route.js:16-63 | The owner filter keeps exactly the plans whose owner is the given one. With no caller the given owner is none, which stands for `user_id IS NULL`. |
| StudyPlans.NewestFirstSorted | src/app/api/study-plans/route.js:37 | The ordering is newest first, and it is a permutation of its input (the same multiset). |
| StudyPlans.Window | src/app/api/study-plans/route.js:38 | The window holds at most `limit` elements, and its k-th element is element offset+k of the input. Its length is exactly what LIMIT/OFFSET leave: 0 past the end, `limit` when the input is long enough, otherwise the rest after the offset. It is the whole input when the offset is 0 and the input fits. |
| StudyPlans.ListPlansFails | src/app/api/study-plans/route.js:67-72 | The listing fails (500) exactly when the effective limit or offset is negative, which the database refuses. |
| StudyPlans.ListPlansOrdered | src/app/api/study-plans/route.js:37-38 | A listing holds at most `limit` summaries, ordered newest first, and none of them reports more completed resources than resources. |
| StudyPlans.ListPlansOwned | src/app/api/study-plans/route.js:16-63 | Every listed summary is the aggregate of a stored plan owned by the caller, or of a plan without owner when there is no caller. |
| StudyPlans.ListPlansPage | src/app/api/study-plans/route.js:16-63 | For any limit and offset, the page holds exactly the summaries of the caller's plans, sorted newest first, at positions offset .. offset+limit (capped at their number), in that order. The plans sorted are exactly those the caller may see. |
| StudyPlans.ListPlansComplete | src/app/api/study-plans/route.js:16-63 | With offset 0 and a limit covering the store, every plan visible to the caller is in the listing. |
| Generation.Status | src/app/api/generate-study-plan/route.js:11-171 | A generated plan is answered 200, a missing topic 400 and every failure 500, each exactly in its own case. |
| Generation.FirstMessage | src/app/api/generate-study-plan/route.js:146 | There is a message exactly when the answer has a choices array whose first choice has a message. |
| Generation.FirstWithoutResources | src/app/api/generate-study-plan/route.js:154-155 | Every subtopic before the returned index has a resources array, and the subtopic at that index, when there is one, has none. |
| Generation.Draft.ResetCompleted | src/app/api/generate-study-plan/route.js:153-158 | The in-place reset succeeds exactly when subtopics and every resources array are present. Then every subtopic is reset. Otherwise the subtopics before the first one without resources are reset and the rest are untouched, or the skeleton is untouched when there are no subtopics. |
| Generation.Draft.AttachUser | src/app/api/generate-study-plan/route.js:160-163 | The skeleton's userId becomes the caller's id when that is truthy; otherwise the skeleton is untouched. |
| Generation.Generate | src/app/api/generate-study-plan/route.js:3-173 | The handler, running the in-place reset and the user attachment on a `Draft`, answers exactly what `GenerateSpec` gives. |
| Generation.ResetAllIncomplete | src/app/api/generate-study-plan/route.js:153-158 | After the reset every resource of every subtopic is not completed, whatever the service sent. |
| Generation.ResetAllKeepsShape | src/app/api/generate-study-plan/route.js:153-158 | The reset changes nothing but the completed flags. The number and order of subtopics and resources and all other fields are kept. |
| Generation.ResetAllDependsOnShape | src/app/api/generate-study-plan/route.js:153-158 | Two skeletons that differ only in their completed flags reset to the same skeleton. |
| Generation.ResetAllIdempotent | src/app/api/generate-study-plan/route.js:153-158 | Resetting twice is the same as resetting once. |
| Generation.TopicChecked | src/app/api/generate-study-plan/route.js:11-13 | The answer is 400 "Topic is required" exactly when the body has a falsy topic. It then does not depend on the service's answer, because the service is never asked. |
| Generation.UpstreamFailureFails | src/app/api/generate-study-plan/route.js:138-171 | A non-ok answer, or one without a first choice carrying a message, gives a 500 with the fixed message. |
| Generation.GeneratedPlan | src/app/api/generate-study-plan/route.js:150-165 | A generated plan is the service's skeleton with every resource not completed and nothing else changed except userId. userId is the caller's id when the caller has a truthy one, and otherwise what the service sent. |
| Generation.GeneratedUserId | src/app/api/generate-study-plan/route.js:160-163 | For a skeleton without a userId of its own, the generated plan has a userId exactly when the caller has a truthy id, and then that id. |
| Generation.GeneratedSkeletonRejected | src/app/api/generate-study-plan/route.js:47-133 | A generated skeleton that conforms to the requested schema is refused (400) by the creation endpoint, and the tables are unchanged. |
| Generation.GenerateWithTopic | src/app/api/generate-study-plan/route.js:160-165 | The corrected handler answers with the handler's status and error message. A skeleton it returns carries the requested topic, which is truthy, and has every resource not completed. It agrees with the handler's skeleton on every other field. |
| Generation.GeneratedWithTopicSaved | src/app/api/generate-study-plan/route.js:47-133 | With the topic attached, a conforming skeleton with non-empty title, difficulty and time commitment is accepted by the creation endpoint. |
| MyStudyPlans.CardProgressNearest | src/app/my-study-plans/page.jsx:22-24 | The card shows 0 without resources, and otherwise the integer nearest to 100·completed/total, with halves rounded up. It is never negative, and it is at most 100 when completed ≤ total. |
| MyStudyPlans.AlmostCompleteShowsHundred | src/app/my-study-plans/page.jsx:22-24 | With 199 of 200 resources completed the card shows 100, yet the "completed" filter leaves the plan out: the card rounds (lines 22-24) while the filter compares the exact quotient (lines 198-215). |
| MyStudyPlans.MatchesSearchAsWritten | src/app/my-study-plans/page.jsx:195-196 | The page's test throws exactly when the title does not contain the term and the description is null. |
| MyStudyPlans.SearchThrowsWithoutDescription | src/app/my-study-plans/page.jsx:195-196 | A plan titled "Go" without description, searched for "x", makes the page's test throw. |
| MyStudyPlans.MatchesSearchAgrees | src/app/my-study-plans/page.jsx:195-196 | Wherever the page's test does not throw, and always when there is a description, it agrees with the corrected test: a case-insensitive match on title or description. The empty term matches every plan. |
| MyStudyPlans.PercentFacts | src/app/my-study-plans/page.jsx:200-208 | For a plan with resources, the percentage is positive, below 100 or exactly 100 exactly when the completed count is positive, below the total or equal to it. |
| MyStudyPlans.KeepMeaning | src/app/my-study-plans/page.jsx:198-215 | What each filter keeps among the search matches. "completed": total > 0 and completed = total. "in-progress": total > 0 and 0 < completed < total. "not-started": completed = 0, plans without resources included. "all" or any other value: every match. |
| MyStudyPlans.ExactlyOneStatus | src/app/my-study-plans/page.jsx:199-213 | With completed ≤ total, every plan is exactly one of not started, in progress and completed. |
| MyStudyPlans.FilteredAsWrittenAgrees | src/app/my-study-plans/page.jsx:194-216 | The page's filter throws exactly when its search test throws on some listed plan. Otherwise it yields the same list as the filter with the corrected search. |
| MyStudyPlans.FilteredSubsequence | src/app/my-study-plans/page.jsx:194-216 | The filtered list is an order-preserving subsequence of the listed plans, and it holds exactly the plans the filter keeps. |
| MyStudyPlans.RemoveIdSpec | src/app/my-study-plans/page.jsx:186 | After removal no plan has the id, and every other plan stays, in order. Removing again changes nothing, and a list without that id is unchanged. |
| MyStudyPlans.MyStudyPlansPage.constructor | src/app/my-study-plans/page.jsx:142-145 | The page starts with no plans, loading, an empty search term and the "all" filter. |
| MyStudyPlans.MyStudyPlansPage.Fetched | src/app/my-study-plans/page.jsx:153-167 | An ok answer replaces the plans, any other answer keeps them, and loading ends either way. |
| MyStudyPlans.MyStudyPlansPage.SetSearchTerm | src/app/my-study-plans/page.jsx:290 | Only the search term changes. |
| MyStudyPlans.MyStudyPlansPage.SetFilterBy | src/app/my-study-plans/page.jsx:302 | Only the filter changes. |
| MyStudyPlans.MyStudyPlansPage.DeletePlan | src/app/my-study-plans/page.jsx:179-192 | After a confirmed and ok delete, the plans with that id are removed from the list; otherwise the page is unchanged. |
| Overview.CompletedInBounds | src/components/StudyPlanOverview.jsx:33-36 | A subtopic's completed count never exceeds its resource count. It equals that count exactly when every resource is completed, and is 0 exactly when none is. |
| Overview.CompletedInConcat | src/components/StudyPlanOverview.jsx:33-35 | Counting completed resources distributes over concatenation. |
| Overview.SubtopicProgressBounds | src/components/StudyPlanOverview.jsx:37-38 | Subtopic progress is 0 without resources and always within 0..100. With resources, it is 100 exactly when every resource is completed. |
| Overview.OverallCounts | src/components/StudyPlanOverview.jsx:243-251 | The overall totals are the counts over all of the plan's resources taken together, so completed never exceeds total. |
| Overview.OverallConcat | src/components/StudyPlanOverview.jsx:243-251 | The two reductions are additive: the counts of two plans placed one after the other are the sums of their counts. |
| Overview.OverallProgressBounds | src/components/StudyPlanOverview.jsx:252-253 | Overall progress is 0 for a plan without resources, and always within 0..100. |
| Overview.DecideSpec | src/components/StudyPlanOverview.jsx:40-85 | An update is sent exactly for a resource that is not completed, has a truthy id, and is a quiz or has a url. The update is for that id and always sets completed to true. A quiz opens nothing; any other resource opens its url exactly when it has one. |
| Overview.DecideIdempotentOnCompleted | src/components/StudyPlanOverview.jsx:43-66 | Clicking a completed resource never sends an update. |
| Overview.ToggleSpec | src/components/StudyPlanOverview.jsx:218-226 | A toggle flips the membership of exactly the given index and keeps all others. Toggling twice restores the set. |
| Overview.OverviewState.constructor | src/components/StudyPlanOverview.jsx:214-216 | The component starts with the given plan and only the first subtopic expanded. |
| Overview.OverviewState.ToggleSubtopic | src/components/StudyPlanOverview.jsx:218-226 | The expanded set becomes its toggle at the index, and the plan is unchanged. |
| Overview.OverviewState.Refresh | src/components/StudyPlanOverview.jsx:228-241 | A refresh is requested exactly when the plan has a truthy id. The plan is replaced only by an ok answer to that request, and the expanded set is unchanged. |
| Sidebar.IsActiveSpec | src/components/LeftSidebar.jsx:33-38 | The dashboard is active exactly on "/". Any other item is active exactly when its path is a prefix of the current path. |
| Sidebar.HelpActiveOnHelpdesk | src/components/LeftSidebar.jsx:37 | "/help" is also highlighted on "/helpdesk". |
| Sidebar.InitiallyNoneActive | src/components/LeftSidebar.jsx:16-38 | With the initial empty path, none of the five menu items is active. |
| Sidebar.AtMostOneActive | src/components/LeftSidebar.jsx:100-245 | For any current path, at most one of the five menu items is highlighted. |
| Sidebar.BeforeFirstSpec | src/components/LeftSidebar.jsx:73 | `split(c)[0]` is a prefix without c, followed by c unless it is the whole string, and it is the whole string when c does not occur. |
| Sidebar.DisplayNameSpec | src/components/LeftSidebar.jsx:73 | The displayed name is never empty. It is the name when that is non-empty. Otherwise, for an email with a non-empty local part, it is the email up to its first "@", or the whole email when it has none. Without a user, or without a usable name and email (absent, empty, or starting with "@"), it is "Study Learner". |
| Sidebar.EmptyLocalPartFallsBack | src/components/LeftSidebar.jsx:73 | An email starting with "@" falls back to "Study Learner". |
| Sidebar.EmailLineSpec | src/components/LeftSidebar.jsx:79 | The email line is the email when it is non-empty, and "learner@email.com" otherwise; it is never empty. |
| Settings.SpaceBeforeCapitalsLength | src/app/settings/page.jsx:301 | Inserting a space before each capital lengthens the key by the number of capitals. |
| Settings.LabelLength | src/app/settings/page.jsx:301 | The label is as long as the key plus its number of capitals A–Z. |
| Settings.LabelOfCapitalised | src/app/settings/page.jsx:301 | A key starting with a capital yields a label starting with a space. |
| Settings.LabelOfEmailNotifications | src/app/settings/page.jsx:301 | "emailNotifications" is shown as "Email Notifications". |
| Settings.SpaceBeforeCapitalsConcat | src/app/settings/page.jsx:301 | The space insertion works character by character, so it distributes over concatenation. |
| Settings.RemoveSpacesUndoes | src/app/settings/page.jsx:301 | Removing the spaces undoes the insertion for a key without spaces. |
| Settings.LabelRoundTrip | src/app/settings/page.jsx:301 | For a non-empty key without spaces that starts with a lower-case letter, the key is recovered from its label. |
| Settings.ToggleNotificationSpec | src/app/settings/page.jsx:312-318 | A switch flips only its own key: every other key and section is unchanged, and an absent key becomes true. Switching twice restores a present key. |
| Settings.PrivacyTogglesSpec | src/app/settings/page.jsx:405-439 | The analytics and marketing switches each flip only their own flag, and each undoes itself. |
| Settings.SetProfileSpec | src/app/settings/page.jsx:188-260 | A profile edit sets only the edited field. The email, which is not editable, and every other section are unchanged, and writing back the current value changes nothing. |
| Settings.SetPrivacySpec | src/app/settings/page.jsx:362-385 | A visibility choice sets only its own field. |
| Settings.SetAppearanceSpec | src/app/settings/page.jsx:513-563 | A theme, date-format or time-format choice sets only its own field, and writing back the current value changes nothing. |
| Settings.SettingsPage.constructor | src/app/settings/page.jsx:24-51 | The page starts with the initial settings record. |
| Settings.SettingsPage.OnNotificationClick | src/app/settings/page.jsx:312-318 | The record becomes its notification toggle for the key. |
| Settings.SettingsPage.OnAnalyticsClick | src/app/settings/page.jsx:405-411 | The record becomes its analytics toggle. |
| Settings.SettingsPage.OnMarketingClick | src/app/settings/page.jsx:434-440 | The record becomes its marketing toggle. |
| Settings.SettingsPage.OnProfileInput | src/app/settings/page.jsx:191-259 | The record becomes its profile edit. |
| Settings.SettingsPage.OnPrivacyInput | src/app/settings/page.jsx:364-385 | The record becomes its visibility edit. |
| Settings.SettingsPage.OnAppearanceInput | src/app/settings/page.jsx:515-563 | The record becomes its appearance edit. |

## Left out

- I/O and outside services become parameters:
  - The session lookup `auth()` is an input `Option<UserId>`.
  - The clock is an integer `now`.
  - The completion service's answer is an `Upstream` value whose message content has already been parsed (None when `JSON.parse` would throw).
  - A request body that is unparsable or JSON `null` is None: destructuring it throws, and both handlers answer 500. Any other body that is not an object is a request with every field absent.
- Request bodies carry the JSON types of the skeleton's schema: strings, a boolean (or absent) `completed`, and arrays of subtopics and resources. Bodies with other value types are not represented. Two behaviours fall outside the model:
  - A number or `true` as `subtopics` passes the `!subtopics` guard (src/app/api/study-plans/route.js:94). Its `length` is undefined, so the loop inserts no subtopic and the answer is 201.
  - A non-boolean `completed` such as `"yes"` is inserted as is by `resource.completed || false` (src/app/api/study-plans/route.js:126).
- The prompt text and the request sent to the completion service are not modelled; only the schema's shape enters, as `Payload.ConformsToSchema`.
- The SQL engine becomes in-memory tables:
  - All three tables draw their ids from one counter. The database has one sequence per table, and either way the ids are fresh and increasing. A rejected or failed creation consumes no id here, while a database sequence does not roll back the values it handed out; ids are opaque, so no property depends on this.
  - Failures of the database itself (connection, constraint violation) are not modelled. The only refusals modelled are a missing `resources` array during creation and a negative LIMIT/OFFSET.
- MyStudyPlans.Keep: the filter and the page's `FilteredPlans` use the corrected search `MatchesSearch`, so they yield a list where the page's filter throws (a listed plan with a null description whose title misses the term). `FilteredAsWritten` models the throw, and `FilteredAsWrittenAgrees` shows the two agree whenever the page's filter does not throw.
- StudyPlans.PlanStore.Create: the 201 body is modelled as the inserted plan row. `result[0]` at src/app/api/study-plans/route.js:134 depends on the return value of the driver's `sql.transaction`, which is not part of this model.
- StudyPlans.NewestFirst: SQL leaves the order of plans with equal `created_at` unspecified. The model keeps their table order, and the lemmas about it claim only newest-first order and permutation.
- StudyPlans.ListPlans: a non-numeric `limit`/`offset` is parseInt's NaN, an absent `Option<int>`. The counts are naturals. If the driver returns COUNT results as strings, the strict `=== 0` of the "not-started" filter would never hold; that is not modelled.
- Percentages:
  - The unrounded percentages (progress bars, filter thresholds) are exact `real` quotients, not IEEE doubles.
  - The card's `Math.round` is the integer formula floor((200c + t) / 2t), the exact quotient rounded half up. On the page, the IEEE product can land just below a half. For 23 of 40 resources, `23 / 40 * 100` is 57.49999999999999, so the page shows 57 where `CardProgress` gives 58 (likewise 29 of 200: 14 against 15).
- Case mapping: `toLowerCase`/`toUpperCase` are ASCII-only. For `/^./`, the first character is assumed not to be a line terminator.
- In the overview, a subtopic without a `resources` array (which makes the component throw) is not represented. Resources are a sequence there, not an optional one.
- In the settings record the notifications are a map. The display order of `Object.entries` is not modelled.
- The settings page's save and delete-account handlers and the active tab are not modelled. The handlers only log, wait and alert, and change no settings.
- Rendering, CSS, icons, and navigation through `window.location` and `window.open`: navigation enters only as the url a click opens (`Overview.Decision`).
- Header.jsx repeats the sidebar's display-name expression; it is modelled once, as `Sidebar.DisplayName`.
- The mock-data pages (progress tracker, profile), the sign-in and logout pages, and the generator component's orchestration of the two requests (src/components/StudyPlanGenerator.jsx is not part of this model beyond being the caller that saves a generated skeleton unchanged).
- The endpoints `/api/study-plans/[id]` and `/api/resources/[id]`: updating, deleting and toggling resources server-side are not modelled, and their results enter the client only as an ok flag or a fetched value.

## Findings

| source | as written | input that shows it | evidently intended | confidence | as-written member | corrected member |
|---|---|---|---|---|---|---|
| src/app/api/generate-study-plan/route.js:47-133 | The schema requested from the completion service has no `topic` property and sets additionalProperties false. The handler returns the skeleton without a topic, and the generator component posts it unchanged. The creation endpoint requires a truthy `topic` (src/app/api/study-plans/route.js:94). | Any schema-conforming skeleton: creation answers 400 "Missing required fields"; the handler as written is Generation.GenerateSpec, and Generation.GeneratedWithTopicSaved proves the corrected one's plans are accepted. | The generated plan carries the requested topic, so that it can be saved. | not executed | Generation.GeneratedSkeletonRejected | Generation.GenerateWithTopic |
| src/app/my-study-plans/page.jsx:195-196 | The search calls `plan.description.toLowerCase()` whenever the title does not match. A plan may be saved without description (src/app/api/study-plans/route.js:94 does not require one), and its description is then null. | A plan titled "Go" with a null description, searched for "x": the filter throws (lemma MyStudyPlans.SearchThrowsWithoutDescription). | A missing description matches no term. | not executed | MyStudyPlans.MatchesSearchAsWritten | MyStudyPlans.MatchesSearch |
