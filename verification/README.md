# Farm jobs marketplace: demo store, dashboard logic and forms in Dafny

This project models the client-side core of a marketplace where farmers post
jobs and labourers apply to them. The model covers:

- the in-memory demo store that `JobService` uses when no backend is
  configured (two tables, two id counters);
- the dashboard's job filter, its per-job aggregation of applications, its
  recent-activity selection, its pending count and its accept/reject actions;
- the job posting form and the login / sign-up dialog;
- the canned replies of the government data service and the statistics and
  category logic of the farming-tools service.

Modules, one per source file plus three shared ones:

- `Wrappers`: `Option`, which stands for a JavaScript value that may be `undefined`.
- `Seqs`: the array operations the source uses, with their facts.
  - `filter`, specified as an order- and multiplicity-preserving selection;
  - `findIndex`;
  - a stable descending `sort` and `slice(0, n)`;
  - `[...new Set(xs)]`.
- `Text`: ASCII `toLowerCase` and `includes`.
- `JobService`: the records, the id scheme, the `DemoStore` class and the read functions.
- `Dashboard`: the `filteredJobs` test, aggregation, recent activity and the `DashboardState` class.
- `JobPostingModal`, `LoginModal`: the forms as classes over their React state.
- `GovernmentApiService`, `ToolService`: pure functions over fixed data and query rows.

Representation choices:

- Strings are `seq<char>`. Lower-casing is ASCII only.
- An optional string that the source tests for truthiness is a `string`, with `""` for absent. Other optional values are `Option`.
- Timestamps are integers or date strings passed in by the caller.
- Decimal constants that matter are kept in tenths (a rating of 4.5 is 45, rainfall 2.5 is 25).
- Whatever the backend or the auth client would return is a parameter: a `CreateOutcome` or an `AuthOutcome`.

Ids are modelled exactly as `job-N` and `app-N`, with `N` printed in
decimal. The proof that two counter values give different ids goes through
the decimal numeral. The store's invariant (`DemoStore.Valid`) states three
things:

- every stored id was issued from a counter value below the current counter;
- those counter values increase along each table;
- so ids are pairwise distinct, and the next id is fresh.

React state is modelled as class fields. A handler sees the state of the
render it was created in. So a handler that sets a state variable and then
calls a loader does not pass the new value to that loader. The `Dashboard`
methods are written to read exactly the state the source reads. Two handlers
behave differently from what their buttons promise because of this; see
Findings.

## Model

| member | source | states |
|---|---|---|
| JobService.DecimalInjective | src/services/jobService.ts:46 | two counter values print the same numeral only if they are equal |
| JobService.IssuedIdInjective | src/services/jobService.ts:46 | `prefix-N` and `prefix-M` coincide only when N = M |
| JobService.JobAndApplicationIdsDiffer | src/services/jobService.ts:154 | no job id equals an application id |
| JobService.IssuedDistinct | src/services/jobService.ts:25-26 | ids issued by a counter that only increases are pairwise distinct |
| JobService.IssuedFresh | src/services/jobService.ts:46 | the id the counter issues next is not in the table |
| JobService.IssuedRemove | src/services/jobService.ts:354-357 | removing an entry keeps the remaining ids issued below the unchanged counter |
| JobService.DemoStore.constructor | src/services/jobService.ts:23-26 | the store starts with both tables empty and both counters at 1 |
| JobService.DemoStore.IdsDistinct | src/services/jobService.ts:23-26 | in every reachable store, job ids are pairwise distinct and so are application ids |
| JobService.DemoStore.CreateJob | src/services/jobService.ts:44-53 | appends exactly one job at the end: id `job-N` for the old counter N (fresh), the given farmer and form fields, status open, the given time; counter +1; the application table and counter are unchanged |
| JobService.DemoStore.ApplyForJob | src/services/jobService.ts:151-163 | appends one pending application with a fresh id `app-N`, the given job, labourer, message and proposed rate; counter +1; the jobs table is unchanged |
| JobService.WithApplicationStatus | src/services/jobService.ts:229-232 | only the status of the first application with that id changes, whatever it was before; every other entry and field stays; an unknown id changes nothing |
| JobService.DemoStore.UpdateApplicationStatus | src/services/jobService.ts:227-233 | the table becomes `WithApplicationStatus` of the old one; the updated record is returned, or undefined for an unknown id; the jobs table and both counters are unchanged |
| JobService.WithJobStatus | src/services/jobService.ts:330-333 | the same single-entry status update over the jobs table |
| JobService.DemoStore.UpdateJobStatus | src/services/jobService.ts:328-334 | the jobs table becomes `WithJobStatus` of the old one; it returns the job or undefined; the applications are unchanged |
| JobService.WithoutJob | src/services/jobService.ts:354-357 | removes exactly the first job whose id and farmer both match, at most one job; the result is a subsequence of the old table |
| JobService.DemoStore.DeleteJob | src/services/jobService.ts:352-357 | the jobs table becomes `WithoutJob` of the old one; after a match no job carries the id; applications and both counters are unchanged, so the id is never reissued |
| JobService.DeleteByOtherFarmerKeepsJobs | src/services/jobService.ts:354 | a farmer who owns no job with that id deletes nothing |
| JobService.FilterJobsSelects | src/services/jobService.ts:104-114 | the status filter followed by the location filter keeps exactly the jobs passing both, in insertion order |
| JobService.GetJobs | src/services/jobService.ts:102-124 | returns, in insertion order and with multiplicity, exactly the stored jobs whose status equals the status filter (if given) and whose location contains the location filter ignoring case (if given); each carries a demo farmer whose id is its `farmer_id` |
| JobService.GetJobsIgnoresSkills | src/services/jobService.ts:104-114 | the skills filter has no effect |
| JobService.GetJobApplications | src/services/jobService.ts:195-207 | exactly the applications to that job, in insertion order, each with the demo labourer profile for its labourer |
| JobService.GetMyJobs | src/services/jobService.ts:306-308 | exactly the jobs of that farmer, in insertion order |
| JobService.JoinJob | src/services/jobService.ts:275-285 | the joined job has fields if and only if some stored job has that id; those fields are such a job; the joined farmer id is that job's farmer, or undefined without one |
| JobService.JoinJobFindsTheJob | src/services/jobService.ts:275 | with distinct job ids, the join finds exactly the job carrying the id |
| JobService.JoinAfterRemoval | src/services/jobService.ts:275-285 | after a job is removed from a table of distinct ids, applications to it join to no job fields and an undefined farmer id |
| JobService.GetMyApplications | src/services/jobService.ts:271-287 | exactly that labourer's applications, in insertion order, each joined to its job by `JoinJob` |
| Dashboard.FilteredJobs | src/components/Dashboard.tsx:192-206 | keeps a job if and only if the search term is empty or in its title or description, the location filter is empty or in its location, and the skills filter is empty or shares a skill with it (search and location ignoring case, skills matched exactly); the result is an order-preserving selection of the loaded jobs |
| Dashboard.FilteredJobsWithoutFilters | src/components/Dashboard.tsx:192-206 | with every filter empty the list is unchanged |
| Dashboard.FilteredJobsNeedSkills | src/components/Dashboard.tsx:200-203 | a job without `required_skills` never survives a non-empty skills filter |
| Dashboard.FilteredJobsIgnoreTypedCase | src/components/Dashboard.tsx:193-198 | lower-casing what the user typed does not change the result |
| Dashboard.Tag | src/components/Dashboard.tsx:109 | one entry per given application, in order, each carrying the given job as its tag (that the entries are the job's stored applications is stated by `JobEntriesMembers` and `ApplicationsForJobsMembers`) |
| Dashboard.ApplicationsForJobsAppend | src/components/Dashboard.tsx:107-112 | the aggregation over two runs of jobs is the concatenation of their aggregations |
| Dashboard.ApplicationsForJobsLength | src/components/Dashboard.tsx:107-112 | the aggregated list is as long as the per-job application counts added up |
| Dashboard.JobEntriesMembers | src/components/Dashboard.tsx:108-109 | one iteration adds exactly the stored applications to that job, each tagged with it and carrying the demo labourer profile |
| Dashboard.ApplicationsForJobsMembers | src/components/Dashboard.tsx:107-112 | every entry is a stored application to the job it is tagged with, one of my jobs; every stored application to one of my jobs appears with that tag |
| Dashboard.CollectApplications | src/components/Dashboard.tsx:106-112 | the loop produces the aggregation over `myJobsData` in order |
| Dashboard.PendingCountCounts | src/components/Dashboard.tsx:269 | the overview figure equals the number of pending applications, counted one by one |
| Dashboard.OfferedActions | src/components/Dashboard.tsx:530-546 | accept and reject are offered exactly while an application is pending, and neither sends `pending` |
| Dashboard.RecentPending | src/components/Dashboard.tsx:144-147 | min(5, pending count) pending applications drawn from the list without repetition (a sub-multiset of its pending entries), newest `applied_at` first, and no pending application left out is newer than one shown |
| Dashboard.ActedOnIsNoLongerPending | src/services/jobService.ts:229-232 | with distinct ids, no application still pending after an accept or reject carries the id acted on |
| Dashboard.RecentAfterActionExcludesIt | src/components/Dashboard.tsx:182-187 | recomputed from the table after an accept or reject, the farmer's recent activity holds only applications pending in that table, never the one acted on |
| Dashboard.UserRole | src/components/Dashboard.tsx:62 | a missing role falls back to `farmer`; a given one is kept |
| Dashboard.UserId | src/components/Dashboard.tsx:63 | a missing user id falls back to `demo-user`; a given one is kept |
| Dashboard.ReloadWithoutFiltersListsOpenJobs | src/components/Dashboard.tsx:87-98 | a reload with empty filters lists exactly the open jobs, in insertion order |
| Dashboard.DashboardState.constructor | src/components/Dashboard.tsx:48-63 | first render: role and id with their fallbacks, every list and filter empty |
| Dashboard.DashboardState.LoadJobs | src/components/Dashboard.tsx:87-98 | only `jobs` changes, to the open jobs matching the rendered location and skills filters |
| Dashboard.DashboardState.LoadMyData | src/components/Dashboard.tsx:100-120 | a farmer's `myJobs` and `applications` become their jobs and the aggregation over them; anyone else's `myApplications` become their sent applications; nothing else changes |
| Dashboard.DashboardState.SelectRecentActivity | src/components/Dashboard.tsx:140-159 | a farmer's recent activity is `RecentPending` of the given list; otherwise the given list is sorted newest first and its first five are shown |
| Dashboard.DashboardState.LoadRecentActivity | src/components/Dashboard.tsx:140-159 | the same over the current lists; for a labourer `myApplications` itself ends up sorted |
| Dashboard.ViewedPendingCount | src/components/Dashboard.tsx:269 | once one job's fetched applications replace the list, the overview's pending figure is the number of that job's pending applications in the store |
| Dashboard.DashboardState.ViewApplications | src/components/Dashboard.tsx:444-449 | only `applications` changes: it becomes that job's applications as fetched, untagged, so the pending figure counts that job's pending applications only |
| Dashboard.DashboardState.HandleApplicationAction | src/components/Dashboard.tsx:182-190 | the store records the new status, its jobs and id counters unchanged, and the lists are reloaded, but recent activity is computed from the lists as they were before the action |
| Dashboard.DashboardState.HandleApplicationActionRefreshed | src/components/Dashboard.tsx:182-190 | the same with recent activity computed from the reloaded lists; every farmer entry is then pending in the store and none is the application acted on |
| Dashboard.DashboardState.ClearFilters | src/components/Dashboard.tsx:624-631 | the three filters are emptied, but the jobs are reloaded with the filters as they were before the click |
| Dashboard.DashboardState.ClearFiltersRefreshed | src/components/Dashboard.tsx:624-631 | filters emptied and jobs reloaded with them: the list is every open job in insertion order and the filter shows all of it |
| Dashboard.AcceptedApplicationStaysInRecentActivity | src/components/Dashboard.tsx:182-187 | after accepting the only pending application, recent activity as written still shows it as pending although the store holds it as accepted |
| Dashboard.ClearedFiltersStillHideJobs | src/components/Dashboard.tsx:624-631 | after clearing a `Guntur` filter, an open job in `Eluru` stays missing, although a reload with cleared filters lists it |
| JobPostingModal.ToggleSkill | src/components/JobPostingModal.tsx:48-55 | an unlisted skill is appended at the end; a listed one has every occurrence removed, the other skills keeping their order and multiplicity |
| JobPostingModal.ToggleTwiceRestores | src/components/JobPostingModal.tsx:48-55 | ticking an unlisted skill and unticking it restores the list |
| JobPostingModal.ToggleKeepsNoDuplicates | src/components/JobPostingModal.tsx:48-55 | a toggle keeps a duplicate-free list duplicate-free |
| JobPostingModal.TogglesNeverDuplicate | src/components/JobPostingModal.tsx:48-55 | any sequence of toggles keeps a duplicate-free list duplicate-free |
| JobPostingModal.TogglesFromOpenFormNeverDuplicate | src/components/JobPostingModal.tsx:32-40 | from the form's initial empty list, any sequence of toggles lists each skill at most once |
| JobPostingModal.DefaultJobData | src/components/JobPostingModal.tsx:32-40 | the defaults have no skills and a pay rate of 500 |
| JobPostingModal.OptionalFieldsNotRequired | src/components/JobPostingModal.tsx:60 | the required-field check consults neither the start date nor the skills |
| JobPostingModal.JobPostingForm.constructor | src/components/JobPostingModal.tsx:30-40 | the form opens with its defaults, no error, not loading |
| JobPostingModal.JobPostingForm.HandleSkillToggle | src/components/JobPostingModal.tsx:48-55 | only the skills list changes, by `ToggleSkill` |
| JobPostingModal.JobPostingForm.HandleSubmit | src/components/JobPostingModal.tsx:57-86 | empty title, description, location or contact number, or a zero pay rate: the missing-fields error, nothing stored, form and loading untouched; success: the job is appended as by `CreateJob` and the form resets to its defaults; a throw keeps the data and sets the message or the fallback; loading ends false after the call |
| LoginModal.SignupIgnoresOptionalFields | src/components/LoginModal.tsx:62 | phone and location never decide whether a sign-up may proceed |
| LoginModal.LoginForm.constructor | src/components/LoginModal.tsx:14-25 | login mode, not loading, no error, empty fields |
| LoginModal.LoginForm.HandleLogin | src/components/LoginModal.tsx:33-55 | a missing email or password sets the fill-in error without signing in; a returned user signs in and clears the login fields; no user changes nothing further; a throw sets its message or the fallback; loading is false at the end of every path; sign-up state untouched |
| LoginModal.LoginForm.HandleSignup | src/components/LoginModal.tsx:57-79 | a missing name, email, password or role sets the required-fields error; a returned user clears every sign-up field; a throw sets its message or the fallback; loading ends false; login state untouched |
| LoginModal.LoginForm.SwitchToSignup | src/components/LoginModal.tsx:81-85 | sign-up mode, no error, login fields cleared, sign-up fields kept |
| LoginModal.LoginForm.SwitchToLogin | src/components/LoginModal.tsx:87-91 | login mode, no error, sign-up fields cleared, login fields kept |
| GovernmentApiService.PriceFixture | src/services/governmentApiService.ts:33-67 | three records dated today, each with min price <= modal price <= max price |
| GovernmentApiService.FilterPricesSelects | src/services/governmentApiService.ts:69-80 | the state filter then the district filter keep exactly the records passing both, in order |
| GovernmentApiService.GetDailyCropPrices | src/services/governmentApiService.ts:69-82 | exactly the fixture records whose state and district contain the given ones ignoring case (each only if given), in fixture order |
| GovernmentApiService.NoRegionGivesFixture | src/services/governmentApiService.ts:69-82 | with no state and no district, the three fixture records in their order |
| GovernmentApiService.StateOnlyFilter | src/services/governmentApiService.ts:71-74 | a state alone keeps exactly the records whose state contains it |
| GovernmentApiService.PricesOrdered | src/services/governmentApiService.ts:33-67 | every returned record has min <= modal <= max |
| GovernmentApiService.GetWeatherData | src/services/governmentApiService.ts:90-102 | the reading is for the location given, dated today |
| GovernmentApiService.GetMarketTrends | src/services/governmentApiService.ts:110-122 | the trend is for the commodity given; the period is the days given, 30 only when omitted |
| ToolService.PresentRatings | src/services/toolService.ts:39-41 | every present rating is kept, as often as usage rows carry it, and nothing else; none are kept exactly when no row has one |
| ToolService.PresentRatingsCount | src/services/toolService.ts:39-41 | one rating is kept per usage row that has one |
| ToolService.WithUsageStats | src/services/toolService.ts:37-50 | `usage_count` is the number of usage rows, 0 when missing; `avg_rating` is `NoRatings` (shown as 0) exactly when no rating is present, otherwise the mean taken over the present ratings |
| ToolService.WithUsageStatsAll | src/services/toolService.ts:37-50 | one entry per row, in order, each by `WithUsageStats`: the one mapping all tool queries share |
| ToolService.WithUsageStatsAllAppend | src/services/toolService.ts:37 | the mapping commutes with concatenation |
| ToolService.GetToolCategories | src/services/toolService.ts:150-159 | every category of the rows exactly once, nothing else, in order of first appearance |
| ToolService.DemoTools | src/services/toolService.ts:53-102 | four tools with distinct ids and distinct categories, all created at the time of the call |
| ToolService.DemoToolsByCategory | src/services/toolService.ts:104-109 | all four tools without a category, otherwise exactly those of that category in order |
| ToolService.DemoCategoryNamesOneTool | src/services/toolService.ts:104-109 | a category yields at most one demo tool, and exactly one when some demo tool has it |
| ToolService.GetFarmingToolsAsWritten | src/services/toolService.ts:17-19 | the call always rejects with a ReferenceError |
| ToolService.DemoToolsUnreachable | src/services/toolService.ts:17-19 | as written, the demo tools are never returned |
| ToolService.GetFarmingTools | src/services/toolService.ts:104-111 | with the flag defined and false: the demo tools, filtered by category when one is given |

## Left out

- Every backend branch: the hosted database queries, their ordering and `ilike`/`overlaps` operators, and the auth client. The flag that selects them is taken as false.
- Floating point:
  - the mean and one-decimal rounding of `avg_rating`, kept as `MeanOf(ratings)`;
  - the random usage counts and ratings of the demo tools;
  - `Number(...)` on the pay rate field: the model's `payRate` is an integer, so neither `NaN` nor a fractional rate is modelled.
- `new Date()`: timestamps and today's date are parameters.
- Object identity: the model does not capture aliasing of returned records.
  - `createJob`, `applyForJob` and `updateApplicationStatus` return the stored object itself;
  - `getMyJobs` returns the stored job objects, so a later in-place status update is also visible through the dashboard's `myJobs`.
  - The model copies values instead.
- `getMockJobs`/`getMockApplications` return the tables themselves; here these are the `jobs` and `apps` fields.
- The concurrent `Promise.all` fan-out of the dashboard's initial load, whose loaders all read the first render's empty lists, and crop prices and smart tools loading. `syncPriceData` only logs.
- UI callbacks (`onJobPosted`, `onClose`, `onLoginSuccess`), view switching (`selectedJob`, `activeView`), rendering and translations. The demo store never throws, so `CreateOutcome.Threw` stands for a backend failure.
- Seqs.SortByKeyDesc: its contract states sortedness and permutation but not stability, which the model's insertion sort has and JavaScript's `sort` guarantees.
- Lower-casing is ASCII only; Unicode case mapping is not modelled.
- ToolService.WithUsageStats: `{...tool, usage_count, avg_rating}` keeps every field of the row, including the raw `tool_usage` array; `ToolWithUsage` keeps the tool and the two derived figures, not that array.

## Findings

| source | as written | input that shows it | evidently intended | confidence | as-written member | corrected member |
|---|---|---|---|---|---|---|
| src/components/Dashboard.tsx:182-187 | `handleApplicationAction` awaits `loadMyData()` and then `loadRecentActivity()`, but the latter reads `applications` from the render the handler belongs to, i.e. the list before the action | a farmer with one pending application accepts it | recent activity is recomputed from the reloaded list, so the accepted application leaves it | medium, not executed | Dashboard.DashboardState.HandleApplicationAction, Dashboard.AcceptedApplicationStaysInRecentActivity | Dashboard.DashboardState.HandleApplicationActionRefreshed, Dashboard.RecentAfterActionExcludesIt |
| src/components/Dashboard.tsx:624-631 | "Clear filters" empties the three filters and calls `loadJobs()`, which still reads the location and skills filters of the current render | type `Guntur`, press Refresh, then Clear filters with an open job in `Eluru` | the reload uses the cleared filters and lists every open job | medium, not executed | Dashboard.DashboardState.ClearFilters, Dashboard.ClearedFiltersStillHideJobs | Dashboard.DashboardState.ClearFiltersRefreshed, Dashboard.ReloadWithoutFiltersListsOpenJobs |
| src/services/toolService.ts:17-19 | `getFarmingTools` reads `isSupabaseConfigured`, which line 1 does not import, so the call throws a ReferenceError that its catch rethrows | any call, with or without a category | the flag is imported and, with no backend configured, the demo tools are returned | high, not executed | ToolService.GetFarmingToolsAsWritten, ToolService.DemoToolsUnreachable | ToolService.GetFarmingTools |
