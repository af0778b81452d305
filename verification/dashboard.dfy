/**
 * The dashboard's client-side logic: the job list filter, the farmer's
 * per-job aggregation of applications, the recent-activity selection, the
 * pending count on the overview card and the accept/reject actions.
 *
 * React state is a class whose fields are the state variables. A handler
 * reads the state as it was when the component last rendered, so a value it
 * set earlier in the same handler is not visible to a later read; the
 * methods below say which state each step reads.
 */
module Dashboard {
  import opened Wrappers
  import opened Seqs
  import opened Text
  import opened JobService

  // ---------------------------------------------------------------------------
  // filteredJobs

  predicate MatchesSearch(j: Job, searchTerm: string)
  {
    searchTerm == "" || ContainsIgnoreCase(j.title, searchTerm) || ContainsIgnoreCase(j.description, searchTerm)
  }

  predicate MatchesLocation(j: Job, locationFilter: string)
  {
    locationFilter == "" || ContainsIgnoreCase(j.location, locationFilter)
  }

  /** The skills test: no filter, or the job lists at least one filtered skill. */
  predicate MatchesSkills(j: Job, skillsFilter: seq<string>)
  {
    |skillsFilter| == 0 || (j.requiredSkills.Some? && exists skill :: skill in j.requiredSkills.value && skill in skillsFilter)
  }

  function KeepJob(searchTerm: string, locationFilter: string, skillsFilter: seq<string>): JobWithFarmer -> bool
  {
    (e: JobWithFarmer) =>
      MatchesSearch(e.job, searchTerm) && MatchesLocation(e.job, locationFilter) && MatchesSkills(e.job, skillsFilter)
  }

  /**
   * `filteredJobs`: the loaded jobs that pass all three tests, in their order.
   * A job is kept if and only if it passes the search, location and skills tests.
   */
  function FilteredJobs(jobs: seq<JobWithFarmer>, searchTerm: string, locationFilter: string, skillsFilter: seq<string>)
    : (r: seq<JobWithFarmer>)
    ensures IsSelection(r, jobs, KeepJob(searchTerm, locationFilter, skillsFilter))
    ensures forall e :: e in r <==>
      e in jobs && MatchesSearch(e.job, searchTerm) && MatchesLocation(e.job, locationFilter) && MatchesSkills(e.job, skillsFilter)
  {
    FilterSelects(KeepJob(searchTerm, locationFilter, skillsFilter), jobs);
    Filter(KeepJob(searchTerm, locationFilter, skillsFilter), jobs)
  }

  /** With every filter empty the list is shown unchanged. */
  lemma FilteredJobsWithoutFilters(jobs: seq<JobWithFarmer>)
    ensures FilteredJobs(jobs, "", "", []) == jobs
  {
    FilterKeepsAll(KeepJob("", "", []), jobs);
  }

  /** A job without `required_skills` never survives a non-empty skills filter. */
  lemma FilteredJobsNeedSkills(jobs: seq<JobWithFarmer>, searchTerm: string, locationFilter: string, skillsFilter: seq<string>)
    requires |skillsFilter| > 0
    ensures forall e | e in FilteredJobs(jobs, searchTerm, locationFilter, skillsFilter) :: e.job.requiredSkills.Some?
  {
  }

  /** The search and location tests ignore the case of what the user typed. */
  lemma FilteredJobsIgnoreTypedCase(jobs: seq<JobWithFarmer>, searchTerm: string, locationFilter: string, skillsFilter: seq<string>)
    ensures FilteredJobs(jobs, Lower(searchTerm), Lower(locationFilter), skillsFilter)
         == FilteredJobs(jobs, searchTerm, locationFilter, skillsFilter)
  {
    ContainsIgnoreCaseOfLower(searchTerm, searchTerm);
    forall e | e in jobs
      ensures KeepJob(Lower(searchTerm), Lower(locationFilter), skillsFilter)(e)
           == KeepJob(searchTerm, locationFilter, skillsFilter)(e)
    {
      ContainsIgnoreCaseOfLower(e.job.title, searchTerm);
      ContainsIgnoreCaseOfLower(e.job.description, searchTerm);
      ContainsIgnoreCaseOfLower(e.job.location, locationFilter);
      assert (Lower(searchTerm) == "") == (searchTerm == "");
      assert (Lower(locationFilter) == "") == (locationFilter == "");
    }
    FilterExtensional(KeepJob(Lower(searchTerm), Lower(locationFilter), skillsFilter),
      KeepJob(searchTerm, locationFilter, skillsFilter), jobs);
  }

  // ---------------------------------------------------------------------------
  // The farmer's aggregation in loadMyData

  /**
   * An entry of the farmer's `applications` list: `{ ...app, job }`, tagged
   * with the job it was fetched for (`Some`), or a plain entry of one job's
   * application list as "View applications" stores it (`None`).
   */
  datatype TaggedApplication = TaggedApplication(entry: ApplicationWithLabourer, job: Option<Job>)

  function Tag(entries: seq<ApplicationWithLabourer>, job: Job): (r: seq<TaggedApplication>)
    ensures |r| == |entries|
    ensures forall i :: 0 <= i < |r| ==> r[i] == TaggedApplication(entries[i], Some(job))
  {
    seq(|entries|, i requires 0 <= i < |entries| => TaggedApplication(entries[i], Some(job)))
  }

  /** One iteration of the loop: the applications to `job`, each tagged with it. */
  function JobEntries(apps: seq<Application>): Job -> seq<TaggedApplication>
  {
    (job: Job) => Tag(GetJobApplications(apps, job.id), job)
  }

  /** What the loop over `myJobsData` accumulates: each job's applications, job by job. */
  function ApplicationsForJobs(apps: seq<Application>, myJobs: seq<Job>): seq<TaggedApplication>
  {
    ConcatMap(JobEntries(apps), myJobs)
  }

  /** The aggregation of two runs of jobs is the concatenation of their aggregations. */
  lemma ApplicationsForJobsAppend(apps: seq<Application>, xs: seq<Job>, ys: seq<Job>)
    ensures ApplicationsForJobs(apps, xs + ys) == ApplicationsForJobs(apps, xs) + ApplicationsForJobs(apps, ys)
  {
    ConcatMapAppend(JobEntries(apps), xs, ys);
  }

  /** The number of applications the stored table holds for each of these jobs, added up. */
  function CountForJobs(apps: seq<Application>, myJobs: seq<Job>): nat
    decreases |myJobs|
  {
    if myJobs == [] then 0
    else CountForJobs(apps, myJobs[..|myJobs| - 1]) + |Filter(ForJob(myJobs[|myJobs| - 1].id), apps)|
  }

  /** The aggregated list is as long as the per-job application counts added up. */
  lemma {:induction false} ApplicationsForJobsLength(apps: seq<Application>, myJobs: seq<Job>)
    ensures |ApplicationsForJobs(apps, myJobs)| == CountForJobs(apps, myJobs)
    decreases |myJobs|
  {
    if myJobs != [] {
      var init, last := myJobs[..|myJobs| - 1], myJobs[|myJobs| - 1];
      ApplicationsForJobsLength(apps, init);
      var r := GetJobApplications(apps, last.id);
      SelectionIsFilter(LabourerViewApps(r), apps, ForJob(last.id));
      assert |JobEntries(apps)(last)| == |r| == |Filter(ForJob(last.id), apps)|;
    }
  }

  /** The entries for one job: the stored applications to it, each with the demo labourer profile. */
  lemma JobEntriesMembers(apps: seq<Application>, job: Job)
    ensures forall e | e in JobEntries(apps)(job) ::
      e.job == Some(job) && e.entry.app in apps && e.entry.app.jobId == job.id
      && e.entry.labourer == DemoLabourer(e.entry.app.labourerId)
    ensures forall a | a in apps && a.jobId == job.id ::
      TaggedApplication(ApplicationWithLabourer(a, DemoLabourer(a.labourerId)), Some(job)) in JobEntries(apps)(job)
  {
    var r := GetJobApplications(apps, job.id);
    var tagged := Tag(r, job);
    assert JobEntries(apps)(job) == tagged;
    forall e | e in tagged
      ensures e.job == Some(job) && e.entry.app in apps && e.entry.app.jobId == job.id
      ensures e.entry.labourer == DemoLabourer(e.entry.app.labourerId)
    {
      var i :| 0 <= i < |tagged| && tagged[i] == e;
      assert r[i].app == LabourerViewApps(r)[i];
      assert LabourerViewApps(r)[i] in LabourerViewApps(r);
    }
    forall a | a in apps && a.jobId == job.id
      ensures TaggedApplication(ApplicationWithLabourer(a, DemoLabourer(a.labourerId)), Some(job)) in tagged
    {
      assert ForJob(job.id)(a);
      assert a in LabourerViewApps(r);
      var i :| 0 <= i < |r| && LabourerViewApps(r)[i] == a;
      assert tagged[i] == TaggedApplication(r[i], Some(job));
    }
  }

  /**
   * Every aggregated entry is a stored application to the job it is tagged
   * with, that job is one of mine, and every stored application to one of my
   * jobs appears, tagged with that job and the demo labourer profile.
   */
  lemma {:induction false} ApplicationsForJobsMembers(apps: seq<Application>, myJobs: seq<Job>)
    ensures forall e | e in ApplicationsForJobs(apps, myJobs) ::
      e.job.Some? && e.job.value in myJobs && e.entry.app in apps && e.entry.app.jobId == e.job.value.id
      && e.entry.labourer == DemoLabourer(e.entry.app.labourerId)
    ensures forall a, j | a in apps && j in myJobs && a.jobId == j.id ::
      TaggedApplication(ApplicationWithLabourer(a, DemoLabourer(a.labourerId)), Some(j)) in ApplicationsForJobs(apps, myJobs)
    decreases |myJobs|
  {
    if myJobs != [] {
      var init, last := myJobs[..|myJobs| - 1], myJobs[|myJobs| - 1];
      assert myJobs == init + [last];
      ApplicationsForJobsMembers(apps, init);
      JobEntriesMembers(apps, last);
      assert ApplicationsForJobs(apps, myJobs) == ApplicationsForJobs(apps, init) + JobEntries(apps)(last);
    }
  }

  /** The per-job loop of `loadMyData`: appends each job's applications, tagged, in `myJobsData` order. */
  method CollectApplications(apps: seq<Application>, myJobsData: seq<Job>) returns (allApplications: seq<TaggedApplication>)
    ensures allApplications == ApplicationsForJobs(apps, myJobsData)
  {
    allApplications := [];
    for i := 0 to |myJobsData|
      invariant allApplications == ApplicationsForJobs(apps, myJobsData[..i])
    {
      var job := myJobsData[i];
      var jobApplications := GetJobApplications(apps, job.id);
      assert myJobsData[..i + 1][..i] == myJobsData[..i];
      allApplications := allApplications + Tag(jobApplications, job);
    }
    assert myJobsData[..|myJobsData|] == myJobsData;
  }

  // ---------------------------------------------------------------------------
  // The overview's pending figure and the accept/reject buttons

  predicate IsPendingEntry(e: TaggedApplication)
  {
    e.entry.app.status == Pending
  }

  /** `applications.filter(app => app.status === 'pending').length`. */
  function PendingCount(applications: seq<TaggedApplication>): nat
  {
    |Filter(IsPendingEntry, applications)|
  }

  /** The number of positions that hold a pending application, counted one by one. */
  function CountPending(applications: seq<TaggedApplication>): nat
    decreases |applications|
  {
    if applications == [] then 0
    else (if IsPendingEntry(applications[0]) then 1 else 0) + CountPending(applications[1..])
  }

  /** The overview figure counts exactly the pending applications. */
  lemma {:induction false} PendingCountCounts(applications: seq<TaggedApplication>)
    ensures PendingCount(applications) == CountPending(applications)
    decreases |applications|
  {
    if applications != [] {
      PendingCountCounts(applications[1..]);
    }
  }

  /** "View applications" stores one job's entries as fetched, without a job tag. */
  function Untagged(entries: seq<ApplicationWithLabourer>): seq<TaggedApplication>
  {
    Map((e: ApplicationWithLabourer) => TaggedApplication(e, None), entries)
  }

  /** The stored applications to `jobId` that are still pending. */
  function PendingFor(jobId: string): Application -> bool
  {
    (a: Application) => a.jobId == jobId && a.status == Pending
  }

  /** Once one job's applications replace the list, the overview figure counts that job's pending applications only. */
  lemma ViewedPendingCount(apps: seq<Application>, jobId: string)
    ensures PendingCount(Untagged(GetJobApplications(apps, jobId))) == |Filter(PendingFor(jobId), apps)|
  {
    var fetched := LabourerViewApps(GetJobApplications(apps, jobId));
    UntaggedIsMap(apps, jobId);
    FilterMapCount(UntaggedEntry, IsPendingEntry, IsPendingApp, fetched);
    PendingAmongFetched(apps, jobId);
  }

  predicate IsPendingApp(a: Application)
  {
    a.status == Pending
  }

  /** A fetched application as "View applications" stores it. */
  function UntaggedEntry(a: Application): TaggedApplication
  {
    TaggedApplication(ApplicationWithLabourer(a, DemoLabourer(a.labourerId)), None)
  }

  /** The untagged list is determined by the applications fetched. */
  lemma UntaggedIsMap(apps: seq<Application>, jobId: string)
    ensures var r := GetJobApplications(apps, jobId);
      Untagged(r) == Map(UntaggedEntry, LabourerViewApps(r))
  {
    var r := GetJobApplications(apps, jobId);
    assert forall i | 0 <= i < |r| :: Untagged(r)[i] == UntaggedEntry(LabourerViewApps(r)[i]);
  }

  /** The pending applications among those fetched for a job are that job's pending applications. */
  lemma PendingAmongFetched(apps: seq<Application>, jobId: string)
    ensures Filter(IsPendingApp, LabourerViewApps(GetJobApplications(apps, jobId))) == Filter(PendingFor(jobId), apps)
  {
    var fetched := LabourerViewApps(GetJobApplications(apps, jobId));
    FilterSelects(IsPendingApp, fetched);
    SelectionCompose(fetched, Filter(IsPendingApp, fetched), apps, ForJob(jobId), IsPendingApp, PendingFor(jobId));
    SelectionIsFilter(Filter(IsPendingApp, fetched), apps, PendingFor(jobId));
  }

  /** The buttons shown beside an application: accept and reject while it is pending, none after. */
  function OfferedActions(status: ApplicationStatus): (r: seq<ApplicationStatus>)
    ensures r != [] <==> status == Pending
    ensures forall a | a in r :: a != Pending
    ensures status == Pending ==> Accepted in r && Rejected in r
  {
    if status == Pending then [Accepted, Rejected] else []
  }

  // ---------------------------------------------------------------------------
  // Recent activity

  function TaggedAppliedAt(e: TaggedApplication): int
  {
    e.entry.app.appliedAt
  }

  function JoinedAppliedAt(e: ApplicationWithJob): int
  {
    e.app.appliedAt
  }

  /**
   * The farmer's recent activity: the pending applications, newest first,
   * at most five; no pending application left out is newer than one shown.
   */
  function RecentPending(applications: seq<TaggedApplication>): (r: seq<TaggedApplication>)
    ensures |r| == if PendingCount(applications) < 5 then PendingCount(applications) else 5
    ensures multiset(r) <= multiset(applications)
    ensures forall e | e in r :: e in applications && e.entry.app.status == Pending
    ensures SortedDesc(r, TaggedAppliedAt)
    ensures forall e, i | 0 <= i < |r| && e in applications && IsPendingEntry(e) && multiset(r)[e] < multiset(applications)[e]
      :: e.entry.app.appliedAt <= r[i].entry.app.appliedAt
  {
    var pending := Filter(IsPendingEntry, applications);
    FilterSelects(IsPendingEntry, applications);
    TopOfSelection(pending, applications, IsPendingEntry, TaggedAppliedAt, 5);
    TopByKeyDesc(pending, TaggedAppliedAt, 5)
  }

  /**
   * Recomputed from the table after an application is accepted or rejected,
   * the farmer's recent activity holds only applications that are pending in
   * that table, and never the one acted on (ids being distinct).
   */
  lemma RecentAfterActionExcludesIt(before: seq<Application>, myJobs: seq<Job>, applicationId: string, action: ApplicationStatus)
    requires action != Pending
    requires forall i, j :: 0 <= i < j < |before| ==> before[i].id != before[j].id
    ensures var after := WithApplicationStatus(before, applicationId, action);
      forall e | e in RecentPending(ApplicationsForJobs(after, myJobs)) ::
        e.entry.app in after && e.entry.app.status == Pending && e.entry.app.id != applicationId
  {
    var after := WithApplicationStatus(before, applicationId, action);
    ApplicationsForJobsMembers(after, myJobs);
    ActedOnIsNoLongerPending(before, applicationId, action);
  }

  /** With distinct ids, no application still pending after an accept or reject carries the id acted on. */
  lemma ActedOnIsNoLongerPending(before: seq<Application>, applicationId: string, action: ApplicationStatus)
    requires action != Pending
    requires forall i, j :: 0 <= i < j < |before| ==> before[i].id != before[j].id
    ensures forall a | a in WithApplicationStatus(before, applicationId, action) && a.status == Pending :: a.id != applicationId
  {
    var after := WithApplicationStatus(before, applicationId, action);
    forall a | a in after && a.status == Pending
      ensures a.id != applicationId
    {
      var k :| 0 <= k < |after| && after[k] == a;
      assert after[k].id == before[k].id;
      match FirstIndex(HasAppId(applicationId), before)
      case None =>
        assert !HasAppId(applicationId)(before[k]);
      case Some(i) =>
        assert after[i].status != Pending;
        assert k != i;
        assert before[k].id != before[i].id;
    }
  }

  /** The recent-activity view: received applications for a farmer, sent ones otherwise. */
  datatype RecentActivity = Received(received: seq<TaggedApplication>) | Sent(sent: seq<ApplicationWithJob>)

  /** The state variables of the dashboard that the modelled logic reads and writes. */
  datatype View = View(
    jobs: seq<JobWithFarmer>,
    myJobs: seq<Job>,
    applications: seq<TaggedApplication>,
    myApplications: seq<ApplicationWithJob>,
    recentActivity: RecentActivity,
    locationFilter: string,
    skillsFilter: seq<string>,
    searchTerm: string)

  /** `user?.user_metadata?.role || 'farmer'`, with "" for a missing role. */
  function UserRole(role: string): (r: string)
    ensures role == "" ==> r == "farmer"
    ensures role != "" ==> r == role
  {
    OrElse(role, "farmer")
  }

  /** `user?.id || 'demo-user'`, with "" for a missing user. */
  function UserId(id: string): (r: string)
    ensures id == "" ==> r == "demo-user"
    ensures id != "" ==> r == id
  {
    OrElse(id, "demo-user")
  }

  /** The open jobs of a table, as the dashboard's "Find jobs" list shows them once nothing filters it. */
  function IsOpenJob(j: Job): bool
  {
    j.status == Open
  }

  /** A reload with empty filters lists exactly the open jobs, in insertion order. */
  lemma ReloadWithoutFiltersListsOpenJobs(storeJobs: seq<Job>)
    ensures JobsOf(GetJobs(storeJobs, JobFilters("", [], "open"))) == Filter(IsOpenJob, storeJobs)
  {
    var f := JobFilters("", [], "open");
    var r := GetJobs(storeJobs, f);
    SelectionIsFilter(JobsOf(r), storeJobs, MatchingFilters(f));
    forall j | j in storeJobs
      ensures MatchingFilters(f)(j) == IsOpenJob(j)
    {
      assert JobStatusName(j.status) == "open" <==> j.status == Open;
    }
    FilterExtensional(MatchingFilters(f), IsOpenJob, storeJobs);
  }

  class DashboardState {
    const userRole: string
    const userId: string
    var jobs: seq<JobWithFarmer>
    var myJobs: seq<Job>
    var applications: seq<TaggedApplication>
    var myApplications: seq<ApplicationWithJob>
    var recentActivity: RecentActivity
    var locationFilter: string
    var skillsFilter: seq<string>
    var searchTerm: string

    ghost function Current(): View
      reads this
    {
      View(jobs, myJobs, applications, myApplications, recentActivity, locationFilter, skillsFilter, searchTerm)
    }

    /** The first render: the role and id fall back to `farmer` and `demo-user`; every list is empty. */
    constructor (role: string, id: string)
      ensures userRole == UserRole(role) && userId == UserId(id)
      ensures Current() == View([], [], [], [], if UserRole(role) == "farmer" then Received([]) else Sent([]), "", [], "")
    {
      userRole, userId := UserRole(role), UserId(id);
      jobs, myJobs, applications, myApplications := [], [], [], [];
      recentActivity := if UserRole(role) == "farmer" then Received([]) else Sent([]);
      locationFilter, skillsFilter, searchTerm := "", [], "";
    }

    /** `loadJobs`: the open jobs matching the rendered location and skills filters. */
    method LoadJobs(store: DemoStore)
      modifies this
      ensures Current() == old(Current()).(jobs := GetJobs(store.jobs, JobFilters(old(locationFilter), old(skillsFilter), "open")))
    {
      jobs := GetJobs(store.jobs, JobFilters(locationFilter, skillsFilter, "open"));
    }

    /**
     * `loadMyData`: a farmer gets their jobs and, through the per-job loop, the
     * applications to them; anyone else gets the applications they sent.
     */
    method LoadMyData(store: DemoStore)
      modifies this
      ensures userRole == "farmer" ==> Current() == old(Current()).(
        myJobs := GetMyJobs(store.jobs, userId),
        applications := ApplicationsForJobs(store.apps, GetMyJobs(store.jobs, userId)))
      ensures userRole != "farmer" ==> Current() == old(Current()).(
        myApplications := GetMyApplications(store.jobs, store.apps, userId))
    {
      if userRole == "farmer" {
        var myJobsData := GetMyJobs(store.jobs, userId);
        myJobs := myJobsData;
        var allApplications := CollectApplications(store.apps, myJobsData);
        applications := allApplications;
      } else {
        var myApplicationsData := GetMyApplications(store.jobs, store.apps, userId);
        myApplications := myApplicationsData;
      }
    }

    /**
     * `loadRecentActivity` over the given rendered lists: a farmer sees the
     * newest pending applications; anyone else sees their newest sent
     * applications, and the list it sorts is reordered in place.
     */
    method SelectRecentActivity(renderedApplications: seq<TaggedApplication>, renderedMine: seq<ApplicationWithJob>)
      returns (sortedMine: seq<ApplicationWithJob>)
      modifies this
      ensures userRole == "farmer" ==> sortedMine == renderedMine && Current() == old(Current()).(recentActivity := Received(RecentPending(renderedApplications)))
      ensures userRole != "farmer" ==>
        && sortedMine == SortByKeyDesc(renderedMine, JoinedAppliedAt)
        && Current() == old(Current()).(recentActivity := Sent(TopByKeyDesc(renderedMine, JoinedAppliedAt, 5)))
    {
      if userRole == "farmer" {
        sortedMine := renderedMine;
        recentActivity := Received(RecentPending(renderedApplications));
      } else {
        sortedMine := SortByKeyDesc(renderedMine, JoinedAppliedAt);
        recentActivity := Sent(Take(sortedMine, 5));
      }
    }

    /** `loadRecentActivity` on its own: it reads, and for a labourer sorts, the current lists. */
    method LoadRecentActivity()
      modifies this
      ensures userRole == "farmer" ==> Current() == old(Current()).(recentActivity := Received(RecentPending(old(applications))))
      ensures userRole != "farmer" ==> Current() == old(Current()).(
        myApplications := SortByKeyDesc(old(myApplications), JoinedAppliedAt),
        recentActivity := Sent(TopByKeyDesc(old(myApplications), JoinedAppliedAt, 5)))
    {
      var sortedMine := SelectRecentActivity(applications, myApplications);
      myApplications := sortedMine;
    }

    /**
     * `handleApplicationAction` as written: the store records the new status and
     * `loadMyData` reloads the lists, but `loadRecentActivity` runs on the
     * lists of the render the handler belongs to, so recent activity is
     * computed from the lists before the action.
     */
    method HandleApplicationAction(store: DemoStore, applicationId: string, action: ApplicationStatus)
      requires store.Valid()
      requires action != Pending
      modifies this, store
      ensures store.Valid()
      ensures store.apps == WithApplicationStatus(old(store.apps), applicationId, action)
      ensures store.jobs == old(store.jobs)
      ensures store.jobIdCounter == old(store.jobIdCounter) && store.appIdCounter == old(store.appIdCounter)
      ensures userRole == "farmer" ==> Current() == old(Current()).(
        myJobs := GetMyJobs(store.jobs, userId),
        applications := ApplicationsForJobs(store.apps, GetMyJobs(store.jobs, userId)),
        recentActivity := Received(RecentPending(old(applications))))
      ensures userRole != "farmer" ==> Current() == old(Current()).(
        myApplications := GetMyApplications(store.jobs, store.apps, userId),
        recentActivity := Sent(TopByKeyDesc(old(myApplications), JoinedAppliedAt, 5)))
    {
      var renderedApplications, renderedMine := applications, myApplications;
      var _ := store.UpdateApplicationStatus(applicationId, action);
      LoadMyData(store);
      var _ := SelectRecentActivity(renderedApplications, renderedMine);
    }

    /**
     * `handleApplicationAction` with recent activity computed from the reloaded
     * lists: once an application is accepted or rejected, the farmer's recent
     * activity no longer lists it, and every entry there is pending in the store.
     */
    method HandleApplicationActionRefreshed(store: DemoStore, applicationId: string, action: ApplicationStatus)
      requires store.Valid()
      requires action != Pending
      modifies this, store
      ensures store.Valid()
      ensures store.apps == WithApplicationStatus(old(store.apps), applicationId, action)
      ensures store.jobs == old(store.jobs)
      ensures store.jobIdCounter == old(store.jobIdCounter) && store.appIdCounter == old(store.appIdCounter)
      ensures userRole == "farmer" ==> Current() == old(Current()).(
        myJobs := GetMyJobs(store.jobs, userId),
        applications := ApplicationsForJobs(store.apps, GetMyJobs(store.jobs, userId)),
        recentActivity := Received(RecentPending(applications)))
      ensures userRole == "farmer" ==> forall e | e in recentActivity.received ::
        e.entry.app in store.apps && e.entry.app.status == Pending && e.entry.app.id != applicationId
      ensures userRole != "farmer" ==> Current() == old(Current()).(
        myApplications := SortByKeyDesc(GetMyApplications(store.jobs, store.apps, userId), JoinedAppliedAt),
        recentActivity := Sent(TopByKeyDesc(GetMyApplications(store.jobs, store.apps, userId), JoinedAppliedAt, 5)))
    {
      store.IdsDistinct();
      ghost var before := store.apps;
      var _ := store.UpdateApplicationStatus(applicationId, action);
      LoadMyData(store);
      if userRole == "farmer" {
        var _ := SelectRecentActivity(applications, myApplications);
        RecentAfterActionExcludesIt(before, myJobs, applicationId, action);
      } else {
        var sortedMine := SelectRecentActivity(applications, myApplications);
        myApplications := sortedMine;
      }
    }

    /**
     * "View applications" on a job: `applications` becomes that job's list as
     * fetched, without job tags, so the overview's pending figure and the
     * farmer's recent activity then read that job's applications only.
     */
    method ViewApplications(store: DemoStore, job: Job)
      modifies this
      ensures Current() == old(Current()).(applications := Untagged(GetJobApplications(store.apps, job.id)))
      ensures PendingCount(applications) == |Filter(PendingFor(job.id), store.apps)|
    {
      applications := Untagged(GetJobApplications(store.apps, job.id));
      ViewedPendingCount(store.apps, job.id);
    }

    /**
     * The "Clear filters" button as written: the three filters are emptied, but
     * `loadJobs` runs with the filters of the render the button belongs to.
     */
    method ClearFilters(store: DemoStore)
      modifies this
      ensures Current() == old(Current()).(
        locationFilter := "", skillsFilter := [], searchTerm := "",
        jobs := GetJobs(store.jobs, JobFilters(old(locationFilter), old(skillsFilter), "open")))
    {
      var renderedLocation, renderedSkills := locationFilter, skillsFilter;
      locationFilter, skillsFilter, searchTerm := "", [], "";
      jobs := GetJobs(store.jobs, JobFilters(renderedLocation, renderedSkills, "open"));
    }

    /**
     * "Clear filters" reloading with the cleared filters: the list then holds
     * every open job of the store, in insertion order, and shows all of it.
     */
    method ClearFiltersRefreshed(store: DemoStore)
      modifies this
      ensures Current() == old(Current()).(
        locationFilter := "", skillsFilter := [], searchTerm := "",
        jobs := GetJobs(store.jobs, JobFilters("", [], "open")))
      ensures JobsOf(jobs) == Filter(IsOpenJob, store.jobs)
      ensures FilteredJobs(jobs, searchTerm, locationFilter, skillsFilter) == jobs
    {
      locationFilter, skillsFilter, searchTerm := "", [], "";
      LoadJobs(store);
      ReloadWithoutFiltersListsOpenJobs(store.jobs);
      FilteredJobsWithoutFilters(jobs);
    }
  }

  // ---------------------------------------------------------------------------
  // What the as-written handlers leave on screen

  /**
   * After accepting the only application to a farmer's only job, the recent
   * activity that `HandleApplicationAction` computes from the rendered list
   * still shows that application as pending, while the store holds it as
   * accepted.
   */
  lemma AcceptedApplicationStaysInRecentActivity()
    ensures
      var job := NewJob("job-1", "farmer-1", CreateJobData("Harvest", "Paddy", [], "Guntur", 500, "99", None), 0);
      var app := Application("app-1", "job-1", "labourer-1", None, None, Pending, 1);
      var rendered := ApplicationsForJobs([app], [job]);
      && RecentPending(rendered) == rendered
      && |rendered| == 1
      && rendered[0].entry.app.id == "app-1" && rendered[0].entry.app.status == Pending
      && WithApplicationStatus([app], "app-1", Accepted)[0].status == Accepted
  {
    var job := NewJob("job-1", "farmer-1", CreateJobData("Harvest", "Paddy", [], "Guntur", 500, "99", None), 0);
    var app := Application("app-1", "job-1", "labourer-1", None, None, Pending, 1);
    var entry := ApplicationWithLabourer(app, DemoLabourer("labourer-1"));
    assert Filter(ForJob("job-1"), [app]) == [app];
    assert GetJobApplications([app], "job-1") == [entry];
    var rendered := ApplicationsForJobs([app], [job]);
    assert [job][..0] == [];
    assert Tag([entry], job) == [TaggedApplication(entry, Some(job))];
    assert ApplicationsForJobs([app], []) == [];
    assert rendered == ApplicationsForJobs([app], []) + Tag(GetJobApplications([app], job.id), job);
    assert Filter(IsPendingEntry, rendered) == rendered;
    var recent := RecentPending(rendered);
    assert |recent| == 1 && recent[0] in rendered;
    assert HasAppId("app-1")(app);
  }

  /**
   * With "Guntur" typed and loaded, clearing the filters reloads with the
   * rendered "Guntur" filter: an open job in "Eluru" stays missing from the
   * list, although a reload with the cleared filters lists it.
   */
  lemma ClearedFiltersStillHideJobs()
    ensures
      var guntur := NewJob("job-1", "farmer-1", CreateJobData("Harvest", "Paddy", [], "Guntur", 500, "99", None), 0);
      var eluru := NewJob("job-2", "farmer-1", CreateJobData("Weeding", "Cotton", [], "Eluru", 400, "99", None), 0);
      && eluru !in JobsOf(GetJobs([guntur, eluru], JobFilters("Guntur", [], "open")))
      && eluru in JobsOf(GetJobs([guntur, eluru], JobFilters("", [], "open")))
  {
    var guntur := NewJob("job-1", "farmer-1", CreateJobData("Harvest", "Paddy", [], "Guntur", 500, "99", None), 0);
    var eluru := NewJob("job-2", "farmer-1", CreateJobData("Weeding", "Cotton", [], "Eluru", 400, "99", None), 0);
    LongerNeedleNotContained(Lower(eluru.location), Lower("Guntur"));
    assert !MatchesJobFilters(eluru, JobFilters("Guntur", [], "open"));
    var cleared := JobsOf(GetJobs([guntur, eluru], JobFilters("", [], "open")));
    assert MatchingFilters(JobFilters("", [], "open"))(eluru);
    assert multiset(cleared)[eluru] == multiset([guntur, eluru])[eluru];
  }
}
