/**
 * The job marketplace's in-memory demo store: the branch of `JobService` that
 * runs when no backend is configured. Jobs and applications live in two
 * module-level lists; two counters, both starting at 1, issue the ids
 * `job-N` and `app-N`. The backend branches are not part of this model.
 */
module JobService {
  import opened Wrappers
  import opened Seqs
  import opened Text

  // ---------------------------------------------------------------------------
  // Records

  datatype JobStatus = Open | InProgress | Completed | Cancelled

  /** The string the source stores in a job's `status` field. */
  function JobStatusName(s: JobStatus): string
  {
    match s
    case Open => "open"
    case InProgress => "in_progress"
    case Completed => "completed"
    case Cancelled => "cancelled"
  }

  datatype ApplicationStatus = Pending | Accepted | Rejected

  /** What the job posting form submits (`CreateJobData`). */
  datatype CreateJobData = CreateJobData(
    title: string,
    description: string,
    requiredSkills: seq<string>,
    location: string,
    payRate: int,
    contactNumber: string,
    startDate: Option<string>)

  /**
   * A job posting. `requiredSkills` is optional on a posting in general;
   * jobs created by the demo store always carry it.
   */
  datatype Job = Job(
    id: string,
    farmerId: string,
    title: string,
    description: string,
    requiredSkills: Option<seq<string>>,
    location: string,
    payRate: int,
    contactNumber: string,
    startDate: Option<string>,
    status: JobStatus,
    createdAt: int)

  datatype Application = Application(
    id: string,
    jobId: string,
    labourerId: string,
    message: Option<string>,
    proposedRate: Option<int>,
    status: ApplicationStatus,
    appliedAt: int)

  /** The farmer profile the demo attaches to every listed job (rating in tenths). */
  datatype FarmerSummary = FarmerSummary(id: string, fullName: string, ratingTenths: nat, totalJobsPosted: nat)

  function DemoFarmer(farmerId: string): FarmerSummary
  {
    FarmerSummary(farmerId, "Demo Farmer", 45, 10)
  }

  datatype JobWithFarmer = JobWithFarmer(job: Job, farmer: FarmerSummary)

  /** The labourer profile the demo attaches to every application (rating in tenths). */
  datatype LabourerSummary = LabourerSummary(
    id: string, fullName: string, ratingTenths: nat, skills: seq<string>, experienceYears: nat)

  function DemoLabourer(labourerId: string): LabourerSummary
  {
    LabourerSummary(labourerId, "Demo Labourer", 42, ["Harvesting", "Plowing"], 5)
  }

  datatype ApplicationWithLabourer = ApplicationWithLabourer(app: Application, labourer: LabourerSummary)

  /**
   * The job joined to an application by `getMyApplications`: the job's own
   * fields when a job with that id exists, and a farmer whose id is the job's
   * `farmer_id`, or undefined (`None`) when no job was found.
   */
  datatype JoinedFarmer = JoinedFarmer(id: Option<string>, fullName: string, ratingTenths: nat)
  datatype JoinedJob = JoinedJob(fields: Option<Job>, farmer: JoinedFarmer)
  datatype ApplicationWithJob = ApplicationWithJob(app: Application, job: JoinedJob)

  /** The optional filters of `getJobs`; an empty string stands for an absent filter. */
  datatype JobFilters = JobFilters(location: string, skills: seq<string>, status: string)

  // ---------------------------------------------------------------------------
  // Ids: `job-${n}` and `app-${n}`

  function Digit(d: nat): char
    requires d < 10
  {
    ('0' as int + d) as char
  }

  /** The decimal numeral of `n`, as a template literal prints it. */
  function Decimal(n: nat): (s: string)
    ensures 1 <= |s|
    ensures n < 10 <==> |s| == 1
    decreases n
  {
    if n < 10 then [Digit(n)] else Decimal(n / 10) + [Digit(n % 10)]
  }

  /** Different numbers have different numerals. */
  lemma {:induction false} DecimalInjective(a: nat, b: nat)
    requires Decimal(a) == Decimal(b)
    ensures a == b
    decreases a
  {
    if a >= 10 && b >= 10 {
      var da, db := Decimal(a), Decimal(b);
      assert da[|da| - 1] == Digit(a % 10);
      assert db[|db| - 1] == Digit(b % 10);
      assert Decimal(a / 10) == da[..|da| - 1];
      assert Decimal(b / 10) == db[..|db| - 1];
      DecimalInjective(a / 10, b / 10);
    }
  }

  const JobIdPrefix: string := "job-"
  const AppIdPrefix: string := "app-"

  function IssuedId(prefix: string, n: nat): string
  {
    prefix + Decimal(n)
  }

  /** Two counter values give the same id only if they are equal. */
  lemma IssuedIdInjective(prefix: string, a: nat, b: nat)
    requires IssuedId(prefix, a) == IssuedId(prefix, b)
    ensures a == b
  {
    assert Decimal(a) == IssuedId(prefix, a)[|prefix|..];
    assert Decimal(b) == IssuedId(prefix, b)[|prefix|..];
    DecimalInjective(a, b);
  }

  /** A job id never equals an application id. */
  lemma JobAndApplicationIdsDiffer(a: nat, b: nat)
    ensures IssuedId(JobIdPrefix, a) != IssuedId(AppIdPrefix, b)
  {
    assert IssuedId(JobIdPrefix, a)[0] == 'j';
    assert IssuedId(AppIdPrefix, b)[0] == 'a';
  }

  /**
   * The ids of a table were issued by its counter: entry `i` carries the id
   * made from `nums[i]`, every such number is below the counter, and the
   * numbers increase along the table (entries are only appended or removed).
   */
  ghost predicate Issued(ids: seq<string>, nums: seq<nat>, prefix: string, counter: nat)
  {
    && |ids| == |nums|
    && (forall i :: 0 <= i < |ids| ==> 1 <= nums[i] < counter && ids[i] == IssuedId(prefix, nums[i]))
    && (forall i, j :: 0 <= i < j < |nums| ==> nums[i] < nums[j])
  }

  /** Issued ids are pairwise distinct. */
  lemma IssuedDistinct(ids: seq<string>, nums: seq<nat>, prefix: string, counter: nat)
    requires Issued(ids, nums, prefix, counter)
    ensures forall i, j :: 0 <= i < j < |ids| ==> ids[i] != ids[j]
  {
    forall i, j | 0 <= i < j < |ids|
      ensures ids[i] != ids[j]
    {
      if ids[i] == ids[j] {
        IssuedIdInjective(prefix, nums[i], nums[j]);
      }
    }
  }

  /** The id the counter issues next is not in the table. */
  lemma IssuedFresh(ids: seq<string>, nums: seq<nat>, prefix: string, counter: nat)
    requires Issued(ids, nums, prefix, counter)
    ensures IssuedId(prefix, counter) !in ids
  {
    if IssuedId(prefix, counter) in ids {
      var i :| 0 <= i < |ids| && ids[i] == IssuedId(prefix, counter);
      IssuedIdInjective(prefix, nums[i], counter);
    }
  }

  /** Removing one entry keeps the table's ids issued by the same counter. */
  lemma IssuedRemove(ids: seq<string>, nums: seq<nat>, prefix: string, counter: nat, k: nat)
    requires Issued(ids, nums, prefix, counter) && k < |ids|
    ensures Issued(ids[..k] + ids[k + 1..], nums[..k] + nums[k + 1..], prefix, counter)
  {
    var ids', nums' := ids[..k] + ids[k + 1..], nums[..k] + nums[k + 1..];
    assert forall i :: 0 <= i < |nums'| ==> nums'[i] == if i < k then nums[i] else nums[i + 1];
    assert forall i :: 0 <= i < |ids'| ==> ids'[i] == if i < k then ids[i] else ids[i + 1];
  }

  function JobIds(js: seq<Job>): (ids: seq<string>)
    ensures |ids| == |js| && forall i :: 0 <= i < |js| ==> ids[i] == js[i].id
  {
    seq(|js|, i requires 0 <= i < |js| => js[i].id)
  }

  function AppIds(apps: seq<Application>): (ids: seq<string>)
    ensures |ids| == |apps| && forall i :: 0 <= i < |apps| ==> ids[i] == apps[i].id
  {
    seq(|apps|, i requires 0 <= i < |apps| => apps[i].id)
  }

  // ---------------------------------------------------------------------------
  // Row tests used by the lookups

  function HasJobId(jobId: string): Job -> bool
  {
    (j: Job) => j.id == jobId
  }

  function OwnedJob(jobId: string, farmerId: string): Job -> bool
  {
    (j: Job) => j.id == jobId && j.farmerId == farmerId
  }

  function PostedBy(farmerId: string): Job -> bool
  {
    (j: Job) => j.farmerId == farmerId
  }

  function HasAppId(applicationId: string): Application -> bool
  {
    (a: Application) => a.id == applicationId
  }

  function ForJob(jobId: string): Application -> bool
  {
    (a: Application) => a.jobId == jobId
  }

  function ByLabourer(labourerId: string): Application -> bool
  {
    (a: Application) => a.labourerId == labourerId
  }

  // ---------------------------------------------------------------------------
  // Reads (pure functions of the two tables)

  /** The job the demo `getJobs` keeps for these filters; skills are never consulted. */
  predicate MatchesJobFilters(j: Job, filters: JobFilters)
  {
    && (filters.status == "" || JobStatusName(j.status) == filters.status)
    && (filters.location == "" || ContainsIgnoreCase(j.location, filters.location))
  }

  function MatchingFilters(filters: JobFilters): Job -> bool
  {
    (j: Job) => MatchesJobFilters(j, filters)
  }

  function StatusTest(status: string): Job -> bool
  {
    (j: Job) => status == "" || JobStatusName(j.status) == status
  }

  function LocationTest(location: string): Job -> bool
  {
    (j: Job) => location == "" || ContainsIgnoreCase(j.location, location)
  }

  /** `getJobs`' two successive filters: status when given, then location when given. */
  function FilterJobs(jobs: seq<Job>, filters: JobFilters): seq<Job>
  {
    var byStatus := if filters.status != "" then Filter(StatusTest(filters.status), jobs) else jobs;
    if filters.location != "" then Filter(LocationTest(filters.location), byStatus) else byStatus
  }

  lemma FilterJobsSelects(jobs: seq<Job>, filters: JobFilters)
    ensures IsSelection(FilterJobs(jobs, filters), jobs, MatchingFilters(filters))
  {
    var byStatus := if filters.status != "" then Filter(StatusTest(filters.status), jobs) else jobs;
    if filters.status != "" {
      FilterSelects(StatusTest(filters.status), jobs);
    } else {
      SelectionOfAll(jobs, StatusTest(filters.status));
    }
    if filters.location != "" {
      FilterSelects(LocationTest(filters.location), byStatus);
    } else {
      SelectionOfAll(byStatus, LocationTest(filters.location));
    }
    SelectionCompose(byStatus, FilterJobs(jobs, filters), jobs,
      StatusTest(filters.status), LocationTest(filters.location), MatchingFilters(filters));
  }

  function JobsOf(r: seq<JobWithFarmer>): (js: seq<Job>)
    ensures |js| == |r| && forall i :: 0 <= i < |r| ==> js[i] == r[i].job
  {
    seq(|r|, i requires 0 <= i < |r| => r[i].job)
  }

  /**
   * Demo `getJobs(filters)`: the stored jobs whose status equals the status
   * filter and whose location contains the location filter, ignoring case,
   * in insertion order, each with a demo farmer whose id is the job's farmer.
   */
  function GetJobs(jobs: seq<Job>, filters: JobFilters): (r: seq<JobWithFarmer>)
    ensures IsSelection(JobsOf(r), jobs, MatchingFilters(filters))
    ensures forall i :: 0 <= i < |r| ==> r[i].farmer == DemoFarmer(r[i].job.farmerId)
  {
    var kept := FilterJobs(jobs, filters);
    FilterJobsSelects(jobs, filters);
    var r := seq(|kept|, i requires 0 <= i < |kept| => JobWithFarmer(kept[i], DemoFarmer(kept[i].farmerId)));
    assert JobsOf(r) == kept;
    r
  }

  /** The skills filter has no effect on the demo `getJobs`. */
  lemma GetJobsIgnoresSkills(jobs: seq<Job>, filters: JobFilters, skills: seq<string>)
    ensures GetJobs(jobs, filters.(skills := skills)) == GetJobs(jobs, filters)
  {
  }

  function LabourerViewApps(r: seq<ApplicationWithLabourer>): (apps: seq<Application>)
    ensures |apps| == |r| && forall i :: 0 <= i < |r| ==> apps[i] == r[i].app
  {
    seq(|r|, i requires 0 <= i < |r| => r[i].app)
  }

  /** Demo `getJobApplications(jobId)`: the applications to that job, in insertion order. */
  function GetJobApplications(apps: seq<Application>, jobId: string): (r: seq<ApplicationWithLabourer>)
    ensures IsSelection(LabourerViewApps(r), apps, ForJob(jobId))
    ensures forall i :: 0 <= i < |r| ==> r[i].labourer == DemoLabourer(r[i].app.labourerId)
  {
    var kept := Filter(ForJob(jobId), apps);
    FilterSelects(ForJob(jobId), apps);
    var r := seq(|kept|, i requires 0 <= i < |kept| => ApplicationWithLabourer(kept[i], DemoLabourer(kept[i].labourerId)));
    assert LabourerViewApps(r) == kept;
    r
  }

  /** Demo `getMyJobs(farmerId)`: the jobs that farmer posted, in insertion order. */
  function GetMyJobs(jobs: seq<Job>, farmerId: string): (r: seq<Job>)
    ensures IsSelection(r, jobs, PostedBy(farmerId))
  {
    FilterSelects(PostedBy(farmerId), jobs);
    Filter(PostedBy(farmerId), jobs)
  }

  /** `mockJobs.find(j => j.id === jobId)` joined as `getMyApplications` does it. */
  function JoinJob(jobs: seq<Job>, jobId: string): (jj: JoinedJob)
    ensures jj.fields.None? <==> forall k :: 0 <= k < |jobs| ==> jobs[k].id != jobId
    ensures jj.fields.Some? ==> jj.fields.value in jobs && jj.fields.value.id == jobId
    ensures jj.farmer.id == if jj.fields.Some? then Some(jj.fields.value.farmerId) else None
  {
    match FirstIndex(HasJobId(jobId), jobs)
    case Some(k) => JoinedJob(Some(jobs[k]), JoinedFarmer(Some(jobs[k].farmerId), "Demo Farmer", 45))
    case None => JoinedJob(None, JoinedFarmer(None, "Demo Farmer", 45))
  }

  /** When job ids are distinct, the join finds exactly the job carrying the id. */
  lemma JoinJobFindsTheJob(jobs: seq<Job>, k: nat)
    requires k < |jobs|
    requires forall i, j :: 0 <= i < j < |jobs| ==> jobs[i].id != jobs[j].id
    ensures JoinJob(jobs, jobs[k].id).fields == Some(jobs[k])
  {
    var found := FirstIndex(HasJobId(jobs[k].id), jobs);
    assert HasJobId(jobs[k].id)(jobs[k]);
  }

  /**
   * Once the job an application refers to has been removed from a table of
   * distinct ids, the join yields no job fields and an undefined farmer id.
   */
  lemma JoinAfterRemoval(jobs: seq<Job>, k: nat)
    requires k < |jobs|
    requires forall i, j :: 0 <= i < j < |jobs| ==> jobs[i].id != jobs[j].id
    ensures JoinJob(jobs[..k] + jobs[k + 1..], jobs[k].id) == JoinedJob(None, JoinedFarmer(None, "Demo Farmer", 45))
  {
    var rest := jobs[..k] + jobs[k + 1..];
    forall i | 0 <= i < |rest|
      ensures rest[i].id != jobs[k].id
    {
      if i < k {
        assert rest[i] == jobs[i];
      } else {
        assert rest[i] == jobs[i + 1];
      }
    }
  }

  function JoinedViewApps(r: seq<ApplicationWithJob>): (apps: seq<Application>)
    ensures |apps| == |r| && forall i :: 0 <= i < |r| ==> apps[i] == r[i].app
  {
    seq(|r|, i requires 0 <= i < |r| => r[i].app)
  }

  /**
   * Demo `getMyApplications(labourerId)`: that labourer's applications in
   * insertion order, each joined to the job it refers to.
   */
  function GetMyApplications(jobs: seq<Job>, apps: seq<Application>, labourerId: string): (r: seq<ApplicationWithJob>)
    ensures IsSelection(JoinedViewApps(r), apps, ByLabourer(labourerId))
    ensures forall i :: 0 <= i < |r| ==> r[i].job == JoinJob(jobs, r[i].app.jobId)
  {
    var mine := Filter(ByLabourer(labourerId), apps);
    FilterSelects(ByLabourer(labourerId), apps);
    var r := seq(|mine|, i requires 0 <= i < |mine| => ApplicationWithJob(mine[i], JoinJob(jobs, mine[i].jobId)));
    assert JoinedViewApps(r) == mine;
    r
  }

  // ---------------------------------------------------------------------------
  // In-place status updates, as functions of the table before and after

  /**
   * The applications table after `application.status = status` on the first
   * application with that id: that one entry's status is replaced, nothing else
   * changes, and an unknown id leaves the table as it was.
   */
  function WithApplicationStatus(apps: seq<Application>, applicationId: string, status: ApplicationStatus): (r: seq<Application>)
    ensures |r| == |apps|
    ensures forall k :: 0 <= k < |apps| ==> r[k] == apps[k].(status := r[k].status)
    ensures match FirstIndex(HasAppId(applicationId), apps)
      case Some(i) => r[i].status == status && forall k :: 0 <= k < |apps| && k != i ==> r[k] == apps[k]
      case None => r == apps
  {
    match FirstIndex(HasAppId(applicationId), apps)
    case Some(i) => apps[i := apps[i].(status := status)]
    case None => apps
  }

  /** The jobs table after `job.status = status` on the first job with that id. */
  function WithJobStatus(jobs: seq<Job>, jobId: string, status: JobStatus): (r: seq<Job>)
    ensures |r| == |jobs|
    ensures forall k :: 0 <= k < |jobs| ==> r[k] == jobs[k].(status := r[k].status)
    ensures match FirstIndex(HasJobId(jobId), jobs)
      case Some(i) => r[i].status == status && forall k :: 0 <= k < |jobs| && k != i ==> r[k] == jobs[k]
      case None => r == jobs
  {
    match FirstIndex(HasJobId(jobId), jobs)
    case Some(i) => jobs[i := jobs[i].(status := status)]
    case None => jobs
  }

  /** The jobs table after the demo `deleteJob`: the first job with that id and farmer is spliced out. */
  function WithoutJob(jobs: seq<Job>, jobId: string, farmerId: string): (r: seq<Job>)
    ensures match FirstIndex(OwnedJob(jobId, farmerId), jobs)
      case Some(i) => |r| == |jobs| - 1 && r == jobs[..i] + jobs[i + 1..]
      case None => r == jobs
    ensures IsSubsequence(r, jobs)
  {
    match FirstIndex(OwnedJob(jobId, farmerId), jobs)
    case Some(i) => RemovalIsSubsequence(jobs, i); jobs[..i] + jobs[i + 1..]
    case None => SubsequenceReflexive(jobs); jobs
  }

  /** A farmer who owns no job with that id deletes nothing. */
  lemma DeleteByOtherFarmerKeepsJobs(jobs: seq<Job>, jobId: string, farmerId: string)
    requires forall k :: 0 <= k < |jobs| && jobs[k].id == jobId ==> jobs[k].farmerId != farmerId
    ensures WithoutJob(jobs, jobId, farmerId) == jobs
  {
  }

  // ---------------------------------------------------------------------------
  // The store

  /** The record `createJob` builds: the form's fields, status `open`, the given time. */
  function NewJob(id: string, farmerId: string, data: CreateJobData, now: int): Job
  {
    Job(id, farmerId, data.title, data.description, Some(data.requiredSkills), data.location,
        data.payRate, data.contactNumber, data.startDate, Open, now)
  }

  class DemoStore {
    var jobs: seq<Job>
    var apps: seq<Application>
    var jobIdCounter: nat
    var appIdCounter: nat
    /** The counter value each stored job's id was made from. */
    ghost var jobNums: seq<nat>
    /** The counter value each stored application's id was made from. */
    ghost var appNums: seq<nat>

    ghost predicate Valid()
      reads this
    {
      && 1 <= jobIdCounter && 1 <= appIdCounter
      && Issued(JobIds(jobs), jobNums, JobIdPrefix, jobIdCounter)
      && Issued(AppIds(apps), appNums, AppIdPrefix, appIdCounter)
    }

    /** The module's initial state: both tables empty, both counters at 1. */
    constructor ()
      ensures Valid()
      ensures jobs == [] && apps == [] && jobIdCounter == 1 && appIdCounter == 1
    {
      jobs, apps := [], [];
      jobIdCounter, appIdCounter := 1, 1;
      jobNums, appNums := [], [];
    }

    /** Stored job ids are pairwise distinct, and so are stored application ids. */
    lemma IdsDistinct()
      requires Valid()
      ensures forall i, j :: 0 <= i < j < |jobs| ==> jobs[i].id != jobs[j].id
      ensures forall i, j :: 0 <= i < j < |apps| ==> apps[i].id != apps[j].id
    {
      IssuedDistinct(JobIds(jobs), jobNums, JobIdPrefix, jobIdCounter);
      IssuedDistinct(AppIds(apps), appNums, AppIdPrefix, appIdCounter);
    }

    /** Demo `createJob`: appends one open job with id `job-N`, N the counter's old value. */
    method CreateJob(farmerId: string, data: CreateJobData, now: int) returns (job: Job)
      requires Valid()
      modifies this
      ensures Valid()
      ensures job == NewJob(IssuedId(JobIdPrefix, old(jobIdCounter)), farmerId, data, now)
      ensures job.id !in JobIds(old(jobs))
      ensures jobs == old(jobs) + [job]
      ensures jobIdCounter == old(jobIdCounter) + 1
      ensures apps == old(apps) && appIdCounter == old(appIdCounter)
    {
      job := NewJob(IssuedId(JobIdPrefix, jobIdCounter), farmerId, data, now);
      IssuedFresh(JobIds(jobs), jobNums, JobIdPrefix, jobIdCounter);
      assert JobIds(jobs + [job]) == JobIds(jobs) + [job.id];
      jobs := jobs + [job];
      jobNums := jobNums + [jobIdCounter];
      jobIdCounter := jobIdCounter + 1;
    }

    /** Demo `applyForJob`: appends one pending application with id `app-N`. */
    method ApplyForJob(jobId: string, labourerId: string, message: Option<string>, proposedRate: Option<int>, now: int)
      returns (app: Application)
      requires Valid()
      modifies this
      ensures Valid()
      ensures app == Application(IssuedId(AppIdPrefix, old(appIdCounter)), jobId, labourerId, message, proposedRate, Pending, now)
      ensures app.id !in AppIds(old(apps))
      ensures apps == old(apps) + [app]
      ensures appIdCounter == old(appIdCounter) + 1
      ensures jobs == old(jobs) && jobIdCounter == old(jobIdCounter)
    {
      app := Application(IssuedId(AppIdPrefix, appIdCounter), jobId, labourerId, message, proposedRate, Pending, now);
      IssuedFresh(AppIds(apps), appNums, AppIdPrefix, appIdCounter);
      assert AppIds(apps + [app]) == AppIds(apps) + [app.id];
      apps := apps + [app];
      appNums := appNums + [appIdCounter];
      appIdCounter := appIdCounter + 1;
    }

    /**
     * Demo `updateApplicationStatus`: overwrites the status of the first
     * application with that id, whatever it was, and returns that record; an
     * unknown id changes nothing and returns undefined.
     */
    method UpdateApplicationStatus(applicationId: string, status: ApplicationStatus) returns (updated: Option<Application>)
      requires Valid()
      requires status != Pending
      modifies this
      ensures Valid()
      ensures apps == WithApplicationStatus(old(apps), applicationId, status)
      ensures updated == match FirstIndex(HasAppId(applicationId), old(apps))
        case Some(i) => Some(apps[i])
        case None => None
      ensures jobs == old(jobs) && jobIdCounter == old(jobIdCounter) && appIdCounter == old(appIdCounter)
    {
      match FirstIndex(HasAppId(applicationId), apps)
      case None =>
        updated := None;
      case Some(i) =>
        var changed := apps[i].(status := status);
        assert AppIds(apps[i := changed]) == AppIds(apps);
        apps := apps[i := changed];
        updated := Some(changed);
    }

    /** Demo `updateJobStatus`: the same in-place update over the jobs table. */
    method UpdateJobStatus(jobId: string, status: JobStatus) returns (updated: Option<Job>)
      requires Valid()
      modifies this
      ensures Valid()
      ensures jobs == WithJobStatus(old(jobs), jobId, status)
      ensures updated == match FirstIndex(HasJobId(jobId), old(jobs))
        case Some(i) => Some(jobs[i])
        case None => None
      ensures apps == old(apps) && jobIdCounter == old(jobIdCounter) && appIdCounter == old(appIdCounter)
    {
      match FirstIndex(HasJobId(jobId), jobs)
      case None =>
        updated := None;
      case Some(i) =>
        var changed := jobs[i].(status := status);
        assert JobIds(jobs[i := changed]) == JobIds(jobs);
        jobs := jobs[i := changed];
        updated := Some(changed);
    }

    /**
     * Demo `deleteJob`: removes the first job whose id and farmer both match,
     * after which no job carries that id; a mismatched farmer or an unknown id
     * changes nothing. Applications to the job stay, and neither counter moves,
     * so its id is never issued again.
     */
    method DeleteJob(jobId: string, farmerId: string)
      requires Valid()
      modifies this
      ensures Valid()
      ensures jobs == WithoutJob(old(jobs), jobId, farmerId)
      ensures FirstIndex(OwnedJob(jobId, farmerId), old(jobs)).Some? ==> forall k :: 0 <= k < |jobs| ==> jobs[k].id != jobId
      ensures apps == old(apps) && jobIdCounter == old(jobIdCounter) && appIdCounter == old(appIdCounter)
    {
      match FirstIndex(OwnedJob(jobId, farmerId), jobs)
      case None =>
      case Some(i) =>
        IdsDistinct();
        var rest := jobs[..i] + jobs[i + 1..];
        assert JobIds(rest) == JobIds(jobs)[..i] + JobIds(jobs)[i + 1..];
        IssuedRemove(JobIds(jobs), jobNums, JobIdPrefix, jobIdCounter, i);
        forall k | 0 <= k < |rest|
          ensures rest[k].id != jobId
        {
          if k < i {
            assert rest[k] == jobs[k];
          } else {
            assert rest[k] == jobs[k + 1];
          }
        }
        jobs := rest;
        jobNums := jobNums[..i] + jobNums[i + 1..];
    }
  }
}
