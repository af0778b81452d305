/**
 * The job posting form: the skill checkboxes, the required-field check and
 * what submitting does to the form's state and to the demo store.
 */
module JobPostingModal {
  import opened Wrappers
  import opened Seqs
  import opened Text
  import opened JobService

  // ---------------------------------------------------------------------------
  // Skill checkboxes

  function Unlike(skill: string): string -> bool
  {
    (s: string) => s != skill
  }

  /**
   * `handleSkillToggle`: a skill not yet listed is appended at the end; a
   * listed one is removed, every occurrence of it, the others keeping their order.
   */
  function ToggleSkill(skills: seq<string>, skill: string): (r: seq<string>)
    ensures skill !in skills ==> r == skills + [skill]
    ensures skill in skills ==> skill !in r && IsSelection(r, skills, Unlike(skill))
  {
    if skill in skills then
      FilterSelects(Unlike(skill), skills);
      Filter(Unlike(skill), skills)
    else
      skills + [skill]
  }

  /** Ticking a skill that was not listed and then unticking it restores the list. */
  lemma ToggleTwiceRestores(skills: seq<string>, skill: string)
    requires skill !in skills
    ensures ToggleSkill(ToggleSkill(skills, skill), skill) == skills
  {
    FilterAppend(Unlike(skill), skills, [skill]);
    FilterKeepsAll(Unlike(skill), skills);
    assert Filter(Unlike(skill), [skill]) == [];
  }

  /** A toggle keeps a list free of duplicates. */
  lemma ToggleKeepsNoDuplicates(skills: seq<string>, skill: string)
    requires NoDuplicates(skills)
    ensures NoDuplicates(ToggleSkill(skills, skill))
  {
    var r := ToggleSkill(skills, skill);
    if skill in skills {
      SubsequenceMultiset(r, skills);
      forall x | x in r
        ensures multiset(r)[x] == 1
      {
        assert multiset(r)[x] <= multiset(skills)[x];
      }
    } else {
      assert multiset(r) == multiset(skills) + multiset{skill};
    }
  }

  /** The list after ticking and unticking the given skills in turn, starting from `skills`. */
  function ToggleAll(skills: seq<string>, toggles: seq<string>): seq<string>
    decreases |toggles|
  {
    if toggles == [] then skills else ToggleAll(ToggleSkill(skills, toggles[0]), toggles[1..])
  }

  /** From the form's initial empty list, any sequence of toggles leaves no skill listed twice. */
  lemma {:induction false} TogglesNeverDuplicate(skills: seq<string>, toggles: seq<string>)
    requires NoDuplicates(skills)
    ensures NoDuplicates(ToggleAll(skills, toggles))
    decreases |toggles|
  {
    if toggles != [] {
      ToggleKeepsNoDuplicates(skills, toggles[0]);
      TogglesNeverDuplicate(ToggleSkill(skills, toggles[0]), toggles[1..]);
    }
  }

  /** The form opens with no skill ticked, so whatever the user ticks is listed at most once. */
  lemma TogglesFromOpenFormNeverDuplicate(toggles: seq<string>)
    ensures NoDuplicates(ToggleAll([], toggles))
  {
    TogglesNeverDuplicate([], toggles);
  }

  // ---------------------------------------------------------------------------
  // Submitting

  /** The form's contents on opening and after a successful post. */
  function DefaultJobData(): (d: CreateJobData)
    ensures d.requiredSkills == [] && d.payRate == 500
  {
    CreateJobData("", "", [], "", 500, "", Some(""))
  }

  /**
   * The required-field check: title, description, location and contact number
   * must be non-empty and the pay rate non-zero; start date and skills are not
   * consulted.
   */
  predicate RequiredFieldsFilled(d: CreateJobData)
  {
    d.title != "" && d.description != "" && d.location != "" && d.payRate != 0 && d.contactNumber != ""
  }

  /** The check looks at neither the start date nor the skills. */
  lemma OptionalFieldsNotRequired(d: CreateJobData, skills: seq<string>, startDate: Option<string>)
    ensures RequiredFieldsFilled(d.(requiredSkills := skills, startDate := startDate)) == RequiredFieldsFilled(d)
  {
  }

  const MissingFieldsError: string := "Please fill in all required fields"
  const PostFailedError: string := "Failed to post job"

  /**
   * How `JobService.createJob` ends: the demo store takes the job, or the
   * call throws with a message (possible only with a backend, which this
   * model leaves out).
   */
  datatype CreateOutcome = Stored | Threw(message: string)

  class JobPostingForm {
    const farmerId: string
    var loading: bool
    var error: string
    var jobData: CreateJobData

    constructor (farmerId: string)
      ensures this.farmerId == farmerId
      ensures !loading && error == "" && jobData == DefaultJobData()
    {
      this.farmerId := farmerId;
      loading, error := false, "";
      jobData := DefaultJobData();
    }

    /** `handleSkillToggle`: only the skills list changes. */
    method HandleSkillToggle(skill: string)
      modifies this
      ensures jobData == old(jobData).(requiredSkills := ToggleSkill(old(jobData.requiredSkills), skill))
      ensures loading == old(loading) && error == old(error)
    {
      jobData := jobData.(requiredSkills := ToggleSkill(jobData.requiredSkills, skill));
    }

    /**
     * `handleSubmit`. A form failing the required-field check only gets the
     * error message: nothing is stored and loading is left as it was.
     * Otherwise the job is created; on success the form is reset to its
     * defaults and the error cleared, on a throw the entered data is kept and
     * the thrown message, or a fallback, becomes the error. Loading ends false
     * either way.
     */
    method HandleSubmit(store: DemoStore, now: int, outcome: CreateOutcome) returns (posted: Option<Job>)
      requires store.Valid()
      modifies this, store
      ensures store.Valid()
      ensures !RequiredFieldsFilled(old(jobData)) ==>
        && posted == None && unchanged(store)
        && error == MissingFieldsError && jobData == old(jobData) && loading == old(loading)
      ensures RequiredFieldsFilled(old(jobData)) && outcome.Stored? ==>
        && posted.Some?
        && store.jobs == old(store.jobs) + [posted.value]
        && posted.value == NewJob(IssuedId(JobIdPrefix, old(store.jobIdCounter)), farmerId, old(jobData), now)
        && store.jobIdCounter == old(store.jobIdCounter) + 1
        && store.apps == old(store.apps) && store.appIdCounter == old(store.appIdCounter)
        && jobData == DefaultJobData() && error == "" && !loading
      ensures RequiredFieldsFilled(old(jobData)) && outcome.Threw? ==>
        && posted == None && unchanged(store)
        && error == OrElse(outcome.message, PostFailedError) && jobData == old(jobData) && !loading
    {
      if !RequiredFieldsFilled(jobData) {
        error := MissingFieldsError;
        return None;
      }
      loading := true;
      error := "";
      match outcome {
        case Stored =>
          var job := store.CreateJob(farmerId, jobData, now);
          posted := Some(job);
          jobData := DefaultJobData();
        case Threw(message) =>
          posted := None;
          error := OrElse(message, PostFailedError);
      }
      loading := false;
    }
  }
}
