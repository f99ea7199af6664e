/**
 * The tracking list page (TrackingPage.tsx): the search, step and vehicle
 * filters over the job list, and the colour of each job's step badge.
 */
module TrackingList {
  import opened Base
  import opened Text
  import opened Seqs
  import opened Domain

  /** The search box: the job number or the customer name contains the search term, ignoring case. */
  predicate MatchesSearch(job: Job, search: string)
  {
    Contains(Lower(job.jobNumber), Lower(search)) || Contains(Lower(job.customerName), Lower(search))
  }

  /** The step filter compares the stored current step itself, so an unset one matches only `all`. */
  predicate MatchesStep(job: Job, filter: string)
  {
    filter == "all" || (job.currentTrackingStep.Some? && StepName(job.currentTrackingStep.value) == filter)
  }

  predicate MatchesVehicle(job: Job, filter: string)
  {
    filter == "all" || job.vehicleId == filter
  }

  predicate Shown(job: Job, search: string, stepFilter: string, vehicleFilter: string)
  {
    MatchesSearch(job, search) && MatchesStep(job, stepFilter) && MatchesVehicle(job, vehicleFilter)
  }

  /** `filteredJobs`. */
  function FilteredJobs(jobs: seq<Job>, search: string, stepFilter: string, vehicleFilter: string): seq<Job>
  {
    Filter(jobs, (j: Job) => Shown(j, search, stepFilter, vehicleFilter))
  }

  /** A job is listed exactly when it is in the list and passes all three filters; the list keeps its order. */
  lemma FilteredJobsSpec(jobs: seq<Job>, search: string, stepFilter: string, vehicleFilter: string, job: Job)
    ensures job in FilteredJobs(jobs, search, stepFilter, vehicleFilter) <==>
      job in jobs && MatchesSearch(job, search) && MatchesStep(job, stepFilter) && MatchesVehicle(job, vehicleFilter)
    ensures Subsequence(FilteredJobs(jobs, search, stepFilter, vehicleFilter), jobs)
  {
    FilterMember(jobs, (j: Job) => Shown(j, search, stepFilter, vehicleFilter), job);
    FilterSubsequence(jobs, (j: Job) => Shown(j, search, stepFilter, vehicleFilter));
  }

  /** With an empty search and both filters on `all`, every job is listed. */
  lemma NoFilterListsAll(jobs: seq<Job>)
    ensures FilteredJobs(jobs, "", "all", "all") == jobs
  {
    forall i | 0 <= i < |jobs| ensures Shown(jobs[i], "", "all", "all") {
      ContainsEmpty(Lower(jobs[i].jobNumber));
    }
    FilterAll(jobs, (j: Job) => Shown(j, "", "all", "all"));
  }

  /** The step the badge shows: the current step, or `created` when it is unset. */
  function BadgeStep(job: Job): string
  {
    StepName(job.currentTrackingStep.GetOr(Created))
  }

  /**
   * A job whose current step is unset shows a `created` badge, yet the `created`
   * step filter leaves it out.
   */
  lemma UnsetShowsCreatedButIsFilteredOut(jobs: seq<Job>, job: Job, search: string, vehicleFilter: string)
    requires job.currentTrackingStep.None?
    ensures BadgeStep(job) == "created"
    ensures job !in FilteredJobs(jobs, search, "created", vehicleFilter)
  {
    FilteredJobsSpec(jobs, search, "created", vehicleFilter, job);
  }

  /** A job whose current step is `created` is both shown as and filtered as `created`. */
  lemma SetCreatedIsFilteredIn(jobs: seq<Job>, job: Job, vehicleFilter: string)
    requires job in jobs && job.currentTrackingStep == Some(Created) && MatchesVehicle(job, vehicleFilter)
    ensures BadgeStep(job) == "created"
    ensures job in FilteredJobs(jobs, "", "created", vehicleFilter)
  {
    ContainsEmpty(Lower(job.jobNumber));
    FilteredJobsSpec(jobs, "", "created", vehicleFilter, job);
  }

  const Gray := "bg-gray-100 text-gray-800"
  const Blue := "bg-blue-100 text-blue-800"
  const Indigo := "bg-indigo-100 text-indigo-800"
  const Purple := "bg-purple-100 text-purple-800"
  const Yellow := "bg-yellow-100 text-yellow-800"
  const Orange := "bg-orange-100 text-orange-800"
  const Green := "bg-green-100 text-green-800"
  const Emerald := "bg-emerald-100 text-emerald-800"

  /** `getStepBadgeColor`. */
  function StepBadgeColor(step: string): string
  {
    if step == "created" then Gray
    else if step == "confirmed" then Blue
    else if step == "vehicle-assigned" then Indigo
    else if step == "pickup-scheduled" then Purple
    else if step == "picked-up" then Yellow
    else if step == "in-transit" then Orange
    else if step == "delivered" then Green
    else if step == "invoiced" then Purple
    else if step == "payment-received" then Emerald
    else Gray
  }

  /** The colour each of the nine steps gets. */
  function ReferenceColor(s: TrackingStep): string
  {
    match s
    case Created => Gray
    case Confirmed => Blue
    case VehicleAssigned => Indigo
    case PickupScheduled => Purple
    case PickedUp => Yellow
    case InTransit => Orange
    case Delivered => Green
    case Invoiced => Purple
    case PaymentReceived => Emerald
  }

  /** Each step's name gets that step's colour; any other text falls to gray. */
  lemma BadgeColorTable(s: TrackingStep, other: string)
    requires forall t: TrackingStep :: StepName(t) != other
    ensures StepBadgeColor(StepName(s)) == ReferenceColor(s)
    ensures StepBadgeColor(other) == Gray
  {
    assert StepName(Created) != other && StepName(Confirmed) != other && StepName(VehicleAssigned) != other;
    assert StepName(PickupScheduled) != other && StepName(PickedUp) != other && StepName(InTransit) != other;
    assert StepName(Delivered) != other && StepName(Invoiced) != other && StepName(PaymentReceived) != other;
  }

  /** Two badges share a colour only for `created`/unknown (gray) and `pickup-scheduled`/`invoiced` (purple). */
  lemma SharedBadgeColors(s: TrackingStep, t: TrackingStep)
    requires s != t && ReferenceColor(s) == ReferenceColor(t)
    ensures {s, t} == {PickupScheduled, Invoiced}
  {
  }
}
