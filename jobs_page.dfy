/**
 * The jobs page of JobsPage.tsx: who may write and who may delete, the
 * customer names it fills in after loading, the search, status and
 * customer filters, and the page of twenty rows.
 */
module JobsPage {
  import opened Base
  import opened Text
  import opened Seqs
  import opened Domain
  import opened Paging

  /** `canWrite`: administrators, managers, operations and sales staff. */
  predicate CanWrite(role: Option<Role>)
  {
    role == Some(Admin) || role == Some(Manager) || role == Some(Ops) || role == Some(Sales)
  }

  /** The delete guard: only an administrator gets past it. */
  predicate CanDelete(role: Option<Role>)
  {
    role == Some(Admin)
  }

  /** Finance may look but not write; only administrators delete, and every one of them may also write. */
  lemma PermissionRoles(role: Role)
    ensures CanWrite(Some(role)) <==> role != Finance
    ensures CanDelete(Some(role)) <==> role == Admin
    ensures CanDelete(Some(role)) ==> CanWrite(Some(role))
    ensures !CanWrite(None) && !CanDelete(None)
  {
  }

  datatype DeleteOutcome = NoAccess | Kept | Deleted

  /**
   * `handleDelete` followed by the reload: refused without the delete
   * permission, nothing happens when the confirmation is declined, and
   * otherwise the job with the id is gone from the list.
   */
  function HandleDelete(role: Option<Role>, confirmed: bool, jobs: seq<Job>, id: string): (DeleteOutcome, seq<Job>)
  {
    if !CanDelete(role) then (NoAccess, jobs)
    else if !confirmed then (Kept, jobs)
    else (Deleted, Filter(jobs, (j: Job) => j.id != id))
  }

  /** Only a confirmed delete by an administrator changes the list, and it removes exactly the jobs with that id. */
  lemma HandleDeleteSpec(role: Option<Role>, confirmed: bool, jobs: seq<Job>, id: string, j: Job)
    ensures HandleDelete(role, confirmed, jobs, id).0 == Deleted <==> CanDelete(role) && confirmed
    ensures HandleDelete(role, confirmed, jobs, id).0 != Deleted ==> HandleDelete(role, confirmed, jobs, id).1 == jobs
    ensures HandleDelete(role, confirmed, jobs, id).0 == Deleted ==>
      (j in HandleDelete(role, confirmed, jobs, id).1 <==> j in jobs && j.id != id)
  {
    FilterMember(jobs, (j: Job) => j.id != id, j);
  }

  function HasId(id: string): Customer -> bool
  {
    (c: Customer) => c.id == id
  }

  /** `customer?.name || ''` for the first customer with the job's customer id. */
  function CustomerNameFor(customers: seq<Customer>, customerId: string): string
  {
    var c := Find(customers, HasId(customerId));
    if c.Some? then c.value.name else ""
  }

  /** The name is the first matching customer's, and the empty string when none matches. */
  lemma CustomerNameForSpec(customers: seq<Customer>, customerId: string, i: int)
    requires 0 <= i < |customers| && customers[i].id == customerId
    requires forall k :: 0 <= k < i ==> customers[k].id != customerId
    ensures CustomerNameFor(customers, customerId) == customers[i].name
  {
    var c := Find(customers, HasId(customerId));
    var m :| 0 <= m < |customers| && customers[m] == c.value && HasId(customerId)(customers[m])
      && forall k :: 0 <= k < m ==> !HasId(customerId)(customers[k]);
    assert !(m < i) && !(i < m);
  }

  lemma NoCustomerNoName(customers: seq<Customer>, customerId: string)
    requires forall k :: 0 <= k < |customers| ==> customers[k].id != customerId
    ensures CustomerNameFor(customers, customerId) == ""
  {
  }

  function Named(customers: seq<Customer>): Job -> Job
  {
    (j: Job) => j.(customerName := CustomerNameFor(customers, j.customerId))
  }

  /** `jobsWithDetails`. */
  function WithCustomerNames(jobs: seq<Job>, customers: seq<Customer>): seq<Job>
  {
    Map(jobs, Named(customers))
  }

  /** Filling in names keeps every job, in order, and changes nothing but the customer name. */
  lemma WithCustomerNamesSpec(jobs: seq<Job>, customers: seq<Customer>, i: int)
    requires 0 <= i < |jobs|
    ensures |WithCustomerNames(jobs, customers)| == |jobs|
    ensures WithCustomerNames(jobs, customers)[i] ==
      jobs[i].(customerName := CustomerNameFor(customers, jobs[i].customerId))
  {
  }

  /** A reload names a job the same way whatever name it was stored with. */
  lemma WithCustomerNamesIdempotent(jobs: seq<Job>, customers: seq<Customer>)
    ensures WithCustomerNames(WithCustomerNames(jobs, customers), customers) == WithCustomerNames(jobs, customers)
  {
  }

  /** The search: empty, or found in the job number or the customer name, ignoring case. */
  predicate MatchesSearch(j: Job, search: string)
  {
    search == "" || Contains(Lower(j.jobNumber), Lower(search)) || Contains(Lower(j.customerName), Lower(search))
  }

  function Listed(search: string, statusFilter: string, customerFilter: string): Job -> bool
  {
    (j: Job) => MatchesSearch(j, search) && (statusFilter == "all" || j.status == statusFilter)
      && (customerFilter == "all" || j.customerId == customerFilter)
  }

  /** `filteredJobs`. */
  function FilteredJobs(jobs: seq<Job>, search: string, statusFilter: string, customerFilter: string): seq<Job>
  {
    Filter(jobs, Listed(search, statusFilter, customerFilter))
  }

  /** A job is listed exactly when it passes the three filters, in loaded order. */
  lemma FilteredJobsSpec(jobs: seq<Job>, search: string, statusFilter: string, customerFilter: string, j: Job)
    ensures j in FilteredJobs(jobs, search, statusFilter, customerFilter) <==>
      j in jobs && MatchesSearch(j, search)
      && (statusFilter == "all" || j.status == statusFilter)
      && (customerFilter == "all" || j.customerId == customerFilter)
    ensures Subsequence(FilteredJobs(jobs, search, statusFilter, customerFilter), jobs)
  {
    FilterMember(jobs, Listed(search, statusFilter, customerFilter), j);
    FilterSubsequence(jobs, Listed(search, statusFilter, customerFilter));
  }

  /** With an empty search and both filters on `all`, every job is listed. */
  lemma NoFilterListsAll(jobs: seq<Job>)
    ensures FilteredJobs(jobs, "", "all", "all") == jobs
  {
    FilterAll(jobs, Listed("", "all", "all"));
  }

  /** `totalPages` and `paginatedJobs`: page `p` shows rows `(p - 1) * 20` to `p * 20` of the filtered list. */
  lemma PaginatedJobsSpec(filtered: seq<Job>, page: int)
    requires page >= 1
    ensures var lo := Min((page - 1) * RowsPerPage, |filtered|);
      var hi := Min(page * RowsPerPage, |filtered|);
      PageSlice(filtered, page, RowsPerPage) == filtered[lo..hi] && |PageSlice(filtered, page, RowsPerPage)| <= 20
    ensures |filtered| <= TotalPages(|filtered|, RowsPerPage) * 20
    ensures PageSlice(filtered, page, RowsPerPage) == [] <==> page > TotalPages(|filtered|, RowsPerPage)
  {
    PageSliceIs(filtered, page, RowsPerPage);
    PageEmptiness(filtered, page, RowsPerPage);
  }
}
