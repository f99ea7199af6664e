/**
 * The dashboard of DashboardPage.tsx: the jobs started this month, the
 * active-vehicle count, the outstanding balance and the unpaid-invoice count,
 * the ten most recent jobs (sorted in place, newest first), and the badge a
 * job status is shown with.
 */
module Dashboard {
  import opened Seqs
  import opened Domain

  /** A job's start falls in the given month (0-11) and year. */
  function InMonth(month: nat, year: nat): Job -> bool
  {
    (j: Job) => j.startDate.month == month && j.startDate.year == year
  }

  /** `monthlyJobs`, for the month and year of today. */
  function MonthlyJobs(jobs: seq<Job>, today: Date): seq<Job>
  {
    Filter(jobs, InMonth(today.month, today.year))
  }

  /** The month's jobs are exactly the jobs whose start has today's month and year, in stored order. */
  lemma MonthlyJobsSpec(jobs: seq<Job>, today: Date, j: Job)
    ensures j in MonthlyJobs(jobs, today) <==>
      j in jobs && j.startDate.month == today.month && j.startDate.year == today.year
    ensures Subsequence(MonthlyJobs(jobs, today), jobs)
  {
    FilterMember(jobs, InMonth(today.month, today.year), j);
    FilterSubsequence(jobs, InMonth(today.month, today.year));
  }

  function IsActive(v: Vehicle): bool
  {
    v.status == "active"
  }

  /** `activeVehicles`. */
  function ActiveVehicles(vehicles: seq<Vehicle>): nat
  {
    Count(vehicles, IsActive)
  }

  /** A vehicle in maintenance, or in any status but `active`, is not counted; an active one adds one. */
  lemma ActiveVehiclesSnoc(vehicles: seq<Vehicle>, v: Vehicle)
    ensures ActiveVehicles(vehicles + [v]) == ActiveVehicles(vehicles) + (if v.status == "active" then 1 else 0)
    ensures ActiveVehicles(vehicles) <= |vehicles|
  {
    FilterAppend(vehicles, [v], IsActive);
    FilterSubsequence(vehicles, IsActive);
  }

  function NotPaid(v: Invoice): bool
  {
    v.status != "paid"
  }

  function Owed(v: Invoice): int
  {
    v.totalAmount - v.paidAmount
  }

  /** `outstandingBalance`: what is owed on the invoices that are not `paid`. */
  function OutstandingBalance(invoices: seq<Invoice>): int
  {
    Sum(Filter(invoices, NotPaid), Owed)
  }

  /**
   * Each invoice adds what is still owed on it unless it is `paid`; a paid
   * invoice adds nothing whatever its amounts say.
   */
  lemma OutstandingBalanceSnoc(invoices: seq<Invoice>, v: Invoice)
    ensures OutstandingBalance(invoices + [v]) ==
      OutstandingBalance(invoices) + (if v.status != "paid" then v.totalAmount - v.paidAmount else 0)
  {
    FilterAppend(invoices, [v], NotPaid);
    SumAppend(Filter(invoices, NotPaid), Filter([v], NotPaid), Owed);
    assert Filter([v], NotPaid) == if NotPaid(v) then [v] else [];
  }

  /** When no invoice has been paid beyond its total, the balance is not negative. */
  lemma OutstandingBalanceNonNegative(invoices: seq<Invoice>)
    requires forall i :: 0 <= i < |invoices| ==> invoices[i].paidAmount <= invoices[i].totalAmount
    ensures OutstandingBalance(invoices) >= 0
  {
    var open := Filter(invoices, NotPaid);
    forall i | 0 <= i < |open| ensures Owed(open[i]) >= 0 {
      assert open[i] in invoices by {
        FilterMember(invoices, NotPaid, open[i]);
      }
    }
    SumNonNegative(open, Owed);
  }

  function IsUnpaid(v: Invoice): bool
  {
    v.status == "unpaid"
  }

  /** `pendingInvoices`. */
  function PendingInvoices(invoices: seq<Invoice>): nat
  {
    Count(invoices, IsUnpaid)
  }

  /**
   * Only `unpaid` invoices are pending: a partly paid invoice is left out of
   * the count although it is part of the outstanding balance.
   */
  lemma PendingCountsUnpaidOnly(invoices: seq<Invoice>, v: Invoice)
    ensures PendingInvoices(invoices + [v]) == PendingInvoices(invoices) + (if v.status == "unpaid" then 1 else 0)
    ensures v.status == "partial" ==>
      (PendingInvoices(invoices + [v]) == PendingInvoices(invoices)
       && OutstandingBalance(invoices + [v]) == OutstandingBalance(invoices) + v.totalAmount - v.paidAmount)
  {
    FilterAppend(invoices, [v], IsUnpaid);
    OutstandingBalanceSnoc(invoices, v);
  }

  function IsPartial(v: Invoice): bool
  {
    v.status == "partial"
  }

  function IsPaid(v: Invoice): bool
  {
    v.status == "paid"
  }

  /** With the three invoice statuses, the unpaid, partial and paid counts add up to the number of invoices. */
  lemma {:induction false} StatusCountsAddUp(invoices: seq<Invoice>)
    requires forall i :: 0 <= i < |invoices| ==> invoices[i].status in {"unpaid", "partial", "paid"}
    ensures PendingInvoices(invoices) + Count(invoices, IsPartial) + Count(invoices, IsPaid) == |invoices|
  {
    if invoices != [] {
      StatusCountsAddUp(invoices[1..]);
      assert invoices == [invoices[0]] + invoices[1..];
      FilterAppend([invoices[0]], invoices[1..], IsUnpaid);
      FilterAppend([invoices[0]], invoices[1..], IsPartial);
      FilterAppend([invoices[0]], invoices[1..], IsPaid);
    }
  }

  /** `a` started no later than `b` (`new Date(a.startDate) <= new Date(b.startDate)`). */
  predicate StartsNoLater(a: Job, b: Job)
  {
    DateLe(a.startDate, b.startDate)
  }

  /** Newest first: no job is followed by one that started later. */
  predicate NewestFirst(js: seq<Job>)
  {
    forall i, k :: 0 <= i < k < |js| ==> StartsNoLater(js[k], js[i])
  }

  lemma DateLeTotal(a: Date, b: Date)
    ensures DateLe(a, b) || DateLe(b, a)
  {
  }

  lemma DateLeTrans(a: Date, b: Date, c: Date)
    requires DateLe(a, b) && DateLe(b, c)
    ensures DateLe(a, c)
  {
  }

  /**
   * The comparator sort of `recentJobs`, in place: newest start first, as a
   * permutation of the stored jobs.
   */
  method SortNewestFirst(a: array<Job>)
    modifies a
    ensures NewestFirst(a[..])
    ensures multiset(a[..]) == multiset(old(a[..]))
  {
    if a.Length == 0 {
      return;
    }
    var i := 1;
    while i < a.Length
      invariant 1 <= i <= a.Length
      invariant NewestFirst(a[..i])
      invariant multiset(a[..]) == multiset(old(a[..]))
    {
      InsertAt(a, i);
      i := i + 1;
    }
  }

  /**
   * Moves `a[i]` back past every job that started earlier than it, keeping
   * `a[..i+1]` newest first. The jobs moved are those of `a[..i+1]`, and
   * the rest of the array is left alone.
   */
  method InsertAt(a: array<Job>, i: nat)
    requires 1 <= i < a.Length && NewestFirst(a[..i])
    modifies a
    ensures NewestFirst(a[..i + 1])
    ensures multiset(a[..i + 1]) == multiset(old(a[..i + 1]))
    ensures a[i + 1..] == old(a[i + 1..])
    ensures multiset(a[..]) == multiset(old(a[..]))
  {
    var j := i;
    StartInsertion(a[..], i);
    while j > 0 && !StartsNoLater(a[j], a[j - 1])
      invariant 0 <= j <= i
      invariant InsertionOrder(a[..], i, j)
      invariant multiset(a[..i + 1]) == multiset(old(a[..i + 1]))
      invariant a[i + 1..] == old(a[i + 1..])
    {
      ghost var s := a[..];
      SwapStep(s, i, j);
      SwapFrame(s, i, j);
      a[j], a[j - 1] := a[j - 1], a[j];
      assert a[..] == s[j := s[j - 1]][j - 1 := s[j]];
      j := j - 1;
    }
    ClosedOrder(a[..], i, j);
    assert a[..] == a[..i + 1] + a[i + 1..];
    assert old(a[..]) == old(a[..i + 1]) + old(a[i + 1..]);
  }

  /**
   * Midway through inserting `s[j]`: `s[..i+1]` is newest first once
   * position `j` is left out, and every job before `j` started no earlier
   * than every job after it.
   */
  predicate InsertionOrder(s: seq<Job>, i: nat, j: nat)
    requires j <= i < |s|
  {
    (forall p, q :: 0 <= p < q <= i && q != j ==> StartsNoLater(s[q], s[p]))
    && (forall p, q :: 0 <= p < j < q <= i ==> StartsNoLater(s[q], s[p]))
  }

  /** Before the first swap only the new job `s[i]` may be out of order. */
  lemma StartInsertion(s: seq<Job>, i: nat)
    requires i < |s| && NewestFirst(s[..i])
    ensures InsertionOrder(s, i, i)
  {
    forall p, q | 0 <= p < q <= i && q != i ensures StartsNoLater(s[q], s[p]) {
      assert s[q] == s[..i][q] && s[p] == s[..i][p];
    }
  }

  /** A swap inside `s[..i+1]` keeps its jobs and leaves the rest alone. */
  lemma SwapFrame(s: seq<Job>, i: nat, j: nat)
    requires 0 < j <= i < |s|
    ensures var t := s[j := s[j - 1]][j - 1 := s[j]];
      multiset(t[..i + 1]) == multiset(s[..i + 1]) && t[i + 1..] == s[i + 1..]
  {
    var t := s[j := s[j - 1]][j - 1 := s[j]];
    assert t[..i + 1] == s[..i + 1][j := s[j - 1]][j - 1 := s[j]];
  }

  /** Swapping a job with an earlier-started predecessor moves the one unordered position back by one. */
  lemma SwapStep(s: seq<Job>, i: nat, j: nat)
    requires 0 < j <= i < |s|
    requires InsertionOrder(s, i, j)
    requires !StartsNoLater(s[j], s[j - 1])
    ensures InsertionOrder(s[j := s[j - 1]][j - 1 := s[j]], i, j - 1)
  {
    DateLeTotal(s[j].startDate, s[j - 1].startDate);
  }

  lemma ClosedOrder(s: seq<Job>, i: nat, j: nat)
    requires j <= i < |s|
    requires InsertionOrder(s, i, j)
    requires j == 0 || StartsNoLater(s[j], s[j - 1])
    ensures NewestFirst(s[..i + 1])
  {
  }

  /**
   * `recentJobs`: sorts the stored jobs in place, newest first, and keeps
   * the first ten. No job left out started later than a job kept.
   */
  method RecentJobs(jobs: array<Job>) returns (recent: seq<Job>)
    modifies jobs
    ensures multiset(jobs[..]) == multiset(old(jobs[..]))
    ensures NewestFirst(jobs[..])
    ensures |recent| == if jobs.Length < 10 then jobs.Length else 10
    ensures recent == jobs[..|recent|]
    ensures forall x, y :: 0 <= x < |recent| <= y < jobs.Length ==> StartsNoLater(jobs[y], recent[x])
  {
    SortNewestFirst(jobs);
    recent := jobs[..if jobs.Length < 10 then jobs.Length else 10];
  }

  /** `getStatusBadgeVariant`. */
  function StatusBadgeVariant(status: string): string
  {
    if status == "draft" then "secondary"
    else if status == "confirmed" then "default"
    else if status == "in_transit" then "outline"
    else if status == "delivered" then "default"
    else if status == "invoiced" then "secondary"
    else if status == "payment_received" then "default"
    else "secondary"
  }

  /** Only the underscored spellings are in the map, so the statuses jobs actually carry fall to the default. */
  lemma HyphenatedStatusesGetDefault()
    ensures StatusBadgeVariant("in-transit") == "secondary"
    ensures StatusBadgeVariant("payment-received") == "secondary"
    ensures StatusBadgeVariant("in_transit") == "outline"
    ensures StatusBadgeVariant("payment_received") == "default"
  {
  }

  /** Every variant the map yields is one of the three badge styles. */
  lemma BadgeVariants(status: string)
    ensures StatusBadgeVariant(status) in {"secondary", "default", "outline"}
    ensures StatusBadgeVariant(status) == "outline" <==> status == "in_transit"
  {
  }
}
