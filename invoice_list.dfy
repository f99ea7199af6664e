/**
 * The invoice list page (InvoicePage.tsx): who may edit, the search,
 * customer and status filters, the page of twenty rows, and the clamped
 * previous and next buttons.
 */
module InvoiceList {
  import opened Base
  import opened Text
  import opened Seqs
  import opened Domain
  import opened Paging

  /** `user?.role === 'admin' || user?.role === 'finance'`; no signed-in user may not edit. */
  predicate CanEdit(role: Option<Role>)
  {
    role == Some(Admin) || role == Some(Finance)
  }

  /** Only administrators and finance staff may record payments and create invoices. */
  lemma CanEditRoles(role: Role)
    ensures CanEdit(Some(role)) <==> role in {Admin, Finance}
    ensures !CanEdit(None)
  {
  }

  /** The search box: the invoice number or customer name contains the search term, ignoring case. */
  predicate MatchesSearch(v: Invoice, search: string)
  {
    Contains(Lower(v.invoiceNumber), Lower(search)) || Contains(Lower(v.customerName), Lower(search))
  }

  predicate MatchesCustomer(v: Invoice, customerFilter: string)
  {
    customerFilter == "all" || v.customerId == customerFilter
  }

  predicate MatchesStatus(v: Invoice, statusFilter: string)
  {
    statusFilter == "all" || v.status == statusFilter
  }

  function Listed(search: string, customerFilter: string, statusFilter: string): Invoice -> bool
  {
    (v: Invoice) => MatchesSearch(v, search) && MatchesCustomer(v, customerFilter) && MatchesStatus(v, statusFilter)
  }

  /** `filteredInvoices`. */
  function FilteredInvoices(invoices: seq<Invoice>, search: string, customerFilter: string, statusFilter: string): seq<Invoice>
  {
    Filter(invoices, Listed(search, customerFilter, statusFilter))
  }

  /** An invoice is listed exactly when it passes all three filters, and the list keeps the loaded order. */
  lemma FilteredInvoicesSpec(invoices: seq<Invoice>, search: string, customerFilter: string, statusFilter: string, v: Invoice)
    ensures v in FilteredInvoices(invoices, search, customerFilter, statusFilter) <==>
      v in invoices && MatchesSearch(v, search) && MatchesCustomer(v, customerFilter) && MatchesStatus(v, statusFilter)
    ensures Subsequence(FilteredInvoices(invoices, search, customerFilter, statusFilter), invoices)
  {
    FilterMember(invoices, Listed(search, customerFilter, statusFilter), v);
    FilterSubsequence(invoices, Listed(search, customerFilter, statusFilter));
  }

  /** With an empty search and both filters on `all`, every invoice is listed. */
  lemma NoFilterListsAll(invoices: seq<Invoice>)
    ensures FilteredInvoices(invoices, "", "all", "all") == invoices
  {
    forall i | 0 <= i < |invoices| ensures Listed("", "all", "all")(invoices[i]) {
      ContainsEmpty(Lower(invoices[i].invoiceNumber));
    }
    FilterAll(invoices, Listed("", "all", "all"));
  }

  /** `paginatedInvoices`. */
  function PaginatedInvoices(filtered: seq<Invoice>, page: int): seq<Invoice>
  {
    PageSlice(filtered, page, RowsPerPage)
  }

  /** A page shows the filtered rows from `(page - 1) * 20` on, at most twenty of them. */
  lemma PaginatedInvoicesSpec(filtered: seq<Invoice>, page: int)
    requires page >= 1
    ensures var lo := Min((page - 1) * 20, |filtered|);
      |PaginatedInvoices(filtered, page)| <= 20
      && PaginatedInvoices(filtered, page) == filtered[lo..Min(page * 20, |filtered|)]
  {
    PageSliceIs(filtered, page, RowsPerPage);
  }

  /** `Math.max(1, p - 1)`. */
  function PreviousPage(p: int): int
  {
    if p - 1 >= 1 then p - 1 else 1
  }

  /** `Math.min(totalPages, p + 1)`. */
  function NextPage(p: int, totalPages: nat): int
  {
    if p + 1 <= totalPages then p + 1 else totalPages
  }

  /**
   * From a page in range the clamped buttons stay in range: previous moves
   * back one page and stops at the first, next moves on one page and stops
   * at the last.
   */
  lemma ClampsStayInRange(p: int, totalPages: nat)
    requires 1 <= p <= totalPages
    ensures 1 <= PreviousPage(p) <= p && p <= NextPage(p, totalPages) <= totalPages
    ensures PreviousPage(p) == p <==> p == 1
    ensures NextPage(p, totalPages) == p <==> p == totalPages
    ensures p > 1 ==> PreviousPage(p) == p - 1
    ensures p < totalPages ==> NextPage(p, totalPages) == p + 1
  {
  }

  /** Enough presses of previous reach the first page and stay there. */
  lemma {:induction false} PreviousReachesFirst(p: int, k: nat)
    requires 1 <= p && k >= p - 1
    ensures PressPrevious(p, k) == 1
  {
    if k > 0 {
      PreviousReachesFirst(PreviousPage(p), k - 1);
      PressPreviousShift(p, k);
    }
  }

  /** Enough presses of next reach the last page and stay there. */
  lemma {:induction false} NextReachesLast(p: int, totalPages: nat, k: nat)
    requires 1 <= p <= totalPages && k >= totalPages - p
    ensures PressNext(p, totalPages, k) == totalPages
    decreases k
  {
    if k > 0 {
      NextReachesLast(NextPage(p, totalPages), totalPages, k - 1);
      PressNextShift(p, totalPages, k);
    }
  }

  /** The page after `k` presses of previous. */
  function PressPrevious(p: int, k: nat): int
  {
    if k == 0 then p else PreviousPage(PressPrevious(p, k - 1))
  }

  /** The page after `k` presses of next. */
  function PressNext(p: int, totalPages: nat, k: nat): int
  {
    if k == 0 then p else NextPage(PressNext(p, totalPages, k - 1), totalPages)
  }

  lemma {:induction false} PressPreviousShift(p: int, k: nat)
    requires k > 0
    ensures PressPrevious(p, k) == PressPrevious(PreviousPage(p), k - 1)
  {
    if k > 1 {
      PressPreviousShift(p, k - 1);
    }
  }

  lemma {:induction false} PressNextShift(p: int, totalPages: nat, k: nat)
    requires k > 0
    ensures PressNext(p, totalPages, k) == PressNext(NextPage(p, totalPages), totalPages, k - 1)
  {
    if k > 1 {
      PressNextShift(p, totalPages, k - 1);
    }
  }

  /** `getStatusBadgeVariant` of the invoice table. */
  function InvoiceBadgeVariant(status: string): string
  {
    if status == "paid" then "default"
    else if status == "partial" then "secondary"
    else if status == "unpaid" then "destructive"
    else "outline"
  }

  /**
   * The three invoice statuses get three different variants, only an unpaid
   * invoice is shown as destructive, and any other status falls back to outline.
   */
  lemma InvoiceBadgeVariants(status: string)
    ensures InvoiceBadgeVariant(status) == "destructive" <==> status == "unpaid"
    ensures InvoiceBadgeVariant(status) == "outline" <==> status != "paid" && status != "partial" && status != "unpaid"
    ensures InvoiceBadgeVariant("paid") != InvoiceBadgeVariant("partial")
  {
  }
}
