/**
 * The invoice ledger (InvoiceFormDialog.tsx, InvoiceDetailDialog.tsx).
 *
 * Two things happen here:
 * - Creating an invoice. The user picks a customer, ticks delivered jobs
 *   that are not billed yet, and submits. That adds an `unpaid` invoice, one
 *   item per ticked job, and moves each of those jobs to `invoiced`.
 * - Recording a payment. A payment is checked against the outstanding
 *   amount and moves the invoice to `partial` or `paid`. When the invoice
 *   is settled in full, every job it lists moves to `payment-received`.
 *
 * The document store is one `Ledger` object. It holds the jobs, invoices,
 * invoice items and payments collections as sequences, and a journal of the
 * writes in the order the pages issue them. Time is a whole number of days.
 */
module Invoicing {
  import opened Base
  import opened Text
  import opened Seqs
  import opened Domain
  import opened Tracking

  /** A document of `invoice_items`; the display-only fields are left out. */
  datatype InvoiceItem = InvoiceItem(invoiceId: string, jobId: string, jobNumber: string, amount: int)

  datatype PaymentMethod = Transfer | Check | Cash

  /** A document of `payments`. */
  datatype Payment = Payment(
    invoiceId: string,
    amount: int,
    paymentDate: int,
    paymentMethod: PaymentMethod,
    notes: string,
    recordedBy: string,
    recordedByName: string)

  /** One write to the store: which collection, and which document where that is known. */
  datatype LedgerWrite =
    | InvoiceAdded(invoiceId: string)
    | ItemAdded(jobId: string)
    | JobChanged(jobId: string)
    | PaymentAdded(invoiceId: string)
    | InvoiceUpdated(invoiceId: string)

  /** `user?.uid || ''`. */
  function UidOf(actor: Option<Actor>): string
  {
    if actor.Some? then actor.value.uid else ""
  }

  /** `user?.name || ''`. */
  function NameOf(actor: Option<Actor>): string
  {
    if actor.Some? then actor.value.name else ""
  }

  // ---------------------------------------------------------------------
  // The job selection
  // ---------------------------------------------------------------------

  function Other(id: string): string -> bool
  {
    (x: string) => x != id
  }

  /**
   * `toggleJobSelection`. The selection is a JavaScript `Set`, kept as a
   * sequence in insertion order: a toggled-off id is removed and a
   * toggled-on id goes to the end.
   */
  function ToggleSelection(selected: seq<string>, id: string): seq<string>
  {
    if id in selected then Filter(selected, Other(id)) else selected + [id]
  }

  /** Toggling flips the toggled id and leaves every other id where it was. */
  lemma ToggleMember(selected: seq<string>, id: string, x: string)
    ensures x in ToggleSelection(selected, id) <==> if x == id then id !in selected else x in selected
  {
    if id in selected {
      FilterMember(selected, Other(id), x);
    }
  }

  /** Toggling the same id twice restores membership of every id (the order may change). */
  lemma ToggleTwice(selected: seq<string>, id: string, x: string)
    ensures x in ToggleSelection(ToggleSelection(selected, id), id) <==> x in selected
  {
    ToggleMember(selected, id, x);
    ToggleMember(ToggleSelection(selected, id), id, x);
    ToggleMember(selected, id, id);
  }

  /** Toggling never duplicates an id. */
  lemma ToggleDistinct(selected: seq<string>, id: string)
    requires Distinct(selected)
    ensures Distinct(ToggleSelection(selected, id))
  {
    if id in selected {
      FilterDistinct(selected, Other(id));
    }
  }

  // ---------------------------------------------------------------------
  // Available jobs and the total
  // ---------------------------------------------------------------------

  /** Some item of `invoice_items` bills the job. */
  predicate HasItem(items: seq<InvoiceItem>, jobId: string)
  {
    exists i :: 0 <= i < |items| && items[i].jobId == jobId
  }

  function Billable(items: seq<InvoiceItem>, customerId: string): Job -> bool
  {
    (j: Job) => j.customerId == customerId && j.status == "delivered" && !HasItem(items, j.id)
  }

  /**
   * `loadAvailableJobs`: the customer's delivered jobs, keeping those that
   * no invoice item refers to.
   */
  function AvailableJobs(jobs: seq<Job>, items: seq<InvoiceItem>, customerId: string): seq<Job>
  {
    Filter(jobs, Billable(items, customerId))
  }

  /** A job is offered exactly when it is the customer's, delivered and not billed yet. */
  lemma AvailableJobsMember(jobs: seq<Job>, items: seq<InvoiceItem>, customerId: string, j: Job)
    ensures j in AvailableJobs(jobs, items, customerId)
      <==> j in jobs && j.customerId == customerId && j.status == "delivered" && !HasItem(items, j.id)
  {
    FilterMember(jobs, Billable(items, customerId), j);
  }

  function Picked(selected: seq<string>): Job -> bool
  {
    (j: Job) => j.id in selected
  }

  /** `availableJobs.filter(job => selectedJobIds.has(job.id))`. */
  function Chosen(available: seq<Job>, selected: seq<string>): seq<Job>
  {
    Filter(available, Picked(selected))
  }

  function Revenue(j: Job): int
  {
    j.revenue
  }

  /** `calculateTotal`: the revenue of the ticked jobs that are on offer. */
  function Total(available: seq<Job>, selected: seq<string>): int
  {
    Sum(Chosen(available, selected), Revenue)
  }

  /** Only the ticked ids of offered jobs count: selections that agree on them give the same total. */
  lemma TotalIgnoresUnknownIds(available: seq<Job>, s1: seq<string>, s2: seq<string>)
    requires forall i :: 0 <= i < |available| ==> (available[i].id in s1 <==> available[i].id in s2)
    ensures Total(available, s1) == Total(available, s2)
  {
    FilterSame(available, Picked(s1), Picked(s2));
  }

  /** With no negative revenue the total is not negative. */
  lemma TotalNonNegative(available: seq<Job>, selected: seq<string>)
    requires forall i :: 0 <= i < |available| ==> available[i].revenue >= 0
    ensures Total(available, selected) >= 0
  {
    var c := Chosen(available, selected);
    forall i | 0 <= i < |c| ensures Revenue(c[i]) >= 0 {
      assert c[i] in available;
    }
    SumNonNegative(c, Revenue);
  }

  // ---------------------------------------------------------------------
  // The invoice number
  // ---------------------------------------------------------------------

  /**
   * `INV` + the two-digit year + `-` + the four-digit sequence number, one
   * past the number of invoices already stored. `year` is `getFullYear()`.
   */
  function InvoiceNumber(year: nat, count: nat): string
  {
    "INV" + PadStart(NatToString(year % 100), 2, '0') + "-" + PadStart(NatToString(count + 1), 4, '0')
  }

  /** The year field is two characters wide, whatever the year. */
  lemma YearWidth(year: nat)
    ensures |PadStart(NatToString(year % 100), 2, '0')| == 2
  {
    NatToStringShort(year % 100, 2, Pow10(2));
  }

  /**
   * An invoice number reads back: the year digits sit at positions 3-4, the
   * dash at 5, and the sequence number, which is the count plus one, after it.
   */
  lemma InvoiceNumberReadsBack(year: nat, count: nat)
    ensures var n := InvoiceNumber(year, count);
      |n| >= 10 && n[..3] == "INV" && n[5] == '-'
      && ParseInt(n[3..5]) == Some(year % 100)
      && ParseInt(n[6..]) == Some(count + 1)
  {
    var yy := PadStart(NatToString(year % 100), 2, '0');
    var seqNo := PadStart(NatToString(count + 1), 4, '0');
    YearWidth(year);
    FourPieces("INV", yy, "-", seqNo);
    ParsePadded(year % 100, 2);
    ParsePadded(count + 1, 4);
  }

  lemma FourPieces(a: string, b: string, c: string, d: string)
    ensures var s := a + b + c + d;
      s[..|a|] == a && s[|a|..|a| + |b|] == b && s[|a| + |b|..|a| + |b| + |c|] == c && s[|a| + |b| + |c|..] == d
  {
  }

  /** Within one year, different counts give different numbers. */
  lemma InvoiceNumberInjective(year: nat, a: nat, b: nat)
    requires InvoiceNumber(year, a) == InvoiceNumber(year, b)
    ensures a == b
  {
    InvoiceNumberReadsBack(year, a);
    InvoiceNumberReadsBack(year, b);
  }

  // ---------------------------------------------------------------------
  // Job updates
  // ---------------------------------------------------------------------

  /** The two job updates of the ledger. */
  datatype JobPatch = MarkInvoiced | MarkPaid

  /**
   * An invoiced job gets status and step `invoiced`. A paid job gets status
   * and step `payment-received` and a payment date of `now`, overwriting any
   * earlier date.
   */
  function Patched(patch: JobPatch, j: Job, now: int): Job
  {
    match patch
    case MarkInvoiced =>
      j.(status := "invoiced", currentTrackingStep := Some(Invoiced), updatedAt := now)
    case MarkPaid =>
      j.(status := "payment-received", currentTrackingStep := Some(PaymentReceived),
         paymentReceivedDate := Some(now), updatedAt := now)
  }

  /** `updateDoc(doc(db, 'jobs', id), …)`: patches the job with that id; no job has it, nothing changes. */
  function PatchJob(jobs: seq<Job>, id: string, patch: JobPatch, now: int): seq<Job>
  {
    Map(jobs, (j: Job) => if j.id == id then Patched(patch, j, now) else j)
  }

  /** One update per id, in order. */
  function PatchJobs(jobs: seq<Job>, ids: seq<string>, patch: JobPatch, now: int): (r: seq<Job>)
    ensures |r| == |jobs|
  {
    if ids == [] then jobs
    else PatchJob(PatchJobs(jobs, ids[..|ids| - 1], patch, now), ids[|ids| - 1], patch, now)
  }

  /**
   * Updating by a list of ids patches exactly the jobs whose id is listed,
   * once each however often the id is listed, and leaves the others alone.
   */
  lemma {:induction false} PatchJobsIs(jobs: seq<Job>, ids: seq<string>, patch: JobPatch, now: int)
    ensures var r := PatchJobs(jobs, ids, patch, now);
      |r| == |jobs| && forall k :: 0 <= k < |jobs| ==> r[k] == if jobs[k].id in ids then Patched(patch, jobs[k], now) else jobs[k]
  {
    if ids != [] {
      var front := ids[..|ids| - 1];
      PatchJobsIs(jobs, front, patch, now);
      forall k | 0 <= k < |jobs|
        ensures jobs[k].id in ids <==> jobs[k].id in front || jobs[k].id == ids[|ids| - 1]
      {
        assert ids == front + [ids[|ids| - 1]];
      }
    }
  }

  /** The journal entries of a run of job updates. */
  function JobWrites(ids: seq<string>): seq<LedgerWrite>
  {
    if ids == [] then [] else JobWrites(ids[..|ids| - 1]) + [JobChanged(ids[|ids| - 1])]
  }

  /** The ids of a run of jobs, in order. */
  function JobIds(js: seq<Job>): seq<string>
  {
    if js == [] then [] else JobIds(js[..|js| - 1]) + [js[|js| - 1].id]
  }

  lemma {:induction false} JobIdsMember(js: seq<Job>, id: string)
    ensures id in JobIds(js) <==> exists i :: 0 <= i < |js| && js[i].id == id
  {
    if js != [] {
      var front := js[..|js| - 1];
      JobIdsMember(front, id);
      if exists i :: 0 <= i < |js| && js[i].id == id {
        var i :| 0 <= i < |js| && js[i].id == id;
        if i < |js| - 1 {
          assert front[i].id == id;
        }
      }
      if exists i :: 0 <= i < |front| && front[i].id == id {
        var i :| 0 <= i < |front| && front[i].id == id;
        assert js[i].id == id;
      }
    }
  }

  /** The items an invoice gets: one per billed job, for its revenue. */
  function ItemsFor(invoiceId: string, js: seq<Job>): seq<InvoiceItem>
  {
    if js == [] then []
    else
      var j := js[|js| - 1];
      ItemsFor(invoiceId, js[..|js| - 1]) + [InvoiceItem(invoiceId, j.id, j.jobNumber, j.revenue)]
  }

  /** The journal of billing a run of jobs: the item, then the job update, job by job. */
  function ItemWrites(js: seq<Job>): seq<LedgerWrite>
  {
    if js == [] then []
    else ItemWrites(js[..|js| - 1]) + [ItemAdded(js[|js| - 1].id), JobChanged(js[|js| - 1].id)]
  }

  function ItemAmount(it: InvoiceItem): int
  {
    it.amount
  }

  /** The items of an invoice add up to the revenue of the jobs they bill. */
  lemma {:induction false} ItemsAddUp(invoiceId: string, js: seq<Job>)
    ensures Sum(ItemsFor(invoiceId, js), ItemAmount) == Sum(js, Revenue)
  {
    if js != [] {
      var front := js[..|js| - 1];
      var j := js[|js| - 1];
      ItemsAddUp(invoiceId, front);
      SumAppend(ItemsFor(invoiceId, front), [InvoiceItem(invoiceId, j.id, j.jobNumber, j.revenue)], ItemAmount);
      assert js == front + [j];
      SumAppend(front, [j], Revenue);
    }
  }

  /** Every item bills one of the given jobs, for the given invoice. */
  lemma {:induction false} ItemsForJobs(invoiceId: string, js: seq<Job>)
    ensures var items := ItemsFor(invoiceId, js);
      |items| == |js| && forall i :: 0 <= i < |js| ==> items[i] == InvoiceItem(invoiceId, js[i].id, js[i].jobNumber, js[i].revenue)
  {
    if js != [] {
      ItemsForJobs(invoiceId, js[..|js| - 1]);
    }
  }

  /** After billing, none of the billed jobs is offered again, whatever the jobs collection holds. */
  lemma BilledJobsNotOffered(jobs: seq<Job>, items: seq<InvoiceItem>, invoiceId: string, billed: seq<Job>,
                             customerId: string, k: nat)
    requires k < |billed|
    ensures forall j :: j in AvailableJobs(jobs, items + ItemsFor(invoiceId, billed), customerId) ==> j.id != billed[k].id
  {
    var all := items + ItemsFor(invoiceId, billed);
    ItemsForJobs(invoiceId, billed);
    assert all[|items| + k].jobId == billed[k].id;
    assert HasItem(all, billed[k].id);
    forall j | j in AvailableJobs(jobs, all, customerId) ensures j.id != billed[k].id {
      AvailableJobsMember(jobs, all, customerId, j);
    }
  }

  /** One step of the billing loop: bill `j` after the jobs before it. */
  lemma BillStep(jobs0: seq<Job>, items0: seq<InvoiceItem>, writes0: seq<LedgerWrite>, billed: seq<Job>, i: nat,
                 invoiceId: string, now: int)
    requires i < |billed|
    ensures ItemsFor(invoiceId, billed[..i + 1]) == ItemsFor(invoiceId, billed[..i]) + [InvoiceItem(invoiceId, billed[i].id, billed[i].jobNumber, billed[i].revenue)]
    ensures ItemWrites(billed[..i + 1]) == ItemWrites(billed[..i]) + [ItemAdded(billed[i].id), JobChanged(billed[i].id)]
    ensures JobIds(billed[..i + 1]) == JobIds(billed[..i]) + [billed[i].id]
    ensures PatchJobs(jobs0, JobIds(billed[..i + 1]), MarkInvoiced, now)
         == PatchJob(PatchJobs(jobs0, JobIds(billed[..i]), MarkInvoiced, now), billed[i].id, MarkInvoiced, now)
  {
    assert billed[..i + 1][..i] == billed[..i];
    var ids := JobIds(billed[..i + 1]);
    assert ids[..|ids| - 1] == JobIds(billed[..i]);
  }

  /**
   * The loop of `handleSubmit`: for each billed job, add its item and move
   * the stored job to `invoiced`.
   */
  method BillJobs(jobs: seq<Job>, items: seq<InvoiceItem>, writes: seq<LedgerWrite>, billed: seq<Job>,
                  invoiceId: string, now: int)
    returns (jobs': seq<Job>, items': seq<InvoiceItem>, writes': seq<LedgerWrite>)
    ensures items' == items + ItemsFor(invoiceId, billed)
    ensures jobs' == PatchJobs(jobs, JobIds(billed), MarkInvoiced, now)
    ensures writes' == writes + ItemWrites(billed)
  {
    jobs', items', writes' := jobs, items, writes;
    var i := 0;
    while i < |billed|
      invariant 0 <= i <= |billed|
      invariant items' == items + ItemsFor(invoiceId, billed[..i])
      invariant jobs' == PatchJobs(jobs, JobIds(billed[..i]), MarkInvoiced, now)
      invariant writes' == writes + ItemWrites(billed[..i])
    {
      var j := billed[i];
      BillStep(jobs, items, writes, billed, i, invoiceId, now);
      items' := items' + [InvoiceItem(invoiceId, j.id, j.jobNumber, j.revenue)];
      writes' := writes' + [ItemAdded(j.id)];
      jobs' := PatchJob(jobs', j.id, MarkInvoiced, now);
      writes' := writes' + [JobChanged(j.id)];
      i := i + 1;
    }
    assert billed[..i] == billed;
  }

  // ---------------------------------------------------------------------
  // New invoices
  // ---------------------------------------------------------------------

  /** The invoice `handleSubmit` adds: nothing paid yet, the whole total outstanding, status `unpaid`. */
  function NewInvoice(id: string, number: string, c: Customer, selected: seq<string>, total: int,
                      issued: int, due: int, actor: Option<Actor>, now: int): Invoice
  {
    Invoice(id, number, c.id, c.name, c.address, c.phone, selected, total, 0, total, "unpaid",
            issued, due, UidOf(actor), NameOf(actor), now)
  }

  function CustomerWithId(id: string): Customer -> bool
  {
    (c: Customer) => c.id == id
  }

  /** `customers.find(c => c.id === id)`. */
  function FindCustomer(customers: seq<Customer>, id: string): (r: Option<Customer>)
    ensures r.Some? ==> r.value in customers && r.value.id == id
    ensures r.None? <==> forall i :: 0 <= i < |customers| ==> customers[i].id != id
  {
    Find(customers, CustomerWithId(id))
  }

  /**
   * A ticked id that is not on offer, such as one left over from another
   * customer, is listed on the invoice but gets no item and no amount; when
   * the invoice is settled the payment cascade still marks that job paid.
   */
  lemma StraySelection(available: seq<Job>, selected: seq<string>, x: string, invoiceId: string,
                       jobs: seq<Job>, k: nat, now: int)
    requires x in selected
    requires forall i :: 0 <= i < |available| ==> available[i].id != x
    requires k < |jobs| && jobs[k].id == x
    ensures forall i :: 0 <= i < |ItemsFor(invoiceId, Chosen(available, selected))| ==> ItemsFor(invoiceId, Chosen(available, selected))[i].jobId != x
    ensures PatchJobs(jobs, JobIds(Chosen(available, selected)), MarkInvoiced, now)[k] == jobs[k]
    ensures PatchJobs(jobs, selected, MarkPaid, now)[k] == Patched(MarkPaid, jobs[k], now)
  {
    var c := Chosen(available, selected);
    ItemsForJobs(invoiceId, c);
    forall i | 0 <= i < |c| ensures c[i].id != x {
      assert c[i] in available;
    }
    JobIdsMember(c, x);
    PatchJobsIs(jobs, JobIds(c), MarkInvoiced, now);
    PatchJobsIs(jobs, selected, MarkPaid, now);
  }

  // ---------------------------------------------------------------------
  // Payments
  // ---------------------------------------------------------------------

  function ForInvoice(id: string): Payment -> bool
  {
    (p: Payment) => p.invoiceId == id
  }

  function PaymentAmount(p: Payment): int
  {
    p.amount
  }

  /** What the payments collection has received for an invoice. */
  function PaidTo(payments: seq<Payment>, id: string): int
  {
    Sum(Filter(payments, ForInvoice(id)), PaymentAmount)
  }

  /** The payment `handleRecordPayment` stores. */
  function NewPayment(invoiceId: string, amount: int, paymentMethod: PaymentMethod, notes: string,
                      actor: Option<Actor>, now: int): Payment
  {
    Payment(invoiceId, amount, now, paymentMethod, notes, UidOf(actor), NameOf(actor))
  }

  /** `paid` once nothing is outstanding, `partial` otherwise. */
  function SettledStatus(outstanding: int): string
  {
    if outstanding == 0 then "paid" else "partial"
  }

  /**
   * The invoice update of a payment: the new paid and outstanding amounts and
   * status are computed from `basis` (the invoice the dialog shows) and
   * written over the stored invoice `stored`.
   */
  function Settle(stored: Invoice, basis: Invoice, amount: int, now: int): Invoice
  {
    var paid := basis.paidAmount + amount;
    stored.(paidAmount := paid, outstandingAmount := basis.totalAmount - paid,
            status := SettledStatus(basis.totalAmount - paid), updatedAt := now)
  }

  function SettleInvoices(invoices: seq<Invoice>, id: string, basis: Invoice, amount: int, now: int): seq<Invoice>
  {
    Map(invoices, (v: Invoice) => if v.id == id then Settle(v, basis, amount, now) else v)
  }

  /** `paidAmount + outstandingAmount == totalAmount`. */
  predicate Consistent(v: Invoice)
  {
    v.outstandingAmount == v.totalAmount - v.paidAmount
  }

  /**
   * A payment the guards accept, made against a consistent invoice, takes
   * the amount off the outstanding balance without going below zero, keeps
   * the invoice consistent, and never leaves it `unpaid`. It is `paid`
   * exactly when the whole balance was paid.
   */
  lemma SettleArithmetic(v: Invoice, amount: int, now: int)
    requires Consistent(v) && 0 < amount <= v.outstandingAmount
    ensures var w := Settle(v, v, amount, now);
      Consistent(w) && w.paidAmount == v.paidAmount + amount
      && w.outstandingAmount == v.outstandingAmount - amount
      && 0 <= w.outstandingAmount < v.outstandingAmount
      && w.status != "unpaid"
      && (w.status == "paid" <==> amount == v.outstandingAmount)
      && w.id == v.id && w.jobIds == v.jobIds && w.totalAmount == v.totalAmount
  {
  }

  /** `canEdit && invoice.outstandingAmount > 0`: when the dialog offers the payment form. */
  predicate PaymentFormOffered(canEdit: bool, v: Invoice)
  {
    canEdit && v.outstandingAmount > 0
  }

  /** A consistent invoice paid in full no longer offers the payment form; one paid in part still does to an editor. */
  lemma PaymentFormAfterSettle(canEdit: bool, v: Invoice, amount: int, now: int)
    requires Consistent(v) && 0 < amount <= v.outstandingAmount
    ensures PaymentFormOffered(canEdit, Settle(v, v, amount, now)) <==> canEdit && amount < v.outstandingAmount
  {
  }

  /** Some stored invoice has this id. */
  predicate HasInvoice(invoices: seq<Invoice>, id: string)
  {
    exists i :: 0 <= i < |invoices| && invoices[i].id == id
  }

  /**
   * The books balance. Invoice ids are distinct, every payment belongs to a
   * stored invoice, and each invoice's paid amount is what its payments add
   * up to, with `outstandingAmount == totalAmount - paidAmount`.
   */
  predicate Reconciled(invoices: seq<Invoice>, payments: seq<Payment>)
  {
    (forall i, k :: 0 <= i < k < |invoices| ==> invoices[i].id != invoices[k].id)
    && (forall p :: 0 <= p < |payments| ==> HasInvoice(invoices, payments[p].invoiceId))
    && (forall i :: 0 <= i < |invoices| ==> invoices[i].paidAmount == PaidTo(payments, invoices[i].id) && Consistent(invoices[i]))
  }

  /** A payment adds its amount to its own invoice's receipts and nothing to any other invoice's. */
  lemma PaidToAppend(payments: seq<Payment>, p: Payment, id: string)
    ensures PaidTo(payments + [p], id) == PaidTo(payments, id) + (if p.invoiceId == id then p.amount else 0)
  {
    FilterAppend(payments, [p], ForInvoice(id));
    SumAppend(Filter(payments, ForInvoice(id)), Filter([p], ForInvoice(id)), PaymentAmount);
    assert [p][1..] == [];
  }

  /** Recording a payment against the stored invoice itself keeps the books balanced. */
  lemma PaymentKeepsReconciled(invoices: seq<Invoice>, payments: seq<Payment>, i: nat, p: Payment, now: int)
    requires Reconciled(invoices, payments)
    requires i < |invoices| && p.invoiceId == invoices[i].id
    ensures Reconciled(SettleInvoices(invoices, invoices[i].id, invoices[i], p.amount, now), payments + [p])
  {
    var id := invoices[i].id;
    var after := SettleInvoices(invoices, id, invoices[i], p.amount, now);
    var ps := payments + [p];
    forall k | 0 <= k < |invoices|
      ensures after[k].id == invoices[k].id
      ensures after[k].paidAmount == PaidTo(ps, after[k].id) && Consistent(after[k])
    {
      PaidToAppend(payments, p, invoices[k].id);
      if k != i {
        assert invoices[k].id != id;
      }
    }
    forall q | 0 <= q < |ps| ensures HasInvoice(after, ps[q].invoiceId) {
      if q < |payments| {
        var m :| 0 <= m < |invoices| && invoices[m].id == payments[q].invoiceId;
        assert after[m].id == ps[q].invoiceId;
      } else {
        assert after[i].id == ps[q].invoiceId;
      }
    }
  }

  /** Adding an invoice with a fresh id, nothing paid and its total outstanding keeps the books balanced. */
  lemma NewInvoiceKeepsReconciled(invoices: seq<Invoice>, payments: seq<Payment>, v: Invoice)
    requires Reconciled(invoices, payments)
    requires !HasInvoice(invoices, v.id) && v.paidAmount == 0 && v.outstandingAmount == v.totalAmount
    ensures Reconciled(invoices + [v], payments)
  {
    var all := invoices + [v];
    forall q | 0 <= q < |payments| ensures !ForInvoice(v.id)(payments[q]) {
      var m :| 0 <= m < |invoices| && invoices[m].id == payments[q].invoiceId;
    }
    FilterNone(payments, ForInvoice(v.id));
    forall q | 0 <= q < |payments| ensures HasInvoice(all, payments[q].invoiceId) {
      var m :| 0 <= m < |invoices| && invoices[m].id == payments[q].invoiceId;
      assert all[m].id == payments[q].invoiceId;
    }
    forall i | 0 <= i < |all| ensures all[i].paidAmount == PaidTo(payments, all[i].id) && Consistent(all[i]) {
      if i < |invoices| {
        assert all[i] == invoices[i];
      }
    }
  }

  /**
   * The dialog computes a payment from the invoice it was opened with, and
   * that object is not refreshed after a payment. Take a fresh invoice and
   * record two payments without reopening the dialog, each within the
   * balance the dialog still shows (for instance 30 and 30 against 100). Both
   * pass the guards and the payments collection receives both, but the
   * stored invoice shows only the second as paid: the books no longer balance.
   */
  lemma StaleSnapshotLosesPayment(v0: Invoice, p1: Payment, p2: Payment, t1: int, t2: int)
    requires v0.paidAmount == 0 && Consistent(v0)
    requires p1.invoiceId == v0.id && p2.invoiceId == v0.id
    requires 0 < p1.amount <= v0.outstandingAmount && 0 < p2.amount <= v0.outstandingAmount
    ensures Reconciled([v0], [])
    ensures var once := SettleInvoices([v0], v0.id, v0, p1.amount, t1);
      var twice := SettleInvoices(once, v0.id, v0, p2.amount, t2);
      Reconciled(once, [p1])
      && twice[0].paidAmount == p2.amount
      && PaidTo([p1, p2], v0.id) == p1.amount + p2.amount
      && !Reconciled(twice, [p1, p2])
  {
    var none: seq<Payment> := [];
    assert Filter(none, ForInvoice(v0.id)) == [];
    assert Reconciled([v0], none);
    PaymentKeepsReconciled([v0], none, 0, p1, t1);
    assert none + [p1] == [p1];
    PaidToAppend([p1], p2, v0.id);
    assert [p1] + [p2] == [p1, p2];
    PaidToAppend(none, p1, v0.id);
  }

  /** How a payment attempt ends. */
  datatype PaymentOutcome = InvalidAmount | ExceedsOutstanding | UnknownInvoice | Recorded(status: string)

  /**
   * The jobs, invoices, invoice items and payments collections, and the
   * journal of writes made to them.
   */
  class Ledger {
    var jobs: seq<Job>
    var invoices: seq<Invoice>
    var items: seq<InvoiceItem>
    var payments: seq<Payment>
    var writes: seq<LedgerWrite>

    constructor (jobs: seq<Job>, invoices: seq<Invoice>, items: seq<InvoiceItem>, payments: seq<Payment>)
      ensures this.jobs == jobs && this.invoices == invoices && this.items == items && this.payments == payments
      ensures writes == []
    {
      this.jobs := jobs;
      this.invoices := invoices;
      this.items := items;
      this.payments := payments;
      writes := [];
    }

    /**
     * The writes of a submission: the invoice is added, then each billed job
     * gets its item and is moved to `invoiced`. A balanced ledger stays
     * balanced when the invoice's id is fresh.
     */
    method CreateInvoice(invoice: Invoice, billed: seq<Job>, now: int)
      modifies this
      ensures invoices == old(invoices) + [invoice]
      ensures items == old(items) + ItemsFor(invoice.id, billed)
      ensures jobs == PatchJobs(old(jobs), JobIds(billed), MarkInvoiced, now)
      ensures payments == old(payments)
      ensures writes == old(writes) + [InvoiceAdded(invoice.id)] + ItemWrites(billed)
      ensures old(Reconciled(invoices, payments)) && !old(HasInvoice(invoices, invoice.id))
        && invoice.paidAmount == 0 && invoice.outstandingAmount == invoice.totalAmount
        ==> Reconciled(invoices, payments)
    {
      if Reconciled(invoices, payments) && !HasInvoice(invoices, invoice.id)
        && invoice.paidAmount == 0 && invoice.outstandingAmount == invoice.totalAmount
      {
        NewInvoiceKeepsReconciled(invoices, payments, invoice);
      }
      invoices := invoices + [invoice];
      jobs, items, writes := BillJobs(jobs, items, writes + [InvoiceAdded(invoice.id)], billed, invoice.id, now);
    }

    /**
     * `handleRecordPayment` against `invoice`, the object the dialog shows.
     * An empty or non-positive amount and one above the outstanding balance
     * are refused and change nothing. Otherwise the payment is stored, then
     * the invoice update computed from `invoice` is written over the stored
     * invoice with that id. When that leaves nothing outstanding, every job
     * the invoice lists is moved to `payment-received`, one update per id.
     */
    method RecordPayment(invoice: Invoice, amount: Option<int>, paymentMethod: PaymentMethod, notes: string,
                         actor: Option<Actor>, now: int) returns (outcome: PaymentOutcome)
      modifies this
      ensures (amount.None? || amount.value <= 0) ==> outcome == InvalidAmount && unchanged(this)
      ensures amount.Some? && 0 < amount.value && amount.value > invoice.outstandingAmount
        ==> outcome == ExceedsOutstanding && unchanged(this)
      ensures amount.Some? && 0 < amount.value <= invoice.outstandingAmount ==>
        var a := amount.value;
        var status := SettledStatus(invoice.totalAmount - (invoice.paidAmount + a));
        outcome == Recorded(status)
        && payments == old(payments) + [NewPayment(invoice.id, a, paymentMethod, notes, actor, now)]
        && invoices == SettleInvoices(old(invoices), invoice.id, invoice, a, now)
        && items == old(items)
        && jobs == (if status == "paid" then PatchJobs(old(jobs), invoice.jobIds, MarkPaid, now) else old(jobs))
        && writes == old(writes) + [PaymentAdded(invoice.id), InvoiceUpdated(invoice.id)]
                     + (if status == "paid" then JobWrites(invoice.jobIds) else [])
    {
      if amount.None? || amount.value <= 0 {
        return InvalidAmount;
      }
      var a := amount.value;
      if a > invoice.outstandingAmount {
        return ExceedsOutstanding;
      }
      payments := payments + [NewPayment(invoice.id, a, paymentMethod, notes, actor, now)];
      writes := writes + [PaymentAdded(invoice.id)];
      var newPaid := invoice.paidAmount + a;
      var newOutstanding := invoice.totalAmount - newPaid;
      var status := if newOutstanding == 0 then "paid" else "partial";
      invoices := SettleInvoices(invoices, invoice.id, invoice, a, now);
      writes := writes + [InvoiceUpdated(invoice.id)];
      if status == "paid" {
        var w;
        jobs, w := PatchAll(jobs, invoice.jobIds, MarkPaid, now, writes);
        writes := w;
      } else {
        assert writes == old(writes) + [PaymentAdded(invoice.id), InvoiceUpdated(invoice.id)] + [];
      }
      outcome := Recorded(status);
    }

    /**
     * The intended payment: re-read the stored invoice before recording, so
     * that the amounts are computed from what is stored. An id with no
     * stored invoice is refused. When the books balanced before, they still
     * balance after.
     */
    method RecordCurrentPayment(invoiceId: string, amount: Option<int>, paymentMethod: PaymentMethod, notes: string,
                                actor: Option<Actor>, now: int) returns (outcome: PaymentOutcome)
      modifies this
      ensures !HasInvoice(old(invoices), invoiceId) ==> outcome == UnknownInvoice && unchanged(this)
      ensures old(Reconciled(invoices, payments)) ==> Reconciled(invoices, payments)
      ensures HasInvoice(old(invoices), invoiceId) ==> outcome != UnknownInvoice
      ensures outcome.Recorded? ==> amount.Some? && PaidTo(payments, invoiceId) == old(PaidTo(payments, invoiceId)) + amount.value
      ensures items == old(items)
    {
      var found := Find(invoices, (v: Invoice) => v.id == invoiceId);
      if found.None? {
        return UnknownInvoice;
      }
      var i :| 0 <= i < |invoices| && invoices[i] == found.value && invoices[i].id == invoiceId;
      ghost var before := invoices;
      ghost var paidBefore := payments;
      ghost var reconciled := Reconciled(invoices, payments);
      outcome := RecordPayment(found.value, amount, paymentMethod, notes, actor, now);
      if outcome.Recorded? {
        var p := NewPayment(invoiceId, amount.value, paymentMethod, notes, actor, now);
        PaidToAppend(paidBefore, p, invoiceId);
        if reconciled {
          PaymentKeepsReconciled(before, paidBefore, i, p, now);
        }
      }
    }
  }

  /** One step of the cascade loop. */
  lemma PatchStep(jobs0: seq<Job>, ids: seq<string>, i: nat, patch: JobPatch, now: int)
    requires i < |ids|
    ensures PatchJobs(jobs0, ids[..i + 1], patch, now) == PatchJob(PatchJobs(jobs0, ids[..i], patch, now), ids[i], patch, now)
    ensures JobWrites(ids[..i + 1]) == JobWrites(ids[..i]) + [JobChanged(ids[i])]
  {
    assert ids[..i + 1][..i] == ids[..i];
  }

  /** The loop over `invoice.jobIds`: one job update per listed id. */
  method PatchAll(jobs: seq<Job>, ids: seq<string>, patch: JobPatch, now: int, writes: seq<LedgerWrite>)
    returns (jobs': seq<Job>, writes': seq<LedgerWrite>)
    ensures jobs' == PatchJobs(jobs, ids, patch, now)
    ensures writes' == writes + JobWrites(ids)
  {
    jobs', writes' := jobs, writes;
    var i := 0;
    while i < |ids|
      invariant 0 <= i <= |ids|
      invariant jobs' == PatchJobs(jobs, ids[..i], patch, now)
      invariant writes' == writes + JobWrites(ids[..i])
    {
      PatchStep(jobs, ids, i, patch, now);
      jobs' := PatchJob(jobs', ids[i], patch, now);
      writes' := writes' + [JobChanged(ids[i])];
      i := i + 1;
    }
    assert ids[..i] == ids;
  }

  /**
   * The cascade of a settled invoice leaves each listed job at step
   * `payment-received` with a payment date. The tracking page's retention
   * guard then never fires for that job: advancing it to `payment-received`
   * later leaves every photo as it was, so no photo of the job is given a
   * deletion date.
   */
  lemma PaidCascadeSkipsRetention(jobs: seq<Job>, ids: seq<string>, now: int, k: nat,
                                  photos: map<nat, Photo>, later: int)
    requires k < |jobs| && jobs[k].id in ids
    ensures var j := PatchJobs(jobs, ids, MarkPaid, now)[k];
      j.currentTrackingStep == Some(PaymentReceived) && j.status == "payment-received"
      && !RetentionDue(j, PaymentReceived)
      && AdvancedPhotos(j, photos, PaymentReceived, later) == photos
  {
    PatchJobsIs(jobs, ids, MarkPaid, now);
  }

  /** How an invoice submission ends. */
  datatype SubmitOutcome = MissingInput | UnknownCustomer | InvoiceCreated(invoiceNumber: string)

  /** The state of the invoice form. */
  class InvoiceForm {
    var customerId: string
    var availableJobs: seq<Job>
    var selected: seq<string>
    var issuedDate: int
    var dueDate: Option<int>

    /** A fresh form: no customer, nothing on offer or ticked, issued today, no due date. */
    constructor (today: int)
      ensures customerId == "" && availableJobs == [] && selected == []
      ensures issuedDate == today && dueDate == None
    {
      customerId := "";
      availableJobs := [];
      selected := [];
      issuedDate := today;
      dueDate := None;
    }

    /**
     * Choosing a customer (the effect on `selectedCustomerId`). Choosing the
     * same customer again does nothing. Otherwise the customer's billable jobs
     * are offered. A known customer with a non-zero payment term sets the
     * due date that many days from today. The ticked ids are kept. Clearing
     * the customer empties both the offer and the selection.
     */
    method ChooseCustomer(id: string, customers: seq<Customer>, ledger: Ledger, today: int)
      modifies this
      ensures old(customerId) == id ==> unchanged(this)
      ensures old(customerId) != id && id != "" ==>
        customerId == id
        && availableJobs == AvailableJobs(ledger.jobs, ledger.items, id)
        && selected == old(selected)
        && issuedDate == old(issuedDate)
        && dueDate == (var c := FindCustomer(customers, id);
                       if c.Some? && c.value.paymentTermDays != 0 then Some(today + c.value.paymentTermDays)
                       else old(dueDate))
      ensures old(customerId) != id && id == "" ==>
        customerId == "" && availableJobs == [] && selected == []
        && issuedDate == old(issuedDate) && dueDate == old(dueDate)
    {
      if id == customerId {
        return;
      }
      customerId := id;
      if id != "" {
        availableJobs := AvailableJobs(ledger.jobs, ledger.items, id);
        var c := FindCustomer(customers, id);
        if c.Some? && c.value.paymentTermDays != 0 {
          dueDate := Some(today + c.value.paymentTermDays);
        }
      } else {
        availableJobs := [];
        selected := [];
      }
    }

    /** Ticking or unticking a job. */
    method Toggle(jobId: string)
      modifies this
      ensures selected == ToggleSelection(old(selected), jobId)
      ensures customerId == old(customerId) && availableJobs == old(availableJobs)
      ensures issuedDate == old(issuedDate) && dueDate == old(dueDate)
    {
      selected := ToggleSelection(selected, jobId);
    }

    /** The issue-date picker ignores a cleared selection. */
    method PickIssuedDate(date: Option<int>)
      modifies this
      ensures issuedDate == (if date.Some? then date.value else old(issuedDate))
      ensures customerId == old(customerId) && availableJobs == old(availableJobs)
      ensures selected == old(selected) && dueDate == old(dueDate)
    {
      if date.Some? {
        issuedDate := date.value;
      }
    }

    /** The due-date picker can clear the date. */
    method PickDueDate(date: Option<int>)
      modifies this
      ensures dueDate == date
      ensures customerId == old(customerId) && availableJobs == old(availableJobs)
      ensures selected == old(selected) && issuedDate == old(issuedDate)
    {
      dueDate := date;
    }

    /**
     * `handleSubmit`. With no customer, nothing ticked or no due date it
     * refuses. With an unknown customer it stops without writing. Otherwise
     * it adds the new invoice, numbered from the count of stored invoices,
     * listing every ticked id and totalling the ticked jobs on offer. Then
     * it bills each ticked job on offer: one item, and the job moved to
     * `invoiced`. A balanced ledger stays balanced when the new id is fresh.
     */
    method Submit(customers: seq<Customer>, ledger: Ledger, year: nat, newInvoiceId: string,
                  actor: Option<Actor>, now: int) returns (outcome: SubmitOutcome)
      modifies ledger
      ensures customerId == "" || selected == [] || dueDate.None? ==> outcome == MissingInput && unchanged(ledger)
      ensures !(customerId == "" || selected == [] || dueDate.None?) && FindCustomer(customers, customerId).None?
        ==> outcome == UnknownCustomer && unchanged(ledger)
      ensures !(customerId == "" || selected == [] || dueDate.None?) && FindCustomer(customers, customerId).Some? ==>
        var number := InvoiceNumber(year, |old(ledger.invoices)|);
        var billed := Chosen(availableJobs, selected);
        outcome == InvoiceCreated(number)
        && ledger.invoices == old(ledger.invoices)
             + [NewInvoice(newInvoiceId, number, FindCustomer(customers, customerId).value, selected,
                           Total(availableJobs, selected), issuedDate, dueDate.value, actor, now)]
        && ledger.items == old(ledger.items) + ItemsFor(newInvoiceId, billed)
        && ledger.jobs == PatchJobs(old(ledger.jobs), JobIds(billed), MarkInvoiced, now)
        && ledger.payments == old(ledger.payments)
        && ledger.writes == old(ledger.writes) + [InvoiceAdded(newInvoiceId)] + ItemWrites(billed)
      ensures old(Reconciled(ledger.invoices, ledger.payments)) && !old(HasInvoice(ledger.invoices, newInvoiceId))
        ==> Reconciled(ledger.invoices, ledger.payments)
    {
      if customerId == "" || selected == [] || dueDate.None? {
        return MissingInput;
      }
      var c := FindCustomer(customers, customerId);
      if c.None? {
        return UnknownCustomer;
      }
      var total := Total(availableJobs, selected);
      var number := InvoiceNumber(year, |ledger.invoices|);
      var invoice := NewInvoice(newInvoiceId, number, c.value, selected, total, issuedDate, dueDate.value, actor, now);
      ledger.CreateInvoice(invoice, Chosen(availableJobs, selected), now);
      outcome := InvoiceCreated(number);
    }
  }

  /** The items a submission adds add up to the new invoice's total. */
  lemma SubmittedTotalIsItems(available: seq<Job>, selected: seq<string>, invoiceId: string)
    ensures Sum(ItemsFor(invoiceId, Chosen(available, selected)), ItemAmount) == Total(available, selected)
  {
    ItemsAddUp(invoiceId, Chosen(available, selected));
  }
}
