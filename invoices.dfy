/** The invoices screen: its summary figures, the status filter and search
    box over the invoice list, and the local list updates that follow a
    successful "mark as paid", delete or create. */
module Invoices {
  import opened Rows
  import opened Text
  import opened Billing

  // ---------------------------------------------------------------------
  // Short identifiers

  /** The first eight characters of an identifier, or '-' when there is none. */
  function DisplayShort(v: Option<string>): (r: string)
    ensures v.None? ==> r == "-"
    ensures v.Some? ==> r <= v.value && |r| == (if |v.value| < 8 then |v.value| else 8)
  {
    if v.None? then "-"
    else if |v.value| <= 8 then v.value
    else v.value[..8]
  }

  // ---------------------------------------------------------------------
  // Summary figures

  datatype InvoiceStats = InvoiceStats(
    total: int,
    paid: int,
    pending: int,
    overdue: int,
    totalAmount: int,
    paidAmount: int)

  const NoStats := InvoiceStats(0, 0, 0, 0, 0, 0)

  /** The figures the screen shows for a list of invoices. */
  function StatsOf(invs: seq<Invoice>): InvoiceStats {
    InvoiceStats(|invs|, CountInvoices(invs, Paid), CountInvoices(invs, Pending),
      CountInvoices(invs, Overdue), TotalAmount(invs), Revenue(invs))
  }

  /** The total is the number of invoices; the three status counts never
      exceed it and add up to it when every status is a known one; with
      non-negative amounts the paid amount lies between zero and the total
      amount. */
  lemma StatsInvariants(invs: seq<Invoice>)
    ensures StatsOf(invs).total == |invs|
    ensures StatsOf(invs).paid + StatsOf(invs).pending + StatsOf(invs).overdue <= StatsOf(invs).total
    ensures KnownInvoiceStatuses(invs) ==>
      StatsOf(invs).paid + StatsOf(invs).pending + StatsOf(invs).overdue == StatsOf(invs).total
    ensures (forall i :: 0 <= i < |invs| ==> AmountOf(invs[i]) >= 0) ==>
      0 <= StatsOf(invs).paidAmount <= StatsOf(invs).totalAmount
  {
    InvoiceStatusCounts(invs);
    if forall i :: 0 <= i < |invs| ==> AmountOf(invs[i]) >= 0 {
      RevenueBounds(invs);
    }
  }

  /** Counting by status over one more invoice. */
  lemma CountInvoicesStep(invs: seq<Invoice>, i: nat, status: string)
    requires i < |invs|
    ensures CountInvoices(invs[..i + 1], status) ==
      CountInvoices(invs[..i], status) + (if invs[i].status == status then 1 else 0)
  {
    assert invs[..i + 1] == invs[..i] + [invs[i]];
    FilterAppend(invs[..i], [invs[i]], InvoiceIs(status));
  }

  /** The reducer's callback: one more invoice bumps the total, adds its
      amount, and bumps the counter (and for 'paid' the paid amount) of its
      status; any other status only counts towards the total. */
  function Reduce(acc: InvoiceStats, inv: Invoice): InvoiceStats {
    var acc := acc.(total := acc.total + 1, totalAmount := acc.totalAmount + AmountOf(inv));
    if inv.status == Paid then acc.(paid := acc.paid + 1, paidAmount := acc.paidAmount + AmountOf(inv))
    else if inv.status == Pending then acc.(pending := acc.pending + 1)
    else if inv.status == Overdue then acc.(overdue := acc.overdue + 1)
    else acc
  }

  /** Reducing one more invoice gives the figures of the longer prefix. */
  lemma StatsStep(invs: seq<Invoice>, i: nat)
    requires i < |invs|
    ensures StatsOf(invs[..i + 1]) == Reduce(StatsOf(invs[..i]), invs[i])
  {
    var a, b := invs[..i], [invs[i]];
    assert invs[..i + 1] == a + b;
    CountInvoicesStep(invs, i, Paid);
    CountInvoicesStep(invs, i, Pending);
    CountInvoicesStep(invs, i, Overdue);
    RevenueAppend(a, b);
    assert Revenue(b) == if invs[i].status == Paid then AmountOf(invs[i]) else 0 by {
      assert Filter(b, IsPaid) == if IsPaid(invs[i]) then b else [];
      assert b[..0] == [];
      assert SumOf(b, AmountOf) == AmountOf(invs[i]);
      assert SumOf([], AmountOf) == 0;
    }
    assert (a + b)[..|a + b| - 1] == a;
  }

  /** `reduce` over the fetched invoices, starting from all zeros. */
  method ComputeStats(invs: seq<Invoice>) returns (s: InvoiceStats)
    ensures s == StatsOf(invs)
  {
    s := NoStats;
    var i := 0;
    while i < |invs|
      invariant 0 <= i <= |invs|
      invariant s == StatsOf(invs[..i])
    {
      StatsStep(invs, i);
      s := Reduce(s, invs[i]);
      i := i + 1;
    }
    assert invs[..|invs|] == invs;
  }

  // ---------------------------------------------------------------------
  // Filter and search

  /** The status filter: 'all' or one status. */
  predicate StatusAdmits(filter: string, inv: Invoice) {
    filter == "all" || inv.status == filter
  }

  /** The search box: a trimmed, lower-cased query that is empty or occurs
      in the lower-cased id or lead id. */
  predicate SearchAdmits(search: string, inv: Invoice) {
    var q := ToLower(Trim(search));
    q == "" || Contains(ToLower(inv.id), q) || Contains(ToLower(inv.leadId), q)
  }

  function InvoiceMatches(filter: string, search: string): Invoice -> bool {
    (inv: Invoice) => StatusAdmits(filter, inv) && SearchAdmits(search, inv)
  }

  /** The invoices listed for a filter and a search. */
  function FilteredInvoices(invs: seq<Invoice>, filter: string, search: string): seq<Invoice> {
    Filter(invs, InvoiceMatches(filter, search))
  }

  /** The listed invoices are an order-preserving subsequence of the
      invoices; an invoice is listed exactly when the filter is 'all' or
      names its status, and the search is blank or occurs, ignoring case,
      in its id or lead id. */
  lemma FilteredInvoicesSpec(invs: seq<Invoice>, filter: string, search: string)
    ensures IsSubseq(FilteredInvoices(invs, filter, search), invs)
    ensures forall inv :: inv in FilteredInvoices(invs, filter, search) <==>
      inv in invs
      && (filter == "all" || inv.status == filter)
      && (AllSpace(search) || ContainsIgnoringCase(inv.id, Trim(search))
          || ContainsIgnoringCase(inv.leadId, Trim(search)))
  {
    FilterIsSubseq(invs, InvoiceMatches(filter, search));
    forall inv ensures inv in FilteredInvoices(invs, filter, search) <==> inv in invs && InvoiceMatches(filter, search)(inv) {
      FilterMembership(invs, InvoiceMatches(filter, search), inv);
      SearchAdmitsIff(search, inv);
    }
  }

  /** The search admits an invoice when it is blank or occurs, ignoring
      case, in the id or the lead id. */
  lemma SearchAdmitsIff(search: string, inv: Invoice)
    ensures SearchAdmits(search, inv) <==>
      AllSpace(search) || ContainsIgnoringCase(inv.id, Trim(search)) || ContainsIgnoringCase(inv.leadId, Trim(search))
  {
    TrimEmptyIff(search);
  }

  /** With the filter 'all' and a blank search every invoice is listed, in order. */
  lemma FilteredInvoicesAll(invs: seq<Invoice>, search: string)
    requires AllSpace(search)
    ensures FilteredInvoices(invs, "all", search) == invs
  {
    TrimEmptyIff(search);
    FilterAll(invs, InvoiceMatches("all", search));
  }

  /** With a blank search the list is the status filter alone. */
  lemma FilteredInvoicesBlankSearch(invs: seq<Invoice>, filter: string, search: string)
    requires AllSpace(search)
    ensures FilteredInvoices(invs, filter, search) == Filter(invs, (inv: Invoice) => StatusAdmits(filter, inv))
  {
    TrimEmptyIff(search);
    FilterAgrees(invs, InvoiceMatches(filter, search), (inv: Invoice) => StatusAdmits(filter, inv));
  }

  // ---------------------------------------------------------------------
  // Local list updates

  /** The list after "mark as paid" on `id`: every invoice with that id
      becomes paid at `now`. */
  function MarkPaidRows(invs: seq<Invoice>, id: string, now: string): (r: seq<Invoice>)
    ensures |r| == |invs|
  {
    seq(|invs|, i requires 0 <= i < |invs| =>
      if invs[i].id == id then invs[i].(status := Paid, paidAt := Some(now)) else invs[i])
  }

  /** Marking keeps every invoice's position, id, lead, amount, currency and
      dates; invoices with another id are untouched, and every invoice with
      the id ends up paid at `now`. */
  lemma MarkPaidEffect(invs: seq<Invoice>, id: string, now: string)
    ensures forall i :: 0 <= i < |invs| ==>
      var r := MarkPaidRows(invs, id, now)[i];
      r.id == invs[i].id && r.leadId == invs[i].leadId && r.amount == invs[i].amount
      && r.currency == invs[i].currency && r.issuedAt == invs[i].issuedAt && r.dueDate == invs[i].dueDate
      && (invs[i].id != id ==> r == invs[i])
      && (invs[i].id == id ==> r.status == Paid && r.paidAt == Some(now))
  {
  }

  /** Marking twice is marking once. */
  lemma MarkPaidIdempotent(invs: seq<Invoice>, id: string, now: string)
    ensures MarkPaidRows(MarkPaidRows(invs, id, now), id, now) == MarkPaidRows(invs, id, now)
  {
  }

  /** The unpaid invoices carrying `id`. */
  function UnpaidWithId(id: string): Invoice -> bool {
    (inv: Invoice) => inv.id == id && inv.status != Paid
  }

  /** Marking raises the paid count by exactly the number of unpaid
      invoices with that id. */
  lemma {:induction false} MarkPaidCount(invs: seq<Invoice>, id: string, now: string)
    ensures CountInvoices(MarkPaidRows(invs, id, now), Paid) ==
      CountInvoices(invs, Paid) + Count(invs, UnpaidWithId(id))
  {
    if invs != [] {
      MarkPaidCount(invs[1..], id, now);
      assert MarkPaidRows(invs, id, now)[1..] == MarkPaidRows(invs[1..], id, now);
    }
  }

  /** The test `inv => inv.id !== id`. */
  function IdIsNot(id: string): Invoice -> bool {
    (inv: Invoice) => inv.id != id
  }

  function IdIs(id: string): Invoice -> bool {
    (inv: Invoice) => inv.id == id
  }

  /** The list after deleting `id`. */
  function DeleteRows(invs: seq<Invoice>, id: string): seq<Invoice> {
    Filter(invs, IdIsNot(id))
  }

  /** Deleting keeps the other invoices in order, removes exactly the
      invoices with that id, and shortens the list by their number. */
  lemma DeleteRowsSpec(invs: seq<Invoice>, id: string)
    ensures IsSubseq(DeleteRows(invs, id), invs)
    ensures forall inv :: inv in DeleteRows(invs, id) <==> inv in invs && inv.id != id
    ensures |DeleteRows(invs, id)| == |invs| - Count(invs, IdIs(id))
  {
    FilterIsSubseq(invs, IdIsNot(id));
    forall inv ensures inv in DeleteRows(invs, id) <==> inv in invs && inv.id != id {
      FilterMembership(invs, IdIsNot(id), inv);
    }
    CountComplement(invs, IdIs(id), IdIsNot(id));
  }

  // ---------------------------------------------------------------------
  // Creating an invoice

  const RequiredFieldsMessage := "Please fill all required fields."
  const PositiveAmountMessage := "Amount must be a positive number."
  const CreateFailedMessage := "Failed to create invoice"

  /** The create form's fields, as typed. */
  datatype CreateForm = CreateForm(leadId: string, amount: string, currency: string, dueDate: string, issuedAt: string)

  function EmptyForm(today: string): CreateForm {
    CreateForm("", "", "USD", "", today)
  }

  /** The checks made before any request: every required field filled in,
      then a positive amount. `amountValue` is what `Number` reads from the
      amount field, `None` for NaN. */
  function CreateError(form: CreateForm, amountValue: Option<real>): (e: Option<string>)
    ensures e == Some(RequiredFieldsMessage) <==>
      form.leadId == "" || form.amount == "" || form.currency == "" || form.dueDate == ""
    ensures e == Some(PositiveAmountMessage) <==>
      form.leadId != "" && form.amount != "" && form.currency != "" && form.dueDate != ""
      && (amountValue.None? || amountValue.value <= 0.0)
    ensures e.None? <==>
      form.leadId != "" && form.amount != "" && form.currency != "" && form.dueDate != ""
      && amountValue.Some? && amountValue.value > 0.0
  {
    if form.leadId == "" || form.amount == "" || form.currency == "" || form.dueDate == "" then
      Some(RequiredFieldsMessage)
    else if amountValue.None? || amountValue.value <= 0.0 then
      Some(PositiveAmountMessage)
    else
      None
  }

  /** The body posted to the invoice route. */
  datatype CreatePayload = CreatePayload(
    leadId: string, amount: real, currency: string, dueDate: string, issuedAt: string, status: string)

  /** The payload built from a validated form; `toIso` renders a typed date
      as an ISO timestamp and `nowIso` is the current time, both supplied
      by the caller. A blank issue date is replaced by now. */
  function PayloadOf(form: CreateForm, amount: real, toIso: string -> string, nowIso: string): (p: CreatePayload)
    ensures p.status == Pending
    ensures p.leadId == form.leadId && p.amount == amount && p.currency == form.currency
    ensures p.dueDate == toIso(form.dueDate)
    ensures form.issuedAt != "" ==> p.issuedAt == toIso(form.issuedAt)
    ensures form.issuedAt == "" ==> p.issuedAt == nowIso
  {
    CreatePayload(form.leadId, amount, form.currency, toIso(form.dueDate),
      if form.issuedAt != "" then toIso(form.issuedAt) else nowIso, Pending)
  }

  /** How the create request ended: the route answered with the new
      invoice, answered with an error status (and perhaps an error text),
      or the request itself failed (with perhaps a message). */
  datatype CreateOutcome =
    | Created(invoice: Invoice)
    | Rejected(error: string)
    | Thrown(message: string)

  /** The message shown after a failed create: the error text, or a
      default for a blank one. */
  function FailureMessage(outcome: CreateOutcome): (m: string)
    requires !outcome.Created?
    ensures m != ""
    ensures outcome.Rejected? && outcome.error != "" ==> m == outcome.error
    ensures outcome.Thrown? && outcome.message != "" ==> m == outcome.message
  {
    var text := if outcome.Rejected? then outcome.error else outcome.message;
    if text == "" then CreateFailedMessage else text
  }

  // ---------------------------------------------------------------------
  // The screen

  class InvoicesPage {
    var invoices: seq<Invoice>
    var stats: InvoiceStats
    var leads: seq<Lead>
    var filter: string
    var searchTerm: string
    var invoiceToDelete: Option<Invoice>
    var deleteOpen: bool
    var createOpen: bool
    var form: CreateForm
    var submitting: bool
    var formError: Option<string>

    constructor(today: string)
      ensures invoices == [] && stats == NoStats && leads == []
      ensures filter == "all" && searchTerm == ""
      ensures invoiceToDelete.None? && !deleteOpen && !createOpen
      ensures form == EmptyForm(today) && !submitting && formError.None?
    {
      invoices := [];
      stats := NoStats;
      leads := [];
      filter := "all";
      searchTerm := "";
      invoiceToDelete := None;
      deleteOpen := false;
      createOpen := false;
      form := EmptyForm(today);
      submitting := false;
      formError := None;
    }

    /** The invoices the table shows. */
    function Listed(): seq<Invoice>
      reads this
    {
      FilteredInvoices(invoices, filter, searchTerm)
    }

    /** The invoice read: on an error the list is emptied and every figure
      is zero; otherwise the rows (none for a null result) are kept and
      the figures computed from them. */
    method LoadInvoices(f: Fetch<Invoice>)
      modifies this
      ensures f.FetchError? ==> invoices == [] && stats == NoStats
      ensures f.Fetched? ==> invoices == RowsOrEmpty(f.data) && stats == StatsOf(invoices)
      ensures leads == old(leads) && form == old(form) && filter == old(filter) && searchTerm == old(searchTerm)
      ensures invoiceToDelete == old(invoiceToDelete) && deleteOpen == old(deleteOpen) && createOpen == old(createOpen)
      ensures submitting == old(submitting) && formError == old(formError)
    {
      if f.FetchError? {
        invoices := [];
        stats := NoStats;
        return;
      }
      invoices := RowsOrEmpty(f.data);
      stats := ComputeStats(invoices);
    }

    /** The lead read for the form's drop-down: emptied on an error. */
    method LoadLeads(f: Fetch<Lead>)
      modifies this
      ensures leads == (if f.FetchError? then [] else RowsOrEmpty(f.data))
      ensures invoices == old(invoices) && stats == old(stats) && form == old(form)
      ensures filter == old(filter) && searchTerm == old(searchTerm)
      ensures invoiceToDelete == old(invoiceToDelete) && deleteOpen == old(deleteOpen) && createOpen == old(createOpen)
      ensures submitting == old(submitting) && formError == old(formError)
    {
      if f.FetchError? {
        leads := [];
      } else {
        leads := RowsOrEmpty(f.data);
      }
    }

    /** "Mark as paid" for `id` at time `now`; `failed` is whether the row
        store reported an error for the update. The figures are left as
        they were. */
    method MarkAsPaid(id: string, now: string, failed: bool)
      modifies this
      ensures invoices == (if failed then old(invoices) else MarkPaidRows(old(invoices), id, now))
      ensures stats == old(stats) && leads == old(leads) && form == old(form)
      ensures filter == old(filter) && searchTerm == old(searchTerm)
      ensures invoiceToDelete == old(invoiceToDelete) && deleteOpen == old(deleteOpen) && createOpen == old(createOpen)
      ensures submitting == old(submitting) && formError == old(formError)
    {
      if !failed {
        invoices := MarkPaidRows(invoices, id, now);
      }
    }

    /** The row's delete button: remember the invoice and open the dialog. */
    method AskDelete(inv: Invoice)
      modifies this
      ensures invoiceToDelete == Some(inv) && deleteOpen
      ensures invoices == old(invoices) && stats == old(stats) && leads == old(leads) && form == old(form)
      ensures filter == old(filter) && searchTerm == old(searchTerm) && createOpen == old(createOpen)
      ensures submitting == old(submitting) && formError == old(formError)
    {
      invoiceToDelete := Some(inv);
      deleteOpen := true;
    }

    /** The dialog's confirm button; `failed` is whether the row store
        reported an error for the delete. Nothing happens without a
        remembered invoice or after an error. */
    method DeleteInvoice(failed: bool)
      modifies this
      ensures old(invoiceToDelete).None? || failed ==>
        invoices == old(invoices) && invoiceToDelete == old(invoiceToDelete) && deleteOpen == old(deleteOpen)
      ensures old(invoiceToDelete).Some? && !failed ==>
        invoices == DeleteRows(old(invoices), old(invoiceToDelete).value.id)
        && invoiceToDelete.None? && !deleteOpen
      ensures stats == old(stats) && leads == old(leads) && form == old(form)
      ensures filter == old(filter) && searchTerm == old(searchTerm) && createOpen == old(createOpen)
      ensures submitting == old(submitting) && formError == old(formError)
    {
      if invoiceToDelete.None? {
        return;
      }
      if !failed {
        invoices := DeleteRows(invoices, invoiceToDelete.value.id);
        deleteOpen := false;
        invoiceToDelete := None;
      }
    }

    /** Submitting the create form. The form is checked first; a failed
        check sets the message and sends nothing. Otherwise the payload is
        sent (and returned), and `outcome` is how the request ended: a new
        invoice goes to the head of the list, the dialog closes and the
        form is reset to `today`; a failure leaves the list and shows its
        message. */
    method HandleCreate(amountValue: Option<real>, toIso: string -> string, nowIso: string, today: string,
                        outcome: CreateOutcome)
      returns (sent: Option<CreatePayload>)
      modifies this
      ensures CreateError(old(form), amountValue).Some? ==>
        sent.None? && formError == CreateError(old(form), amountValue)
        && invoices == old(invoices) && form == old(form) && createOpen == old(createOpen)
        && submitting == old(submitting)
      ensures CreateError(old(form), amountValue).None? ==>
        sent == Some(PayloadOf(old(form), amountValue.value, toIso, nowIso)) && !submitting
      ensures CreateError(old(form), amountValue).None? && outcome.Created? ==>
        invoices == [outcome.invoice] + old(invoices) && !createOpen
        && form == EmptyForm(today) && formError.None?
      ensures CreateError(old(form), amountValue).None? && !outcome.Created? ==>
        invoices == old(invoices) && createOpen == old(createOpen) && form == old(form)
        && formError == Some(FailureMessage(outcome))
      ensures stats == old(stats) && leads == old(leads) && filter == old(filter) && searchTerm == old(searchTerm)
      ensures invoiceToDelete == old(invoiceToDelete) && deleteOpen == old(deleteOpen)
    {
      formError := None;
      var error := CreateError(form, amountValue);
      if error.Some? {
        formError := error;
        return None;
      }
      submitting := true;
      sent := Some(PayloadOf(form, amountValue.value, toIso, nowIso));
      if outcome.Created? {
        invoices := [outcome.invoice] + invoices;
        createOpen := false;
        form := EmptyForm(today);
        formError := None;
      } else {
        formError := Some(FailureMessage(outcome));
      }
      submitting := false;
    }
  }
}
