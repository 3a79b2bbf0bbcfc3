/** The rows of the client-engagement and billing dashboards, as the row
    store returns them, and the figures several of its screens derive from
    them in the same way. Statuses stay strings: the row store does not
    enforce the enumerations, so rows with other values are possible. */
module Billing {
  import opened Rows

  const Pending: string := "pending"
  const Paid: string := "paid"
  const Overdue: string := "overdue"
  const Sent: string := "sent"
  const Failed: string := "failed"

  /** A lead; `id` and `created_at` are absent on a lead not yet inserted. */
  datatype Lead = Lead(
    id: Option<string>,
    name: string,
    email: string,
    company: Option<string>,
    source: Option<string>,
    createdAt: Option<string>)

  /** `lead.source || 'Unknown'`: the key a lead is counted under by
      source; a null or empty source counts as 'Unknown'. */
  function SourceKey(l: Lead): (k: string)
    ensures k != ""
    ensures k == "Unknown" <==> l.source.None? || l.source.value in {"", "Unknown"}
    ensures l.source.Some? && l.source.value != "" ==> k == l.source.value
  {
    if l.source.None? || l.source.value == "" then "Unknown" else l.source.value
  }

  /** A weight of one per lead. */
  function LeadOne(l: Lead): int {
    1
  }

  datatype Email = Email(
    id: string,
    leadId: Option<string>,
    subject: string,
    body: string,
    status: string,
    sentAt: Option<string>,
    createdAt: string)

  /** An invoice; money is in minor units, a null amount is `None`. */
  datatype Invoice = Invoice(
    id: string,
    leadId: string,
    amount: Option<int>,
    currency: string,
    status: string,
    issuedAt: string,
    dueDate: string,
    paidAt: Option<string>)

  datatype Transaction = Transaction(
    id: string,
    invoiceId: string,
    amount: int,
    currency: string,
    paymentMethod: Option<string>,
    transactionDate: string)

  /** `Number(inv.amount || 0)`: a missing amount counts as zero. */
  function AmountOf(inv: Invoice): (a: int)
    ensures inv.amount.None? ==> a == 0
    ensures inv.amount.Some? ==> a == inv.amount.value
  {
    if inv.amount.Some? then inv.amount.value else 0
  }

  predicate IsPaid(inv: Invoice) {
    inv.status == Paid
  }

  /** Invoices whose status is one of the three the application knows. */
  ghost predicate KnownInvoiceStatuses(invs: seq<Invoice>) {
    forall i :: 0 <= i < |invs| ==> invs[i].status in {Pending, Paid, Overdue}
  }

  /** The test `i => i.status === status`. */
  function InvoiceIs(status: string): Invoice -> bool {
    (inv: Invoice) => inv.status == status
  }

  /** One for an invoice with the given status, zero otherwise. */
  function InvoiceMark(status: string): Invoice -> int {
    (inv: Invoice) => if inv.status == status then 1 else 0
  }

  /** `invoices.filter(i => i.status === status).length` */
  function CountInvoices(invs: seq<Invoice>, status: string): nat {
    Count(invs, InvoiceIs(status))
  }

  /** The amount of the paid invoices: the dashboard's revenue and the
      invoice screen's paid amount. */
  function Revenue(invs: seq<Invoice>): int {
    SumOf(Filter(invs, IsPaid), AmountOf)
  }

  /** The amount of all invoices. */
  function TotalAmount(invs: seq<Invoice>): int {
    SumOf(invs, AmountOf)
  }

  /** The pending, paid and overdue counts never exceed the number of
      invoices, and add up to it when every status is a known one. */
  lemma {:induction false} InvoiceStatusCounts(invs: seq<Invoice>)
    ensures CountInvoices(invs, Pending) + CountInvoices(invs, Paid) + CountInvoices(invs, Overdue) <= |invs|
    ensures KnownInvoiceStatuses(invs) ==>
      CountInvoices(invs, Pending) + CountInvoices(invs, Paid) + CountInvoices(invs, Overdue) == |invs|
  {
    if invs != [] {
      InvoiceStatusCounts(invs[1..]);
      assert KnownInvoiceStatuses(invs) ==> KnownInvoiceStatuses(invs[1..]) by {
        if KnownInvoiceStatuses(invs) {
          forall i | 0 <= i < |invs[1..]| ensures invs[1..][i].status in {Pending, Paid, Overdue} {
            assert invs[1..][i] == invs[i + 1];
          }
        }
      }
    }
  }

  /** With non-negative amounts the paid amount lies between zero and the
      total amount. */
  lemma RevenueBounds(invs: seq<Invoice>)
    requires forall i :: 0 <= i < |invs| ==> AmountOf(invs[i]) >= 0
    ensures 0 <= Revenue(invs) <= TotalAmount(invs)
  {
    var nonNeg := (inv: Invoice) => if AmountOf(inv) >= 0 then AmountOf(inv) else 0;
    SumOfFilterBounds(invs, IsPaid, nonNeg);
    SumOfAgrees(invs, AmountOf, nonNeg);
    FilterMembershipAll(invs, IsPaid);
    SumOfAgrees(Filter(invs, IsPaid), AmountOf, nonNeg);
  }

  lemma FilterMembershipAll(invs: seq<Invoice>, p: Invoice -> bool)
    ensures forall i :: 0 <= i < |Filter(invs, p)| ==> Filter(invs, p)[i] in invs
  {
    forall i | 0 <= i < |Filter(invs, p)| ensures Filter(invs, p)[i] in invs {
      FilterMembership(invs, p, Filter(invs, p)[i]);
    }
  }

  /** Two weights that agree on the rows give the same sum. */
  lemma {:induction false} SumOfAgrees(invs: seq<Invoice>, w1: Invoice -> int, w2: Invoice -> int)
    requires forall i :: 0 <= i < |invs| ==> w1(invs[i]) == w2(invs[i])
    ensures SumOf(invs, w1) == SumOf(invs, w2)
    decreases |invs|
  {
    if invs != [] {
      SumOfAgrees(invs[..|invs| - 1], w1, w2);
    }
  }

  /** The amount of the paid invoices of a concatenation is the sum of the
      parts' paid amounts. */
  lemma RevenueAppend(a: seq<Invoice>, b: seq<Invoice>)
    ensures Revenue(a + b) == Revenue(a) + Revenue(b)
  {
    FilterAppend(a, b, IsPaid);
    SumOfAppend(Filter(a, IsPaid), Filter(b, IsPaid), AmountOf);
  }

  /** The test `e => e.status === status`. */
  function EmailIs(status: string): Email -> bool {
    (e: Email) => e.status == status
  }

  /** One for an email with the given status, zero otherwise. */
  function EmailMark(status: string): Email -> int {
    (e: Email) => if e.status == status then 1 else 0
  }

  /** `emails.filter(e => e.status === status).length` */
  function CountEmails(emails: seq<Email>, status: string): nat {
    Count(emails, EmailIs(status))
  }

  /** Emails whose status is one of the three the application knows. */
  ghost predicate KnownEmailStatuses(emails: seq<Email>) {
    forall i :: 0 <= i < |emails| ==> emails[i].status in {Pending, Sent, Failed}
  }

  /** The sent, pending and failed counts add up to the number of emails
      when every status is a known one, and never exceed it. */
  lemma {:induction false} EmailStatusCounts(emails: seq<Email>)
    ensures CountEmails(emails, Sent) + CountEmails(emails, Pending) + CountEmails(emails, Failed) <= |emails|
    ensures KnownEmailStatuses(emails) ==>
      CountEmails(emails, Sent) + CountEmails(emails, Pending) + CountEmails(emails, Failed) == |emails|
  {
    if emails != [] {
      EmailStatusCounts(emails[1..]);
      assert KnownEmailStatuses(emails) ==> KnownEmailStatuses(emails[1..]) by {
        if KnownEmailStatuses(emails) {
          forall i | 0 <= i < |emails[1..]| ensures emails[1..][i].status in {Pending, Sent, Failed} {
            assert emails[1..][i] == emails[i + 1];
          }
        }
      }
    }
  }
}
