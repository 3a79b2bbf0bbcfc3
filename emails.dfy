/** The e-mail log screen: its figures (counts by status and the success
    rate), the status and search filters, and "retry" on a failed e-mail. */
module Emails {
  import opened Rows
  import opened Text
  import opened Billing
  import opened Arith

  // ---------------------------------------------------------------------
  // Figures

  datatype EmailStats = EmailStats(total: nat, sent: nat, pending: nat, failed: nat, successRate: nat)

  /** The percentage of sent e-mails for a non-empty log, zero for an
      empty one. The page rounds the floating-point product
      `(sent / total) * 100` with `Math.round`; the model rounds the exact
      quotient half up, `floor(100·sent/total + 1/2)`, which over the
      integers is `(200·sent + total) div (2·total)`. The two differ only
      where the exact value is a half that the floating-point product
      misses from below. */
  function SuccessRate(sent: nat, total: nat): nat {
    if total > 0 then (200 * sent + total) / (2 * total) else 0
  }

  /** The rate is the exact percentage of sent e-mails rounded to the
      nearest integer, halves up: it lies within half a point of the exact
      value, possibly exactly half a point below it. */
  lemma SuccessRateRounds(sent: nat, total: nat)
    requires total > 0
    ensures var r := SuccessRate(sent, total) as real;
      var exact := 100.0 * (sent as real) / (total as real);
      r - 0.5 <= exact < r + 0.5
  {
    var r := SuccessRate(sent, total);
    var n, d := 200 * sent + total, 2 * total;
    assert d * r <= n < d * r + d;
    var t, s, rr := total as real, sent as real, r as real;
    assert (d * r) as real == 2.0 * t * rr;
    assert n as real == 200.0 * s + t;
    var exact := 100.0 * s / t;
    assert exact * t == 100.0 * s;
    WithinHalf(rr, exact, t, 100.0 * s);
  }

  /** Dividing `2·t·r <= 2·m + t < 2·t·r + 2·t` by `2·t`, where `m = x·t`. */
  lemma WithinHalf(r: real, x: real, t: real, m: real)
    requires t > 0.0 && x * t == m
    requires 2.0 * t * r <= 2.0 * m + t < 2.0 * t * r + 2.0 * t
    ensures r - 0.5 <= x < r + 0.5
  {
    assert 2.0 * t * x == 2.0 * m;
    assert 2.0 * t * (r - 0.5) == 2.0 * t * r - t;
    assert 2.0 * t * (r + 0.5) == 2.0 * t * r + t;
    if x < r - 0.5 {
      RealMulStrict(2.0 * t, x, r - 0.5);
      assert false;
    }
    if x >= r + 0.5 {
      RealMulMono(2.0 * t, r + 0.5, x);
      assert false;
    }
  }

  /** No more than all sent is no more than 100 per cent; none sent is 0
      and all sent is 100. */
  lemma SuccessRateBounds(sent: nat, total: nat)
    requires sent <= total
    ensures SuccessRate(sent, total) <= 100
    ensures sent == 0 ==> SuccessRate(sent, total) == 0
    ensures total > 0 && sent == total ==> SuccessRate(sent, total) == 100
  {
    if total > 0 {
      var n, d := 200 * sent + total, 2 * total;
      var r := n / d;
      assert d * r <= n;
      if r > 100 {
        MulMono(d, 101, r);
        assert false;
      }
      if sent == 0 {
        DivIs(n, d, 0);
      }
      if sent == total {
        DivIs(n, d, 100);
      }
    }
  }

  /** The figures over the loaded e-mails. */
  function StatsOf(emails: seq<Email>): EmailStats {
    var sent := CountEmails(emails, Sent);
    EmailStats(|emails|, sent, CountEmails(emails, Pending), CountEmails(emails, Failed),
      SuccessRate(sent, |emails|))
  }

  /** The total is the number of e-mails; the three status counts never
      exceed it and add up to it when every status is a known one; the
      rate lies in 0..100, is 0 for an empty log, and is the rounded share
      of sent e-mails otherwise. */
  lemma StatsInvariants(emails: seq<Email>)
    ensures StatsOf(emails).total == |emails|
    ensures StatsOf(emails).sent + StatsOf(emails).pending + StatsOf(emails).failed <= StatsOf(emails).total
    ensures KnownEmailStatuses(emails) ==>
      StatsOf(emails).sent + StatsOf(emails).pending + StatsOf(emails).failed == StatsOf(emails).total
    ensures StatsOf(emails).successRate <= 100
    ensures emails == [] ==> StatsOf(emails).successRate == 0
    ensures emails != [] ==>
      var r := StatsOf(emails).successRate as real;
      var exact := 100.0 * (StatsOf(emails).sent as real) / (|emails| as real);
      r - 0.5 <= exact < r + 0.5
  {
    EmailStatusCounts(emails);
    SuccessRateBounds(CountEmails(emails, Sent), |emails|);
    if emails != [] {
      SuccessRateRounds(CountEmails(emails, Sent), |emails|);
    }
  }

  // ---------------------------------------------------------------------
  // Filters

  datatype EmailFilters = EmailFilters(search: string, status: string)

  const NoFilters := EmailFilters("", "all")

  predicate StatusAdmits(status: string, e: Email) {
    status == "all" || e.status == status
  }

  /** The search box (not trimmed) matches subject, body or lead id
      ignoring case; an e-mail without a lead id cannot match through it. */
  predicate SearchAdmits(search: string, e: Email) {
    search == ""
    || ContainsIgnoringCase(e.subject, search)
    || ContainsIgnoringCase(e.body, search)
    || (e.leadId.Some? && ContainsIgnoringCase(e.leadId.value, search))
  }

  function StatusTest(status: string): Email -> bool {
    (e: Email) => StatusAdmits(status, e)
  }

  function SearchTest(search: string): Email -> bool {
    (e: Email) => SearchAdmits(search, e)
  }

  function EmailMatches(f: EmailFilters): Email -> bool {
    (e: Email) => StatusAdmits(f.status, e) && SearchAdmits(f.search, e)
  }

  /** The listed e-mails, as one filter by both conditions. */
  function FilteredEmails(emails: seq<Email>, f: EmailFilters): seq<Email> {
    Filter(emails, EmailMatches(f))
  }

  /** The screen's computation: start from every e-mail, narrow by status
      unless 'all' is chosen, then by the search unless it is empty. */
  method FilterEmails(emails: seq<Email>, f: EmailFilters) returns (filtered: seq<Email>)
    ensures filtered == FilteredEmails(emails, f)
  {
    filtered := emails;
    if f.status != "all" {
      filtered := Filter(filtered, StatusTest(f.status));
    }
    if f.search != "" {
      filtered := Filter(filtered, SearchTest(f.search));
    }
    if f.status == "all" {
      FilterAll(emails, StatusTest(f.status));
    }
    if f.search == "" {
      FilterAll(Filter(emails, StatusTest(f.status)), SearchTest(f.search));
    }
    FilterFilter(emails, StatusTest(f.status), SearchTest(f.search), EmailMatches(f));
  }

  /** The listed e-mails are an order-preserving subsequence of the log
      holding exactly those that pass both filters. */
  lemma FilteredEmailsSpec(emails: seq<Email>, f: EmailFilters)
    ensures IsSubseq(FilteredEmails(emails, f), emails)
    ensures forall e :: e in FilteredEmails(emails, f) <==>
      e in emails && (f.status == "all" || e.status == f.status) && SearchAdmits(f.search, e)
  {
    FilterIsSubseq(emails, EmailMatches(f));
    forall e ensures e in FilteredEmails(emails, f) <==> e in emails && EmailMatches(f)(e) {
      FilterMembership(emails, EmailMatches(f), e);
    }
  }

  /** No filters list the whole log, in order. */
  lemma FilteredEmailsNoFilter(emails: seq<Email>)
    ensures FilteredEmails(emails, NoFilters) == emails
  {
    FilterAll(emails, EmailMatches(NoFilters));
  }

  /** A status other than 'all' keeps exact matches only. */
  lemma FilteredEmailsStatus(emails: seq<Email>, status: string)
    requires status != "all"
    ensures FilteredEmails(emails, EmailFilters("", status)) == Filter(emails, EmailIs(status))
  {
    FilterAgrees(emails, EmailMatches(EmailFilters("", status)), EmailIs(status));
  }

  /** An e-mail without a lead id matches a search through its subject or
      body alone. */
  lemma NullLeadSearch(search: string, e: Email)
    requires e.leadId.None? && search != ""
    ensures SearchAdmits(search, e) <==>
      ContainsIgnoringCase(e.subject, search) || ContainsIgnoringCase(e.body, search)
  {
  }

  // ---------------------------------------------------------------------
  // Retry

  /** `prev.map(e => e.id === id ? {...e, status: 'pending'} : e)`. */
  function RetryRows(emails: seq<Email>, id: string): (r: seq<Email>)
    ensures |r| == |emails|
  {
    Map(emails, (e: Email) => if e.id == id then e.(status := Pending) else e)
  }

  /** Retrying keeps every position; the e-mails with another id are
      untouched, and those with the id keep every field but the status,
      which becomes 'pending'. */
  lemma RetryEffect(emails: seq<Email>, id: string)
    ensures forall i :: 0 <= i < |emails| ==>
      var r := RetryRows(emails, id)[i];
      (emails[i].id != id ==> r == emails[i])
      && (emails[i].id == id ==> r == emails[i].(status := Pending))
  {
  }

  /** The e-mails carrying `id` that are not yet pending. */
  function NotPendingWithId(id: string): Email -> bool {
    (e: Email) => e.id == id && e.status != Pending
  }

  /** Retrying raises the pending count by the number of e-mails with that
      id that were not pending, leaves the total alone, and retrying again
      changes nothing. */
  lemma {:induction false} RetryCount(emails: seq<Email>, id: string)
    ensures CountEmails(RetryRows(emails, id), Pending) ==
      CountEmails(emails, Pending) + Count(emails, NotPendingWithId(id))
    ensures RetryRows(RetryRows(emails, id), id) == RetryRows(emails, id)
  {
    if emails != [] {
      RetryCount(emails[1..], id);
      assert RetryRows(emails, id)[1..] == RetryRows(emails[1..], id);
    }
  }

  // ---------------------------------------------------------------------
  // The screen

  class EmailsPage {
    var emails: seq<Email>
    var filters: EmailFilters
    var retrying: Option<string>

    constructor()
      ensures emails == [] && filters == NoFilters && retrying.None?
    {
      emails := [];
      filters := NoFilters;
      retrying := None;
    }

    /** The figures shown above the table. */
    function Stats(): EmailStats
      reads this
    {
      StatsOf(emails)
    }

    /** The e-mails the table shows. */
    function Listed(): seq<Email>
      reads this
    {
      FilteredEmails(emails, filters)
    }

    /** The e-mail read; a null result lists nothing. Errors are not
        inspected, and read as a null result. */
    method Load(data: Option<seq<Email>>)
      modifies this`emails
      ensures emails == RowsOrEmpty(data)
    {
      emails := RowsOrEmpty(data);
    }

    /** "Retry" on `id`. The row store's answer is not inspected: unless
        the update request itself throws, the e-mail with that id is set to
        'pending' locally. Either way nothing is being retried afterwards. */
    method Retry(id: string, thrown: bool)
      modifies this`emails, this`retrying
      ensures emails == (if thrown then old(emails) else RetryRows(old(emails), id))
      ensures retrying.None?
    {
      retrying := Some(id);
      if !thrown {
        emails := RetryRows(emails, id);
      }
      retrying := None;
    }
  }
}
