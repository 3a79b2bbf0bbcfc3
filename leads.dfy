/** The leads screen: its per-source figures, the three ways of adding
    leads (one by hand, a CSV file, pasted text), the e-mail address check
    used for pasted text, the filters over the list, and the list updates
    after each of them. */
module Leads {
  import opened Rows
  import opened Text
  import opened Billing
  import Dashboard

  // ---------------------------------------------------------------------
  // Figures

  /** `{ total, bySource }`: the number of leads and the count under each
      source key ('Unknown' for a null or empty source), in first-occurrence
      order; the counts add up to the total. */
  method LeadStats(leads: seq<Lead>) returns (total: int, bySource: seq<Dashboard.SourceCount>)
    ensures total == |leads|
    ensures |bySource| == |Dedup(Map(leads, SourceKey))|
    ensures forall i :: 0 <= i < |bySource| ==>
      bySource[i].source == Dedup(Map(leads, SourceKey))[i]
      && bySource[i].count == Tally(leads, SourceKey, LeadOne, bySource[i].source) >= 1
    ensures Sum(Dashboard.SourceCounts(bySource)) == total
  {
    total := |leads|;
    bySource := Dashboard.LeadsSourceData(leads);
  }

  /** `value || ''` for an optional text. */
  function OrEmpty(v: Option<string>): (s: string)
    ensures v.None? ==> s == ""
    ensures v.Some? ==> s == v.value
  {
    if v.Some? then v.value else ""
  }

  // ---------------------------------------------------------------------
  // E-mail addresses

  /** A character the pattern's `[^\s@]` accepts. */
  predicate Plain(c: char) {
    c != '@' && !IsSpace(c)
  }

  /** No character of `t` is whitespace or '@'. */
  predicate AllPlain(t: string) {
    t == [] || (Plain(t[0]) && AllPlain(t[1..]))
  }

  lemma {:induction false} AllPlainMembers(t: string)
    ensures AllPlain(t) <==> forall c :: c in t ==> Plain(c)
  {
    if t != [] {
      AllPlainMembers(t[1..]);
      assert t == [t[0]] + t[1..];
    }
  }

  /** The pattern `^[^\s@]+@[^\s@]+\.[^\s@]+$`: the address splits into a
      non-empty local part, '@', a non-empty part, '.', and a non-empty
      part, none of the three holding whitespace or '@'. */
  ghost predicate EmailPattern(s: string) {
    exists i, j :: 0 < i && i + 1 < j && j + 1 < |s| && s[i] == '@' && s[j] == '.'
      && AllPlain(s[..i]) && AllPlain(s[i + 1..j]) && AllPlain(s[j + 1..])
  }

  /** Position of the first `c` in `s`, or `|s|` when there is none. */
  function IndexOf(s: string, c: char): (i: nat)
    ensures i <= |s|
    ensures i < |s| ==> s[i] == c
    ensures forall k :: 0 <= k < i ==> s[k] != c
  {
    if s == [] then 0
    else if s[0] == c then 0
    else 1 + IndexOf(s[1..], c)
  }

  /** A '.' strictly inside `d`. */
  predicate InnerDot(d: string) {
    |d| >= 3 && '.' in d[1..|d| - 1]
  }

  /** The address check as one scan: the first '@' is not at the start, the
      parts before and after it hold no whitespace and no further '@', and
      the part after it has a '.' that is neither its first nor its last
      character. */
  predicate ValidEmail(s: string) {
    var i := IndexOf(s, '@');
    0 < i < |s| && AllPlain(s[..i]) && AllPlain(s[i + 1..]) && InnerDot(s[i + 1..])
  }

  lemma {:induction false} AllPlainAppend(a: string, b: string)
    ensures AllPlain(a + b) <==> AllPlain(a) && AllPlain(b)
  {
    if a == [] {
      assert a + b == b;
    } else {
      AllPlainAppend(a[1..], b);
      assert (a + b)[1..] == a[1..] + b;
    }
  }

  /** Splitting `t` around position `j`. */
  lemma AllPlainAround(t: string, j: nat)
    requires j < |t| && Plain(t[j])
    ensures AllPlain(t) <==> AllPlain(t[..j]) && AllPlain(t[j + 1..])
  {
    assert t == t[..j] + ([t[j]] + t[j + 1..]);
    AllPlainAppend(t[..j], [t[j]] + t[j + 1..]);
    AllPlainAppend([t[j]], t[j + 1..]);
  }

  /** An '@' with no '@' before it is the first one. */
  lemma FirstAt(s: string, i: nat)
    requires i < |s| && s[i] == '@' && AllPlain(s[..i])
    ensures IndexOf(s, '@') == i
  {
    AllPlainMembers(s[..i]);
    forall k | 0 <= k < i ensures s[k] != '@' {
      assert s[..i][k] in s[..i];
    }
  }

  /** Every address the scan accepts matches the pattern. */
  lemma ValidEmailSound(s: string)
    requires ValidEmail(s)
    ensures EmailPattern(s)
  {
    var i := IndexOf(s, '@');
    var d := s[i + 1..];
    var m :| 0 <= m < |d[1..|d| - 1]| && d[1..|d| - 1][m] == '.';
    var j' := m + 1;
    assert d[j'] == '.';
    AllPlainAround(d, j');
    var j := i + 1 + j';
    assert s[i + 1..j] == d[..j'];
    assert s[j + 1..] == d[j' + 1..];
    assert s[j] == '.';
  }

  lemma InnerDotAt(d: string, j: nat)
    requires 0 < j < |d| - 1 && d[j] == '.'
    ensures InnerDot(d)
  {
    assert d[1..|d| - 1][j - 1] == '.';
  }

  /** A domain made of two plain parts around a '.'. */
  lemma DomainParts(d: string, a: string, b: string)
    requires a != [] && b != [] && d == a + "." + b
    requires AllPlain(a) && AllPlain(b)
    ensures AllPlain(d) && InnerDot(d)
  {
    assert d == a + ("." + b);
    DomainPlain(a, b);
    DomainDot(a, b);
  }

  lemma DomainPlain(a: string, b: string)
    requires AllPlain(a) && AllPlain(b)
    ensures AllPlain(a + ("." + b))
  {
    AllPlainAppend(".", b);
    AllPlainAppend(a, "." + b);
  }

  lemma DomainDot(a: string, b: string)
    requires a != [] && b != []
    ensures InnerDot(a + ("." + b))
  {
    var d := a + ("." + b);
    assert d[|a|] == '.';
    InnerDotAt(d, |a|);
  }

  lemma ValidEmailAt(s: string, i: nat)
    requires 0 < i < |s| && IndexOf(s, '@') == i
    requires AllPlain(s[..i]) && AllPlain(s[i + 1..]) && InnerDot(s[i + 1..])
    ensures ValidEmail(s)
  {
  }

  /** The scan finds the '@' that follows a plain local part. */
  lemma LocalPart(a: string, d: string)
    requires AllPlain(a)
    ensures IndexOf(a + "@" + d, '@') == |a|
    ensures (a + "@" + d)[..|a|] == a && (a + "@" + d)[|a| + 1..] == d
  {
    var s := a + "@" + d;
    assert s == a + ("@" + d);
    SplitAppend(a, "@" + d);
    assert s[|a| + 1..] == ("@" + d)[1..];
    FirstAt(s, |a|);
  }

  /** An address assembled from plain local, host and suffix parts is
      accepted by the scan. */
  lemma ValidEmailOfParts(a: string, b: string, c: string)
    requires a != [] && b != [] && c != []
    requires AllPlain(a) && AllPlain(b) && AllPlain(c)
    ensures ValidEmail(a + "@" + (b + "." + c))
  {
    var d := b + "." + c;
    LocalPart(a, d);
    DomainParts(d, b, c);
    ValidEmailAt(a + "@" + d, |a|);
  }

  lemma PatternSplit(s: string, i: nat, j: nat)
    requires 0 < i < j < |s| && s[i] == '@' && s[j] == '.'
    ensures s == s[..i] + "@" + (s[i + 1..j] + "." + s[j + 1..])
  {
    assert s[i..] == "@" + s[i + 1..];
    assert s[i + 1..] == s[i + 1..j] + "." + s[j + 1..];
    assert s == s[..i] + s[i..];
  }

  /** Every address the pattern matches is accepted by the scan. */
  lemma ValidEmailComplete(s: string)
    requires EmailPattern(s)
    ensures ValidEmail(s)
  {
    var i, j :| 0 < i && i + 1 < j && j + 1 < |s| && s[i] == '@' && s[j] == '.'
      && AllPlain(s[..i]) && AllPlain(s[i + 1..j]) && AllPlain(s[j + 1..]);
    PatternSplit(s, i, j);
    ValidEmailOfParts(s[..i], s[i + 1..j], s[j + 1..]);
  }

  /** The scan accepts exactly the addresses the pattern matches. */
  lemma ValidEmailIff(s: string)
    ensures ValidEmail(s) <==> EmailPattern(s)
  {
    if ValidEmail(s) {
      ValidEmailSound(s);
    }
    if EmailPattern(s) {
      ValidEmailComplete(s);
    }
  }

  // ---------------------------------------------------------------------
  // Pasted text

  /** A lead not yet stored, as the add dialog edits it. */
  datatype NewLead = NewLead(name: string, email: string, company: string, source: string)

  const BlankNewLead := NewLead("", "", "", "manual")

  /** The row inserted for a lead typed by hand. */
  function NewLeadRow(n: NewLead, now: string): Lead {
    Lead(None, n.name, n.email, Some(n.company), Some(n.source), Some(now))
  }

  /** A line that is not blank after trimming. */
  predicate NotBlankLine(line: string) {
    Trim(line) != ""
  }

  /** One pasted line: split at commas, each piece trimmed; the first three
      pieces are name, e-mail and company, missing ones read as empty,
      further ones are ignored; the source is 'bulk'. */
  function BulkLead(line: string): Lead {
    var parts := Map(Split(line, ','), Trim);
    Lead(None, parts[0], if |parts| > 1 then parts[1] else "",
      Some(if |parts| > 2 then parts[2] else ""), Some("bulk"), None)
  }

  predicate HasNameAndEmail(l: Lead) {
    l.name != "" && l.email != ""
  }

  /** The leads read from pasted lines in one pass: a line gives a lead
      when it is not blank and yields a name and an e-mail address. */
  function ParseLines(lines: seq<string>): (r: seq<Lead>)
    ensures |r| <= |lines|
  {
    if lines == [] then []
    else
      var rest := ParseLines(lines[1..]);
      if NotBlankLine(lines[0]) && HasNameAndEmail(BulkLead(lines[0])) then [BulkLead(lines[0])] + rest else rest
  }

  /** The leads read from pasted text. */
  function ParseBulk(text: string): seq<Lead> {
    ParseLines(Split(text, '\n'))
  }

  /** The one-pass reading is the chain the screen writes: drop blank lines,
      read each line, drop leads without a name or an address. */
  lemma {:induction false} ParseLinesChain(lines: seq<string>)
    ensures ParseLines(lines) == Filter(Map(Filter(lines, NotBlankLine), BulkLead), HasNameAndEmail)
  {
    if lines != [] {
      ParseLinesChain(lines[1..]);
      FilterMapFilterCons(lines, NotBlankLine, BulkLead, HasNameAndEmail);
    }
  }

  /** One lead as a user would paste it. */
  datatype Entry = Entry(name: string, email: string, company: string)

  /** A field a line can carry unchanged: no comma, no line break, and no
      whitespace at either end. */
  ghost predicate Field(f: string) {
    Trimmed(f) && ',' !in f && '\n' !in f
  }

  ghost predicate WellFormed(e: Entry) {
    Field(e.name) && Field(e.email) && Field(e.company) && e.name != "" && e.email != ""
  }

  function EntryLine(e: Entry): string {
    e.name + "," + e.email + "," + e.company
  }

  /** Entries written one per line. */
  function BulkText(es: seq<Entry>): string {
    Join(Map(es, EntryLine), "\n")
  }

  function EntryLead(e: Entry): Lead {
    Lead(None, e.name, e.email, Some(e.company), Some("bulk"), None)
  }

  /** A line of comma-free fields splits back into them. */
  lemma EntryLineSplit(e: Entry)
    requires ',' !in e.name && ',' !in e.email && ',' !in e.company
    ensures Split(EntryLine(e), ',') == [e.name, e.email, e.company]
  {
    var fields := [e.name, e.email, e.company];
    assert fields[1..] == [e.email, e.company];
    assert fields[1..][1..] == [e.company];
    assert Join(fields[1..], [',']) == e.email + [','] + e.company;
    assert Join(fields, [',']) == e.name + [','] + (e.email + [','] + e.company);
    assert Join(fields, [',']) == EntryLine(e);
    SplitJoin(fields, ',');
  }

  /** Trimming fields without outer whitespace leaves them as they are. */
  lemma TrimAll(fields: seq<string>)
    requires forall i :: 0 <= i < |fields| ==> Trimmed(fields[i])
    ensures Map(fields, Trim) == fields
  {
    forall i | 0 <= i < |fields| ensures Trim(fields[i]) == fields[i] {
      TrimFixpoint(fields[i]);
    }
  }

  lemma EntryLineNoBreak(e: Entry)
    requires '\n' !in e.name && '\n' !in e.email && '\n' !in e.company
    ensures '\n' !in EntryLine(e)
  {
  }

  lemma EntryLineNotBlank(e: Entry)
    requires e.name != "" && !IsSpace(e.name[0])
    ensures NotBlankLine(EntryLine(e))
  {
    var line := EntryLine(e);
    assert line[0] == e.name[0];
    TrimEmptyIff(line);
  }

  /** A line whose trimmed pieces are `a`, `b`, `c` gives that lead. */
  lemma BulkLeadOf(line: string, a: string, b: string, c: string)
    requires Map(Split(line, ','), Trim) == [a, b, c]
    ensures BulkLead(line) == Lead(None, a, b, Some(c), Some("bulk"), None)
  {
  }

  /** A well-formed line reads back as its entry. */
  lemma EntryLineParse(e: Entry)
    requires WellFormed(e)
    ensures BulkLead(EntryLine(e)) == EntryLead(e)
    ensures NotBlankLine(EntryLine(e))
    ensures '\n' !in EntryLine(e)
  {
    var line := EntryLine(e);
    var fields := [e.name, e.email, e.company];
    EntryLineSplit(e);
    TrimAll(fields);
    assert Map(Split(line, ','), Trim) == fields;
    BulkLeadOf(line, e.name, e.email, e.company);
    EntryLineNoBreak(e);
    EntryLineNotBlank(e);
  }

  /** Lines that each read as a lead are read as exactly those leads. */
  lemma ParseLinesAll(lines: seq<string>, leads: seq<Lead>)
    requires |lines| == |leads|
    requires forall i :: 0 <= i < |lines| ==>
      NotBlankLine(lines[i]) && BulkLead(lines[i]) == leads[i] && HasNameAndEmail(leads[i])
    ensures ParseLines(lines) == leads
  {
    ParseLinesChain(lines);
    FilterMapFilterAll(lines, NotBlankLine, BulkLead, HasNameAndEmail, leads);
  }

  lemma ParseEntries(es: seq<Entry>)
    requires forall i :: 0 <= i < |es| ==> WellFormed(es[i])
    ensures ParseLines(Map(es, EntryLine)) == Map(es, EntryLead)
  {
    var lines, leads := Map(es, EntryLine), Map(es, EntryLead);
    forall i | 0 <= i < |lines|
      ensures NotBlankLine(lines[i]) && BulkLead(lines[i]) == leads[i] && HasNameAndEmail(leads[i])
    {
      EntryLineParse(es[i]);
    }
    ParseLinesAll(lines, leads);
  }

  /** Pasting well-formed entries one per line gives back exactly those
      entries as 'bulk' leads, in order. */
  lemma ParseBulkRoundTrip(es: seq<Entry>)
    requires forall i :: 0 <= i < |es| ==> WellFormed(es[i])
    ensures ParseBulk(BulkText(es)) == Map(es, EntryLead)
  {
    if es == [] {
      TrimEmptyIff("");
      assert Split(BulkText(es), '\n') == [""];
    } else {
      var lines := Map(es, EntryLine);
      forall i | 0 <= i < |lines| ensures '\n' !in lines[i] {
        EntryLineParse(es[i]);
      }
      SplitJoin(lines, '\n');
      ParseEntries(es);
    }
  }

  /** Blank lines contribute nothing, whatever else is pasted. */
  lemma ParseBulkSkipsBlank(text: string, blank: string)
    requires AllSpace(blank) && '\n' !in blank
    ensures ParseBulk(blank + "\n" + text) == ParseBulk(text)
  {
    SplitPiece(blank, text, '\n');
    assert blank + "\n" + text == blank + ['\n'] + text;
    TrimEmptyIff(blank);
    assert ([blank] + Split(text, '\n'))[1..] == Split(text, '\n');
  }

  /** There are no more parsed leads than pasted lines. */
  lemma ParseBulkLength(text: string)
    ensures |ParseBulk(text)| <= |Split(text, '\n')|
  {
  }

  lemma {:induction false} ParseLinesShape(lines: seq<string>)
    ensures forall l :: l in ParseLines(lines) ==>
      HasNameAndEmail(l) && l.source == Some("bulk") && l.id.None? && l.company.Some?
  {
    if lines != [] {
      ParseLinesShape(lines[1..]);
    }
  }

  /** Every parsed lead has a name, an e-mail address and a company, comes
      from 'bulk' and has no id yet. */
  lemma ParseBulkShape(text: string)
    ensures forall l :: l in ParseBulk(text) ==>
      HasNameAndEmail(l) && l.source == Some("bulk") && l.id.None? && l.company.Some?
  {
    ParseLinesShape(Split(text, '\n'));
  }

  predicate LeadHasValidEmail(l: Lead) {
    ValidEmail(l.email)
  }

  predicate LeadHasInvalidEmail(l: Lead) {
    !ValidEmail(l.email)
  }

  const InvalidEmailPrefix := "Invalid email: "

  function InvalidEmailMessage(l: Lead): string {
    InvalidEmailPrefix + l.email
  }

  /** The leads of the paste that go to the row store. */
  function BulkValid(parsed: seq<Lead>): seq<Lead> {
    Filter(parsed, LeadHasValidEmail)
  }

  /** One message per lead whose address fails the check, in order. */
  function BulkErrors(parsed: seq<Lead>): seq<string> {
    Map(Filter(parsed, LeadHasInvalidEmail), InvalidEmailMessage)
  }

  /** Every parsed lead is either sent or reported: the sent leads and the
      messages together are as many as the parsed leads; every sent lead
      matches the address pattern, and every message is the prefix followed
      by an address that does not. */
  lemma BulkOutcomeSplit(parsed: seq<Lead>)
    ensures |BulkValid(parsed)| + |BulkErrors(parsed)| == |parsed|
    ensures forall i :: 0 <= i < |BulkValid(parsed)| ==> EmailPattern(BulkValid(parsed)[i].email)
    ensures forall i :: 0 <= i < |BulkErrors(parsed)| ==>
      |InvalidEmailPrefix| <= |BulkErrors(parsed)[i]|
      && BulkErrors(parsed)[i][..|InvalidEmailPrefix|] == InvalidEmailPrefix
      && !EmailPattern(BulkErrors(parsed)[i][|InvalidEmailPrefix|..])
  {
    CountComplement(parsed, LeadHasValidEmail, LeadHasInvalidEmail);
    forall i | 0 <= i < |BulkValid(parsed)| ensures EmailPattern(BulkValid(parsed)[i].email) {
      ValidEmailIff(BulkValid(parsed)[i].email);
    }
    var bad := Filter(parsed, LeadHasInvalidEmail);
    forall i | 0 <= i < |BulkErrors(parsed)|
      ensures BulkErrors(parsed)[i][|InvalidEmailPrefix|..] == bad[i].email
      ensures !EmailPattern(bad[i].email)
    {
      ValidEmailIff(bad[i].email);
    }
  }

  /** The leads as inserted, stamped with the insertion time. */
  function Stamped(now: string): Lead -> Lead {
    (l: Lead) => l.(createdAt := Some(now))
  }

  /** The banner of the paste dialog. */
  datatype ImportResult = ImportResult(success: int, errors: seq<string>)

  // ---------------------------------------------------------------------
  // CSV files

  /** A row of a CSV file read with a header line; a column the file lacks
      is `None`. */
  datatype CsvRow = CsvRow(name: Option<string>, email: Option<string>, company: Option<string>, source: Option<string>)

  predicate CsvUsable(r: CsvRow) {
    OrEmpty(r.name) != "" && OrEmpty(r.email) != ""
  }

  /** The lead inserted for a usable row: company defaults to '' and
      source to 'CSV'. */
  function CsvLead(now: string): CsvRow -> Lead {
    (r: CsvRow) => Lead(None, OrEmpty(r.name), OrEmpty(r.email), Some(OrEmpty(r.company)),
      Some(if OrEmpty(r.source) == "" then "CSV" else OrEmpty(r.source)), Some(now))
  }

  function CsvLeads(rows: seq<CsvRow>, now: string): seq<Lead> {
    Map(Filter(rows, CsvUsable), CsvLead(now))
  }

  /** The inserted leads are, in order, one per row with a name and an
      e-mail address; each carries a name, an address, a company, a
      non-empty source and the insertion time, and a row's own non-empty
      source is kept. */
  lemma CsvLeadsSpec(rows: seq<CsvRow>, now: string)
    ensures |CsvLeads(rows, now)| == Count(rows, CsvUsable)
    ensures forall r :: r in rows && CsvUsable(r) ==> CsvLead(now)(r) in CsvLeads(rows, now)
    ensures forall l :: l in CsvLeads(rows, now) ==> exists r :: r in rows && CsvUsable(r) && l == CsvLead(now)(r)
    ensures forall l :: l in CsvLeads(rows, now) ==>
      HasNameAndEmail(l) && l.company.Some? && l.source.Some? && l.source.value != "" && l.createdAt == Some(now)
    ensures forall r :: r in rows && CsvUsable(r) && OrEmpty(r.source) != "" ==>
      CsvLead(now)(r).source == r.source
  {
    var kept := Filter(rows, CsvUsable);
    forall r | r in rows && CsvUsable(r) ensures CsvLead(now)(r) in CsvLeads(rows, now) {
      FilterMembership(rows, CsvUsable, r);
      var k :| 0 <= k < |kept| && kept[k] == r;
      assert CsvLeads(rows, now)[k] == CsvLead(now)(r);
    }
    forall l | l in CsvLeads(rows, now) ensures exists r :: r in rows && CsvUsable(r) && l == CsvLead(now)(r) {
      var k :| 0 <= k < |kept| && CsvLeads(rows, now)[k] == l;
      FilterMembership(rows, CsvUsable, kept[k]);
    }
  }

  // ---------------------------------------------------------------------
  // Filters

  /** The four filter boxes; the status box takes part in no test. */
  datatype LeadFilters = LeadFilters(search: string, company: string, source: string, status: string)

  const NoFilters := LeadFilters("", "", "", "")

  /** The search box matches name, e-mail or company ignoring case; the
      company and source boxes match their own field ignoring case; an
      empty box matches everything. */
  predicate LeadAdmitted(f: LeadFilters, l: Lead) {
    (f.search == "" || ContainsIgnoringCase(l.name, f.search) || ContainsIgnoringCase(l.email, f.search)
      || ContainsIgnoringCase(OrEmpty(l.company), f.search))
    && (f.company == "" || ContainsIgnoringCase(OrEmpty(l.company), f.company))
    && (f.source == "" || ContainsIgnoringCase(OrEmpty(l.source), f.source))
  }

  function LeadMatches(f: LeadFilters): Lead -> bool {
    (l: Lead) => LeadAdmitted(f, l)
  }

  function FilteredLeads(leads: seq<Lead>, f: LeadFilters): seq<Lead> {
    Filter(leads, LeadMatches(f))
  }

  /** The listed leads are an order-preserving subsequence of the leads
      holding exactly the admitted ones. */
  lemma FilteredLeadsSpec(leads: seq<Lead>, f: LeadFilters)
    ensures IsSubseq(FilteredLeads(leads, f), leads)
    ensures forall l :: l in FilteredLeads(leads, f) <==> l in leads && LeadAdmitted(f, l)
  {
    FilterIsSubseq(leads, LeadMatches(f));
    forall l ensures l in FilteredLeads(leads, f) <==> l in leads && LeadAdmitted(f, l) {
      FilterMembership(leads, LeadMatches(f), l);
    }
  }

  /** Empty search, company and source boxes list every lead, in order,
      whatever the status box holds. */
  lemma FilteredLeadsNoFilter(leads: seq<Lead>, status: string)
    ensures FilteredLeads(leads, NoFilters.(status := status)) == leads
  {
    FilterAll(leads, LeadMatches(NoFilters.(status := status)));
  }

  /** The boxes ignore case: lower-casing what is typed changes nothing. */
  lemma FilteredLeadsCaseBlind(leads: seq<Lead>, f: LeadFilters)
    ensures FilteredLeads(leads, f.(search := ToLower(f.search), company := ToLower(f.company),
      source := ToLower(f.source))) == FilteredLeads(leads, f)
  {
    ToLowerIdempotent(f.search);
    ToLowerIdempotent(f.company);
    ToLowerIdempotent(f.source);
    var g := f.(search := ToLower(f.search), company := ToLower(f.company), source := ToLower(f.source));
    assert forall l :: LeadMatches(g)(l) == LeadMatches(f)(l);
    FilterAgrees(leads, LeadMatches(g), LeadMatches(f));
  }

  /** A further company or source box only narrows the list. */
  lemma FilteredLeadsNarrow(leads: seq<Lead>, f: LeadFilters, company: string, source: string)
    requires f.company == "" && f.source == ""
    ensures IsSubseq(FilteredLeads(leads, f.(company := company, source := source)), FilteredLeads(leads, f))
  {
    var g := f.(company := company, source := source);
    FilterIsSubseq(leads, LeadMatches(g));
    forall i | 0 <= i < |FilteredLeads(leads, g)| ensures LeadMatches(f)(FilteredLeads(leads, g)[i]) {
    }
    FilterIsLargest(FilteredLeads(leads, g), leads, LeadMatches(f));
  }

  // ---------------------------------------------------------------------
  // Replacing a lead

  /** `prev.map(l => l.id === id ? row : l)`. */
  function ReplaceById(leads: seq<Lead>, id: Option<string>, row: Lead): seq<Lead> {
    Map(leads, (l: Lead) => if l.id == id then row else l)
  }

  /** With distinct ids, replacing the lead at `k` by id changes that lead
      alone. */
  lemma ReplaceByIdOne(leads: seq<Lead>, k: nat, row: Lead)
    requires k < |leads|
    requires forall i, j :: 0 <= i < j < |leads| ==> leads[i].id != leads[j].id
    ensures ReplaceById(leads, leads[k].id, row) == leads[k := row]
  {
  }

  /** Replacing keeps length and order; the leads with another id are
      untouched and those with the id all become the new row. */
  lemma ReplaceByIdSpec(leads: seq<Lead>, id: Option<string>, row: Lead)
    ensures |ReplaceById(leads, id, row)| == |leads|
    ensures forall i :: 0 <= i < |leads| ==>
      ReplaceById(leads, id, row)[i] == (if leads[i].id == id then row else leads[i])
    ensures forall l :: l in leads && l.id != id ==> l in ReplaceById(leads, id, row)
  {
    forall l | l in leads && l.id != id ensures l in ReplaceById(leads, id, row) {
      var k :| 0 <= k < |leads| && leads[k] == l;
      assert ReplaceById(leads, id, row)[k] == l;
    }
  }

  // ---------------------------------------------------------------------
  // The screen

  class LeadsPage {
    var leads: seq<Lead>
    var filters: LeadFilters
    var newLead: NewLead
    var bulkText: string
    var importResult: Option<ImportResult>
    var addOpen: bool
    var bulkOpen: bool
    var importing: bool
    var sending: Option<string>

    constructor()
      ensures leads == [] && filters == NoFilters && newLead == BlankNewLead && bulkText == ""
      ensures importResult.None? && !addOpen && !bulkOpen && !importing && sending.None?
    {
      leads := [];
      filters := NoFilters;
      newLead := BlankNewLead;
      bulkText := "";
      importResult := None;
      addOpen := false;
      bulkOpen := false;
      importing := false;
      sending := None;
    }

    /** The leads the table shows. */
    function Listed(): seq<Lead>
      reads this
    {
      FilteredLeads(leads, filters)
    }

    /** The lead read; a null result (as after an error) reads as none. */
    method Load(data: Option<seq<Lead>>)
      modifies this`leads
      ensures leads == RowsOrEmpty(data)
    {
      leads := RowsOrEmpty(data);
    }

    /** Adding the lead typed in the dialog at time `now`; returns the row
        sent, and `inserted` is the stored row the insert returned (`None`
        after an error). The stored row goes to the head of the list, the
        dialog closes and the form is cleared. */
    method AddManually(now: string, inserted: Option<Lead>) returns (sent: Lead)
      modifies this`leads, this`addOpen, this`newLead
      ensures sent == NewLeadRow(old(newLead), now)
      ensures inserted.Some? ==> leads == [inserted.value] + old(leads) && !addOpen && newLead == BlankNewLead
      ensures inserted.None? ==> leads == old(leads) && addOpen == old(addOpen) && newLead == old(newLead)
    {
      sent := NewLeadRow(newLead, now);
      if inserted.Some? {
        leads := [inserted.value] + leads;
        addOpen := false;
        newLead := BlankNewLead;
      }
    }

    /** Importing the rows of a CSV file at time `now`; returns the leads
        sent (no request when there are none), and `inserted` is what the
        insert returned. The stored rows go to the head of the list in the
        order returned. */
    method ImportCsv(rows: seq<CsvRow>, now: string, inserted: Option<seq<Lead>>) returns (sent: seq<Lead>)
      modifies this`leads, this`importing
      ensures sent == CsvLeads(rows, now)
      ensures leads == if |sent| > 0 && inserted.Some? then inserted.value + old(leads) else old(leads)
      ensures !importing
    {
      importing := true;
      sent := CsvLeads(rows, now);
      if |sent| > 0 && inserted.Some? {
        leads := inserted.value + leads;
      }
      importing := false;
    }

    /** Adding the pasted leads at time `now`; returns the leads sent (no
        request when none has a valid address), and `inserted` is what the
        insert returned. With none valid the banner reports zero and the
        errors; after a store error nothing changes; otherwise the stored
        rows go to the head of the list, the banner reports how many were
        stored and the errors, and the text box is cleared. */
    method BulkAdd(now: string, inserted: Option<seq<Lead>>) returns (sent: seq<Lead>)
      modifies this`leads, this`importResult, this`bulkText
      ensures sent == Map(BulkValid(ParseBulk(old(bulkText))), Stamped(now))
      ensures |sent| == 0 ==>
        importResult == Some(ImportResult(0, BulkErrors(ParseBulk(old(bulkText)))))
        && leads == old(leads) && bulkText == old(bulkText)
      ensures |sent| > 0 && inserted.None? ==>
        importResult == old(importResult) && leads == old(leads) && bulkText == old(bulkText)
      ensures |sent| > 0 && inserted.Some? ==>
        leads == inserted.value + old(leads) && bulkText == ""
        && importResult == Some(ImportResult(|inserted.value|, BulkErrors(ParseBulk(old(bulkText)))))
    {
      var parsed := ParseBulk(bulkText);
      var valid := BulkValid(parsed);
      var errors := BulkErrors(parsed);
      sent := Map(valid, Stamped(now));
      if |valid| > 0 {
        if inserted.Some? {
          leads := inserted.value + leads;
          importResult := Some(ImportResult(|inserted.value|, errors));
          bulkText := "";
        }
      } else {
        importResult := Some(ImportResult(0, errors));
      }
    }

    /** The paste dialog's cancel button. */
    method CloseBulk()
      modifies this`bulkOpen, this`importResult
      ensures !bulkOpen && importResult.None?
    {
      bulkOpen := false;
      importResult := None;
    }

    /** The row's send button for `lead`: after the e-mail workflow is
        triggered the lead is re-labelled 'contacted' in the row store and
        `updated` is the row it returned, if any; the list's leads with that
        id are replaced by it. */
    method SendEmail(lead: Lead, updated: Option<Lead>)
      modifies this`leads, this`sending
      ensures leads == if updated.Some? then ReplaceById(old(leads), lead.id, updated.value) else old(leads)
      ensures sending.None?
    {
      sending := lead.id;
      if updated.Some? {
        leads := ReplaceById(leads, lead.id, updated.value);
      }
      sending := None;
    }
  }
}
