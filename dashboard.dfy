/** The billing dashboard: the KPI cards and the five charts derived from
    the leads, emails and invoices the page has loaded. Locale-dependent
    labels are parameters: `monthName` renders an issue date as a short
    month name, `dayKey` gives the `YYYY-MM-DD` UTC day of a timestamp
    and `dayLabel` renders such a day for the chart axis. */
module Dashboard {
  import opened Rows
  import opened StringOrder
  import opened Billing
  import Arith

  // ---------------------------------------------------------------------
  // KPI cards

  /** Fixed trend percentages shown beside the KPI figures. */
  datatype Trends = Trends(leads: real, emails: real, revenue: real, invoices: real)

  datatype Kpi = Kpi(totalLeads: nat, totalEmailsSent: nat, revenue: int, pendingInvoices: nat, trends: Trends)

  /** The KPI cards: leads, sent emails, paid revenue and pending invoices;
      the trends do not depend on the data. */
  function KpiData(leads: seq<Lead>, emails: seq<Email>, invs: seq<Invoice>): (k: Kpi)
    ensures k.totalLeads == |leads|
    ensures k.totalEmailsSent == CountEmails(emails, Sent) <= |emails|
    ensures k.pendingInvoices == CountInvoices(invs, Pending) <= |invs|
    ensures k.revenue == Revenue(invs)
    ensures (forall i :: 0 <= i < |invs| ==> AmountOf(invs[i]) >= 0) ==> 0 <= k.revenue <= TotalAmount(invs)
    ensures k.trends == Trends(12.5, 8.3, 23.7, -5.2)
  {
    assert (forall i :: 0 <= i < |invs| ==> AmountOf(invs[i]) >= 0) ==> 0 <= Revenue(invs) <= TotalAmount(invs) by {
      if forall i :: 0 <= i < |invs| ==> AmountOf(invs[i]) >= 0 {
        RevenueBounds(invs);
      }
    }
    Kpi(|leads|, CountEmails(emails, Sent), Revenue(invs), CountInvoices(invs, Pending),
        Trends(12.5, 8.3, 23.7, -5.2))
  }

  // ---------------------------------------------------------------------
  // Invoice status pie

  datatype StatusSlice = StatusSlice(name: string, value: nat)

  /** Exactly three slices, pending, paid and overdue, each with that
      status's count; together they hold no more invoices than there are,
      and all of them when every status is a known one. */
  function InvoiceStatusData(invs: seq<Invoice>): (r: seq<StatusSlice>)
    ensures |r| == 3
    ensures r[0].name == Pending && r[1].name == Paid && r[2].name == Overdue
    ensures forall i :: 0 <= i < 3 ==> r[i].value == CountInvoices(invs, r[i].name)
    ensures r[0].value + r[1].value + r[2].value <= |invs|
    ensures KnownInvoiceStatuses(invs) ==> r[0].value + r[1].value + r[2].value == |invs|
  {
    InvoiceStatusCounts(invs);
    var statuses := [Pending, Paid, Overdue];
    seq(3, i requires 0 <= i < 3 => StatusSlice(statuses[i], CountInvoices(invs, statuses[i])))
  }

  // ---------------------------------------------------------------------
  // Leads by source

  datatype SourceCount = SourceCount(source: string, count: int)

  function SourceCounts(out: seq<SourceCount>): (cs: seq<int>)
    ensures |cs| == |out|
    ensures forall i :: 0 <= i < |out| ==> cs[i] == out[i].count
  {
    seq(|out|, i requires 0 <= i < |out| => out[i].count)
  }

  /** The leads-by-source pie: one entry per distinct source key ('Unknown'
      for a null or empty source) in first-occurrence order, each with the
      number of leads under it; every count is positive and the counts add
      up to the number of leads. */
  method LeadsSourceData(leads: seq<Lead>) returns (out: seq<SourceCount>)
    ensures |out| == |Dedup(Map(leads, SourceKey))|
    ensures forall i :: 0 <= i < |out| ==> out[i].source == Dedup(Map(leads, SourceKey))[i]
    ensures forall i :: 0 <= i < |out| ==> out[i].count == Tally(leads, SourceKey, LeadOne, out[i].source) >= 1
    ensures Sum(SourceCounts(out)) == |leads|
  {
    var order, bySource := GroupTally(leads, SourceKey, LeadOne);
    out := seq(|order|, i requires 0 <= i < |order| => SourceCount(order[i], bySource[order[i]]));
    SourceCountsPositive(leads, order, out);
    SourceCountsTallies(leads, order, out);
    SourceTalliesSum(leads, order);
  }

  /** Entries holding the source keys' tallies have positive counts. */
  lemma SourceCountsPositive(leads: seq<Lead>, order: seq<string>, out: seq<SourceCount>)
    requires order == Dedup(Map(leads, SourceKey)) && |out| == |order|
    requires forall i :: 0 <= i < |out| ==> out[i] == SourceCount(order[i], Tally(leads, SourceKey, LeadOne, order[i]))
    ensures forall i :: 0 <= i < |out| ==> Tally(leads, SourceKey, LeadOne, out[i].source) >= 1
  {
    forall i | 0 <= i < |out| ensures Tally(leads, SourceKey, LeadOne, out[i].source) >= 1 {
      SourceCountPositive(leads, order[i]);
    }
  }

  lemma SourceCountPositive(leads: seq<Lead>, k: string)
    requires k in Dedup(Map(leads, SourceKey))
    ensures Tally(leads, SourceKey, LeadOne, k) >= 1
  {
    TallyPositive(leads, SourceKey, LeadOne, k);
  }

  /** The tallies of the source keys add up to the number of leads. */
  lemma SourceTalliesSum(leads: seq<Lead>, order: seq<string>)
    requires order == Dedup(Map(leads, SourceKey))
    ensures Sum(Tallies(leads, SourceKey, LeadOne, order)) == |leads|
  {
    SourceKeysListed(leads, order);
    PartitionSum(leads, SourceKey, LeadOne, order);
    SumOfOnes(leads, LeadOne);
  }

  lemma SourceCountsTallies(leads: seq<Lead>, order: seq<string>, out: seq<SourceCount>)
    requires |out| == |order|
    requires forall i :: 0 <= i < |out| ==> out[i] == SourceCount(order[i], Tally(leads, SourceKey, LeadOne, order[i]))
    ensures SourceCounts(out) == Tallies(leads, SourceKey, LeadOne, order)
  {
  }

  /** Every lead's source key is one of the keys. */
  lemma SourceKeysListed(leads: seq<Lead>, order: seq<string>)
    requires order == Dedup(Map(leads, SourceKey))
    ensures forall i :: 0 <= i < |leads| ==> SourceKey(leads[i]) in order
  {
    forall i | 0 <= i < |leads| ensures SourceKey(leads[i]) in order {
      assert Map(leads, SourceKey)[i] == SourceKey(leads[i]);
    }
  }

  // ---------------------------------------------------------------------
  // Monthly invoice status

  /** One bar group of the monthly chart; a month is its short name only. */
  datatype MonthBucket = MonthBucket(month: string, paid: int, pending: int, overdue: int)

  function IssuedMonth(monthName: string -> string): Invoice -> string {
    (inv: Invoice) => monthName(inv.issuedAt)
  }

  function InvoiceOne(inv: Invoice): int {
    1
  }

  /** The bucket of month `m`: the paid, pending and overdue invoices
      whose issue date has month name `m`. */
  function MonthBucketOf(invs: seq<Invoice>, monthName: string -> string, m: string): MonthBucket {
    var key := IssuedMonth(monthName);
    MonthBucket(m, Tally(invs, key, InvoiceMark(Paid), m), Tally(invs, key, InvoiceMark(Pending), m),
                Tally(invs, key, InvoiceMark(Overdue), m))
  }

  /** `byMonth[month][status] += 1` for the three known statuses. */
  function CountStatus(b: MonthBucket, status: string): MonthBucket {
    if status == Paid then b.(paid := b.paid + 1)
    else if status == Pending then b.(pending := b.pending + 1)
    else if status == Overdue then b.(overdue := b.overdue + 1)
    else b
  }

  ghost predicate MonthsBuilt(invs: seq<Invoice>, monthName: string -> string,
                              order: seq<string>, byMonth: map<string, MonthBucket>) {
    && order == Dedup(Map(invs, IssuedMonth(monthName)))
    && (forall k :: k in byMonth <==> k in order)
    && (forall k :: k in byMonth ==> byMonth[k] == MonthBucketOf(invs, monthName, k))
  }

  /** The bucket of a month over a prefix one invoice longer. */
  lemma MonthBucketStep(invs: seq<Invoice>, i: nat, monthName: string -> string, k: string)
    requires i < |invs|
    ensures MonthBucketOf(invs[..i + 1], monthName, k)
         == if monthName(invs[i].issuedAt) == k then CountStatus(MonthBucketOf(invs[..i], monthName, k), invs[i].status)
            else MonthBucketOf(invs[..i], monthName, k)
  {
    var key := IssuedMonth(monthName);
    TallyStep(invs, i, key, InvoiceMark(Paid));
    TallyStep(invs, i, key, InvoiceMark(Pending));
    TallyStep(invs, i, key, InvoiceMark(Overdue));
  }

  /** A month not seen yet has an empty bucket. */
  lemma MonthBucketUnseen(invs: seq<Invoice>, monthName: string -> string, m: string)
    requires m !in Map(invs, IssuedMonth(monthName))
    ensures MonthBucketOf(invs, monthName, m) == MonthBucket(m, 0, 0, 0)
  {
    var key := IssuedMonth(monthName);
    TallyUnseen(invs, key, InvoiceMark(Paid), m);
    TallyUnseen(invs, key, InvoiceMark(Pending), m);
    TallyUnseen(invs, key, InvoiceMark(Overdue), m);
  }

  /** What one pass of the loop does to the key order and the buckets. */
  ghost predicate MonthsUpdate(inv: Invoice, monthName: string -> string,
                               order: seq<string>, byMonth: map<string, MonthBucket>,
                               order': seq<string>, byMonth': map<string, MonthBucket>) {
    var m := monthName(inv.issuedAt);
    && order' == (if m in byMonth then order else order + [m])
    && byMonth' == byMonth[m := CountStatus(if m in byMonth then byMonth[m] else MonthBucket(m, 0, 0, 0), inv.status)]
  }

  lemma MonthsOrderStep(invs: seq<Invoice>, i: nat, monthName: string -> string,
                        order: seq<string>, byMonth: map<string, MonthBucket>,
                        order': seq<string>, byMonth': map<string, MonthBucket>)
    requires i < |invs|
    requires order == Dedup(Map(invs[..i], IssuedMonth(monthName)))
    requires forall k :: k in byMonth <==> k in order
    requires MonthsUpdate(invs[i], monthName, order, byMonth, order', byMonth')
    ensures order' == Dedup(Map(invs[..i + 1], IssuedMonth(monthName)))
    ensures forall k :: k in byMonth' <==> k in order'
  {
    DedupStep(invs, i, IssuedMonth(monthName));
  }

  lemma MonthsValuesStep(invs: seq<Invoice>, i: nat, monthName: string -> string,
                         order: seq<string>, byMonth: map<string, MonthBucket>,
                         order': seq<string>, byMonth': map<string, MonthBucket>)
    requires i < |invs|
    requires order == Dedup(Map(invs[..i], IssuedMonth(monthName)))
    requires forall k :: k in byMonth <==> k in order
    requires forall k :: k in byMonth ==> byMonth[k] == MonthBucketOf(invs[..i], monthName, k)
    requires MonthsUpdate(invs[i], monthName, order, byMonth, order', byMonth')
    ensures forall k :: k in byMonth' ==> byMonth'[k] == MonthBucketOf(invs[..i + 1], monthName, k)
  {
    var m := monthName(invs[i].issuedAt);
    if m !in byMonth {
      MonthBucketUnseen(invs[..i], monthName, m);
    }
    forall k | k in byMonth' ensures byMonth'[k] == MonthBucketOf(invs[..i + 1], monthName, k) {
      MonthBucketStep(invs, i, monthName, k);
    }
  }

  lemma MonthsStep(invs: seq<Invoice>, i: nat, monthName: string -> string,
                   order: seq<string>, byMonth: map<string, MonthBucket>,
                   order': seq<string>, byMonth': map<string, MonthBucket>)
    requires i < |invs|
    requires MonthsBuilt(invs[..i], monthName, order, byMonth)
    requires MonthsUpdate(invs[i], monthName, order, byMonth, order', byMonth')
    ensures MonthsBuilt(invs[..i + 1], monthName, order', byMonth')
  {
    MonthsOrderStep(invs, i, monthName, order, byMonth, order', byMonth');
    MonthsValuesStep(invs, i, monthName, order, byMonth, order', byMonth');
  }

  /** A month's three counts never exceed the number of invoices issued in
      that month, and equal it when every status is a known one. */
  lemma {:induction false} MonthTotal(invs: seq<Invoice>, key: Invoice -> string, m: string)
    ensures Tally(invs, key, InvoiceMark(Paid), m) + Tally(invs, key, InvoiceMark(Pending), m)
            + Tally(invs, key, InvoiceMark(Overdue), m) <= Tally(invs, key, InvoiceOne, m)
    ensures KnownInvoiceStatuses(invs) ==>
            Tally(invs, key, InvoiceMark(Paid), m) + Tally(invs, key, InvoiceMark(Pending), m)
            + Tally(invs, key, InvoiceMark(Overdue), m) == Tally(invs, key, InvoiceOne, m)
    decreases |invs|
  {
    if invs != [] {
      var init := invs[..|invs| - 1];
      MonthTotal(init, key, m);
      assert KnownInvoiceStatuses(invs) ==> KnownInvoiceStatuses(init) by {
        if KnownInvoiceStatuses(invs) {
          forall i | 0 <= i < |init| ensures init[i].status in {Pending, Paid, Overdue} {
            assert init[i] == invs[i];
          }
        }
      }
    }
  }

  /** The monthly status chart: one bucket per distinct month name in order
      of first occurrence (the same month of different years shares one),
      holding the month's paid, pending and overdue counts (which
      `MonthTotal` relates to the number of invoices of the month). */
  method MonthlyStatus(invs: seq<Invoice>, monthName: string -> string) returns (buckets: seq<MonthBucket>)
    ensures |buckets| == |Dedup(Map(invs, IssuedMonth(monthName)))|
    ensures forall i :: 0 <= i < |buckets| ==>
      buckets[i] == MonthBucketOf(invs, monthName, Dedup(Map(invs, IssuedMonth(monthName)))[i])
  {
    var byMonth: map<string, MonthBucket> := map[];
    var order: seq<string> := [];
    var i := 0;
    assert Map(invs[..0], IssuedMonth(monthName)) == [];
    while i < |invs|
      invariant 0 <= i <= |invs|
      invariant MonthsBuilt(invs[..i], monthName, order, byMonth)
    {
      var inv := invs[i];
      var m := monthName(inv.issuedAt);
      ghost var order0, byMonth0 := order, byMonth;
      if m !in byMonth {
        order := order + [m];
        byMonth := byMonth[m := MonthBucket(m, 0, 0, 0)];
      }
      byMonth := byMonth[m := CountStatus(byMonth[m], inv.status)];
      MonthsStep(invs, i, monthName, order0, byMonth0, order, byMonth);
      i := i + 1;
    }
    assert invs[..|invs|] == invs;
    buckets := seq(|order|, j requires 0 <= j < |order| => byMonth[order[j]]);
  }

  /** With month names drawn from a set of names (the twelve short month
      names), there are no more buckets than names. */
  lemma MonthBucketsAtMost(invs: seq<Invoice>, monthName: string -> string, names: set<string>)
    requires forall s :: monthName(s) in names
    ensures |Dedup(Map(invs, IssuedMonth(monthName)))| <= |names|
  {
    var ms := Dedup(Map(invs, IssuedMonth(monthName)));
    forall i | 0 <= i < |ms| ensures ms[i] in names {
      assert ms[i] in Map(invs, IssuedMonth(monthName));
      var j :| 0 <= j < |invs| && Map(invs, IssuedMonth(monthName))[j] == ms[i];
      assert ms[i] == monthName(invs[j].issuedAt);
    }
    DistinctCard(ms, names);
  }

  // ---------------------------------------------------------------------
  // Cumulative revenue

  function IssuedDay(dayKey: string -> string): Invoice -> string {
    (inv: Invoice) => dayKey(inv.issuedAt)
  }

  /** The days on which paid invoices were issued, strictly ascending. */
  function PaidDays(invs: seq<Invoice>, dayKey: string -> string): (days: seq<string>)
    ensures Ascending(days)
  {
    SortKeys(Dedup(Map(Filter(invs, IsPaid), IssuedDay(dayKey))))
  }

  /** A day is among the paid days exactly when some paid invoice was
      issued that day. */
  lemma PaidDaysMembers(invs: seq<Invoice>, dayKey: string -> string, d: string)
    ensures d in PaidDays(invs, dayKey) <==> exists i :: 0 <= i < |invs| && IsPaid(invs[i]) && dayKey(invs[i].issuedAt) == d
  {
    KeysOfFilter(invs, IsPaid, IssuedDay(dayKey), d);
  }

  datatype RevenuePoint = RevenuePoint(day: string, revenue: int, cumulative: int)

  /** The paid amount of each paid day, in day order. */
  function DayRevenues(invs: seq<Invoice>, dayKey: string -> string): (rev: seq<int>)
    ensures |rev| == |PaidDays(invs, dayKey)|
  {
    Tallies(Filter(invs, IsPaid), IssuedDay(dayKey), AmountOf, PaidDays(invs, dayKey))
  }

  /** The cumulative revenue chart as a value: the `i`-th point is the
      `i`-th paid day, its paid amount, and the sum of the amounts of the
      days up to it. */
  function CumulativeSeries(invs: seq<Invoice>, dayKey: string -> string, dayLabel: string -> string)
    : (out: seq<RevenuePoint>)
    ensures |out| == |PaidDays(invs, dayKey)|
    ensures forall i :: 0 <= i < |out| ==>
      out[i] == RevenuePoint(dayLabel(PaidDays(invs, dayKey)[i]), DayRevenues(invs, dayKey)[i],
                             Sum(DayRevenues(invs, dayKey)[..i + 1]))
  {
    var days, rev := PaidDays(invs, dayKey), DayRevenues(invs, dayKey);
    seq(|days|, i requires 0 <= i < |days| => RevenuePoint(dayLabel(days[i]), rev[i], Sum(rev[..i + 1])))
  }

  /** The cumulative revenue chart: the paid invoices are summed per day,
      the days sorted, and a running total is carried along them. */
  method CumulativeRevenue(invs: seq<Invoice>, dayKey: string -> string, dayLabel: string -> string)
    returns (out: seq<RevenuePoint>)
    ensures out == CumulativeSeries(invs, dayKey, dayLabel)
  {
    var days, byDay := SortedGroups(Filter(invs, IsPaid), IssuedDay(dayKey), AmountOf);
    assert days == PaidDays(invs, dayKey) && byDay == DayRevenues(invs, dayKey);
    out := RunningPoints(days, byDay, dayLabel);
    CumulativeSeriesIs(invs, dayKey, dayLabel, out);
  }

  /** The loop carrying the running total along the days. */
  method RunningPoints(days: seq<string>, byDay: seq<int>, dayLabel: string -> string) returns (out: seq<RevenuePoint>)
    requires |days| == |byDay|
    ensures |out| == |days|
    ensures forall j :: 0 <= j < |out| ==> out[j] == RevenuePoint(dayLabel(days[j]), byDay[j], Sum(byDay[..j + 1]))
  {
    out := [];
    var running := 0;
    var i := 0;
    while i < |days|
      invariant 0 <= i <= |days|
      invariant |out| == i
      invariant forall j :: 0 <= j < i ==> out[j] == RevenuePoint(dayLabel(days[j]), byDay[j], Sum(byDay[..j + 1]))
      invariant running == Sum(byDay[..i])
    {
      SumPrefixStep(byDay, i);
      running := running + byDay[i];
      out := out + [RevenuePoint(dayLabel(days[i]), byDay[i], running)];
      i := i + 1;
    }
  }

  /** A sequence with the chart's points is the chart. */
  lemma CumulativeSeriesIs(invs: seq<Invoice>, dayKey: string -> string, dayLabel: string -> string, out: seq<RevenuePoint>)
    requires |out| == |PaidDays(invs, dayKey)|
    requires forall j :: 0 <= j < |out| ==>
      out[j] == RevenuePoint(dayLabel(PaidDays(invs, dayKey)[j]), DayRevenues(invs, dayKey)[j],
                             Sum(DayRevenues(invs, dayKey)[..j + 1]))
    ensures out == CumulativeSeries(invs, dayKey, dayLabel)
  {
  }

  /** Each running total is the previous one plus the day's amount; the
      first is the first day's amount. */
  lemma CumulativeTelescopes(invs: seq<Invoice>, dayKey: string -> string, dayLabel: string -> string)
    ensures var out := CumulativeSeries(invs, dayKey, dayLabel);
            && (|out| > 0 ==> out[0].cumulative == out[0].revenue)
            && (forall i :: 0 < i < |out| ==> out[i].cumulative == out[i - 1].cumulative + out[i].revenue)
  {
    var out, rev := CumulativeSeries(invs, dayKey, dayLabel), DayRevenues(invs, dayKey);
    if |out| > 0 {
      assert rev[..1] == [rev[0]];
      assert Sum(rev[..1]) == rev[0];
    }
    forall i | 0 < i < |out| ensures out[i].cumulative == out[i - 1].cumulative + out[i].revenue {
      SumPrefixStep(rev, i);
    }
  }

  /** The chart has one point per distinct day of paid invoices, in
      strictly ascending day order, each with that day's paid amount. */
  lemma CumulativeDays(invs: seq<Invoice>, dayKey: string -> string, dayLabel: string -> string)
    ensures var out, days := CumulativeSeries(invs, dayKey, dayLabel), PaidDays(invs, dayKey);
            && Ascending(days) && |out| == |days|
            && (forall i :: 0 <= i < |out| ==>
                 out[i].day == dayLabel(days[i])
                 && out[i].revenue == Tally(Filter(invs, IsPaid), IssuedDay(dayKey), AmountOf, days[i]))
  {
  }

  /** The last running total is the KPI revenue; with no paid day the
      revenue is zero. */
  lemma CumulativeEndsAtRevenue(invs: seq<Invoice>, dayKey: string -> string, dayLabel: string -> string)
    ensures var out := CumulativeSeries(invs, dayKey, dayLabel);
            && (|out| > 0 ==> out[|out| - 1].cumulative == Revenue(invs))
            && (|out| == 0 ==> Revenue(invs) == 0)
  {
    var rev := DayRevenues(invs, dayKey);
    assert rev[..|rev|] == rev;
    PaidDaysTotal(invs, dayKey);
  }

  /** The paid amounts of the paid days add up to the revenue. */
  lemma PaidDaysTotal(invs: seq<Invoice>, dayKey: string -> string)
    ensures Sum(Tallies(Filter(invs, IsPaid), IssuedDay(dayKey), AmountOf, PaidDays(invs, dayKey))) == Revenue(invs)
  {
    var days := PaidDays(invs, dayKey);
    AscendingDistinct(days);
    KeyListTotal(Filter(invs, IsPaid), IssuedDay(dayKey), AmountOf, days);
  }

  // ---------------------------------------------------------------------
  // Daily emails with a 7-day moving average

  /** The mean of a non-empty sequence. */
  function Mean(xs: seq<int>): real
    requires |xs| > 0
  {
    Sum(xs) as real / |xs| as real
  }

  /** `Math.max(0, idx - window + 1)`. */
  function WindowStart(i: nat, window: nat): nat {
    if i + 1 >= window then i + 1 - window else 0
  }

  /** The trailing moving average: each point is the mean of the last
      `window` points up to it (fewer at the start). */
  function MovingAverage(xs: seq<int>, window: nat): (ma: seq<real>)
    requires window >= 1
    ensures |ma| == |xs|
  {
    seq(|xs|, i requires 0 <= i < |xs| => Mean(xs[WindowStart(i, window)..i + 1]))
  }

  /** The `i`-th average is the sum of the last `min(i + 1, window)` points
      over their number. */
  lemma MovingAverageWindow(xs: seq<int>, window: nat, i: nat)
    requires window >= 1 && i < |xs|
    ensures var n := if i + 1 >= window then window else i + 1;
            n >= 1 && MovingAverage(xs, window)[i] == Sum(xs[i + 1 - n..i + 1]) as real / n as real
  {
  }

  /** The first average is the first point. */
  lemma MovingAverageFirst(xs: seq<int>, window: nat)
    requires window >= 1 && |xs| > 0
    ensures MovingAverage(xs, window)[0] == xs[0] as real
  {
    assert xs[0..1] == [xs[0]];
    assert Sum(xs[0..1]) == xs[0];
  }

  /** Once the window is full, each average is the previous one plus the
      entering point minus the leaving point, over the window. */
  lemma MovingAverageSlide(xs: seq<int>, window: nat, i: nat)
    requires 1 <= window <= i < |xs|
    ensures MovingAverage(xs, window)[i]
         == MovingAverage(xs, window)[i - 1] + (xs[i] - xs[i - window]) as real / window as real
  {
    var prev, cur := xs[i - window..i], xs[i + 1 - window..i + 1];
    assert xs[i - window..i + 1] == [xs[i - window]] + cur;
    assert xs[i - window..i + 1] == prev + [xs[i]];
    SumAppend([xs[i - window]], cur);
    SumAppend(prev, [xs[i]]);
    assert Sum(cur) == Sum(prev) + (xs[i] - xs[i - window]);
    DivAdd(Sum(prev) as real, (xs[i] - xs[i - window]) as real, window as real);
  }

  lemma DivAdd(a: real, d: real, w: real)
    requires w > 0.0
    ensures (a + d) / w == a / w + d / w
  {
  }

  /** Averages stay within any bounds the points stay within. */
  lemma MovingAverageBounds(xs: seq<int>, window: nat, lo: int, hi: int)
    requires window >= 1
    requires forall i :: 0 <= i < |xs| ==> lo <= xs[i] <= hi
    ensures forall i :: 0 <= i < |xs| ==> lo as real <= MovingAverage(xs, window)[i] <= hi as real
  {
    forall i | 0 <= i < |xs| ensures lo as real <= MovingAverage(xs, window)[i] <= hi as real {
      MovingAverageBoundsAt(xs, window, lo, hi, i);
    }
  }

  lemma MovingAverageBoundsAt(xs: seq<int>, window: nat, lo: int, hi: int, i: nat)
    requires window >= 1 && i < |xs|
    requires forall k :: 0 <= k < |xs| ==> lo <= xs[k] <= hi
    ensures lo as real <= MovingAverage(xs, window)[i] <= hi as real
  {
    var start := WindowStart(i, window);
    var part := xs[start..i + 1];
    forall k | 0 <= k < |part| ensures lo <= part[k] <= hi {
      assert part[k] == xs[start + k];
    }
    MeanBounds(part, lo, hi);
  }

  /** The mean of points within bounds is within them. */
  lemma MeanBounds(part: seq<int>, lo: int, hi: int)
    requires |part| > 0
    requires forall k :: 0 <= k < |part| ==> lo <= part[k] <= hi
    ensures lo as real <= Mean(part) <= hi as real
  {
    SumBounds(part, lo, hi);
    var n := |part|;
    Arith.CastMul(lo, n);
    Arith.CastMul(hi, n);
    Arith.MeanBetween(Sum(part) as real, n as real, lo as real, hi as real);
  }

  /** The chart's window. */
  const Window: nat := 7

  function CreatedDay(dayKey: string -> string): Email -> string {
    (e: Email) => dayKey(e.createdAt)
  }

  /** The days on which any email was created, strictly ascending. */
  function EmailDays(emails: seq<Email>, dayKey: string -> string): (days: seq<string>)
    ensures Ascending(days)
  {
    SortKeys(Dedup(Map(emails, CreatedDay(dayKey))))
  }

  /** A day is among the email days exactly when some email was created
      that day, whatever its status. */
  lemma EmailDaysMembers(emails: seq<Email>, dayKey: string -> string, d: string)
    ensures d in EmailDays(emails, dayKey) <==> exists i :: 0 <= i < |emails| && dayKey(emails[i].createdAt) == d
  {
    if d in EmailDays(emails, dayKey) {
      var i :| 0 <= i < |emails| && Map(emails, CreatedDay(dayKey))[i] == d;
    }
    if exists i :: 0 <= i < |emails| && dayKey(emails[i].createdAt) == d {
      var i :| 0 <= i < |emails| && dayKey(emails[i].createdAt) == d;
      assert Map(emails, CreatedDay(dayKey))[i] == d;
    }
  }

  /** No email created on day `d` has been sent. */
  ghost predicate NoneSentOn(emails: seq<Email>, dayKey: string -> string, d: string) {
    forall j :: 0 <= j < |emails| && dayKey(emails[j].createdAt) == d ==> emails[j].status != Sent
  }

  datatype DailyPoint = DailyPoint(day: string, sent: int, ma7: real)

  function SentSeries(out: seq<DailyPoint>): (xs: seq<int>)
    ensures |xs| == |out|
    ensures forall i :: 0 <= i < |out| ==> xs[i] == out[i].sent
  {
    seq(|out|, i requires 0 <= i < |out| => out[i].sent)
  }

  /** The sent count of each email day, in day order. */
  function DaySentCounts(emails: seq<Email>, dayKey: string -> string): (sent: seq<int>)
    ensures |sent| == |EmailDays(emails, dayKey)|
  {
    Tallies(emails, CreatedDay(dayKey), EmailMark(Sent), EmailDays(emails, dayKey))
  }

  /** The daily emails chart as a value: the `i`-th point is the `i`-th
      email day, the number of emails sent that day and the trailing
      7-day average of those numbers. */
  function DailySeries(emails: seq<Email>, dayKey: string -> string, dayLabel: string -> string)
    : (out: seq<DailyPoint>)
    ensures |out| == |EmailDays(emails, dayKey)|
  {
    var days, sent := EmailDays(emails, dayKey), DaySentCounts(emails, dayKey);
    var ma := MovingAverage(sent, Window);
    seq(|days|, i requires 0 <= i < |days| => DailyPoint(dayLabel(days[i]), sent[i], ma[i]))
  }

  /** The daily emails chart: emails are counted per creation day (a day
      enters the chart whatever the status of its emails), the days sorted
      and the moving average taken over the counts. */
  method DailyEmails(emails: seq<Email>, dayKey: string -> string, dayLabel: string -> string)
    returns (out: seq<DailyPoint>)
    ensures out == DailySeries(emails, dayKey, dayLabel)
  {
    var days, sent := SortedGroups(emails, CreatedDay(dayKey), EmailMark(Sent));
    var ma := MovingAverage(sent, Window);
    out := seq(|days|, i requires 0 <= i < |days| => DailyPoint(dayLabel(days[i]), sent[i], ma[i]));
  }

  /** The chart has one point per distinct day on which any email was
      created, in strictly ascending order, with that day's sent count
      and the trailing average of the counts. */
  lemma DailyDays(emails: seq<Email>, dayKey: string -> string, dayLabel: string -> string)
    ensures var out, days := DailySeries(emails, dayKey, dayLabel), EmailDays(emails, dayKey);
            && Ascending(days) && |out| == |days|
            && SentSeries(out) == DaySentCounts(emails, dayKey)
            && (forall i :: 0 <= i < |out| ==>
                 out[i].day == dayLabel(days[i])
                 && out[i].sent == Tally(emails, CreatedDay(dayKey), EmailMark(Sent), days[i])
                 && out[i].ma7 == MovingAverage(SentSeries(out), Window)[i])
  {
    var out := DailySeries(emails, dayKey, dayLabel);
    assert SentSeries(out) == DaySentCounts(emails, dayKey);
  }

  /** A day on which emails were created but none sent has a point with
      a sent count of zero. */
  lemma QuietDay(emails: seq<Email>, dayKey: string -> string, dayLabel: string -> string, i: nat)
    requires i < |EmailDays(emails, dayKey)|
    requires NoneSentOn(emails, dayKey, EmailDays(emails, dayKey)[i])
    ensures DailySeries(emails, dayKey, dayLabel)[i].sent == 0
  {
    TallyZero(emails, CreatedDay(dayKey), EmailMark(Sent), EmailDays(emails, dayKey)[i]);
  }

  /** The daily sent counts add up to the KPI count of sent emails. */
  lemma DailySentTotal(emails: seq<Email>, dayKey: string -> string, dayLabel: string -> string)
    ensures Sum(SentSeries(DailySeries(emails, dayKey, dayLabel))) == CountEmails(emails, Sent)
  {
    assert SentSeries(DailySeries(emails, dayKey, dayLabel)) == DaySentCounts(emails, dayKey);
    var days := EmailDays(emails, dayKey);
    AscendingDistinct(days);
    KeyListTotal(emails, CreatedDay(dayKey), EmailMark(Sent), days);
    SumOfIndicator(emails, EmailIs(Sent), EmailMark(Sent));
  }
}
