/** The transactions screen: the row-store query its date-range and
    payment-method boxes build, its figures, the search box, and the CSV
    export. The clock is a parameter (`nowMs`, milliseconds since the
    epoch), and so are the parsing of a typed date and the rendering of
    amounts and dates. */
module Transactions {
  import opened Rows
  import opened Text
  import opened Billing
  import opened Arith

  // ---------------------------------------------------------------------
  // The query

  /** Milliseconds in a day (`24 * 60 * 60 * 1000`). */
  const DayMs: int := 86400000

  /** A condition added to the query: `gte('transaction_date', …)`,
      `lte('transaction_date', …)` or `eq('payment_method', …)`. Dates are
      kept as the instants (in milliseconds) the ISO strings denote. */
  datatype Condition = DateAtLeast(ms: int) | DateAtMost(ms: int) | MethodIs(name: string)

  /** The typed date bounds of a custom range; '' when not set. */
  datatype CustomRange = CustomRange(from: string, to: string)

  /** The number of days a preset range reaches back. */
  function PresetDays(range: string): Option<nat> {
    if range == "7d" then Some(7)
    else if range == "30d" then Some(30)
    else if range == "90d" then Some(90)
    else None
  }

  /** The conditions the date-range box contributes: a lower bound `N`
      days before now for a preset, the set bounds of a custom range, and
      nothing for 'all' (or any other value). */
  function DateConditions(range: string, custom: CustomRange, nowMs: int, msOf: string -> int): seq<Condition> {
    if PresetDays(range).Some? then [DateAtLeast(nowMs - PresetDays(range).value * DayMs)]
    else if range == "custom" then
      (if custom.from != "" then [DateAtLeast(msOf(custom.from))] else [])
      + (if custom.to != "" then [DateAtMost(msOf(custom.to))] else [])
    else []
  }

  /** An equality on the payment method when one is chosen. */
  function MethodConditions(paymentMethod: string): seq<Condition> {
    if paymentMethod != "" then [MethodIs(paymentMethod)] else []
  }

  /** The screen's query construction: a `switch` that may set a lower
      bound, then the custom bounds, then the payment method, each step
      reassigning the query. `msOf` reads a typed date. */
  method BuildQuery(range: string, custom: CustomRange, paymentMethod: string, nowMs: int, msOf: string -> int)
    returns (q: seq<Condition>)
    ensures q == DateConditions(range, custom, nowMs, msOf) + MethodConditions(paymentMethod)
  {
    q := [];
    var fromDate: Option<int> := None;
    if range == "7d" {
      fromDate := Some(nowMs - 7 * 24 * 60 * 60 * 1000);
    } else if range == "30d" {
      fromDate := Some(nowMs - 30 * 24 * 60 * 60 * 1000);
    } else if range == "90d" {
      fromDate := Some(nowMs - 90 * 24 * 60 * 60 * 1000);
    }
    if fromDate.Some? {
      q := q + [DateAtLeast(fromDate.value)];
    }
    if range == "custom" {
      if custom.from != "" {
        q := q + [DateAtLeast(msOf(custom.from))];
      }
      if custom.to != "" {
        q := q + [DateAtMost(msOf(custom.to))];
      }
    }
    if paymentMethod != "" {
      q := q + [MethodIs(paymentMethod)];
    }
  }

  /** Whether a row satisfies a condition; `dateMs` is the instant of a
      stored transaction date. A null payment method equals nothing. */
  predicate Holds(t: Transaction, c: Condition, dateMs: string -> int) {
    match c
    case DateAtLeast(ms) => dateMs(t.transactionDate) >= ms
    case DateAtMost(ms) => dateMs(t.transactionDate) <= ms
    case MethodIs(name) => t.paymentMethod == Some(name)
  }

  /** A row the query returns: every condition holds. */
  predicate Selects(q: seq<Condition>, t: Transaction, dateMs: string -> int) {
    forall i :: 0 <= i < |q| ==> Holds(t, q[i], dateMs)
  }

  lemma SelectsAppend(a: seq<Condition>, b: seq<Condition>, t: Transaction, dateMs: string -> int)
    ensures Selects(a + b, t, dateMs) <==> Selects(a, t, dateMs) && Selects(b, t, dateMs)
  {
    if Selects(a, t, dateMs) && Selects(b, t, dateMs) {
      forall i | 0 <= i < |a + b| ensures Holds(t, (a + b)[i], dateMs) {
        if i >= |a| {
          assert (a + b)[i] == b[i - |a|];
        }
      }
    }
    if Selects(a + b, t, dateMs) {
      forall i | 0 <= i < |a| ensures Holds(t, a[i], dateMs) {
        assert (a + b)[i] == a[i];
      }
      forall i | 0 <= i < |b| ensures Holds(t, b[i], dateMs) {
        assert (a + b)[|a| + i] == b[i];
      }
    }
  }

  lemma SelectsOne(c: Condition, t: Transaction, dateMs: string -> int)
    ensures Selects([c], t, dateMs) <==> Holds(t, c, dateMs)
  {
    assert [c][0] == c;
  }

  /** Which rows the query selects: with a preset range those dated no
      earlier than `N` days before now, with a custom range those within
      whichever bounds are set, otherwise any date; and with a payment
      method chosen, only the rows paid that way. */
  lemma QueryMeaning(range: string, custom: CustomRange, paymentMethod: string, nowMs: int,
                     msOf: string -> int, t: Transaction, dateMs: string -> int)
    ensures var q := DateConditions(range, custom, nowMs, msOf) + MethodConditions(paymentMethod);
      var d := dateMs(t.transactionDate);
      Selects(q, t, dateMs) <==>
        (if range in {"7d", "30d", "90d"} then d >= nowMs - PresetDays(range).value * DayMs
         else if range == "custom" then
           (custom.from == "" || d >= msOf(custom.from)) && (custom.to == "" || d <= msOf(custom.to))
         else true)
        && (paymentMethod == "" || t.paymentMethod == Some(paymentMethod))
  {
    var dc := DateConditions(range, custom, nowMs, msOf);
    SelectsAppend(dc, MethodConditions(paymentMethod), t, dateMs);
    if paymentMethod != "" {
      SelectsOne(MethodIs(paymentMethod), t, dateMs);
    }
    if PresetDays(range).Some? {
      SelectsOne(dc[0], t, dateMs);
    } else if range == "custom" {
      var f := if custom.from != "" then [DateAtLeast(msOf(custom.from))] else [];
      var g := if custom.to != "" then [DateAtMost(msOf(custom.to))] else [];
      SelectsAppend(f, g, t, dateMs);
      if custom.from != "" {
        SelectsOne(f[0], t, dateMs);
      }
      if custom.to != "" {
        SelectsOne(g[0], t, dateMs);
      }
    }
  }

  /** The presets reach back exactly 7, 30 and 90 days of milliseconds,
      and 'all' adds no condition. */
  lemma PresetBounds(custom: CustomRange, nowMs: int, msOf: string -> int)
    ensures DateConditions("7d", custom, nowMs, msOf) == [DateAtLeast(nowMs - 604800000)]
    ensures DateConditions("30d", custom, nowMs, msOf) == [DateAtLeast(nowMs - 2592000000)]
    ensures DateConditions("90d", custom, nowMs, msOf) == [DateAtLeast(nowMs - 7776000000)]
    ensures DateConditions("all", custom, nowMs, msOf) == []
  {
  }

  // ---------------------------------------------------------------------
  // Figures

  datatype TxStats = TxStats(total: nat, totalAmount: int, averageAmount: real)

  function TxAmount(t: Transaction): int {
    t.amount
  }

  /** The figures: count, summed amount, and the mean amount (0 for no
      rows). */
  function StatsOf(txs: seq<Transaction>): TxStats {
    var sum := SumOf(txs, TxAmount);
    TxStats(|txs|, sum, if |txs| > 0 then sum as real / |txs| as real else 0.0)
  }

  /** The total counts the rows; the mean times the count is the summed
      amount; no rows give a zero mean. */
  lemma StatsSpec(txs: seq<Transaction>)
    ensures StatsOf(txs).total == |txs|
    ensures txs != [] ==> StatsOf(txs).averageAmount * (|txs| as real) == StatsOf(txs).totalAmount as real
    ensures txs == [] ==> StatsOf(txs).averageAmount == 0.0 && StatsOf(txs).totalAmount == 0
  {
    if txs != [] {
      MeanTimesCount(SumOf(txs, TxAmount) as real, |txs| as real);
    }
  }

  /** Amounts within bounds keep the mean within them. */
  lemma StatsMeanBounds(txs: seq<Transaction>, lo: int, hi: int)
    requires txs != []
    requires forall i :: 0 <= i < |txs| ==> lo <= txs[i].amount <= hi
    ensures lo as real <= StatsOf(txs).averageAmount <= hi as real
  {
    var n, s := |txs| as real, SumOf(txs, TxAmount) as real;
    SumOfBounds(txs, TxAmount, lo, hi);
    CastMul(lo, |txs|);
    CastMul(hi, |txs|);
    MeanBetween(s, n, lo as real, hi as real);
  }

  lemma MeanTimesCount(s: real, n: real)
    requires n > 0.0
    ensures s / n * n == s
  {
  }

  // ---------------------------------------------------------------------
  // Search

  /** Id, invoice id, payment method or currency contains the search,
      ignoring case; a null payment method cannot match. */
  predicate SearchAdmits(search: string, t: Transaction) {
    ContainsIgnoringCase(t.id, search) || ContainsIgnoringCase(t.invoiceId, search)
    || (t.paymentMethod.Some? && ContainsIgnoringCase(t.paymentMethod.value, search))
    || ContainsIgnoringCase(t.currency, search)
  }

  function SearchTest(search: string): Transaction -> bool {
    (t: Transaction) => SearchAdmits(search, t)
  }

  /** The listed transactions: all of them for an empty search. */
  function FilteredTransactions(txs: seq<Transaction>, search: string): seq<Transaction> {
    if search == "" then txs else Filter(txs, SearchTest(search))
  }

  /** An empty search lists every row as it is; otherwise the list is an
      order-preserving subsequence holding exactly the matching rows. */
  lemma FilteredTransactionsSpec(txs: seq<Transaction>, search: string)
    ensures search == "" ==> FilteredTransactions(txs, search) == txs
    ensures IsSubseq(FilteredTransactions(txs, search), txs)
    ensures search != "" ==> forall t :: t in FilteredTransactions(txs, search) <==> t in txs && SearchAdmits(search, t)
  {
    FilterIsSubseq(txs, SearchTest(search));
    if search == "" {
      FilterAll(txs, SearchTest(search));
    }
    forall t ensures t in Filter(txs, SearchTest(search)) <==> t in txs && SearchAdmits(search, t) {
      FilterMembership(txs, SearchTest(search), t);
    }
  }

  // ---------------------------------------------------------------------
  // CSV export

  const Headers: seq<string> := ["ID", "Invoice ID", "Amount", "Currency", "Payment Method", "Date"]

  /** `t.payment_method || 'N/A'`: a null or empty method reads 'N/A'. */
  function MethodText(m: Option<string>): (s: string)
    ensures m.None? || m.value == "" ==> s == "N/A"
    ensures m.Some? && m.value != "" ==> s == m.value
  {
    if m.Some? && m.value != "" then m.value else "N/A"
  }

  /** One transaction's six cells; `amountText` renders a number and
      `dateText` formats a stored date as 'yyyy-MM-dd HH:mm:ss'. */
  function Cells(t: Transaction, amountText: int -> string, dateText: string -> string): (r: seq<string>)
    ensures |r| == |Headers|
  {
    [t.id, t.invoiceId, amountText(t.amount), t.currency, MethodText(t.paymentMethod), dateText(t.transactionDate)]
  }

  /** A cell wrapped in double quotes (no escaping). */
  function Quote(f: string): string {
    "\"" + f + "\""
  }

  /** One line: the quoted cells joined by commas. */
  function Line(cells: seq<string>): string {
    Join(Map(cells, Quote), ",")
  }

  /** The header row followed by one row per transaction, in order. */
  function Table(txs: seq<Transaction>, amountText: int -> string, dateText: string -> string): (r: seq<seq<string>>)
    ensures |r| == |txs| + 1 && r[0] == Headers
    ensures forall i :: 0 <= i < |txs| ==> r[i + 1] == Cells(txs[i], amountText, dateText)
  {
    [Headers] + Map(txs, (t: Transaction) => Cells(t, amountText, dateText))
  }

  /** The exported file: the lines of the table joined by newlines. */
  function CsvContent(txs: seq<Transaction>, amountText: int -> string, dateText: string -> string): string {
    Join(Map(Table(txs, amountText, dateText), Line), "\n")
  }

  /** A reading of the file: split into lines, each line into cells, and
      strip the quotes of each cell. */
  function Unquote(f: string): string {
    if |f| >= 2 && f[0] == '"' && f[|f| - 1] == '"' then f[1..|f| - 1] else f
  }

  function ReadLine(line: string): seq<string> {
    Map(Split(line, ','), Unquote)
  }

  function ReadCsv(text: string): seq<seq<string>> {
    Map(Split(text, '\n'), ReadLine)
  }

  /** A cell that survives the plain reading: no comma, no newline. */
  ghost predicate Plain(f: string) {
    ',' !in f && '\n' !in f
  }

  ghost predicate PlainRow(cells: seq<string>) {
    forall i :: 0 <= i < |cells| ==> Plain(cells[i])
  }

  lemma UnquoteQuote(f: string)
    ensures Unquote(Quote(f)) == f
  {
  }

  /** A line of plain cells contains no newline and reads back as its cells. */
  lemma LineRoundTrip(cells: seq<string>)
    requires |cells| >= 1 && PlainRow(cells)
    ensures '\n' !in Line(cells)
    ensures ReadLine(Line(cells)) == cells
  {
    var quoted := Map(cells, Quote);
    forall i | 0 <= i < |quoted| ensures ',' !in quoted[i] && '\n' !in quoted[i] {
      assert quoted[i] == "\"" + cells[i] + "\"";
    }
    JoinFree(quoted, ",", '\n');
    SplitJoin(quoted, ',');
    forall i | 0 <= i < |cells| ensures Unquote(quoted[i]) == cells[i] {
      UnquoteQuote(cells[i]);
    }
  }

  /** Lines without newlines, each read back as its row, read back as the
      rows. */
  lemma LinesRoundTrip(rows: seq<seq<string>>)
    requires |rows| >= 1
    requires forall i :: 0 <= i < |rows| ==> |rows[i]| >= 1 && PlainRow(rows[i])
    ensures ReadCsv(Join(Map(rows, Line), "\n")) == rows
  {
    var lines := Map(rows, Line);
    forall i | 0 <= i < |lines| ensures '\n' !in lines[i] && ReadLine(lines[i]) == rows[i] {
      LineRoundTrip(rows[i]);
    }
    SplitJoin(lines, '\n');
  }

  /** When every rendered cell is plain, reading the exported file back
      gives the six headers and then each transaction's cells, in order. */
  lemma CsvRoundTrip(txs: seq<Transaction>, amountText: int -> string, dateText: string -> string)
    requires forall i :: 0 <= i < |txs| ==> PlainRow(Cells(txs[i], amountText, dateText))
    ensures ReadCsv(CsvContent(txs, amountText, dateText)) == Table(txs, amountText, dateText)
  {
    var rows := Table(txs, amountText, dateText);
    forall i | 0 <= i < |rows| ensures |rows[i]| >= 1 && PlainRow(rows[i]) {
      if i > 0 {
        assert rows[i] == Cells(txs[i - 1], amountText, dateText);
      }
    }
    LinesRoundTrip(rows);
  }

  // ---------------------------------------------------------------------
  // The screen

  datatype TxFilters = TxFilters(search: string, paymentMethod: string, dateRange: string)

  class TransactionsPage {
    var transactions: seq<Transaction>
    var filters: TxFilters
    var custom: CustomRange

    constructor()
      ensures transactions == [] && filters == TxFilters("", "", "30d") && custom == CustomRange("", "")
    {
      transactions := [];
      filters := TxFilters("", "", "30d");
      custom := CustomRange("", "");
    }

    /** The query for the current boxes at `nowMs`. */
    method Query(nowMs: int, msOf: string -> int) returns (q: seq<Condition>)
      ensures q == DateConditions(filters.dateRange, custom, nowMs, msOf) + MethodConditions(filters.paymentMethod)
    {
      q := BuildQuery(filters.dateRange, custom, filters.paymentMethod, nowMs, msOf);
    }

    /** The query's answer replaces the list only when it carries rows and
        no error; otherwise the previous list stays. */
    method Receive(f: Fetch<Transaction>)
      modifies this`transactions
      ensures f.Fetched? && f.data.Some? ==> transactions == f.data.value
      ensures f.FetchError? || f.data.None? ==> transactions == old(transactions)
    {
      if f.Fetched? && f.data.Some? {
        transactions := f.data.value;
      }
    }

    function Stats(): TxStats
      reads this
    {
      StatsOf(transactions)
    }

    function Listed(): seq<Transaction>
      reads this
    {
      FilteredTransactions(transactions, filters.search)
    }

    /** The export covers every loaded transaction, whatever the search. */
    function Export(amountText: int -> string, dateText: string -> string): string
      reads this
    {
      CsvContent(transactions, amountText, dateText)
    }
  }
}
