/** What the clinic's two listing endpoints share: query-string defaults,
    the description of the store query they issue (order, conditions and
    the row window of a page), the meaning of those conditions for a row,
    the page window arithmetic and the page count. */
module ClinicApi {
  import opened Rows
  import opened Text
  import Arith

  // ---------------------------------------------------------------------
  // Query-string parameters

  /** `searchParams.get(name) || fallback`: an absent or empty parameter
      takes the default. */
  function ParamOr(params: map<string, string>, name: string, fallback: string): (r: string)
    ensures name in params && params[name] != "" ==> r == params[name]
    ensures name !in params || params[name] == "" ==> r == fallback
  {
    if name in params && params[name] != "" then params[name] else fallback
  }

  /** `searchParams.get(name)`, with `null` for an absent parameter. */
  function Param(params: map<string, string>, name: string): (r: Option<string>)
    ensures r.Some? <==> name in params
    ensures r.Some? ==> r.value == params[name]
  {
    if name in params then Some(params[name]) else None
  }

  predicate AllDigits(s: string) {
    forall i :: 0 <= i < |s| ==> IsDigit(s[i])
  }

  /** A numeric parameter, when given, is written in decimal digits. */
  predicate NumberParam(params: map<string, string>, name: string) {
    name !in params || AllDigits(params[name])
  }

  /** `parseInt(searchParams.get(name) || '<fallback>')`. */
  function IntParam(params: map<string, string>, name: string, fallback: nat): (n: nat)
    requires NumberParam(params, name)
    ensures name in params && params[name] != "" ==> n == DecimalValue(params[name])
    ensures name !in params || params[name] == "" ==> n == fallback
  {
    var s := ParamOr(params, name, NatToString(fallback));
    DecimalRoundTrip(fallback);
    DecimalValue(s)
  }

  // ---------------------------------------------------------------------
  // The store query

  /** One `.order(column, { ascending })` call. */
  datatype Order = Order(column: string, ascending: bool)

  /** A row condition: `.eq(column, value)`, or `.or(...)` of
      `column.ilike.%text%` over several columns. */
  datatype Clause = Eq(column: string, value: string) | AnyIlike(columns: seq<string>, text: string)

  /** The query an endpoint sends: its orderings, its conditions, and
      `.range(from, to)`. */
  datatype Query = Query(orders: seq<Order>, clauses: seq<Clause>, from: int, to: int)

  // ---------------------------------------------------------------------
  // ILIKE patterns

  /** `value ILIKE pattern`: `%` matches any run of characters, `_` any
      single character, a backslash makes the character after it literal,
      and every other character matches itself ignoring case. */
  predicate Ilike(pattern: string, value: string)
    decreases |pattern| + |value|
  {
    if pattern == [] then value == []
    else if pattern[0] == '%' then Ilike(pattern[1..], value) || (value != [] && Ilike(pattern, value[1..]))
    else if value == [] then false
    else if pattern[0] == '_' then Ilike(pattern[1..], value[1..])
    else if pattern[0] == '\\' && |pattern| >= 2 then
      LowerChar(pattern[1]) == LowerChar(value[0]) && Ilike(pattern[2..], value[1..])
    else LowerChar(pattern[0]) == LowerChar(value[0]) && Ilike(pattern[1..], value[1..])
  }

  /** The pattern of `column.ilike.%text%` inside an `.or(...)` filter: the
      store reads each `*` of the text as `%`. */
  function IlikePattern(text: string): (p: string)
    ensures |p| == |text| + 2 && p[0] == '%' && p[|p| - 1] == '%'
    ensures forall i :: 0 <= i < |text| ==> p[i + 1] == (if text[i] == '*' then '%' else text[i])
  {
    "%" + seq(|text|, i requires 0 <= i < |text| => if text[i] == '*' then '%' else text[i]) + "%"
  }

  /** A text with none of the characters the store or ILIKE treat specially. */
  predicate PlainText(text: string) {
    forall i :: 0 <= i < |text| ==> text[i] != '%' && text[i] != '_' && text[i] != '*' && text[i] != '\\'
  }

  /** A trailing `%` matches anything. */
  lemma {:induction false} IlikeAnyRest(value: string)
    ensures Ilike("%", value)
  {
    if value != [] {
      IlikeAnyRest(value[1..]);
    }
  }

  /** For a plain text, `text%` matches exactly the values that start with
      it, ignoring case. */
  lemma {:induction false} IlikePrefix(text: string, value: string)
    requires PlainText(text)
    ensures Ilike(text + "%", value) <==> ToLower(text) <= ToLower(value)
  {
    if text == [] {
      assert text + "%" == "%";
      IlikeAnyRest(value);
    } else {
      assert (text + "%")[0] == text[0] && text[0] != '%' && text[0] != '_' && text[0] != '\\';
      assert (text + "%")[1..] == text[1..] + "%";
      assert PlainText(text[1..]) by {
        forall i | 0 <= i < |text[1..]| ensures text[1..][i] == text[i + 1] { }
      }
      if value != [] {
        IlikePrefix(text[1..], value[1..]);
        assert ToLower(text)[1..] == ToLower(text[1..]);
        assert ToLower(value)[1..] == ToLower(value[1..]);
        assert ToLower(text) <= ToLower(value) <==>
          ToLower(text)[0] == ToLower(value)[0] && ToLower(text)[1..] <= ToLower(value)[1..];
      }
    }
  }

  /** For a plain text, `%text%` matches exactly the values containing it,
      ignoring case. */
  lemma {:induction false} IlikeContains(text: string, value: string)
    requires PlainText(text)
    ensures Ilike("%" + text + "%", value) <==> ContainsIgnoringCase(value, text)
  {
    assert ("%" + text + "%")[1..] == text + "%";
    IlikePrefix(text, value);
    if value != [] {
      IlikeContains(text, value[1..]);
      assert ToLower(value)[1..] == ToLower(value[1..]);
    }
  }

  /** A plain text becomes `%text%` unchanged, so the condition is a
      case-insensitive substring test. */
  lemma IlikePatternPlain(text: string, value: string)
    requires PlainText(text)
    ensures Ilike(IlikePattern(text), value) <==> ContainsIgnoringCase(value, text)
  {
    assert IlikePattern(text) == "%" + text + "%";
    IlikeContains(text, value);
  }

  /** Whether a row, read column by column through `get`, satisfies a
      condition. */
  predicate Holds(c: Clause, get: string -> string) {
    match c
    case Eq(column, value) => get(column) == value
    case AnyIlike(columns, text) => exists i :: 0 <= i < |columns| && Ilike(IlikePattern(text), get(columns[i]))
  }

  /** A row the query's conditions admit. */
  predicate Selects(cs: seq<Clause>, get: string -> string) {
    forall i :: 0 <= i < |cs| ==> Holds(cs[i], get)
  }

  lemma SelectsAppend(a: seq<Clause>, b: seq<Clause>, get: string -> string)
    ensures Selects(a + b, get) <==> Selects(a, get) && Selects(b, get)
  {
    if Selects(a, get) && Selects(b, get) {
      forall i | 0 <= i < |a + b| ensures Holds((a + b)[i], get) {
        if i >= |a| {
          assert (a + b)[i] == b[i - |a|];
        }
      }
    }
    if Selects(a + b, get) {
      forall i | 0 <= i < |a| ensures Holds(a[i], get) {
        assert (a + b)[i] == a[i];
      }
      forall i | 0 <= i < |b| ensures Holds(b[i], get) {
        assert (a + b)[|a| + i] == b[i];
      }
    }
  }

  lemma SelectsOne(c: Clause, get: string -> string)
    ensures Selects([c], get) <==> Holds(c, get)
  {
    assert [c][0] == c;
  }

  lemma IlikeTwo(x: string, y: string, text: string, get: string -> string)
    ensures Holds(AnyIlike([x, y], text), get)
      <==> Ilike(IlikePattern(text), get(x)) || Ilike(IlikePattern(text), get(y))
  {
    if Ilike(IlikePattern(text), get(x)) {
      assert [x, y][0] == x;
    }
    if Ilike(IlikePattern(text), get(y)) {
      assert [x, y][1] == y;
    }
  }

  // ---------------------------------------------------------------------
  // Pages

  /** First row index of a page (pages count from 1). */
  function RangeFrom(page: int, limit: int): int {
    (page - 1) * limit
  }

  /** Last row index of a page, inclusive. */
  function RangeTo(page: int, limit: int): int {
    RangeFrom(page, limit) + limit - 1
  }

  /** A window spans `limit` indices and the next page starts right after
      it, so consecutive pages are contiguous. */
  lemma WindowsContiguous(page: int, limit: int)
    ensures RangeTo(page, limit) - RangeFrom(page, limit) + 1 == limit
    ensures RangeFrom(page + 1, limit) == RangeTo(page, limit) + 1
  {
    assert (page + 1 - 1) * limit == (page - 1) * limit + limit;
  }

  /** Windows of different pages do not overlap. */
  lemma WindowsDisjoint(p1: int, p2: int, limit: int)
    requires limit > 0 && p1 < p2
    ensures RangeTo(p1, limit) < RangeFrom(p2, limit)
  {
    Arith.MulMono(limit, p1, p2 - 1);
    assert RangeTo(p1, limit) == limit * p1 - 1;
    assert RangeFrom(p2, limit) == limit * (p2 - 1);
  }

  /** Every row index belongs to the window of page `i / limit + 1`. */
  lemma PageOfRow(i: nat, limit: int)
    requires limit > 0
    ensures RangeFrom(i / limit + 1, limit) <= i <= RangeTo(i / limit + 1, limit)
  {
    var q := i / limit;
    assert i == limit * q + i % limit;
    assert RangeFrom(q + 1, limit) == limit * q;
  }

  /** The rows `.range(from, to)` returns from an ordered result: indices
      `from` through `to`, cut off at the end of the rows. */
  function Window<T>(rows: seq<T>, from: nat, to: int): (r: seq<T>)
    ensures |r| <= |rows|
  {
    if from >= |rows| || to < from then []
    else if to + 1 <= |rows| then rows[from..to + 1]
    else rows[from..]
  }

  /** The rows of pages 1 through `k`, one page after another. */
  function Pages<T>(rows: seq<T>, limit: nat, k: nat): seq<T>
    requires limit > 0
  {
    if k == 0 then []
    else
      Arith.MulMono(limit, 0, k - 1);
      assert RangeFrom(k, limit) == limit * (k - 1);
      Pages(rows, limit, k - 1) + Window(rows, RangeFrom(k, limit), RangeTo(k, limit))
  }

  function Min(a: int, b: int): int {
    if a <= b then a else b
  }

  /** Pages 1 through `k` together are the first `k * limit` rows. */
  lemma {:induction false} PagesCover<T>(rows: seq<T>, limit: nat, k: nat)
    requires limit > 0
    ensures 0 <= limit * k
    ensures Pages(rows, limit, k) == rows[..Min(limit * k, |rows|)]
  {
    Arith.MulMono(limit, 0, k);
    if k > 0 {
      PagesCover(rows, limit, k - 1);
      Arith.MulMono(limit, 0, k - 1);
      assert RangeFrom(k, limit) == limit * (k - 1);
      assert RangeTo(k, limit) == limit * k - 1;
      var lo := Min(limit * (k - 1), |rows|);
      var hi := Min(limit * k, |rows|);
      assert rows[..hi] == rows[..lo] + rows[lo..hi];
    }
  }

  /** `Math.ceil(total / limit)` as the response carries it: `null` when
      the limit is 0 (the quotient is not a finite number), otherwise the
      least number of pages holding `total` rows. */
  function TotalPages(total: nat, limit: nat): (r: Option<nat>)
    ensures limit == 0 <==> r.None?
    ensures r.Some? ==> total <= limit * r.value
    ensures r.Some? && r.value > 0 ==> limit * (r.value - 1) < total
    ensures r.Some? ==> (r.value == 0 <==> total == 0)
  {
    if limit == 0 then None
    else
      var t := (total + limit - 1) / limit;
      var n := total + limit - 1;
      assert n == limit * t + n % limit;
      assert limit * (t - 1) == limit * t - limit;
      assert t == 0 ==> total == 0;
      Some(t)
  }

  /** Pages 1 through the page count hold every row, each exactly once. */
  lemma AllPages<T>(rows: seq<T>, limit: nat)
    requires limit > 0
    ensures Pages(rows, limit, TotalPages(|rows|, limit).value) == rows
  {
    var t := TotalPages(|rows|, limit).value;
    PagesCover(rows, limit, t);
  }

  /** How the store answered: rows (possibly `null`) with their exact count
      (possibly `null`), a query error, or a thrown exception (an `Error`
      with its message, or `None` for anything else thrown). */
  datatype DbReply<T> = DbRows(data: Option<seq<T>>, count: Option<nat>) | DbError(message: string) | Threw(error: Option<string>)

  /** `count || 0`. */
  function CountOrZero(c: Option<nat>): nat {
    if c.Some? then c.value else 0
  }

  const InternalError := "Internal server error"
  const UnknownError := "Unknown error"

  /** `error instanceof Error ? error.message : 'Unknown error'`. */
  function ThrownMessage(error: Option<string>): string {
    if error.Some? then error.value else UnknownError
  }
}
