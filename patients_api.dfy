/** The clinic's patient listing endpoint: query-string defaults, the
    optional search condition, newest-first ordering, the page window, and
    how the store's answer becomes the response. */
module PatientsApi {
  import opened Rows
  import opened Text
  import opened Clinic
  import opened ClinicApi

  /** A patient row read by column name. */
  function Column(p: Patient): string -> string {
    (name: string) =>
      if name == "patient_id" then p.patientId
      else if name == "whatsapp_number" then p.whatsappNumber
      else if name == "name" then p.name
      else if name == "gender" then p.gender
      else if name == "created_at" then p.createdAt
      else ""
  }

  /** Newest patient first. */
  const Orders := [Order("created_at", false)]

  /** With a (non-empty) search, one `.or` of case-insensitive substring
      matches on the name and the WhatsApp number. */
  function Conditions(search: Option<string>): seq<Clause> {
    if search.Some? && search.value != "" then [AnyIlike(["name", "whatsapp_number"], search.value)] else []
  }

  method BuildQuery(search: Option<string>, page: int, limit: int) returns (q: Query)
    ensures q == Query(Orders, Conditions(search), RangeFrom(page, limit), RangeTo(page, limit))
  {
    var clauses: seq<Clause> := [];
    if search.Some? && search.value != "" {
      clauses := clauses + [AnyIlike(["name", "whatsapp_number"], search.value)];
    }
    var from := (page - 1) * limit;
    var to := from + limit - 1;
    q := Query(Orders, clauses, from, to);
  }

  /** The rows the search admits: all of them without a search, otherwise
      those whose name or number matches `%search%` under ILIKE, with each
      `*` of the search read as `%`. */
  lemma ConditionsMeaning(search: Option<string>, p: Patient)
    ensures Selects(Conditions(search), Column(p)) <==>
      search.None? || search.value == ""
      || Ilike(IlikePattern(search.value), p.name) || Ilike(IlikePattern(search.value), p.whatsappNumber)
  {
    if search.Some? && search.value != "" {
      SelectsOne(AnyIlike(["name", "whatsapp_number"], search.value), Column(p));
      IlikeTwo("name", "whatsapp_number", search.value, Column(p));
    }
  }

  /** A search without wildcard or escape characters selects exactly the
      patients whose name or number contains it, ignoring case. */
  lemma PlainSearchMeaning(search: string, p: Patient)
    requires PlainText(search)
    ensures Selects(Conditions(Some(search)), Column(p)) <==>
      search == "" || ContainsIgnoringCase(p.name, search) || ContainsIgnoringCase(p.whatsappNumber, search)
  {
    ConditionsMeaning(Some(search), p);
    IlikePatternPlain(search, p.name);
    IlikePatternPlain(search, p.whatsappNumber);
  }

  /** The search is not escaped: `_` selects every patient with a
      non-empty name, although no name contains the character `_`. */
  lemma UnderscoreIsWildcard(p: Patient)
    requires p.name != "" && forall i :: 0 <= i < |p.name| ==> p.name[i] != '_'
    ensures Selects(Conditions(Some("_")), Column(p))
    ensures !ContainsIgnoringCase(p.name, "_")
  {
    ConditionsMeaning(Some("_"), p);
    assert IlikePattern("_") == "%_%";
    assert "%_%"[1..] == "_%" && "_%"[1..] == "%";
    IlikeAnyRest(p.name[1..]);
    assert Ilike("_%", p.name);
  }

  datatype Body =
    | Listing(patients: seq<Patient>, totalCount: nat, totalPages: Option<nat>, currentPage: nat)
    | ErrorBody(error: string)

  datatype Response = Response(status: nat, body: Body)

  /** `GET`: page 1 and limit 10 by default; a store error gives 500 with
      its message, a thrown error 500 'Internal server error'. */
  method Get(params: map<string, string>, reply: DbReply<Patient>) returns (q: Query, r: Response)
    requires NumberParam(params, "page") && NumberParam(params, "limit")
    ensures q.orders == Orders
    ensures q.clauses == Conditions(Param(params, "search"))
    ensures q.from == RangeFrom(IntParam(params, "page", 1), IntParam(params, "limit", 10))
    ensures q.to == RangeTo(IntParam(params, "page", 1), IntParam(params, "limit", 10))
    ensures params == map[] ==> q == Query(Orders, [], 0, 9)
    ensures reply.DbError? ==> r == Response(500, ErrorBody(reply.message))
    ensures reply.Threw? ==> r == Response(500, ErrorBody(InternalError))
    ensures reply.DbRows? ==>
      r.status == 200 && r.body.Listing?
      && r.body.patients == RowsOrEmpty(reply.data)
      && r.body.totalCount == CountOrZero(reply.count)
      && r.body.totalPages == TotalPages(CountOrZero(reply.count), IntParam(params, "limit", 10))
      && r.body.currentPage == IntParam(params, "page", 1)
  {
    var page := IntParam(params, "page", 1);
    var limit := IntParam(params, "limit", 10);
    var search := Param(params, "search");
    q := BuildQuery(search, page, limit);
    match reply {
      case Threw(_) =>
        r := Response(500, ErrorBody(InternalError));
      case DbError(message) =>
        r := Response(500, ErrorBody(message));
      case DbRows(data, count) =>
        var total := CountOrZero(count);
        r := Response(200, Listing(RowsOrEmpty(data), total, TotalPages(total, limit), page));
    }
  }
}
