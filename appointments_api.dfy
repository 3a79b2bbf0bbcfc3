/** The clinic's appointment listing endpoint: query-string defaults, the
    ordering and conditions it puts on the store query, the page window,
    and how the store's answer becomes the response. */
module AppointmentsApi {
  import opened Rows
  import opened Clinic
  import opened ClinicApi

  /** An appointment row read by column name. */
  function Column(a: Appointment): string -> string {
    (name: string) =>
      if name == "appointment_id" then a.appointmentId
      else if name == "patient_id" then a.patientId
      else if name == "whatsapp_number" then a.whatsappNumber
      else if name == "date" then a.date
      else if name == "time" then a.time
      else if name == "payment_method" then a.paymentMethod
      else if name == "payment_status" then a.paymentStatus
      else if name == "status" then a.status
      else if name == "created_at" then a.createdAt
      else ""
  }

  /** Newest (or, with 'asc', oldest) booking first when sorting by
      creation time; otherwise latest date first, then latest time. */
  function SortOrders(sortBy: string, sortOrder: string): seq<Order> {
    if sortBy == "created_at" then [Order("created_at", sortOrder == "asc")]
    else [Order("date", false), Order("time", false)]
  }

  /** An equality on the date when one is given (non-empty), and on the
      status when one is given other than 'all'. */
  function Conditions(date: Option<string>, status: Option<string>): seq<Clause> {
    (if date.Some? && date.value != "" then [Eq("date", date.value)] else [])
    + (if status.Some? && status.value != "" && status.value != "all" then [Eq("status", status.value)] else [])
  }

  /** The query as the handler builds it, one reassignment at a time. */
  method BuildQuery(date: Option<string>, status: Option<string>, page: int, limit: int,
                    sortBy: string, sortOrder: string) returns (q: Query)
    ensures q == Query(SortOrders(sortBy, sortOrder), Conditions(date, status), RangeFrom(page, limit), RangeTo(page, limit))
  {
    var orders: seq<Order> := [];
    var clauses: seq<Clause> := [];
    if sortBy == "created_at" {
      orders := orders + [Order("created_at", sortOrder == "asc")];
    } else {
      orders := orders + [Order("date", false)];
      orders := orders + [Order("time", false)];
    }
    if date.Some? && date.value != "" {
      clauses := clauses + [Eq("date", date.value)];
    }
    if status.Some? && status.value != "" && status.value != "all" {
      clauses := clauses + [Eq("status", status.value)];
    }
    var from := (page - 1) * limit;
    var to := from + limit - 1;
    q := Query(orders, clauses, from, to);
  }

  /** The rows the conditions admit: any date unless one is given, and any
      status when none is given or it is 'all'. */
  lemma ConditionsMeaning(date: Option<string>, status: Option<string>, a: Appointment)
    ensures Selects(Conditions(date, status), Column(a)) <==>
      (date.None? || date.value == "" || a.date == date.value)
      && (status.None? || status.value == "" || status.value == "all" || a.status == status.value)
  {
    var d := if date.Some? && date.value != "" then [Eq("date", date.value)] else [];
    var s := if status.Some? && status.value != "" && status.value != "all" then [Eq("status", status.value)] else [];
    SelectsAppend(d, s, Column(a));
    if d != [] {
      SelectsOne(d[0], Column(a));
    }
    if s != [] {
      SelectsOne(s[0], Column(a));
    }
  }

  datatype Body =
    | Listing(appointments: seq<Appointment>, totalCount: nat, totalPages: Option<nat>,
              currentPage: nat, sortBy: string, sortOrder: string)
    | ErrorBody(error: string)
    | ErrorDetails(error: string, details: string)

  datatype Response = Response(status: nat, body: Body)

  /** `GET`: read the parameters with their defaults (page 1, limit 10,
      sort by `created_at`, descending), build the query, and answer with
      the page of rows, the exact count (`null` read as 0), the page count
      and the parameters; a store error gives 500 with its message, and a
      thrown error 500 'Internal server error' with details. */
  method Get(params: map<string, string>, reply: DbReply<Appointment>) returns (q: Query, r: Response)
    requires NumberParam(params, "page") && NumberParam(params, "limit")
    ensures q.orders == SortOrders(ParamOr(params, "sortBy", "created_at"), ParamOr(params, "sortOrder", "desc"))
    ensures q.clauses == Conditions(Param(params, "date"), Param(params, "status"))
    ensures q.from == RangeFrom(IntParam(params, "page", 1), IntParam(params, "limit", 10))
    ensures q.to == RangeTo(IntParam(params, "page", 1), IntParam(params, "limit", 10))
    ensures params == map[] ==> q == Query([Order("created_at", false)], [], 0, 9)
    ensures reply.DbError? ==> r == Response(500, ErrorBody(reply.message))
    ensures reply.Threw? ==> r == Response(500, ErrorDetails(InternalError, ThrownMessage(reply.error)))
    ensures reply.DbRows? ==>
      r.status == 200 && r.body.Listing?
      && r.body.appointments == RowsOrEmpty(reply.data)
      && r.body.totalCount == CountOrZero(reply.count)
      && r.body.totalPages == TotalPages(CountOrZero(reply.count), IntParam(params, "limit", 10))
      && r.body.currentPage == IntParam(params, "page", 1)
      && r.body.sortBy == ParamOr(params, "sortBy", "created_at")
      && r.body.sortOrder == ParamOr(params, "sortOrder", "desc")
  {
    var date := Param(params, "date");
    var status := Param(params, "status");
    var page := IntParam(params, "page", 1);
    var limit := IntParam(params, "limit", 10);
    var sortBy := ParamOr(params, "sortBy", "created_at");
    var sortOrder := ParamOr(params, "sortOrder", "desc");
    q := BuildQuery(date, status, page, limit, sortBy, sortOrder);
    match reply {
      case Threw(e) =>
        r := Response(500, ErrorDetails(InternalError, ThrownMessage(e)));
      case DbError(message) =>
        r := Response(500, ErrorBody(message));
      case DbRows(data, count) =>
        var total := CountOrZero(count);
        r := Response(200, Listing(RowsOrEmpty(data), total, TotalPages(total, limit), page, sortBy, sortOrder));
    }
  }
}
