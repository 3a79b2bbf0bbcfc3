/** The clinic's analytics endpoint: headline counts, revenue at a flat
    fee per paid appointment, appointments by status and patients by
    gender. The six store queries are issued one after another and each
    one's answer is an input of its own: a count, or the selected column
    of the rows it returned. Each either answers, answers `null`, or
    fails; any failure turns the whole answer into a 500. */
module Analytics {
  import opened Rows
  import opened Clinic

  /** How one store query resolved: with its result, with `null` in place
      of it, or with an error. */
  datatype Reply<T> = Answered(value: T) | Null | Failed(message: string)

  /** The replies of the six queries, in the order they are issued: the
      three head-only counts (all appointments, today's confirmed ones, all
      patients), then the rows of three selects, each given as the column
      it selects (the payment method of every paid appointment, the status
      of every appointment, the gender of every patient). */
  datatype Replies = Replies(
    total: Reply<nat>, today: Reply<nat>, patients: Reply<nat>,
    paid: Reply<seq<string>>, statuses: Reply<seq<string>>, genders: Reply<seq<string>>)

  datatype Entry = Entry(name: string, count: nat)

  datatype Stats = Stats(totalAppointments: nat, todayAppointments: nat, totalPatients: nat, revenue: nat)

  datatype Body =
    | Report(stats: Stats, appointmentsByStatus: seq<Entry>, appointmentsByDate: seq<Entry>,
             patientsByGender: seq<Entry>, revenueByMonth: seq<Entry>)
    | Failure(error: string)

  datatype Response = Response(status: nat, body: Body)

  /** The flat fee a paid appointment is counted at. */
  const Fee := 50

  const InternalError := "Internal server error"

  /** Fixed weekday figures the endpoint returns whatever the data. */
  const ByDate := [Entry("Mon", 12), Entry("Tue", 19), Entry("Wed", 8), Entry("Thu", 15),
                   Entry("Fri", 11), Entry("Sat", 5), Entry("Sun", 3)]

  /** Fixed monthly revenue figures the endpoint returns whatever the data. */
  const ByMonth := [Entry("Jan", 1200), Entry("Feb", 1900), Entry("Mar", 1500),
                    Entry("Apr", 2100), Entry("May", 1800), Entry("Jun", 2500)]

  /** `count || 0`: the count when the query answered, 0 for `null`. */
  function CountOrZero(r: Reply<nat>): nat {
    if r.Answered? then r.value else 0
  }

  /** `data?.…` on a select: the rows when the query answered, none for
      `null` (every count taken from them is then `undefined || 0`). */
  function RowsOrNone(r: Reply<seq<string>>): seq<string> {
    if r.Answered? then r.value else []
  }

  predicate AnyFailed(rs: Replies) {
    rs.total.Failed? || rs.today.Failed? || rs.patients.Failed?
    || rs.paid.Failed? || rs.statuses.Failed? || rs.genders.Failed?
  }

  /** `x => x === value` on a selected column. */
  function Is(value: string): string -> bool {
    (s: string) => s == value
  }

  /** The endpoint. `range` is read and not used. */
  function AnalyticsGet(range: Option<string>, rs: Replies): Response
  {
    if AnyFailed(rs) then Response(500, Failure(InternalError))
    else
      var statuses := RowsOrNone(rs.statuses);
      var genders := RowsOrNone(rs.genders);
      var byStatus := [
        Entry(Confirmed, Count(statuses, Is(Confirmed))),
        Entry(Completed, Count(statuses, Is(Completed))),
        Entry(Cancelled, Count(statuses, Is(Cancelled)))];
      var byGender := [
        Entry("Male", Count(genders, Is("Male"))),
        Entry("Female", Count(genders, Is("Female")))];
      var stats := Stats(
        CountOrZero(rs.total), CountOrZero(rs.today), CountOrZero(rs.patients),
        |RowsOrNone(rs.paid)| * Fee);
      Response(200, Report(stats, byStatus, ByDate, byGender, ByMonth))
  }

  function SumCounts(es: seq<Entry>): nat {
    if es == [] then 0 else es[0].count + SumCounts(es[1..])
  }

  lemma SumCountsTwo(a: Entry, b: Entry)
    ensures SumCounts([a, b]) == a.count + b.count
  {
    assert [b][1..] == [];
    assert SumCounts([b]) == b.count;
    assert [a, b][1..] == [b];
  }

  lemma SumCountsThree(a: Entry, b: Entry, c: Entry)
    ensures SumCounts([a, b, c]) == a.count + b.count + c.count
  {
    SumCountsTwo(b, c);
    assert [a, b, c][1..] == [b, c];
  }

  function Names(es: seq<Entry>): seq<string> {
    Map(es, (e: Entry) => e.name)
  }

  /** Statuses that are all one of the three the clinic writes. */
  ghost predicate KnownStatuses(statuses: seq<string>) {
    forall i :: 0 <= i < |statuses| ==> statuses[i] in {Confirmed, Completed, Cancelled}
  }

  /** The three status counts never exceed the number of rows, and add up
      to it when every status is a known one. */
  lemma {:induction false} StatusCountsBound(statuses: seq<string>)
    ensures Count(statuses, Is(Confirmed)) + Count(statuses, Is(Completed)) + Count(statuses, Is(Cancelled)) <= |statuses|
    ensures KnownStatuses(statuses) ==>
      Count(statuses, Is(Confirmed)) + Count(statuses, Is(Completed)) + Count(statuses, Is(Cancelled)) == |statuses|
  {
    if statuses != [] {
      StatusCountsBound(statuses[1..]);
      assert KnownStatuses(statuses) ==> KnownStatuses(statuses[1..]) by {
        if KnownStatuses(statuses) {
          forall i | 0 <= i < |statuses[1..]| ensures statuses[1..][i] in {Confirmed, Completed, Cancelled} {
            assert statuses[1..][i] == statuses[i + 1];
          }
        }
      }
    }
  }

  /** Only Male and Female are counted, so the gender counts never exceed the
      number of rows. */
  lemma {:induction false} GenderCountsBound(genders: seq<string>)
    ensures Count(genders, Is("Male")) + Count(genders, Is("Female")) <= |genders|
  {
    if genders != [] {
      GenderCountsBound(genders[1..]);
    }
  }

  /** Any failed query gives 500 'Internal server error', whatever else answered. */
  lemma AnalyticsFailure(range: Option<string>, rs: Replies)
    ensures AnalyticsGet(range, rs).status == 500 <==> AnyFailed(rs)
    ensures AnyFailed(rs) ==> AnalyticsGet(range, rs) == Response(500, Failure(InternalError))
  {
  }

  /** When no query failed, whatever each one answered: the three headline
      counts are the counts the store gave (0 for `null`); the revenue is
      the fee times the paid rows returned; the status entries are
      Confirmed, Completed, Cancelled in that order, counting the statuses
      returned and adding up to at most their number (exactly, when all
      are known); the gender entries are Male, Female, adding up to at
      most the genders returned; the weekday and monthly figures are the
      fixed ones; and `range` changes nothing. */
  lemma AnalyticsAnswers(range: Option<string>, rs: Replies)
    requires !AnyFailed(rs)
    ensures var r := AnalyticsGet(range, rs);
      var statuses := RowsOrNone(rs.statuses);
      var genders := RowsOrNone(rs.genders);
      r.status == 200 && r.body.Report?
      && r.body.stats.totalAppointments == CountOrZero(rs.total)
      && r.body.stats.todayAppointments == CountOrZero(rs.today)
      && r.body.stats.totalPatients == CountOrZero(rs.patients)
      && r.body.stats.revenue == Fee * |RowsOrNone(rs.paid)|
      && Names(r.body.appointmentsByStatus) == [Confirmed, Completed, Cancelled]
      && (forall i :: 0 <= i < 3 ==>
            r.body.appointmentsByStatus[i].count == Count(statuses, Is(r.body.appointmentsByStatus[i].name)))
      && SumCounts(r.body.appointmentsByStatus) <= |statuses|
      && (KnownStatuses(statuses) ==> SumCounts(r.body.appointmentsByStatus) == |statuses|)
      && Names(r.body.patientsByGender) == ["Male", "Female"]
      && (forall i :: 0 <= i < 2 ==>
            r.body.patientsByGender[i].count == Count(genders, Is(r.body.patientsByGender[i].name)))
      && SumCounts(r.body.patientsByGender) <= |genders|
      && r.body.appointmentsByDate == ByDate && r.body.revenueByMonth == ByMonth
      && r == AnalyticsGet(None, rs)
  {
    var r := AnalyticsGet(range, rs);
    StatusCountsBound(RowsOrNone(rs.statuses));
    GenderCountsBound(RowsOrNone(rs.genders));
    var st := r.body.appointmentsByStatus;
    var ge := r.body.patientsByGender;
    SumCountsThree(st[0], st[1], st[2]);
    SumCountsTwo(ge[0], ge[1]);
  }

  /** A query answering `null` contributes 0 where its value would go. */
  lemma AnalyticsNulls(range: Option<string>, rs: Replies)
    requires !AnyFailed(rs)
    ensures var r := AnalyticsGet(range, rs);
      r.body.Report?
      && (rs.total.Null? ==> r.body.stats.totalAppointments == 0)
      && (rs.today.Null? ==> r.body.stats.todayAppointments == 0)
      && (rs.patients.Null? ==> r.body.stats.totalPatients == 0)
      && (rs.paid.Null? ==> r.body.stats.revenue == 0)
      && (rs.statuses.Null? ==> SumCounts(r.body.appointmentsByStatus) == 0)
      && (rs.genders.Null? ==> SumCounts(r.body.patientsByGender) == 0)
  {
    var r := AnalyticsGet(range, rs);
    var st := r.body.appointmentsByStatus;
    var ge := r.body.patientsByGender;
    SumCountsThree(st[0], st[1], st[2]);
    SumCountsTwo(ge[0], ge[1]);
  }

  // ---------------------------------------------------------------------
  // Replies read from the tables

  /** The today query's two equalities. */
  function ConfirmedOn(today: string): Appointment -> bool {
    (a: Appointment) => a.date == today && a.status == Confirmed
  }

  function PaidFor(): Appointment -> bool {
    (a: Appointment) => a.paymentStatus == PaymentPaid
  }

  function StatusOf(): Appointment -> string {
    (a: Appointment) => a.status
  }

  function GenderOf(): Patient -> string {
    (p: Patient) => p.gender
  }

  function PaymentMethodOf(): Appointment -> string {
    (a: Appointment) => a.paymentMethod
  }

  function StatusIs(status: string): Appointment -> bool {
    (a: Appointment) => a.status == status
  }

  function GenderIs(gender: string): Patient -> bool {
    (p: Patient) => p.gender == gender
  }

  /** The rows whose `column` holds `value`. */
  function Where<T>(column: T -> string, value: string): T -> bool {
    (x: T) => column(x) == value
  }

  /** The replies the six queries get when all of them read the same state
      of the two tables and no select is cut short by a row cap; `today` is
      the current date as the server renders it. */
  predicate FromTables(rs: Replies, appointments: seq<Appointment>, patients: seq<Patient>, today: string) {
    rs.total == Answered(|appointments|)
    && rs.today == Answered(Count(appointments, ConfirmedOn(today)))
    && rs.patients == Answered(|patients|)
    && rs.paid == Answered(Map(Filter(appointments, PaidFor()), PaymentMethodOf()))
    && rs.statuses == Answered(Map(appointments, StatusOf()))
    && rs.genders == Answered(Map(patients, GenderOf()))
  }

  /** Counting a selected column is counting the rows it was selected from. */
  lemma {:induction false} CountColumn<T>(rows: seq<T>, column: T -> string, value: string)
    ensures Count(Map(rows, column), Is(value)) == Count(rows, Where(column, value))
  {
    if rows != [] {
      CountColumn(rows[1..], column, value);
      assert Map(rows, column)[1..] == Map(rows[1..], column);
    }
  }

  /** Over one uncapped read of the tables: the totals are the table sizes;
      today's count is the confirmed appointments dated today; the revenue
      is the fee times the paid appointments; each status and gender entry
      counts the appointments or patients with that value; the status
      counts add up to the appointments when all statuses are known. */
  lemma AnalyticsReport(range: Option<string>, appointments: seq<Appointment>, patients: seq<Patient>,
                        today: string, rs: Replies)
    requires FromTables(rs, appointments, patients, today)
    ensures var r := AnalyticsGet(range, rs);
      r.status == 200 && r.body.Report?
      && r.body.stats.totalAppointments == |appointments|
      && r.body.stats.totalPatients == |patients|
      && r.body.stats.todayAppointments == Count(appointments, ConfirmedOn(today))
      && r.body.stats.revenue == Fee * Count(appointments, PaidFor())
      && Names(r.body.appointmentsByStatus) == [Confirmed, Completed, Cancelled]
      && (forall i :: 0 <= i < 3 ==>
            r.body.appointmentsByStatus[i].count == Count(appointments, StatusIs(r.body.appointmentsByStatus[i].name)))
      && SumCounts(r.body.appointmentsByStatus) <= |appointments|
      && ((forall i :: 0 <= i < |appointments| ==> appointments[i].status in {Confirmed, Completed, Cancelled})
            ==> SumCounts(r.body.appointmentsByStatus) == |appointments|)
      && Names(r.body.patientsByGender) == ["Male", "Female"]
      && (forall i :: 0 <= i < 2 ==>
            r.body.patientsByGender[i].count == Count(patients, GenderIs(r.body.patientsByGender[i].name)))
      && SumCounts(r.body.patientsByGender) <= |patients|
  {
    AnalyticsAnswers(range, rs);
    var r := AnalyticsGet(range, rs);
    var st := r.body.appointmentsByStatus;
    var ge := r.body.patientsByGender;
    forall i | 0 <= i < 3
      ensures st[i].count == Count(appointments, StatusIs(st[i].name))
    {
      CountColumn(appointments, StatusOf(), st[i].name);
      FilterAgrees(appointments, Where(StatusOf(), st[i].name), StatusIs(st[i].name));
    }
    forall i | 0 <= i < 2
      ensures ge[i].count == Count(patients, GenderIs(ge[i].name))
    {
      CountColumn(patients, GenderOf(), ge[i].name);
      FilterAgrees(patients, Where(GenderOf(), ge[i].name), GenderIs(ge[i].name));
    }
    var statuses := Map(appointments, StatusOf());
    if forall i :: 0 <= i < |appointments| ==> appointments[i].status in {Confirmed, Completed, Cancelled} {
      assert KnownStatuses(statuses);
    }
  }
}
