/** The clinic's appointment list screen: the search box and the status
    filter over the fetched appointments. Its status badge is
    `Clinic.StatusVariant`. */
module AppointmentList {
  import opened Rows
  import opened Text
  import opened Clinic

  /** The search: the joined patient's name, ignoring case, or the
      WhatsApp number as typed. A row without a patient can match only
      through its number, and an empty search matches every row. */
  function SearchMatches(a: Appointment, term: string): (b: bool)
    ensures a.patient.None? ==> (b <==> Contains(a.whatsappNumber, term))
    ensures term == "" ==> b
  {
    ContainsTrivial(a.whatsappNumber);
    (a.patient.Some? && ContainsIgnoringCase(a.patient.value.name, term)) || Contains(a.whatsappNumber, term)
  }

  /** 'all' admits every status; anything else only itself. */
  predicate StatusMatches(a: Appointment, statusFilter: string) {
    statusFilter == "all" || a.status == statusFilter
  }

  function Matches(term: string, statusFilter: string): Appointment -> bool {
    (a: Appointment) => SearchMatches(a, term) && StatusMatches(a, statusFilter)
  }

  /** `filteredAppointments`. */
  function FilteredAppointments(apps: seq<Appointment>, term: string, statusFilter: string): seq<Appointment> {
    Filter(apps, Matches(term, statusFilter))
  }

  /** The list shown is the order-preserving subsequence of the rows
      passing both the search and the status filter; with an empty search
      and 'all' it is every row. */
  lemma FilteredAppointmentsSpec(apps: seq<Appointment>, term: string, statusFilter: string)
    ensures IsSubseq(FilteredAppointments(apps, term, statusFilter), apps)
    ensures forall a :: a in FilteredAppointments(apps, term, statusFilter) <==>
      a in apps && SearchMatches(a, term) && StatusMatches(a, statusFilter)
    ensures term == "" && statusFilter == "all" ==> FilteredAppointments(apps, term, statusFilter) == apps
  {
    var p := Matches(term, statusFilter);
    FilterIsSubseq(apps, p);
    forall a ensures a in Filter(apps, p) <==> a in apps && p(a) {
      FilterMembership(apps, p, a);
    }
    if term == "" && statusFilter == "all" {
      FilterAll(apps, p);
    }
  }
}
