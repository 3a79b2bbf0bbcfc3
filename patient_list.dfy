/** The clinic's patient screen: the search over the fetched patients, the
    add/edit form and its transitions, and the request bodies the form
    sends (with the age read back by `parseInt`). */
module PatientList {
  import opened Rows
  import opened Text
  import opened Clinic

  // ---------------------------------------------------------------------
  // Search

  /** The search: the name ignoring case, or the WhatsApp number or the
      patient id as typed. An empty search matches every patient. */
  function PatientMatches(p: Patient, term: string): (b: bool)
    ensures term == "" ==> b
    ensures Contains(p.whatsappNumber, term) || Contains(p.patientId, term) ==> b
  {
    ContainsTrivial(p.whatsappNumber);
    ContainsIgnoringCase(p.name, term) || Contains(p.whatsappNumber, term) || Contains(p.patientId, term)
  }

  function MatchesTerm(term: string): Patient -> bool {
    (p: Patient) => PatientMatches(p, term)
  }

  /** `filteredPatients`. */
  function FilteredPatients(ps: seq<Patient>, term: string): seq<Patient> {
    Filter(ps, MatchesTerm(term))
  }

  /** The list shown is the order-preserving subsequence of the matching
      patients, and every patient when the search is empty. */
  lemma FilteredPatientsSpec(ps: seq<Patient>, term: string)
    ensures IsSubseq(FilteredPatients(ps, term), ps)
    ensures forall p :: p in FilteredPatients(ps, term) <==> p in ps && PatientMatches(p, term)
    ensures term == "" ==> FilteredPatients(ps, term) == ps
  {
    FilterIsSubseq(ps, MatchesTerm(term));
    forall p ensures p in FilteredPatients(ps, term) <==> p in ps && PatientMatches(p, term) {
      FilterMembership(ps, MatchesTerm(term), p);
    }
    if term == "" {
      FilterAll(ps, MatchesTerm(term));
    }
  }

  // ---------------------------------------------------------------------
  // parseInt

  /** The longest run of digits `s` starts with. */
  function DigitPrefix(s: string): (r: string)
    ensures |r| <= |s| && r == s[..|r|]
    ensures forall i :: 0 <= i < |r| ==> IsDigit(r[i])
    ensures |r| < |s| ==> !IsDigit(s[|r|])
  {
    if s != [] && IsDigit(s[0]) then [s[0]] + DigitPrefix(s[1..]) else []
  }

  /** `parseInt(s)` on the decimal text a number input yields (no `0x`
      prefix): leading whitespace skipped, an optional sign, then the
      leading digits; `None` (NaN) when there are none. */
  function ParseInt(s: string): Option<int> {
    var t := TrimStart(s);
    if t != [] && (t[0] == '-' || t[0] == '+') then
      var ds := DigitPrefix(t[1..]);
      var v: int := if ds == [] then 0 else DecimalValue(ds);
      if ds == [] then None
      else if t[0] == '-' then Some(-v)
      else Some(v)
    else
      var ds := DigitPrefix(t);
      if ds == [] then None else Some(DecimalValue(ds))
  }

  lemma {:induction false} DigitPrefixAll(s: string)
    requires forall i :: 0 <= i < |s| ==> IsDigit(s[i])
    ensures DigitPrefix(s) == s
    decreases |s|
  {
    if s != [] {
      DigitPrefixAll(s[1..]);
      assert s == [s[0]] + s[1..];
    }
  }

  lemma NoLeadingSpace(s: string)
    requires s != [] && (IsDigit(s[0]) || s[0] == '-')
    ensures TrimStart(s) == s
  {
    assert !IsSpace(s[0]);
  }

  /** A non-empty digit string parses to its value, and with a minus sign
      in front to its negation. */
  lemma ParseDigits(d: string)
    requires d != [] && forall i :: 0 <= i < |d| ==> IsDigit(d[i])
    ensures ParseInt(d) == Some(DecimalValue(d) as int)
    ensures ParseInt("-" + d) == Some(-(DecimalValue(d) as int))
  {
    DigitPrefixAll(d);
    NoLeadingSpace(d);
    var m := "-" + d;
    NoLeadingSpace(m);
    assert m[1..] == d;
  }

  /** `parseInt(String(n))` gives `n` back. */
  lemma ParseIntRoundTrip(n: int)
    ensures ParseInt(IntToString(n)) == Some(n)
  {
    var k: nat := if n < 0 then -n else n;
    DecimalRoundTrip(k);
    ParseDigits(NatToString(k));
  }

  // ---------------------------------------------------------------------
  // The add/edit form

  /** The form fields, all as typed text. */
  datatype PatientForm = PatientForm(name: string, age: string, gender: string, whatsappNumber: string)

  const EmptyForm := PatientForm("", "", "", "")

  /** The form filled from a patient, the age written in decimal. */
  function FormOf(p: Patient): PatientForm {
    PatientForm(p.name, IntToString(p.age), p.gender, p.whatsappNumber)
  }

  /** The body of an add request: the form with the age parsed and a new
      id taken from the clock (`nowMs`). */
  datatype NewPatientBody = NewPatientBody(name: string, age: Option<int>, gender: string, whatsappNumber: string, patientId: string)

  /** The body of an edit request. */
  datatype PatientUpdate = PatientUpdate(name: string, age: Option<int>, gender: string, whatsappNumber: string)

  function AddBody(f: PatientForm, nowMs: nat): NewPatientBody {
    NewPatientBody(f.name, ParseInt(f.age), f.gender, f.whatsappNumber, NatToString(nowMs))
  }

  function EditBody(f: PatientForm): PatientUpdate {
    PatientUpdate(f.name, ParseInt(f.age), f.gender, f.whatsappNumber)
  }

  /** What the form submits. */
  datatype Request = AddPatient(body: NewPatientBody) | EditPatient(id: string, update: PatientUpdate)

  /** Editing a patient and saving without changes sends that patient's
      own name, age, gender and number back. */
  lemma EditUnchanged(p: Patient)
    ensures EditBody(FormOf(p)) == PatientUpdate(p.name, Some(p.age), p.gender, p.whatsappNumber)
  {
    ParseIntRoundTrip(p.age);
  }

  /** The screen's state. */
  class PatientsPage {
    var patients: seq<Patient>
    var searchTerm: string
    var showAddForm: bool
    var editingPatient: Option<Patient>
    var form: PatientForm

    constructor ()
      ensures patients == [] && searchTerm == "" && !showAddForm
      ensures editingPatient == None && form == EmptyForm
    {
      patients := [];
      searchTerm := "";
      showAddForm := false;
      editingPatient := None;
      form := EmptyForm;
    }

    /** The patients on view. */
    function Listed(): seq<Patient>
      reads this
    {
      FilteredPatients(patients, searchTerm)
    }

    /** A finished fetch: a missing list reads as empty; a failed fetch
        leaves the list as it was. */
    method Load(f: Fetch<Patient>)
      modifies this`patients
      ensures f.Fetched? ==> patients == RowsOrEmpty(f.data)
      ensures f.FetchError? ==> patients == old(patients)
    {
      if f.Fetched? {
        patients := RowsOrEmpty(f.data);
      }
    }

    /** The 'Add Patient' button. */
    method OpenForm()
      modifies this`showAddForm
      ensures showAddForm
    {
      showAddForm := true;
    }

    /** `startEdit`: remember the patient, fill the form from it and show it. */
    method StartEdit(p: Patient)
      modifies this`editingPatient, this`form, this`showAddForm
      ensures editingPatient == Some(p) && form == FormOf(p) && showAddForm
    {
      editingPatient := Some(p);
      form := PatientForm(p.name, IntToString(p.age), p.gender, p.whatsappNumber);
      showAddForm := true;
    }

    /** `cancelForm`: hide the form, forget the patient, clear the fields. */
    method CancelForm()
      modifies this`editingPatient, this`form, this`showAddForm
      ensures !showAddForm && editingPatient == None && form == EmptyForm
    {
      showAddForm := false;
      editingPatient := None;
      form := EmptyForm;
    }

    /** Submitting: an edit of the remembered patient when there is one,
        otherwise an add. `ok` is whether the server accepted it (false also
        for a failed request). An accepted add clears and hides the form; an
        accepted edit forgets the patient and clears the form but leaves it
        shown; a refused request changes nothing. */
    method Submit(ok: bool, nowMs: nat) returns (req: Request)
      modifies this`editingPatient, this`form, this`showAddForm
      ensures old(editingPatient).Some? ==>
        req == EditPatient(old(editingPatient).value.patientId, EditBody(old(form)))
      ensures old(editingPatient).None? ==> req == AddPatient(AddBody(old(form), nowMs))
      ensures !ok ==> editingPatient == old(editingPatient) && form == old(form) && showAddForm == old(showAddForm)
      ensures ok ==> editingPatient == None && form == EmptyForm
      ensures ok && old(editingPatient).None? ==> !showAddForm
      ensures old(editingPatient).Some? ==> showAddForm == old(showAddForm)
    {
      if editingPatient.Some? {
        req := EditPatient(editingPatient.value.patientId, EditBody(form));
        if ok {
          editingPatient := None;
          form := EmptyForm;
        }
      } else {
        req := AddPatient(AddBody(form, nowMs));
        if ok {
          form := EmptyForm;
          showAddForm := false;
        }
      }
    }
  }
}
