/** The clinic's rows (patients and their appointments) and the badge
    variants the appointment lists show for a status or a payment state. */
module Clinic {
  import opened Rows

  /** A registered patient. `age` is the stored number. */
  datatype Patient = Patient(
    patientId: string,
    whatsappNumber: string,
    name: string,
    age: int,
    gender: string,
    createdAt: string)

  /** A booked appointment, with the joined patient row when the store
      returns one. Status and payment state are the stored strings;
      the clinic itself writes Confirmed/Cancelled/Completed and
      Pending/Paid/Refunded. */
  datatype Appointment = Appointment(
    appointmentId: string,
    patientId: string,
    whatsappNumber: string,
    date: string,
    time: string,
    paymentMethod: string,
    paymentStatus: string,
    status: string,
    stripePaymentIntent: Option<string>,
    createdAt: string,
    patient: Option<Patient>)

  const Confirmed := "Confirmed"
  const Cancelled := "Cancelled"
  const Completed := "Completed"
  const PaymentPaid := "Paid"
  const PaymentPending := "Pending"
  const PaymentRefunded := "Refunded"

  /** The four looks of a badge. */
  datatype Variant = Default | Destructive | Secondary | Outline

  /** The badge for an appointment status. Both appointment lists use this
      same mapping. */
  function StatusVariant(status: string): (v: Variant)
    ensures v == Default <==> status == Confirmed
    ensures v == Destructive <==> status == Cancelled
    ensures v == Secondary <==> status == Completed
    ensures v == Outline <==> status !in {Confirmed, Cancelled, Completed}
  {
    if status == Confirmed then Default
    else if status == Cancelled then Destructive
    else if status == Completed then Secondary
    else Outline
  }

  /** The badge for a payment state: a pending payment and an unknown one
      look alike, and no payment state is shown as `Secondary`. */
  function PaymentVariant(status: string): (v: Variant)
    ensures v == Default <==> status == PaymentPaid
    ensures v == Destructive <==> status == PaymentRefunded
    ensures v == Outline <==> status != PaymentPaid && status != PaymentRefunded
    ensures v != Secondary
  {
    if status == PaymentPaid then Default
    else if status == PaymentPending then Outline
    else if status == PaymentRefunded then Destructive
    else Outline
  }

  const UnknownPatient := "Unknown Patient"

  /** The name shown for an appointment: the joined patient's name, or
      'Unknown Patient' when there is no patient row or its name is empty. */
  function PatientName(a: Appointment): (r: string)
    ensures a.patient.Some? && a.patient.value.name != "" ==> r == a.patient.value.name
    ensures a.patient.None? || a.patient.value.name == "" ==> r == UnknownPatient
    ensures r != ""
  {
    if a.patient.Some? && a.patient.value.name != "" then a.patient.value.name else UnknownPatient
  }
}
