/** `src/types/appointment.ts`: the appointment status enum, the request
    schema, the label/colour tables and the per-slot capacity; plus the
    persisted appointment row the routes and pages work on. */
module AppointmentTypes {
  import opened Wrappers

  datatype Status = Scheduled | Completed | Cancelled | NoShow

  /** The enum's string key, as stored and sent over the wire. */
  function StatusKey(s: Status): string {
    match s
    case Scheduled => "SCHEDULED"
    case Completed => "COMPLETED"
    case Cancelled => "CANCELLED"
    case NoShow => "NO_SHOW"
  }

  /** `z.nativeEnum(AppointmentStatus)`: accepts exactly the four keys. */
  function StatusFromKey(k: string): (r: Option<Status>)
    ensures r.Some? ==> StatusKey(r.value) == k
    ensures forall s :: StatusKey(s) == k ==> r == Some(s)
  {
    if k == "SCHEDULED" then Some(Scheduled)
    else if k == "COMPLETED" then Some(Completed)
    else if k == "CANCELLED" then Some(Cancelled)
    else if k == "NO_SHOW" then Some(NoShow)
    else None
  }

  function StatusLabel(s: Status): string {
    match s
    case Scheduled => "Scheduled"
    case Completed => "Completed"
    case Cancelled => "Cancelled"
    case NoShow => "No Show"
  }

  function StatusColor(s: Status): string {
    match s
    case Scheduled => "bg-blue-100 text-blue-800"
    case Completed => "bg-green-100 text-green-800"
    case Cancelled => "bg-gray-100 text-gray-800"
    case NoShow => "bg-red-100 text-red-800"
  }

  /** Both display tables are total and tell the four statuses apart. */
  lemma StatusDisplayDistinct(s: Status, t: Status)
    ensures |StatusLabel(s)| > 0 && |StatusColor(s)| > 0
    ensures StatusLabel(s) == StatusLabel(t) ==> s == t
    ensures StatusColor(s) == StatusColor(t) ==> s == t
  {
  }

  /** How many non-cancelled appointments may share one timestamp. */
  const MaxPatientsPerSlot: nat := 5

  /** An appointment request body as it reaches the schema. `appointmentDate`
      is `None` when the value cannot be coerced to a date; `status` is the
      raw string the client sent. */
  datatype AppointmentInput = AppointmentInput(
    doctorId: string,
    patientId: string,
    caseDescription: Option<string>,
    appointmentDate: Option<int>,
    status: Option<string>,
    charge: Option<int>)

  /** What `appointmentSchema.parse` returns on success. */
  datatype AppointmentData = AppointmentData(
    doctorId: string,
    patientId: string,
    caseDescription: Option<string>,
    appointmentDate: int,
    status: Option<Status>,
    charge: Option<int>)

  /** The persisted appointment row. */
  datatype Appointment = Appointment(
    id: string,
    doctorId: string,
    patientId: string,
    caseDescription: Option<string>,
    appointmentDate: int,
    status: Status,
    charge: Option<int>,
    notificationSent: bool)

  /** `appointmentSchema`: both ids non-empty, a coercible date, a known
      status if any, a non-negative charge if any. */
  predicate ValidAppointmentInput(i: AppointmentInput) {
    && |i.doctorId| >= 1
    && |i.patientId| >= 1
    && i.appointmentDate.Some?
    && (i.status.None? || StatusFromKey(i.status.value).Some?)
    && (i.charge.None? || i.charge.value >= 0)
  }

  /** Parsed data that the schema could have produced. */
  predicate WellFormedData(d: AppointmentData) {
    |d.doctorId| >= 1 && |d.patientId| >= 1 && (d.charge.None? || d.charge.value >= 0)
  }

  /** The request body that carries exactly the parsed data. */
  function ToInput(d: AppointmentData): AppointmentInput {
    AppointmentInput(
      d.doctorId, d.patientId, d.caseDescription, Some(d.appointmentDate),
      if d.status.Some? then Some(StatusKey(d.status.value)) else None,
      d.charge)
  }

  /** `appointmentSchema.parse`: succeeds exactly on valid input and loses
      nothing of it. */
  function ParseAppointment(i: AppointmentInput): (r: Option<AppointmentData>)
    ensures r.Some? <==> ValidAppointmentInput(i)
    ensures r.Some? ==> WellFormedData(r.value) && ToInput(r.value) == i
  {
    if ValidAppointmentInput(i) then
      Some(AppointmentData(
        i.doctorId, i.patientId, i.caseDescription, i.appointmentDate.value,
        if i.status.Some? then StatusFromKey(i.status.value) else None,
        i.charge))
    else None
  }

  /** Every well-formed value is the parse of its own request body. */
  lemma ParseToInput(d: AppointmentData)
    requires WellFormedData(d)
    ensures ParseAppointment(ToInput(d)) == Some(d)
  {
  }

  /** The optional fields may be left out of a valid request. */
  lemma OptionalFieldsMayBeOmitted(i: AppointmentInput)
    requires ValidAppointmentInput(i)
    ensures ValidAppointmentInput(i.(caseDescription := None, status := None, charge := None))
  {
  }
}
