/** `notifyAppointments` in `src/job/notifyAppointments.ts`: for every
    appointment the database hands over, build one reminder text and try to
    send it to each number of a fixed list, catching each failure so that the
    remaining sends still happen. The fetched list, the date rendering and
    the provider are parameters. */
module NotifyJob {
  import opened Wrappers
  import opened Text
  import opened AppointmentTypes
  import opened PatientTypes
  import opened DoctorTypes
  import opened Sms
  import opened ReminderSweep

  /** The job's recipients: two operator numbers, never the patient. */
  const VerifiedNumbers: seq<string> := ["9979872572", "9624517000"]

  /** An appointment row with its doctor and patient joined in; either join
      may be missing. */
  datatype Booking = Booking(appointment: Appointment, doctor: Option<Doctor>, patient: Option<Patient>)

  /** `value ?? "N/A"`: only a missing value is replaced; an empty string
      stays empty. */
  function OrNA(value: Option<string>): string {
    value.GetOr("N/A")
  }

  function DoctorName(b: Booking): Option<string> {
    if b.doctor.Some? then Some(b.doctor.value.name) else None
  }

  function PatientName(b: Booking): Option<string> {
    if b.patient.Some? then Some(b.patient.value.name) else None
  }

  function ContactNo(b: Booking): Option<string> {
    if b.patient.Some? then Some(b.patient.value.contactNo) else None
  }

  /** The raw enum key, e.g. `HAIR_REMOVAL`, not the display label. */
  function Category(b: Booking): Option<string> {
    if b.patient.Some? then Some(CategoryKey(b.patient.value.caseCategory)) else None
  }

  const ClinicLine: string := "\U{1F3E5} *Aum Skin Hair Laser Clinic*"
  const HeadingLine: string := "\U{1F469} *Appointment Reminder:*"
  const ClosingLine: string := "Please arrive 10 minutes early."

  /** The lines of the reminder template; `formatDate` stands for
      `toLocaleString`. */
  function ReminderLinesOf(b: Booking, formatDate: int -> string): seq<string> {
    [ ClinicLine,
      "",
      HeadingLine,
      "Doctor: " + OrNA(DoctorName(b)),
      "Patient: " + OrNA(PatientName(b)),
      "Contact No: " + OrNA(ContactNo(b)),
      "Case Category: " + OrNA(Category(b)),
      "Date: *" + formatDate(b.appointment.appointmentDate) + "*",
      "Case Description: " + OrNA(b.appointment.caseDescription),
      "",
      ClosingLine ]
  }

  /** The text sent for one appointment. */
  function ReminderMessage(b: Booking, formatDate: int -> string): string {
    JoinLines(ReminderLinesOf(b, formatDate))
  }

  /** Each field of the reminder sits on its own labelled line. */
  lemma ReminderLines(b: Booking, formatDate: int -> string)
    ensures var m := ReminderMessage(b, formatDate);
      && Contains(m, "\n" + ("Doctor: " + OrNA(DoctorName(b))) + "\n")
      && Contains(m, "\n" + ("Patient: " + OrNA(PatientName(b))) + "\n")
      && Contains(m, "\n" + ("Contact No: " + OrNA(ContactNo(b))) + "\n")
      && Contains(m, "\n" + ("Case Category: " + OrNA(Category(b))) + "\n")
      && Contains(m, "\n" + ("Case Description: " + OrNA(b.appointment.caseDescription)) + "\n")
  {
    var lines := ReminderLinesOf(b, formatDate);
    InnerLineOccurs(lines, 3);
    InnerLineOccurs(lines, 4);
    InnerLineOccurs(lines, 5);
    InnerLineOccurs(lines, 6);
    InnerLineOccurs(lines, 8);
  }

  /** A missing doctor, patient (and with it the contact number and case
      category) or case description shows as `N/A`. */
  lemma MissingFieldsShowNA(b: Booking, formatDate: int -> string)
    ensures var m := ReminderMessage(b, formatDate);
      && (b.doctor.None? ==> Contains(m, "\n" + ("Doctor: " + "N/A") + "\n"))
      && (b.patient.None? ==>
            && Contains(m, "\n" + ("Patient: " + "N/A") + "\n")
            && Contains(m, "\n" + ("Contact No: " + "N/A") + "\n")
            && Contains(m, "\n" + ("Case Category: " + "N/A") + "\n"))
      && (b.appointment.caseDescription.None? ==> Contains(m, "\n" + ("Case Description: " + "N/A") + "\n"))
  {
    ReminderLines(b, formatDate);
  }

  /** `ReminderMessage` as a function of the booking alone. */
  function Reminder(formatDate: int -> string): Booking -> string {
    (b: Booking) => ReminderMessage(b, formatDate)
  }

  /** The inner loop: `message` to each listed number in turn, as provider
      calls `first` onwards; a failure is recorded and the loop goes on. */
  method SendToEachNumber(i: nat, message: string, first: nat, sender: string, provider: Provider)
    returns (attempts: seq<Attempt>)
    ensures attempts == AttemptsFor(VerifiedNumbers, i, message, first, sender, provider)
  {
    ghost var row := AttemptsFor(VerifiedNumbers, i, message, first, sender, provider);
    attempts := [];
    var j := 0;
    while j < |VerifiedNumbers|
      invariant 0 <= j <= |VerifiedNumbers|
      invariant attempts == row[..j]
    {
      var outcome := SendSms(provider, first + j, sender, message, VerifiedNumbers[j]);
      assert row[..j + 1] == row[..j] + [Attempt(i, VerifiedNumbers[j], outcome)];
      attempts := attempts + [Attempt(i, VerifiedNumbers[j], outcome)];
      j := j + 1;
    }
    assert row[..j] == row;
  }

  /** The job body. An empty list returns at once; otherwise every
      appointment is sent to every listed number, and a failed send is only
      recorded. */
  method NotifyAppointments(bookings: seq<Booking>, formatDate: int -> string,
                            sender: string, provider: Provider) returns (trace: seq<Attempt>)
    ensures |trace| == |bookings| * |VerifiedNumbers|
    ensures trace == Sweep(VerifiedNumbers, bookings, |bookings|, Reminder(formatDate), sender, provider)
  {
    trace := [];
    if |bookings| == 0 {
      return;
    }
    var i := 0;
    while i < |bookings|
      invariant 0 <= i <= |bookings|
      invariant trace == Sweep(VerifiedNumbers, bookings, i, Reminder(formatDate), sender, provider)
    {
      var message := ReminderMessage(bookings[i], formatDate);
      var attempts := SendToEachNumber(i, message, |trace|, sender, provider);
      trace := trace + attempts;
      i := i + 1;
    }
    SweepLength(VerifiedNumbers, bookings, |bookings|, Reminder(formatDate), sender, provider);
  }
}
