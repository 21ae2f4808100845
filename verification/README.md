# AUM Appointments — a Dafny model of the clinic core

AUM Appointments is the booking app of a skin, hair and laser clinic. Staff
record patients and doctors and book appointments. A background job sends
WhatsApp reminders for the day's bookings. A dashboard sums up the day.
This project models the core of the app as pure Dafny functions over
immutable datatypes and proves properties about them:

- **Schemas** (`appointment_types.dfy`, `patient_types.dfy`,
  `doctor_types.dfy`): the status and case-category enums and their label
  tables. Each request schema is a predicate on the raw body. Parsing
  succeeds exactly on valid bodies and loses nothing of them.
- **`POST /api/appointments`** (`appointments_route.dfy`): validation, then
  the slot check. A slot is an exact timestamp. It holds at most five
  appointments whose status is not CANCELLED. The store is an explicit
  sequence of rows. The capacity invariant is proved to survive any series of
  creates.
- **`POST /api/doctors`** (`doctors_route.dfy`): validation, then the email
  check, then the phone check, then the insert. Uniqueness of phones and of
  non-null emails is proved to be preserved.
- **`sendSMS`** (`sms.ts` → `sms.dfy`): numbers are normalised to `+91` form
  and wrapped in the `whatsapp:` scheme. The provider is an oracle that
  accepts or throws.
- **The reminder job** (`notify_appointments.dfy`, `reminder_sweep.dfy`):
  the reminder template and the two nested loops. The loops are written as
  methods with loop invariants against a functional `Sweep`. The proofs show that every
  (appointment, listed number) pair is tried exactly once at a fixed place,
  and that a failed send does not change which sends follow.
- **The dashboard** (`dashboard.dfy`): today's and upcoming appointments,
  revenue, recent patients and pending reminders.
- **The list filters** of the appointments page (`appointments_page.dfy`)
  and of the patient table (`patient_table.dfy`), plus the page's choice
  between PUT and POST.

Shared pieces: `wrappers.dfy` (`Option`), `text.dfy` (ASCII lower-casing,
`includes`, line joining, email shape, and string length in UTF-16 code
units as JavaScript counts it) and `seqs.dfy` (filter, stable
insertion sort, top-n).

Parameters stand for everything outside the program's logic:

- the database's answers, i.e. fetched rows and fresh ids;
- the clock (`now`) and the local-day function (`dayOf`);
- `toLocaleString` (`formatDate`);
- the configured sender number;
- the messaging provider.

Timestamps and charges are unbounded integers.

## Model

| member | source | states |
|---|---|---|
| AppointmentTypes.StatusFromKey | src/types/appointment.ts:3-8 | exactly the four enum keys parse, each to the status whose key it is |
| AppointmentTypes.StatusDisplayDistinct | src/types/appointment.ts:26-38 | every status has a non-empty label and colour, and no two statuses share either |
| AppointmentTypes.ParseAppointment | src/types/appointment.ts:13-20 | parsing succeeds iff both ids are non-empty, the date coerces, the status (if any) is a known key and the charge (if any) is non-negative; a success is well-formed and re-encodes to the same body |
| AppointmentTypes.ParseToInput | src/types/appointment.ts:13-20 | every well-formed parsed value is the parse of its own body (round trip the other way) |
| AppointmentTypes.OptionalFieldsMayBeOmitted | src/types/appointment.ts:16-19 | dropping description, status and charge from a valid body keeps it valid |
| PatientTypes.CategoryFromKey | src/types/patient.ts:3-11 | exactly the seven category keys parse, each to its own category |
| PatientTypes.CategoryLabelsDistinct | src/types/patient.ts:29-37 | every category has a non-empty label and no two share one |
| PatientTypes.ParsePatient | src/types/patient.ts:15-25 | parsing succeeds iff name has at least 2 UTF-16 code units, age is 1..120, category is a key, contact has at least 10 code units and email is absent, empty or address-shaped; a success re-encodes to the same body |
| PatientTypes.ParsePatientToInput | src/types/patient.ts:15-25 | every well-formed patient value is the parse of its own body |
| PatientTypes.ContactLengthIsNotDigitCheck | src/types/patient.ts:23-24 | every contact of at least 10 characters, whatever they are, is judged exactly as ten digits would be; an empty email is judged exactly as an absent one, though it is not address-shaped |
| PatientTypes.AstralNameIsTwoCharacters | src/types/patient.ts:16 | a name made of one emoji outside the Basic Multilingual Plane meets the 2-character minimum, since it is two code units |
| Text.Utf16Length | src/types/patient.ts:16 | a string's code-unit length lies between its character count and twice that, and equals the count iff every character is in the Basic Multilingual Plane |
| Text.Utf16LengthConcat | src/types/patient.ts:16 | code-unit lengths add up over concatenation |
| AppointmentsRoute.Occupancy | src/app/api/appointments/route.ts:32-39 | the slot count is at most the number of stored rows |
| AppointmentsRoute.OccupancyConcat | src/app/api/appointments/route.ts:32-39 | the slot count of two row lists together is the sum of their counts |
| AppointmentsRoute.Create | src/app/api/appointments/route.ts:26-62 | 400 iff the body is invalid; 409 iff it is valid and the slot already holds 5 non-cancelled rows; otherwise exactly one row is appended with the body's fields, status defaulting to SCHEDULED and the reminder flag clear |
| AppointmentsRoute.CreateTouchesOnlyItsSlot | src/app/api/appointments/route.ts:41-60 | a create raises the count of its own timestamp by one, unless the new row is cancelled, and leaves every other timestamp's count unchanged |
| AppointmentsRoute.CreateKeepsCapacity | src/app/api/appointments/route.ts:41-60 | if no slot is over capacity before a create, none is after it |
| AppointmentsRoute.Apply | src/app/api/appointments/route.ts:41-62 | a request grows the store by at most one row, and a refused request leaves it unchanged |
| AppointmentsRoute.ApplyAllKeepsCapacity | src/app/api/appointments/route.ts:26-62 | any sequence of creates keeps every slot within capacity |
| AppointmentsRoute.CreatesFromEmptyStoreKeepCapacity | src/app/api/appointments/route.ts:26-62 | starting empty, no sequence of creates puts more than 5 live bookings at one timestamp |
| AppointmentsRoute.CancelledNeverCount | src/app/api/appointments/route.ts:35-37 | the slot count equals the count over the non-cancelled rows alone |
| AppointmentsRoute.OnlyTheSlotCounts | src/app/api/appointments/route.ts:34 | the slot count equals the count over the rows at that exact timestamp alone |
| AppointmentsRoute.DecisionDependsOnlyOnSlot | src/app/api/appointments/route.ts:32-49 | the 409 decision is the same on the whole store and on the rows at the requested timestamp |
| AppointmentsRoute.FullSlotRefusesEvenCancelled | src/app/api/appointments/route.ts:31-49 | a full slot refuses with 409 even a request whose own status is CANCELLED |
| AppointmentsRoute.OccupancyUpdate | src/app/api/appointments/route.ts:32-39 | replacing one row changes a slot's count only by that row's old and new contribution |
| AppointmentsRoute.CancellationFreesPlace | src/app/api/appointments/route.ts:32-49 | in a slot at exactly capacity, cancelling one of its rows lets the next valid booking there be created |
| DoctorsRoute.StoredEmail | src/app/api/doctors/route.ts:57-60 | the stored email is null iff the given one is absent or empty; otherwise it is the given one |
| DoctorsRoute.CreateDoctor | src/app/api/doctors/route.ts:23-66 | 400 iff invalid (name under 2 or phone under 10 code units, or a non-empty email that is not address-shaped); email clash iff valid with a non-empty email some doctor has; phone clash iff valid, no email clash and some doctor has the phone; otherwise the one appended doctor has the stored email and the specialization list or `[]` |
| DoctorsRoute.CreatedDoctorIsWellFormed | src/types/doctor.ts:3-8 | a created doctor has a name of at least 2 code units, a null or address-shaped email and a phone of at least 10 code units, and carries the request's name |
| DoctorsRoute.WellFormedDoctorRoundTrip | src/app/api/doctors/route.ts:23-66 | re-posting any well-formed doctor's own fields, with its phone and email free, creates exactly that doctor and appends it |
| DoctorsRoute.CreateDoctorKeepsContactsUnique | src/app/api/doctors/route.ts:28-52 | if phones and non-null emails are unique before a create, they are unique after it |
| DoctorsRoute.EmptyEmailSkipsEmailCheck | src/app/api/doctors/route.ts:28-40 | with an absent or empty email, a valid request is created iff its phone is free, and it is stored with a null email |
| Sms.ToInternationalForm | src/lib/sms.ts:18 | the result starts with `+`; it equals the input iff the input starts with `+`, else it is `+91` followed by the input; the input is always its suffix |
| Sms.ToInternationalIdempotent | src/lib/sms.ts:18 | normalising twice equals normalising once |
| Sms.Destination | src/lib/sms.ts:18 | the address starts with `whatsapp:+` and is `whatsapp:` plus the number, or `whatsapp:+91` plus the number when it lacks a `+` |
| Sms.SendSms | src/lib/sms.ts:14-25 | the request carries the body unchanged, the normalised destination and the `whatsapp:` sender; the call throws iff the provider rejects that request |
| NotifyJob.ReminderLines | src/job/notifyAppointments.ts:19-29 | doctor, patient, contact number, case category and case description each appear in the reminder on a line of their own after their label |
| NotifyJob.MissingFieldsShowNA | src/job/notifyAppointments.ts:22-27 | a missing doctor, a missing patient (name, contact and category) or a missing description appears as `N/A` on its line |
| ReminderSweep.AttemptsFor | src/job/notifyAppointments.ts:31-38 | one appointment's sends are one per listed number |
| ReminderSweep.SweepLength | src/job/notifyAppointments.ts:18-38 | n appointments give exactly n times the number of listed numbers sends |
| NotifyJob.SendToEachNumber | src/job/notifyAppointments.ts:31-38 | the inner loop sends the one message to each listed number in order and records each outcome, failed or not |
| NotifyJob.NotifyAppointments | src/job/notifyAppointments.ts:8-40 | the job makes one send per (appointment, listed number) pair, in order, and nothing for an empty list |
| ReminderSweep.SweepAt | src/job/notifyAppointments.ts:18-38 | send number (sends for the first i appointments) + j, which SweepLength makes i·k+j for k listed numbers, exists and is appointment i's reminder to listed number j at its WhatsApp address; it succeeded iff the provider accepted that call |
| ReminderSweep.SweepPrefix | src/job/notifyAppointments.ts:18-38 | the sends for the first m appointments are a prefix of those for the first n ≥ m |
| ReminderSweep.OutcomesDoNotSteerTheSweep | src/job/notifyAppointments.ts:31-38 | two providers answering differently see equally many sends, in the same order, with the same text; only the outcomes differ |
| Dashboard.TodayAppointments | src/app/dashboard/page.tsx:64-71 | the result is in list order and holds each scheduled appointment on today's local day exactly as often as the list does, and nothing else |
| Dashboard.UpcomingAppointments | src/app/dashboard/page.tsx:73-84 | at most five scheduled appointments from now on, earliest first, drawn from the list; there are five of them when at least five qualify; no left-out qualifying appointment is earlier than a shown one |
| Dashboard.TotalRevenueAdds | src/app/dashboard/page.tsx:86-88 | revenue over two lists together is the sum of their revenues |
| Dashboard.TotalRevenueOfOne | src/app/dashboard/page.tsx:86-88 | one appointment contributes its charge (missing as 0) iff it is completed, and 0 otherwise |
| Dashboard.TotalRevenueNonNegative | src/app/dashboard/page.tsx:86-88 | with non-negative charges the revenue is non-negative |
| Dashboard.RecentPatients | src/app/dashboard/page.tsx:90-95 | up to five patients from the list, newest first, five when there are at least five; no left-out patient is newer than a shown one |
| Dashboard.PendingNotifications | src/app/dashboard/page.tsx:97-99 | the pending count is at most the number of appointments |
| Dashboard.PendingNotificationsAdds | src/app/dashboard/page.tsx:97-99 | the pending count adds up over a split list, and one appointment counts iff it is scheduled with its flag clear |
| Dashboard.CreatedAppointmentIsPending | src/app/dashboard/page.tsx:97-99 | a booking the POST route stores as scheduled raises the pending count by one; one stored under another status leaves it unchanged |
| AppointmentsPage.FilteredAppointments | src/app/appointments/page.tsx:118-131 | the listed rows are, in order, exactly those matching the search (patient name, doctor name or present description, ignoring case) and the status filter, each as often as it occurs in the list |
| AppointmentsPage.EmptyControlsListEverything | src/app/appointments/page.tsx:118-131 | an empty search with "All Status" lists every row, in order |
| AppointmentsPage.StatusFilterIsExact | src/app/appointments/page.tsx:129 | a chosen status lists only rows whose status is exactly that key |
| AppointmentsPage.SearchIgnoresCase | src/app/appointments/page.tsx:119-128 | lower-casing the term does not change the list, and a name holding the term verbatim is always found |
| AppointmentsPage.MissingDescriptionSearchesNames | src/app/appointments/page.tsx:126-128 | a row without a description matches iff one of the two names matches |
| AppointmentsPage.SubmitRequest | src/app/appointments/page.tsx:137-140 | PUT to `/api/appointments/<id>` iff an appointment with a non-empty id is selected; POST to `/api/appointments` otherwise |
| AppointmentsPage.SubmitRequestSeparatesTargets | src/app/appointments/page.tsx:137-140 | two updates go to the same address iff the same appointment is selected, and no update goes to the collection address that creates use |
| PatientTable.FilteredPatients | src/components/tables/patient-table.tsx:43-48 | the listed patients are, in order, exactly those whose name or category key holds the term ignoring case, or whose contact number holds it verbatim, each as often as it occurs in the list |
| PatientTable.EmptySearchListsEveryone | src/components/tables/patient-table.tsx:43-48 | an empty search lists every patient, in order |
| PatientTable.NameAndCategoryIgnoreCase | src/components/tables/patient-table.tsx:45-47 | the name search ignores the term's case, and a name or category key holding the term verbatim matches |
| PatientTable.LabelIsNotSearched | src/components/tables/patient-table.tsx:47 | the displayed label "Hair Removal" does not match the stored key `HAIR_REMOVAL` |

## Left out

- The GET, PUT and DELETE handlers, the patients route and the run-cron route: they are not part of this model. Neither is `getTodaysAppointments` from `src/lib/db`, whose source is not available. The job receives its rows as a parameter, so this model does not decide which day's appointments it gets.
- The database itself: Prisma, the schema, row ids, `createdAt` stamping and the 500 responses for database failures. Stores are sequences, and ids are supplied by the caller. The schema is not available, so the `notificationSent` flag is assumed false on a new row.
- Concurrency: two POSTs racing past the slot count, or past the email and phone look-ups, are not modelled. Each request is applied to the store atomically.
- The cron schedule, which runs the job every minute despite its "daily at 8 AM" comment, plus the logging, `dotenv` and the Twilio credential check: scheduling and I/O.
- Nothing in the shown code ever sets `notificationSent`, so the job can resend reminders. The job does not read or write that flag, and this model does not either.
- The job sends every reminder to the two fixed numbers in `VERIFIED_NUMBERS`, never to the patient's own contact number; the model does the same.
- Dates: `z.coerce.date`, `toLocaleString`, time zones and `setHours`. They become an optional integer timestamp, a `formatDate` parameter and a `dayOf` parameter.
- Request bodies: a body that is not JSON makes `request.json()` throw, and the routes answer 500 for it (src/app/api/appointments/route.ts:28, 63-74; src/app/api/doctors/route.ts:25, 67-80). A JSON field of the wrong type fails the schema with a 400. Both lie outside the modelled input types, whose fields already have the schema's types.
- Numbers: JavaScript numbers are floats, so the charge, the age and the revenue sum are modelled as unbounded integers. Fractional ages are not modelled.
- Text: `toLowerCase` is modelled on ASCII letters only. Unicode case mapping is not modelled.
- Text.ValidEmail: it is weaker than zod's `email()` check. It requires only one interior `@` and no spaces.
- Seqs.SortBy: it is an insertion sort that is stable, but its stability is not proved. Only the sortedness, the permutation and the top-n properties are stated.
- Dashboard.RecentPatients: the page sorts its state array in place. The model returns a new sequence.
- The React rendering, loading states, forms, modals, authentication and the older `AUM Appointments/` client: user interface, not logic.
