/** `POST /api/doctors` in `src/app/api/doctors/route.ts`: validate the body,
    refuse a non-empty email some doctor already has, then refuse a phone
    some doctor already has, otherwise store the doctor with an empty email
    turned into `null` and a missing specialization list turned into `[]`. */
module DoctorsRoute {
  import opened Wrappers
  import opened DoctorTypes

  /** The email the route stores: `null` for an absent or empty one. */
  function StoredEmail(email: Option<string>): (r: Option<string>)
    ensures r.None? <==> email.None? || email.value == ""
    ensures r.Some? ==> r == email
  {
    if email.Some? && email.value != "" then email else None
  }

  predicate EmailTaken(store: seq<Doctor>, email: string) {
    exists i :: 0 <= i < |store| && store[i].email == Some(email)
  }

  predicate PhoneTaken(store: seq<Doctor>, phone: string) {
    exists i :: 0 <= i < |store| && store[i].phone == phone
  }

  /** The uniqueness the route's two look-ups aim at: no two doctors share a
      phone, and no two share a non-null email. */
  ghost predicate ContactsUnique(store: seq<Doctor>) {
    forall i, j :: 0 <= i < j < |store| ==>
      store[i].phone != store[j].phone && (store[i].email.Some? ==> store[i].email != store[j].email)
  }

  datatype DoctorResponse =
    | InvalidDoctor                                    // 400 "Invalid doctor data"
    | DuplicateEmail                                   // 409 "Doctor with this email already exists"
    | DuplicatePhone                                   // 409 "Doctor with this phone number already exists"
    | DoctorCreated(doctor: Doctor, store: seq<Doctor>)  // 201

  function HttpStatus(r: DoctorResponse): int {
    match r
    case InvalidDoctor => 400
    case DuplicateEmail => 409
    case DuplicatePhone => 409
    case DoctorCreated(_, _) => 201
  }

  /** The route's `POST`, with `id` the identifier the database assigns.
      The email check runs only for a non-empty email and before the phone
      check, so a request clashing on both is reported as an email clash. */
  function CreateDoctor(store: seq<Doctor>, input: DoctorInput, id: string): (r: DoctorResponse)
    ensures r.InvalidDoctor? <==> !ValidDoctorInput(input)
    ensures r.DuplicateEmail? <==>
      ValidDoctorInput(input) && input.email.Some? && input.email.value != "" && EmailTaken(store, input.email.value)
    ensures r.DuplicatePhone? <==>
      ValidDoctorInput(input) && !r.DuplicateEmail? && PhoneTaken(store, input.phone)
    ensures r.DoctorCreated? ==>
      && r.store == store + [r.doctor]
      && r.doctor == Doctor(id, input.name, StoredEmail(input.email), input.phone, input.specialization.GetOr([]))
  {
    if !ValidDoctorInput(input) then InvalidDoctor
    else if input.email.Some? && input.email.value != "" && EmailTaken(store, input.email.value) then DuplicateEmail
    else if PhoneTaken(store, input.phone) then DuplicatePhone
    else
      var d := Doctor(id, input.name, StoredEmail(input.email), input.phone, input.specialization.GetOr([]));
      DoctorCreated(d, store + [d])
  }

  /** Every successful create keeps phones and non-null emails unique. */
  lemma CreateDoctorKeepsContactsUnique(store: seq<Doctor>, input: DoctorInput, id: string)
    requires ContactsUnique(store)
    ensures var r := CreateDoctor(store, input, id);
      r.DoctorCreated? ==> ContactsUnique(r.store)
  {
    var r := CreateDoctor(store, input, id);
    if r.DoctorCreated? {
      var s := r.store;
      forall i, j | 0 <= i < j < |s|
        ensures s[i].phone != s[j].phone && (s[i].email.Some? ==> s[i].email != s[j].email)
      {
        if j == |store| {
          assert s[i] == store[i] && s[j] == r.doctor;
          assert store[i].phone == input.phone ==> PhoneTaken(store, input.phone);
          assert store[i].email == r.doctor.email && r.doctor.email.Some? ==> EmailTaken(store, r.doctor.email.GetOr(""));
        } else {
          assert s[i] == store[i] && s[j] == store[j];
        }
      }
    }
  }

  /** Whatever the route stores is a doctor the schema admits. */
  lemma CreatedDoctorIsWellFormed(store: seq<Doctor>, input: DoctorInput, id: string)
    ensures var r := CreateDoctor(store, input, id);
      r.DoctorCreated? ==> WellFormedDoctor(r.doctor) && DoctorToInput(r.doctor).name == input.name
  {
  }

  /** Every well-formed doctor can be created, unchanged, from its own
      request body when neither its phone nor its email is taken yet. */
  lemma WellFormedDoctorRoundTrip(store: seq<Doctor>, d: Doctor)
    requires WellFormedDoctor(d)
    requires !PhoneTaken(store, d.phone) && (d.email.None? || !EmailTaken(store, d.email.value))
    ensures CreateDoctor(store, DoctorToInput(d), d.id) == DoctorCreated(d, store + [d])
  {
  }

  /** An absent or empty email never causes a refusal, whatever emails are
      stored: only the phone can clash. */
  lemma EmptyEmailSkipsEmailCheck(store: seq<Doctor>, input: DoctorInput, id: string)
    requires ValidDoctorInput(input)
    requires input.email.None? || input.email.value == ""
    ensures var r := CreateDoctor(store, input, id);
      (r.DoctorCreated? <==> !PhoneTaken(store, input.phone)) && (r.DoctorCreated? ==> r.doctor.email.None?)
  {
  }
}
