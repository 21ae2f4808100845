/** `src/types/patient.ts`: the case-category enum, the patient schema and
    the category label table; plus the persisted patient row. */
module PatientTypes {
  import opened Wrappers
  import opened Text

  datatype CaseCategory = Hair | Skin | Moles | HairRemoval | Hydrafacial | WeightLoss | Other

  /** The enum's string key, as stored and shown in searches. */
  function CategoryKey(c: CaseCategory): string {
    match c
    case Hair => "HAIR"
    case Skin => "SKIN"
    case Moles => "MOLES"
    case HairRemoval => "HAIR_REMOVAL"
    case Hydrafacial => "HYDRAFACIAL"
    case WeightLoss => "WEIGHT_LOSS"
    case Other => "OTHER"
  }

  /** `z.nativeEnum(CaseCategory)`: accepts exactly the seven keys. */
  function CategoryFromKey(k: string): (r: Option<CaseCategory>)
    ensures r.Some? ==> CategoryKey(r.value) == k
    ensures forall c :: CategoryKey(c) == k ==> r == Some(c)
  {
    if k == "HAIR" then Some(Hair)
    else if k == "SKIN" then Some(Skin)
    else if k == "MOLES" then Some(Moles)
    else if k == "HAIR_REMOVAL" then Some(HairRemoval)
    else if k == "HYDRAFACIAL" then Some(Hydrafacial)
    else if k == "WEIGHT_LOSS" then Some(WeightLoss)
    else if k == "OTHER" then Some(Other)
    else None
  }

  function CategoryLabel(c: CaseCategory): string {
    match c
    case Hair => "Hair Treatment"
    case Skin => "Skin Care"
    case Moles => "Mole Removal"
    case HairRemoval => "Hair Removal"
    case Hydrafacial => "Hydrafacial"
    case WeightLoss => "Weight Loss"
    case Other => "Other"
  }

  /** The label table is total and tells the seven categories apart. */
  lemma CategoryLabelsDistinct(c: CaseCategory, d: CaseCategory)
    ensures |CategoryLabel(c)| > 0
    ensures CategoryLabel(c) == CategoryLabel(d) ==> c == d
  {
  }

  /** A patient request body as it reaches the schema; `caseCategory` is the
      raw string the client sent. */
  datatype PatientInput = PatientInput(
    name: string,
    age: int,
    address: Option<string>,
    caseCategory: string,
    contactNo: string,
    email: Option<string>)

  /** What `patientSchema.parse` returns on success. */
  datatype PatientData = PatientData(
    name: string,
    age: int,
    address: Option<string>,
    caseCategory: CaseCategory,
    contactNo: string,
    email: Option<string>)

  /** The persisted patient row. */
  datatype Patient = Patient(
    id: string,
    name: string,
    age: int,
    address: Option<string>,
    caseCategory: CaseCategory,
    contactNo: string,
    email: Option<string>,
    createdAt: int)

  /** `patientSchema`. The length bounds count UTF-16 code units, as
      JavaScript's `.length` does, and the contact-number bound counts them
      whatever they are, digits or not. */
  predicate ValidPatientInput(i: PatientInput) {
    && Utf16Length(i.name) >= 2
    && 1 <= i.age <= 120
    && CategoryFromKey(i.caseCategory).Some?
    && Utf16Length(i.contactNo) >= 10
    && AcceptableEmail(i.email)
  }

  predicate WellFormedPatient(d: PatientData) {
    Utf16Length(d.name) >= 2 && 1 <= d.age <= 120 && Utf16Length(d.contactNo) >= 10 && AcceptableEmail(d.email)
  }

  function PatientToInput(d: PatientData): PatientInput {
    PatientInput(d.name, d.age, d.address, CategoryKey(d.caseCategory), d.contactNo, d.email)
  }

  /** `patientSchema.parse`: succeeds exactly on valid input and loses
      nothing of it. */
  function ParsePatient(i: PatientInput): (r: Option<PatientData>)
    ensures r.Some? <==> ValidPatientInput(i)
    ensures r.Some? ==> WellFormedPatient(r.value) && PatientToInput(r.value) == i
  {
    if ValidPatientInput(i) then
      Some(PatientData(i.name, i.age, i.address, CategoryFromKey(i.caseCategory).value, i.contactNo, i.email))
    else None
  }

  lemma ParsePatientToInput(d: PatientData)
    requires WellFormedPatient(d)
    ensures ParsePatient(PatientToInput(d)) == Some(d)
  {
  }

  /** Only the length of the contact number matters: any contact of at
      least ten characters passes the rule exactly when ten digits would,
      letters included. An empty email is treated as an absent one, although
      it is no address. */
  lemma ContactLengthIsNotDigitCheck(i: PatientInput, contact: string)
    requires |contact| >= 10
    ensures ValidPatientInput(i.(contactNo := contact)) <==> ValidPatientInput(i.(contactNo := "0123456789"))
    ensures ValidPatientInput(i.(email := Some(""))) <==> ValidPatientInput(i.(email := None))
    ensures !ValidEmail("")
  {
  }

  /** A name of one character outside the Basic Multilingual Plane is two
      code units long and so meets the two-character minimum. */
  lemma AstralNameIsTwoCharacters()
    ensures ParsePatient(PatientInput("\U{1F600}", 30, None, "OTHER", "9979872572", None)).Some?
  {
    assert Utf16Length("\U{1F600}") == 2;
  }
}
