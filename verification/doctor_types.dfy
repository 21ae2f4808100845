/** `src/types/doctor.ts`: the doctor schema; plus the persisted doctor row. */
module DoctorTypes {
  import opened Wrappers
  import opened Text

  /** A doctor request body as it reaches the schema. */
  datatype DoctorInput = DoctorInput(
    name: string,
    email: Option<string>,
    phone: string,
    specialization: Option<seq<string>>)

  /** The persisted doctor row; `email` is `None` for SQL `null`. */
  datatype Doctor = Doctor(
    id: string,
    name: string,
    email: Option<string>,
    phone: string,
    specialization: seq<string>)

  /** `doctorSchema`. The length bounds count UTF-16 code units, and the
      phone bound counts them whatever they are. The specialization list
      needs no check beyond its type, which the datatype already fixes. */
  predicate ValidDoctorInput(i: DoctorInput) {
    Utf16Length(i.name) >= 2 && AcceptableEmail(i.email) && Utf16Length(i.phone) >= 10
  }

  /** A stored doctor the schema admits: its email is `null` or an
      address, never the empty string. */
  predicate WellFormedDoctor(d: Doctor) {
    Utf16Length(d.name) >= 2 && (d.email.None? || ValidEmail(d.email.value)) && Utf16Length(d.phone) >= 10
  }

  /** The request body that describes a stored doctor. */
  function DoctorToInput(d: Doctor): DoctorInput {
    DoctorInput(d.name, d.email, d.phone, Some(d.specialization))
  }
}
