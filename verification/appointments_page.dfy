/** The list filter and the submit target of `src/app/appointments/page.tsx`.
    A row is what `GET /api/appointments` returns with its doctor and patient
    names joined in; the status is the stored key as a string. */
module AppointmentsPage {
  import opened Wrappers
  import opened Text
  import opened Seqs

  datatype ListedAppointment = ListedAppointment(
    id: string,
    patientName: string,
    doctorName: string,
    caseDescription: Option<string>,
    status: string)

  /** The search box: the term, ignoring case, in the patient's name, the
      doctor's name or the case description when there is one. */
  predicate MatchesSearch(a: ListedAppointment, term: string) {
    || ContainsIgnoreCase(a.patientName, term)
    || ContainsIgnoreCase(a.doctorName, term)
    || (a.caseDescription.Some? && ContainsIgnoreCase(a.caseDescription.value, term))
  }

  /** The status drop-down: "" is "All Status"; otherwise the key must be
      equal, case included. */
  predicate MatchesStatus(a: ListedAppointment, filterStatus: string) {
    filterStatus == "" || a.status == filterStatus
  }

  function Shown(term: string, filterStatus: string): ListedAppointment -> bool {
    (a: ListedAppointment) => MatchesSearch(a, term) && MatchesStatus(a, filterStatus)
  }

  /** `filteredAppointments`: the rows matching both controls, in list order. */
  function FilteredAppointments(rows: seq<ListedAppointment>, term: string, filterStatus: string)
    : (r: seq<ListedAppointment>)
    ensures IsSubsequence(r, rows)
    ensures forall a :: multiset(r)[a] == (if Shown(term, filterStatus)(a) then multiset(rows)[a] else 0)
    ensures forall i :: 0 <= i < |r| ==> MatchesSearch(r[i], term) && MatchesStatus(r[i], filterStatus)
  {
    FilterSelects(rows, Shown(term, filterStatus));
    FilterCount(rows, Shown(term, filterStatus));
    Filter(rows, Shown(term, filterStatus))
  }

  /** With an empty search box and "All Status", every row is listed, in
      order. */
  lemma EmptyControlsListEverything(rows: seq<ListedAppointment>)
    ensures FilteredAppointments(rows, "", "") == rows
  {
    forall i | 0 <= i < |rows| ensures Shown("", "")(rows[i]) {
      EmptyTermOccurs(rows[i].patientName);
    }
    FilterKeepsAll(rows, Shown("", ""));
  }

  /** A chosen status lists only rows with exactly that key. */
  lemma StatusFilterIsExact(rows: seq<ListedAppointment>, term: string, filterStatus: string)
    requires filterStatus != ""
    ensures forall a :: a in FilteredAppointments(rows, term, filterStatus) ==> a.status == filterStatus
  {
    var r := FilteredAppointments(rows, term, filterStatus);
    forall a | a in r ensures a.status == filterStatus {
      var i :| 0 <= i < |r| && r[i] == a;
    }
  }

  /** The search ignores the case of the term, and a row whose name or
      description holds the term verbatim is always found. */
  lemma SearchIgnoresCase(rows: seq<ListedAppointment>, term: string, filterStatus: string, a: ListedAppointment)
    ensures FilteredAppointments(rows, ToLower(term), filterStatus) == FilteredAppointments(rows, term, filterStatus)
    ensures Contains(a.patientName, term) || Contains(a.doctorName, term) ==> MatchesSearch(a, term)
  {
    forall i | 0 <= i < |rows|
      ensures Shown(ToLower(term), filterStatus)(rows[i]) == Shown(term, filterStatus)(rows[i])
    {
      var x := rows[i];
      ContainsIgnoreCaseOfLowered(x.patientName, term);
      ContainsIgnoreCaseOfLowered(x.doctorName, term);
      if x.caseDescription.Some? {
        ContainsIgnoreCaseOfLowered(x.caseDescription.value, term);
      }
    }
    FilterCongruent(rows, Shown(ToLower(term), filterStatus), Shown(term, filterStatus));
    if Contains(a.patientName, term) {
      ContainsLowered(a.patientName, term);
    } else if Contains(a.doctorName, term) {
      ContainsLowered(a.doctorName, term);
    }
  }

  /** A row without a case description is found only through the two names. */
  lemma MissingDescriptionSearchesNames(a: ListedAppointment, term: string)
    requires a.caseDescription.None?
    ensures MatchesSearch(a, term) <==>
      ContainsIgnoreCase(a.patientName, term) || ContainsIgnoreCase(a.doctorName, term)
  {
  }

  datatype Request = Request(verb: string, url: string)

  const AppointmentsUrl: string := "/api/appointments"

  /** `handleSubmit`'s target: editing an appointment with a non-empty id
      updates it in place, anything else creates a new one. */
  function SubmitRequest(selectedId: Option<string>): (r: Request)
    ensures r.verb == "PUT" <==> selectedId.Some? && selectedId.value != ""
    ensures r.verb == "PUT" ==> r.url == AppointmentsUrl + "/" + selectedId.value
    ensures r.verb != "PUT" ==> r == Request("POST", AppointmentsUrl)
  {
    if selectedId.Some? && selectedId.value != "" then Request("PUT", AppointmentsUrl + "/" + selectedId.value)
    else Request("POST", AppointmentsUrl)
  }

  /** Different selected appointments are sent to different addresses, and
      an update never goes to the collection address. */
  lemma SubmitRequestSeparatesTargets(a: Option<string>, b: Option<string>)
    requires SubmitRequest(a).verb == "PUT" && SubmitRequest(b).verb == "PUT"
    ensures SubmitRequest(a).url == SubmitRequest(b).url <==> a == b
    ensures SubmitRequest(a).url != AppointmentsUrl
  {
    var pa, pb := AppointmentsUrl + "/", AppointmentsUrl + "/";
    if SubmitRequest(a).url == SubmitRequest(b).url {
      assert a.value == SubmitRequest(a).url[|pa|..];
      assert b.value == SubmitRequest(b).url[|pb|..];
    }
    assert |SubmitRequest(a).url| > |AppointmentsUrl|;
  }
}
