/** The search box of `src/components/tables/patient-table.tsx`. */
module PatientTable {
  import opened Text
  import opened Seqs
  import opened PatientTypes

  /** The term in the name or the stored category key, ignoring case, or
      verbatim in the contact number. The key is searched, not the label the
      table shows. */
  predicate PatientMatches(p: Patient, term: string) {
    || ContainsIgnoreCase(p.name, term)
    || Contains(p.contactNo, term)
    || ContainsIgnoreCase(CategoryKey(p.caseCategory), term)
  }

  function Matching(term: string): Patient -> bool {
    (p: Patient) => PatientMatches(p, term)
  }

  /** `filteredPatients`: the matching patients, in list order. */
  function FilteredPatients(patients: seq<Patient>, term: string): (r: seq<Patient>)
    ensures IsSubsequence(r, patients)
    ensures forall p :: multiset(r)[p] == if PatientMatches(p, term) then multiset(patients)[p] else 0
    ensures forall i :: 0 <= i < |r| ==> PatientMatches(r[i], term)
  {
    FilterSelects(patients, Matching(term));
    FilterCount(patients, Matching(term));
    Filter(patients, Matching(term))
  }

  /** An empty search box lists every patient, in order. */
  lemma EmptySearchListsEveryone(patients: seq<Patient>)
    ensures FilteredPatients(patients, "") == patients
  {
    forall i | 0 <= i < |patients| ensures Matching("")(patients[i]) {
      EmptyTermOccurs(patients[i].name);
    }
    FilterKeepsAll(patients, Matching(""));
  }

  /** The name and the category ignore the case of the term. */
  lemma NameAndCategoryIgnoreCase(p: Patient, term: string)
    ensures ContainsIgnoreCase(p.name, ToLower(term)) == ContainsIgnoreCase(p.name, term)
    ensures Contains(p.name, term) ==> PatientMatches(p, term)
    ensures Contains(CategoryKey(p.caseCategory), term) ==> PatientMatches(p, term)
  {
    ContainsIgnoreCaseOfLowered(p.name, term);
    if Contains(p.name, term) {
      ContainsLowered(p.name, term);
    } else if Contains(CategoryKey(p.caseCategory), term) {
      ContainsLowered(CategoryKey(p.caseCategory), term);
    }
  }

  /** Searching the label a row shows does not find it through the
      category: "Hair Removal" is not in "hair_removal". */
  lemma LabelIsNotSearched()
    ensures CategoryLabel(HairRemoval) == "Hair Removal"
    ensures !ContainsIgnoreCase(CategoryKey(HairRemoval), "Hair Removal")
  {
    var key, shown := CategoryKey(HairRemoval), CategoryLabel(HairRemoval);
    assert key[4] == '_' && shown[4] == ' ';
    DifferentIgnoringCase(key, shown, 4);
  }
}
