/** The candidate record the extraction step produces and the compliance engine reads. */
module Schemas {
  import opened Wrappers

  /** `CandidateProfile`. The validation is deliberately relaxed: every field may be left
      out and then takes its default. The salary is a real number because only its
      comparison with zero and with a threshold matters. */
  datatype CandidateProfile = CandidateProfile(
    name: string,
    role: string,
    email: Option<string>,
    salary: Option<real>,
    currency: Option<string>,
    startDate: Option<string>,
    locationCountry: string,
    citizenship: Option<string>,
    equityGrant: bool)

  /** `CandidateProfile()`: the record with every field at its default value. */
  const DefaultProfile: CandidateProfile := CandidateProfile(
    name := "Unknown Candidate",
    role := "TBD",
    email := None,
    salary := Some(0.0),
    currency := Some("USD"),
    startDate := None,
    locationCountry := "Unknown",
    citizenship := None,
    equityGrant := false)
}
