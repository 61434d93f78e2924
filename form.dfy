/** The applicant form: the raw values its widgets produce and the closed
    domains those widgets enforce. */
module ApplicantForm {

  /** One applicant's form selections. The number inputs have `min_value=0` and
      integer steps, so they are naturals; the select boxes produce one of their
      listed options. Credit history's options 1.0 and 0.0 are the exact
      integers 1 and 0 here. */
  datatype Applicant = Applicant(
    applicantIncome: nat,
    coapplicantIncome: nat,
    loanAmount: nat,
    loanAmountTerm: int,
    creditHistory: int,
    gender: string,
    married: string,
    dependents: string,
    education: string,
    selfEmployed: string,
    propertyArea: string)

  // The option lists of the select boxes, in the order they are offered.
  const TermOptions: seq<int> := [360, 180, 120, 84, 60, 36]
  const CreditOptions: seq<int> := [1, 0]
  const GenderOptions: seq<string> := ["Female", "Male"]
  const MarriedOptions: seq<string> := ["No", "Yes"]
  const DependentsOptions: seq<string> := ["0", "1", "2", "3+"]
  const EducationOptions: seq<string> := ["Graduate", "Not Graduate"]
  const SelfEmployedOptions: seq<string> := ["No", "Yes"]
  const PropertyAreaOptions: seq<string> := ["Rural", "Semiurban", "Urban"]

  /** The values the form can actually produce: every select box holds one of
      its options (the number inputs are non-negative by their type). Every
      offered term is a multiple of 12 between 36 and 360. */
  predicate InWidgetDomain(a: Applicant)
    ensures InWidgetDomain(a) ==> 36 <= a.loanAmountTerm <= 360 && a.loanAmountTerm % 12 == 0
    ensures InWidgetDomain(a) ==> a.creditHistory == 0 || a.creditHistory == 1
  {
    && a.loanAmountTerm in TermOptions
    && a.creditHistory in CreditOptions
    && a.gender in GenderOptions
    && a.married in MarriedOptions
    && a.dependents in DependentsOptions
    && a.education in EducationOptions
    && a.selfEmployed in SelfEmployedOptions
    && a.propertyArea in PropertyAreaOptions
  }

  /** The first option of every categorical box: the category the encoder
      represents by all-zero indicators. */
  predicate IsBaseline(a: Applicant) {
    && a.gender == "Female"
    && a.married == "No"
    && a.dependents == "0"
    && a.education == "Graduate"
    && a.selfEmployed == "No"
    && a.propertyArea == "Rural"
  }
}
