/** The feature encoder: turns one applicant's form selections into the
    14-column record the classifiers were trained on. Numeric fields pass
    through; each categorical field becomes one-hot indicators with an implicit
    baseline category. */
module FeatureEncoder {
  import opened Options
  import opened ApplicantForm

  /** One named entry of the encoded record. */
  datatype Feature = Feature(name: string, value: int)

  /** The record, in the insertion order of the source's dictionary. */
  type Row = seq<Feature>

  /** The training schema: the column names and their order. */
  const Columns: seq<string> := [
    "ApplicantIncome", "CoapplicantIncome", "LoanAmount", "Loan_Amount_Term", "Credit_History",
    "Gender_Male", "Married_Yes", "Dependents_1", "Dependents_2", "Dependents_3+",
    "Education_Not Graduate", "Self_Employed_Yes", "Property_Area_Semiurban", "Property_Area_Urban"
  ]

  /** `1 if c else 0`. */
  function Indicator(c: bool): (r: int)
    ensures r == 0 || r == 1
    ensures r == 1 <==> c
  {
    if c then 1 else 0
  }

  /** The dictionary built when "Predict" is pressed. */
  function Encode(a: Applicant): (row: Row)
    ensures |row| == |Columns|
    ensures forall i :: 0 <= i < |row| ==> row[i].name == Columns[i]
  {
    [ Feature("ApplicantIncome", a.applicantIncome),
      Feature("CoapplicantIncome", a.coapplicantIncome),
      Feature("LoanAmount", a.loanAmount),
      Feature("Loan_Amount_Term", a.loanAmountTerm),
      Feature("Credit_History", a.creditHistory),
      Feature("Gender_Male", Indicator(a.gender == "Male")),
      Feature("Married_Yes", Indicator(a.married == "Yes")),
      Feature("Dependents_1", Indicator(a.dependents == "1")),
      Feature("Dependents_2", Indicator(a.dependents == "2")),
      Feature("Dependents_3+", Indicator(a.dependents == "3+")),
      Feature("Education_Not Graduate", Indicator(a.education == "Not Graduate")),
      Feature("Self_Employed_Yes", Indicator(a.selfEmployed == "Yes")),
      Feature("Property_Area_Semiurban", Indicator(a.propertyArea == "Semiurban")),
      Feature("Property_Area_Urban", Indicator(a.propertyArea == "Urban")) ]
  }

  /** Dictionary lookup by key. With distinct names, as in any dictionary, it
      finds the key's own entry (ValueOfAt). */
  function ValueOf(row: Row, name: string): (r: Option<int>)
    ensures r.Some? <==> exists i :: 0 <= i < |row| && row[i].name == name
  {
    if row == [] then None
    else if row[0].name == name then Some(row[0].value)
    else
      var rest := ValueOf(row[1..], name);
      assert forall i :: 1 <= i < |row| ==> row[i] == row[1..][i - 1];
      rest
  }

  predicate DistinctNames(row: Row) {
    forall i, j :: 0 <= i < j < |row| ==> row[i].name != row[j].name
  }

  /** In a row whose names are distinct, looking up a name finds its own entry. */
  lemma {:induction false} ValueOfAt(row: Row, k: nat)
    requires DistinctNames(row)
    requires k < |row|
    ensures ValueOf(row, row[k].name) == Some(row[k].value)
  {
    if k > 0 {
      assert row[0].name != row[k].name;
      assert row[1..][k - 1] == row[k];
      ValueOfAt(row[1..], k - 1);
    }
  }

  /** The schema names no column twice. */
  lemma ColumnsDistinct()
    ensures forall i, j :: 0 <= i < j < |Columns| ==> Columns[i] != Columns[j]
  {
  }

  /** The encoded record is a dictionary with exactly the schema's keys, in the
      schema's order, each key giving its own entry. */
  lemma EncodeIsRecord(a: Applicant)
    ensures DistinctNames(Encode(a))
    ensures forall k :: 0 <= k < |Columns| ==> ValueOf(Encode(a), Columns[k]) == Some(Encode(a)[k].value)
  {
    var row := Encode(a);
    ColumnsDistinct();
    assert DistinctNames(row);
    forall k | 0 <= k < |Columns| ensures ValueOf(row, Columns[k]) == Some(row[k].value) {
      ValueOfAt(row, k);
    }
  }

  /** The entry named `name` is present and set to 1. */
  predicate Hot(row: Row, name: string) {
    ValueOf(row, name) == Some(1)
  }

  /** The entry named `name` is present and set to 0. */
  predicate Cold(row: Row, name: string) {
    ValueOf(row, name) == Some(0)
  }

  /** Every numeric field appears in the record unchanged. */
  lemma NumericPassThrough(a: Applicant)
    ensures ValueOf(Encode(a), "ApplicantIncome") == Some(a.applicantIncome)
    ensures ValueOf(Encode(a), "CoapplicantIncome") == Some(a.coapplicantIncome)
    ensures ValueOf(Encode(a), "LoanAmount") == Some(a.loanAmount)
    ensures ValueOf(Encode(a), "Loan_Amount_Term") == Some(a.loanAmountTerm)
    ensures ValueOf(Encode(a), "Credit_History") == Some(a.creditHistory)
  {
    EncodeIsRecord(a);
    assert Columns[0] == "ApplicantIncome" && Columns[1] == "CoapplicantIncome";
    assert Columns[2] == "LoanAmount" && Columns[3] == "Loan_Amount_Term" && Columns[4] == "Credit_History";
  }

  /** Every indicator column (Gender_Male to Property_Area_Urban) holds 0 or 1. */
  lemma IndicatorsAreBits(a: Applicant)
    ensures forall k :: 5 <= k < |Columns| ==> Hot(Encode(a), Columns[k]) || Cold(Encode(a), Columns[k])
  {
    EncodeIsRecord(a);
  }

  /** The four two-valued fields: the indicator is 1 exactly for the named
      category and 0 for every other value. */
  lemma BinaryIndicators(a: Applicant)
    ensures Hot(Encode(a), "Gender_Male") <==> a.gender == "Male"
    ensures Cold(Encode(a), "Gender_Male") <==> a.gender != "Male"
    ensures Hot(Encode(a), "Married_Yes") <==> a.married == "Yes"
    ensures Cold(Encode(a), "Married_Yes") <==> a.married != "Yes"
    ensures Hot(Encode(a), "Education_Not Graduate") <==> a.education == "Not Graduate"
    ensures Cold(Encode(a), "Education_Not Graduate") <==> a.education != "Not Graduate"
    ensures Hot(Encode(a), "Self_Employed_Yes") <==> a.selfEmployed == "Yes"
    ensures Cold(Encode(a), "Self_Employed_Yes") <==> a.selfEmployed != "Yes"
  {
    EncodeIsRecord(a);
    assert Columns[5] == "Gender_Male" && Columns[6] == "Married_Yes";
    assert Columns[10] == "Education_Not Graduate" && Columns[11] == "Self_Employed_Yes";
  }

  /** Dependents: each of "1", "2", "3+" sets exactly its own indicator, "0"
      sets none, and at most one of the three is ever set. */
  lemma DependentsIndicators(a: Applicant)
    ensures Hot(Encode(a), "Dependents_1") <==> a.dependents == "1"
    ensures Hot(Encode(a), "Dependents_2") <==> a.dependents == "2"
    ensures Hot(Encode(a), "Dependents_3+") <==> a.dependents == "3+"
    ensures !(Hot(Encode(a), "Dependents_1") && Hot(Encode(a), "Dependents_2"))
    ensures !(Hot(Encode(a), "Dependents_1") && Hot(Encode(a), "Dependents_3+"))
    ensures !(Hot(Encode(a), "Dependents_2") && Hot(Encode(a), "Dependents_3+"))
    ensures a.dependents == "0" ==>
      Cold(Encode(a), "Dependents_1") && Cold(Encode(a), "Dependents_2") && Cold(Encode(a), "Dependents_3+")
    ensures InWidgetDomain(a) ==>
      (a.dependents == "0" <==>
        Cold(Encode(a), "Dependents_1") && Cold(Encode(a), "Dependents_2") && Cold(Encode(a), "Dependents_3+"))
  {
    EncodeIsRecord(a);
    assert Columns[7] == "Dependents_1" && Columns[8] == "Dependents_2" && Columns[9] == "Dependents_3+";
  }

  /** Property area: "Semiurban" and "Urban" set their own indicator, "Rural"
      sets neither, and the two are never set together. */
  lemma PropertyAreaIndicators(a: Applicant)
    ensures Hot(Encode(a), "Property_Area_Semiurban") <==> a.propertyArea == "Semiurban"
    ensures Hot(Encode(a), "Property_Area_Urban") <==> a.propertyArea == "Urban"
    ensures !(Hot(Encode(a), "Property_Area_Semiurban") && Hot(Encode(a), "Property_Area_Urban"))
    ensures a.propertyArea == "Rural" ==>
      Cold(Encode(a), "Property_Area_Semiurban") && Cold(Encode(a), "Property_Area_Urban")
    ensures InWidgetDomain(a) ==>
      (a.propertyArea == "Rural" <==>
        Cold(Encode(a), "Property_Area_Semiurban") && Cold(Encode(a), "Property_Area_Urban"))
  {
    EncodeIsRecord(a);
    assert Columns[12] == "Property_Area_Semiurban" && Columns[13] == "Property_Area_Urban";
  }

  /** On the form's domain, the baseline selections are exactly the applicants
      whose nine indicators are all 0. */
  lemma BaselineIsAllZero(a: Applicant)
    requires InWidgetDomain(a)
    ensures IsBaseline(a) <==> forall k :: 5 <= k < |Columns| ==> Encode(a)[k].value == 0
  {
    var row := Encode(a);
    if forall k :: 5 <= k < |Columns| ==> row[k].value == 0 {
      assert row[5].value == 0 && row[6].value == 0 && row[7].value == 0;
      assert row[8].value == 0 && row[9].value == 0 && row[10].value == 0;
      assert row[11].value == 0 && row[12].value == 0 && row[13].value == 0;
    }
  }

  /** Reads a two-valued field back from its indicator. */
  function DecodeFlag(bit: int, off: string, on: string): (r: Option<string>)
    requires off != on
    ensures r.Some? <==> bit == 0 || bit == 1
    ensures r.Some? ==> (r.value == off || r.value == on) && bit == Indicator(r.value == on)
  {
    if bit == 0 then Some(off) else if bit == 1 then Some(on) else None
  }

  /** Reads Dependents back from its three indicators; None unless at most one
      is set and all are bits. */
  function DecodeDependents(d1: int, d2: int, d3: int): (r: Option<string>)
    ensures r.Some? ==> r.value in DependentsOptions
    ensures r.Some? ==>
      (d1, d2, d3) == (Indicator(r.value == "1"), Indicator(r.value == "2"), Indicator(r.value == "3+"))
  {
    if d1 == 0 && d2 == 0 && d3 == 0 then Some("0")
    else if d1 == 1 && d2 == 0 && d3 == 0 then Some("1")
    else if d1 == 0 && d2 == 1 && d3 == 0 then Some("2")
    else if d1 == 0 && d2 == 0 && d3 == 1 then Some("3+")
    else None
  }

  /** Reads Property_Area back from its two indicators. */
  function DecodePropertyArea(semiurban: int, urban: int): (r: Option<string>)
    ensures r.Some? ==> r.value in PropertyAreaOptions
    ensures r.Some? ==>
      (semiurban, urban) == (Indicator(r.value == "Semiurban"), Indicator(r.value == "Urban"))
  {
    if semiurban == 0 && urban == 0 then Some("Rural")
    else if semiurban == 1 && urban == 0 then Some("Semiurban")
    else if semiurban == 0 && urban == 1 then Some("Urban")
    else None
  }

  /** The inverse of Encode: the form selections a record came from, or None
      for a record no form input produces. */
  function Decode(row: Row): (r: Option<Applicant>)
    ensures r.Some? ==> InWidgetDomain(r.value)
  {
    if |row| != |Columns| || !(forall k :: 0 <= k < |row| ==> row[k].name == Columns[k]) then None
    else if row[0].value < 0 || row[1].value < 0 || row[2].value < 0 then None
    else if row[3].value !in TermOptions || row[4].value !in CreditOptions then None
    else
      match (DecodeFlag(row[5].value, "Female", "Male"),
             DecodeFlag(row[6].value, "No", "Yes"),
             DecodeDependents(row[7].value, row[8].value, row[9].value),
             DecodeFlag(row[10].value, "Graduate", "Not Graduate"),
             DecodeFlag(row[11].value, "No", "Yes"),
             DecodePropertyArea(row[12].value, row[13].value))
      case (Some(g), Some(m), Some(d), Some(e), Some(s), Some(p)) =>
        Some(Applicant(row[0].value, row[1].value, row[2].value, row[3].value, row[4].value, g, m, d, e, s, p))
      case _ => None
  }

  /** Every selection the form allows, the baselines included, is recovered
      from its record. */
  lemma RoundTrip(a: Applicant)
    requires InWidgetDomain(a)
    ensures Decode(Encode(a)) == Some(a)
  {
  }

  /** A record that decodes is exactly the encoding of a form input. */
  lemma DecodeSound(row: Row, a: Applicant)
    requires Decode(row) == Some(a)
    ensures InWidgetDomain(a)
    ensures Encode(a) == row
  {
  }

  /** Distinct form inputs never share a record. */
  lemma EncodeInjective(a: Applicant, b: Applicant)
    requires InWidgetDomain(a) && InWidgetDomain(b)
    requires Encode(a) == Encode(b)
    ensures a == b
  {
    RoundTrip(a);
    RoundTrip(b);
  }

  /** The worked example: a married male graduate with no dependents, not self
      employed, in an urban area. */
  lemma UrbanMarriedMaleExample()
    ensures Encode(Applicant(5000, 0, 128, 360, 1, "Male", "Yes", "0", "Graduate", "No", "Urban")) ==
      [ Feature("ApplicantIncome", 5000), Feature("CoapplicantIncome", 0), Feature("LoanAmount", 128),
        Feature("Loan_Amount_Term", 360), Feature("Credit_History", 1),
        Feature("Gender_Male", 1), Feature("Married_Yes", 1),
        Feature("Dependents_1", 0), Feature("Dependents_2", 0), Feature("Dependents_3+", 0),
        Feature("Education_Not Graduate", 0), Feature("Self_Employed_Yes", 0),
        Feature("Property_Area_Semiurban", 0), Feature("Property_Area_Urban", 1) ]
  {
  }
}
