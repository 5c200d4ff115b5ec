/**
 * The fixed catalogue of loan products: a record keyed by product key,
 * rendered as a numbered list and looked up by key.
 */
module LoanConfig {
  import opened Wrappers
  import opened Strings

  datatype LoanType = LoanType(
    name: string,
    displayName: string,
    requiredDocuments: seq<string>,
    requiredFields: seq<string>)

  const GoldLoan := LoanType(
    "gold_loan", "Gold Loan",
    ["Valid ID Proof (Aadhaar/PAN/Passport)", "Gold items for assessment", "Address Proof"],
    ["full_name", "phone_number", "email", "address", "gold_weight_grams",
     "gold_purity_carats", "loan_amount_required"])

  const TwoWheelerLoan := LoanType(
    "two_wheeler_loan", "Two Wheeler Loan",
    ["Valid ID Proof (Aadhaar/PAN/Passport)",
     "Income Proof (Salary Slips/Bank Statements - Last 3 months)",
     "Address Proof", "Employment Proof"],
    ["full_name", "phone_number", "email", "address", "date_of_birth",
     "employment_type", "monthly_income", "vehicle_model", "vehicle_price",
     "down_payment", "loan_tenure_months"])

  const PersonalLoan := LoanType(
    "personal_loan", "Personal Loan",
    ["Valid ID Proof (Aadhaar/PAN/Passport)",
     "Income Proof (Salary Slips/Bank Statements - Last 6 months)",
     "Address Proof", "Employment Proof", "Credit Score Report (if available)"],
    ["full_name", "phone_number", "email", "address", "date_of_birth", "pan_number",
     "employment_type", "employer_name", "monthly_income", "existing_loans",
     "loan_amount_required", "loan_tenure_months", "purpose_of_loan"])

  const HomeLoan := LoanType(
    "home_loan", "Home Loan",
    ["Valid ID Proof (Aadhaar/PAN/Passport)",
     "Income Proof (Salary Slips/ITR - Last 2 years)",
     "Bank Statements (Last 6 months)", "Property Documents", "Sale Agreement",
     "Address Proof", "Employment Proof"],
    ["full_name", "phone_number", "email", "current_address", "date_of_birth",
     "pan_number", "employment_type", "employer_name", "monthly_income",
     "existing_loans", "property_value", "loan_amount_required", "loan_tenure_years",
     "property_address", "property_type", "co_applicant_details"])

  const CarLoan := LoanType(
    "car_loan", "Car Loan",
    ["Valid ID Proof (Aadhaar/PAN/Passport)",
     "Income Proof (Salary Slips/Bank Statements - Last 3 months)",
     "Address Proof", "Employment Proof", "Vehicle Quotation/Pro-forma Invoice"],
    ["full_name", "phone_number", "email", "address", "date_of_birth", "pan_number",
     "employment_type", "monthly_income", "vehicle_make", "vehicle_model",
     "vehicle_price", "down_payment", "loan_tenure_months"])

  const BusinessLoan := LoanType(
    "business_loan", "Business Loan",
    ["Valid ID Proof (Aadhaar/PAN/Passport)", "Business Registration Documents",
     "GST Registration Certificate", "ITR (Last 2 years)",
     "Bank Statements (Last 6 months - Business Account)", "Business Address Proof",
     "Financial Statements (Balance Sheet, P&L)"],
    ["full_name", "phone_number", "email", "business_name", "business_type",
     "business_address", "years_in_business", "gst_number", "pan_number",
     "annual_turnover", "monthly_profit", "loan_amount_required",
     "loan_tenure_months", "purpose_of_loan"])

  const StudentLoan := LoanType(
    "student_loan", "Student Loan",
    ["Valid ID Proof (Aadhaar/Student ID)", "Resume/CV",
     "Academic Transcripts/Grade Reports", "College Admission Letter (if applicable)",
     "Parent/Guardian Income Proof (if co-applicant)"],
    ["full_name", "phone_number", "email", "college_name", "course_name",
     "year_of_study", "gpa_cgpa", "number_of_hackathons_participated",
     "number_of_projects", "technical_skills", "internship_experience",
     "github_profile", "loan_amount_required", "purpose_of_loan"])

  /** The record's keys in declaration order, which is the order `Object.values` visits them. */
  const LoanTypeKeys: seq<string> := [
    "gold_loan", "two_wheeler_loan", "personal_loan", "home_loan",
    "car_loan", "business_loan", "student_loan"]

  /** The record's values in the same order. */
  const LoanTypeValues: seq<LoanType> := [
    GoldLoan, TwoWheelerLoan, PersonalLoan, HomeLoan, CarLoan, BusinessLoan, StudentLoan]

  /** The record itself, as a finite map. */
  const LoanTypes: map<string, LoanType> := map[
    "gold_loan" := GoldLoan, "two_wheeler_loan" := TwoWheelerLoan,
    "personal_loan" := PersonalLoan, "home_loan" := HomeLoan, "car_loan" := CarLoan,
    "business_loan" := BusinessLoan, "student_loan" := StudentLoan]

  /** The `loan_type` enumeration declared in the application-submission function schema. */
  const SubmissionLoanTypeEnum: seq<string> := [
    "gold_loan", "two_wheeler_loan", "personal_loan", "home_loan",
    "car_loan", "business_loan", "student_loan"]

  /** The keys and values sequences enumerate the record. */
  lemma RegistryShape()
    ensures |LoanTypeKeys| == |LoanTypeValues| == 7
    ensures Distinct(LoanTypeKeys)
    ensures forall k :: k in LoanTypes <==> k in LoanTypeKeys
    ensures forall i :: 0 <= i < |LoanTypeKeys| ==> LoanTypes[LoanTypeKeys[i]] == LoanTypeValues[i]
  {
    forall i | 0 <= i < |LoanTypeKeys| ensures LoanTypes[LoanTypeKeys[i]] == LoanTypeValues[i] {
      RegistryLookups();
      if i == 0 {} else if i == 1 {} else if i == 2 {} else if i == 3 {} else if i == 4 {} else if i == 5 {}
    }
  }

  /** Each key looks up its own entry. */
  lemma RegistryLookups()
    ensures && LoanTypes["gold_loan"] == GoldLoan && LoanTypes["two_wheeler_loan"] == TwoWheelerLoan
            && LoanTypes["personal_loan"] == PersonalLoan && LoanTypes["home_loan"] == HomeLoan
            && LoanTypes["car_loan"] == CarLoan && LoanTypes["business_loan"] == BusinessLoan
            && LoanTypes["student_loan"] == StudentLoan
  {
  }

  /** Every entry's `name` is its own key. */
  lemma NamesMatchKeys()
    ensures forall k :: k in LoanTypes ==> LoanTypes[k].name == k
  {
  }

  /** Each loan type's required fields are a non-empty list without repetitions. */
  predicate FieldsWellFormed(loan: LoanType) {
    |loan.requiredFields| > 0 && Distinct(loan.requiredFields)
  }

  lemma GoldLoanFields() ensures FieldsWellFormed(GoldLoan) {}
  lemma TwoWheelerLoanFields() ensures FieldsWellFormed(TwoWheelerLoan) {}
  lemma PersonalLoanFields() ensures FieldsWellFormed(PersonalLoan) {}
  lemma HomeLoanFields() ensures FieldsWellFormed(HomeLoan) {}
  lemma CarLoanFields() ensures FieldsWellFormed(CarLoan) {}
  lemma BusinessLoanFields() ensures FieldsWellFormed(BusinessLoan) {}
  lemma StudentLoanFields() ensures FieldsWellFormed(StudentLoan) {}

  /** Within every loan type the required fields are a non-empty list without repetitions. */
  lemma RequiredFieldsWellFormed()
    ensures forall k :: k in LoanTypes ==> FieldsWellFormed(LoanTypes[k])
  {
    GoldLoanFields();
    TwoWheelerLoanFields();
    PersonalLoanFields();
    HomeLoanFields();
    CarLoanFields();
    BusinessLoanFields();
    StudentLoanFields();
  }

  /** The enumeration offered to the model is exactly the record's key set, in the same order. */
  lemma SubmissionEnumMatchesRegistry()
    ensures SubmissionLoanTypeEnum == LoanTypeKeys
    ensures forall k :: k in SubmissionLoanTypeEnum <==> k in LoanTypes
  {
  }

  /** One line of the menu: `<position>. <display name>`. */
  function MenuLine(position: nat, loan: LoanType): string {
    NatToString(position) + ". " + loan.displayName
  }

  /** `values.map((loan, index) => ...)`, numbering from `index + 1`. */
  function NumberedLines(values: seq<LoanType>): seq<string> {
    seq(|values|, i requires 0 <= i < |values| => MenuLine(i + 1, values[i]))
  }

  /** The numbered menu of loan products, one per line. */
  function GetLoanTypesList(): string {
    Join(NumberedLines(LoanTypeValues), "\n")
  }

  /** A menu line has no line break when the display name has none. */
  lemma MenuLineSingleLine(position: nat, loan: LoanType)
    requires '\n' !in loan.displayName
    ensures '\n' !in MenuLine(position, loan)
  {
    var d := NatToString(position);
    assert forall i :: 0 <= i < |d| ==> d[i] != '\n';
  }

  /**
   * Split at its line breaks, a rendered list is exactly one line per entry,
   * numbered from 1 in order, with no trailing empty line.
   */
  lemma {:induction false} NumberedListLines(values: seq<LoanType>)
    requires |values| >= 1
    requires forall i :: 0 <= i < |values| ==> '\n' !in values[i].displayName
    ensures var lines := Split(Join(NumberedLines(values), "\n"), '\n');
      && |lines| == |values|
      && forall i :: 0 <= i < |lines| ==> lines[i] == NatToString(i + 1) + ". " + values[i].displayName
  {
    var lines := NumberedLines(values);
    forall i | 0 <= i < |lines| ensures '\n' !in lines[i] {
      MenuLineSingleLine(i + 1, values[i]);
    }
    SplitJoin(lines, '\n');
  }

  /** No display name holds a line break. */
  lemma DisplayNamesSingleLine()
    ensures forall i :: 0 <= i < |LoanTypeValues| ==> '\n' !in LoanTypeValues[i].displayName
  {
    forall i | 0 <= i < |LoanTypeValues| ensures '\n' !in LoanTypeValues[i].displayName {
      if i == 0 {} else if i == 1 {} else if i == 2 {} else if i == 3 {} else if i == 4 {} else if i == 5 {}
    }
  }

  /** The menu has one line `<i>. <displayName>` per loan product, in declaration order. */
  lemma LoanTypesListLines()
    ensures var lines := Split(GetLoanTypesList(), '\n');
      && |lines| == |LoanTypeValues|
      && forall i :: 0 <= i < |lines| ==>
           lines[i] == NatToString(i + 1) + ". " + LoanTypeValues[i].displayName
  {
    DisplayNamesSingleLine();
    NumberedListLines(LoanTypeValues);
  }

  /** Each menu line, one product at a time; `MenuLinesText` collects them. */
  lemma GoldLoanLine() ensures MenuLine(1, GoldLoan) == "1. Gold Loan" {}
  lemma TwoWheelerLoanLine() ensures MenuLine(2, TwoWheelerLoan) == "2. Two Wheeler Loan" {}
  lemma PersonalLoanLine() ensures MenuLine(3, PersonalLoan) == "3. Personal Loan" {}
  lemma HomeLoanLine() ensures MenuLine(4, HomeLoan) == "4. Home Loan" {}
  lemma CarLoanLine() ensures MenuLine(5, CarLoan) == "5. Car Loan" {}
  lemma BusinessLoanLine() ensures MenuLine(6, BusinessLoan) == "6. Business Loan" {}
  lemma StudentLoanLine() ensures MenuLine(7, StudentLoan) == "7. Student Loan" {}

  /** The seven menu lines. */
  lemma MenuLinesText()
    ensures NumberedLines(LoanTypeValues) == ["1. Gold Loan", "2. Two Wheeler Loan", "3. Personal Loan",
      "4. Home Loan", "5. Car Loan", "6. Business Loan", "7. Student Loan"]
  {
    GoldLoanLine();
    TwoWheelerLoanLine();
    PersonalLoanLine();
    HomeLoanLine();
    CarLoanLine();
    BusinessLoanLine();
    StudentLoanLine();
  }

  /** The menu as the user sees it, line by line. */
  lemma LoanTypesListText()
    ensures Split(GetLoanTypesList(), '\n') == ["1. Gold Loan", "2. Two Wheeler Loan",
      "3. Personal Loan", "4. Home Loan", "5. Car Loan", "6. Business Loan", "7. Student Loan"]
  {
    MenuLinesText();
    DisplayNamesSingleLine();
    var lines := NumberedLines(LoanTypeValues);
    forall i | 0 <= i < |lines| ensures '\n' !in lines[i] {
      MenuLineSingleLine(i + 1, LoanTypeValues[i]);
    }
    SplitJoin(lines, '\n');
  }

  /** The entry registered under a key, or `None` (JavaScript `null`) for an unknown key. */
  function GetLoanRequirements(loanType: string): (r: Option<LoanType>)
    ensures r.Some? <==> loanType in LoanTypeKeys
    ensures r.Some? ==> r.value.name == loanType && r.value in LoanTypeValues
  {
    RegistryShape();
    NamesMatchKeys();
    if loanType in LoanTypes then Some(LoanTypes[loanType]) else None
  }
}
