/** The intake forms' validation schemas. A schema turns a submitted form into
    a list of issues, one per failed rule, each naming the field it concerns;
    the form is accepted when the list is empty. Issues come field by field in
    declaration order and, within a field, rule by rule in the order the rules
    are chained; every rule of a text field is checked even after one fails. */
module Validation {
  import opened Shared

  datatype Issue = Issue(path: seq<string>, message: string)

  // ---------------------------------------------------------------------------
  // Patterns
  // ---------------------------------------------------------------------------

  predicate IsAsciiLetter(c: char) {
    ('a' <= c <= 'z') || ('A' <= c <= 'Z')
  }

  /** `[\d\s\-\(\)]` */
  predicate IsPhoneChar(c: char) {
    IsDigit(c) || IsJsWhitespace(c) || c == '-' || c == '(' || c == ')'
  }

  /** `[a-zA-Z\s\-']` */
  predicate IsNameChar(c: char) {
    IsAsciiLetter(c) || IsJsWhitespace(c) || c == '-' || c == '\''
  }

  /** `/^[\d\s\-\(\)]+$/` */
  predicate MatchesPhone(s: string) {
    |s| >= 1 && forall i :: 0 <= i < |s| ==> IsPhoneChar(s[i])
  }

  /** `/^\d{5}(-\d{4})?$/` */
  predicate MatchesZip(s: string) {
    || (|s| == 5 && AllDigits(s))
    || (|s| == 10 && AllDigits(s[..5]) && s[5] == '-' && AllDigits(s[6..]))
  }

  /** `/^\d{4}$/` */
  predicate MatchesSsnLastFour(s: string) {
    |s| == 4 && AllDigits(s)
  }

  /** `/^[a-zA-Z\s\-']+$/` */
  predicate MatchesName(s: string) {
    |s| >= 1 && forall i :: 0 <= i < |s| ==> IsNameChar(s[i])
  }

  /** Text made of pattern characters is as long in JavaScript as it looks. */
  lemma AsciiLength(s: string)
    requires (forall i :: 0 <= i < |s| ==> IsPhoneChar(s[i])) || (forall i :: 0 <= i < |s| ==> IsNameChar(s[i]))
    ensures Utf16Length(s) == |s|
  {
    assert forall i :: 0 <= i < |s| ==> s[i] as int <= 0xFFFF;
  }

  /** A text matching the ZIP pattern is at least 5 long, so the length rule
      before the pattern never fires on its own. */
  lemma ZipPatternImpliesLength(s: string)
    requires MatchesZip(s)
    ensures Utf16Length(s) >= 5
  {
  }

  // ---------------------------------------------------------------------------
  // Rules
  // ---------------------------------------------------------------------------

  /** `.min(n, message)`: at least n UTF-16 code units. */
  function MinLength(field: string, s: string, n: nat, message: string): (r: seq<Issue>)
    ensures r == [] <==> Utf16Length(s) >= n
    ensures r != [] ==> r == [Issue([field], message)]
  {
    if Utf16Length(s) < n then [Issue([field], message)] else []
  }

  /** `.max(n, message)`: at most n UTF-16 code units. */
  function MaxLength(field: string, s: string, n: nat, message: string): (r: seq<Issue>)
    ensures r == [] <==> Utf16Length(s) <= n
    ensures r != [] ==> r == [Issue([field], message)]
  {
    if Utf16Length(s) > n then [Issue([field], message)] else []
  }

  /** A pattern or refinement rule that holds when `ok`. */
  function Rule(field: string, ok: bool, message: string): (r: seq<Issue>)
    ensures r == [] <==> ok
    ensures r != [] ==> r == [Issue([field], message)]
  {
    if ok then [] else [Issue([field], message)]
  }

  /** `.optional().or(z.literal(''))` around a text rule: the empty text is
      accepted, any other text gets the rule's issues. */
  function OrEmpty(s: string, issues: seq<Issue>): (r: seq<Issue>)
    ensures r == [] <==> s == "" || issues == []
  {
    if s == "" then [] else issues
  }

  lemma EmptyConcat(a: seq<Issue>, b: seq<Issue>)
    ensures a + b == [] <==> a == [] && b == []
  {
    if a + b == [] {
      assert |a + b| == |a| + |b|;
    }
  }

  lemma EmptyConcat3(a: seq<Issue>, b: seq<Issue>, c: seq<Issue>)
    ensures a + b + c == [] <==> a == [] && b == [] && c == []
  {
    EmptyConcat(a, b);
    EmptyConcat(a + b, c);
  }

  /** Text made of name characters is as long in JavaScript as it looks. */
  lemma NameLength(s: string)
    ensures MatchesName(s) ==> Utf16Length(s) == |s|
  {
    if MatchesName(s) {
      AsciiLength(s);
    }
  }

  /** Text made of phone characters is as long in JavaScript as it looks. */
  lemma PhoneLength(s: string)
    ensures MatchesPhone(s) ==> Utf16Length(s) == |s|
  {
    if MatchesPhone(s) {
      AsciiLength(s);
    }
  }

  const NameCharsMessage: string := " can only contain letters, spaces, hyphens, and apostrophes"
  const PhoneFormatMessage: string := "Invalid phone number format"

  /** A required name: 1..100 long, only name characters. */
  function RequiredName(field: string, title: string, s: string): (r: seq<Issue>)
    ensures r == [] <==> 1 <= |s| <= 100 && MatchesName(s)
  {
    var a, b, c := MinLength(field, s, 1, title + " is required"), MaxLength(field, s, 100, title + " is too long"),
      Rule(field, MatchesName(s), title + NameCharsMessage);
    EmptyConcat3(a, b, c);
    NameLength(s);
    a + b + c
  }

  /** An optional name: empty, or at most 100 name characters. */
  function OptionalName(field: string, title: string, s: string): (r: seq<Issue>)
    ensures r == [] <==> s == "" || (|s| <= 100 && MatchesName(s))
  {
    var a, b := MaxLength(field, s, 100, title + " is too long"), Rule(field, MatchesName(s), title + NameCharsMessage);
    EmptyConcat(a, b);
    NameLength(s);
    OrEmpty(s, a + b)
  }

  /** A required phone: at least 10 long, punctuation and spaces included, and
      only phone characters. */
  function RequiredPhone(field: string, lengthMessage: string, s: string): (r: seq<Issue>)
    ensures r == [] <==> |s| >= 10 && MatchesPhone(s)
  {
    var a, b := MinLength(field, s, 10, lengthMessage), Rule(field, MatchesPhone(s), PhoneFormatMessage);
    EmptyConcat(a, b);
    PhoneLength(s);
    a + b
  }

  /** The length rule counts characters, not digits: ten characters with only
      six digits pass. */
  lemma PhoneLengthCountsPunctuation()
    ensures RequiredPhone("phonePrimary", "Phone number must be at least 10 digits", "(555) 12-3") == []
  {
    var s := "(555) 12-3";
    assert forall i :: 0 <= i < |s| ==> IsPhoneChar(s[i]);
  }

  /** A bounded text: at least `lo` and at most `hi` long. */
  function Bounded(field: string, s: string, lo: nat, loMessage: string, hi: nat, hiMessage: string): (r: seq<Issue>)
    ensures r == [] <==> lo <= Utf16Length(s) <= hi
  {
    var a, b := MinLength(field, s, lo, loMessage), MaxLength(field, s, hi, hiMessage);
    EmptyConcat(a, b);
    a + b
  }

  /** An optional text with a maximum: empty, or at most `hi` long. */
  function OptionalMax(field: string, s: string, hi: nat, message: string): (r: seq<Issue>)
    ensures r == [] <==> s == "" || Utf16Length(s) <= hi
  {
    OrEmpty(s, MaxLength(field, s, hi, message))
  }

  /** A required date: non-empty and accepted by the date check. */
  function RequiredDate(field: string, requiredMessage: string, s: string, dateOk: bool, message: string): (r: seq<Issue>)
    ensures r == [] <==> |s| >= 1 && dateOk
  {
    var a, b := MinLength(field, s, 1, requiredMessage), Rule(field, dateOk, message);
    EmptyConcat(a, b);
    a + b
  }

  // ---------------------------------------------------------------------------
  // Demographics
  // ---------------------------------------------------------------------------

  /** The submitted demographics; `gender` is None when nothing is selected. */
  datatype Demographics = Demographics(
    firstName: string, lastName: string, middleName: string, dateOfBirth: string,
    gender: Option<string>, ssnLastFour: string, email: string,
    phonePrimary: string, phoneSecondary: string,
    addressStreet: string, addressCity: string, addressState: string, addressZip: string,
    emergencyContactName: string, emergencyContactPhone: string, emergencyContactRelationship: string)

  const Genders: seq<string> := ["Male", "Female", "Non-binary", "Prefer not to say"]

  function GenderIssues(g: Option<string>): (r: seq<Issue>)
    ensures r == [] <==> g.None? || g.value in Genders
  {
    if g.None? || g.value in Genders then []
    else [Issue(["gender"], "Invalid enum value. Expected 'Male' | 'Female' | 'Non-binary' | 'Prefer not to say', received '" + g.value + "'")]
  }

  function NameIssues(d: Demographics): (r: seq<Issue>)
    ensures r == [] <==>
      && 1 <= |d.firstName| <= 100 && MatchesName(d.firstName)
      && 1 <= |d.lastName| <= 100 && MatchesName(d.lastName)
      && (d.middleName == "" || (|d.middleName| <= 100 && MatchesName(d.middleName)))
  {
    var a, b, c := RequiredName("firstName", "First name", d.firstName), RequiredName("lastName", "Last name", d.lastName),
      OptionalName("middleName", "Middle name", d.middleName);
    EmptyConcat3(a, b, c);
    a + b + c
  }

  function PersonIssues(d: Demographics, isEmail: string -> bool, dateOk: string -> bool): (r: seq<Issue>)
    ensures r == [] <==>
      && |d.dateOfBirth| >= 1 && dateOk(d.dateOfBirth)
      && (d.gender.None? || d.gender.value in Genders)
      && (d.ssnLastFour == "" || MatchesSsnLastFour(d.ssnLastFour))
      && (d.email == "" || isEmail(d.email))
  {
    var a := RequiredDate("dateOfBirth", "Date of birth is required", d.dateOfBirth, dateOk(d.dateOfBirth),
                          "Date of birth must be a valid date and cannot be in the future");
    var b := GenderIssues(d.gender);
    var c := OrEmpty(d.ssnLastFour, Rule("ssnLastFour", MatchesSsnLastFour(d.ssnLastFour), "Last 4 SSN must be exactly 4 digits"));
    var e := OrEmpty(d.email, Rule("email", isEmail(d.email), "Invalid email address"));
    EmptyConcat3(a, b, c);
    EmptyConcat(a + b + c, e);
    a + b + c + e
  }

  function PhoneIssues(d: Demographics): (r: seq<Issue>)
    ensures r == [] <==>
      && |d.phonePrimary| >= 10 && MatchesPhone(d.phonePrimary)
      && (d.phoneSecondary == "" || MatchesPhone(d.phoneSecondary))
  {
    var a := RequiredPhone("phonePrimary", "Phone number must be at least 10 digits", d.phonePrimary);
    var b := OrEmpty(d.phoneSecondary, Rule("phoneSecondary", MatchesPhone(d.phoneSecondary), PhoneFormatMessage));
    EmptyConcat(a, b);
    a + b
  }

  /** ZIP: the length rule, then the pattern. */
  function ZipIssues(s: string): (r: seq<Issue>)
    ensures r == [] <==> MatchesZip(s)
  {
    var a, b := MinLength("addressZip", s, 5, "ZIP code must be at least 5 digits"), Rule("addressZip", MatchesZip(s), "ZIP code must be 5 or 9 digits");
    EmptyConcat(a, b);
    if MatchesZip(s) then ZipPatternImpliesLength(s); a + b else a + b
  }

  function AddressIssues(d: Demographics): (r: seq<Issue>)
    ensures r == [] <==>
      && 1 <= Utf16Length(d.addressStreet) <= 255
      && 1 <= Utf16Length(d.addressCity) <= 100
      && 2 <= Utf16Length(d.addressState) <= 50
      && MatchesZip(d.addressZip)
  {
    var a := Bounded("addressStreet", d.addressStreet, 1, "Street address is required", 255, "Address is too long");
    var b := Bounded("addressCity", d.addressCity, 1, "City is required", 100, "City name is too long");
    var c := Bounded("addressState", d.addressState, 2, "State is required", 50, "State name is too long");
    var e := ZipIssues(d.addressZip);
    EmptyConcat3(a, b, c);
    EmptyConcat(a + b + c, e);
    a + b + c + e
  }

  function EmergencyContactIssues(d: Demographics): (r: seq<Issue>)
    ensures r == [] <==>
      && 1 <= Utf16Length(d.emergencyContactName) <= 200
      && |d.emergencyContactPhone| >= 10 && MatchesPhone(d.emergencyContactPhone)
      && 1 <= Utf16Length(d.emergencyContactRelationship) <= 50
  {
    var a := Bounded("emergencyContactName", d.emergencyContactName, 1, "Emergency contact name is required", 200, "Name is too long");
    var b := RequiredPhone("emergencyContactPhone", "Emergency contact phone must be at least 10 digits", d.emergencyContactPhone);
    var c := Bounded("emergencyContactRelationship", d.emergencyContactRelationship, 1, "Relationship is required", 50, "Relationship is too long");
    EmptyConcat3(a, b, c);
    a + b + c
  }

  /** The issues of the demographics schema, field by field in declaration
      order. The e-mail syntax check and the date-of-birth check are given as
      `isEmail` and `dateOk`. */
  function DemographicsIssues(d: Demographics, isEmail: string -> bool, dateOk: string -> bool): seq<Issue> {
    NameIssues(d) + PersonIssues(d, isEmail, dateOk) + PhoneIssues(d) + AddressIssues(d) + EmergencyContactIssues(d)
  }

  /** The demographics rules, field by field. */
  predicate DemographicsValid(d: Demographics, isEmail: string -> bool, dateOk: string -> bool) {
    && 1 <= |d.firstName| <= 100 && MatchesName(d.firstName)
    && 1 <= |d.lastName| <= 100 && MatchesName(d.lastName)
    && (d.middleName == "" || (|d.middleName| <= 100 && MatchesName(d.middleName)))
    && |d.dateOfBirth| >= 1 && dateOk(d.dateOfBirth)
    && (d.gender.None? || d.gender.value in Genders)
    && (d.ssnLastFour == "" || MatchesSsnLastFour(d.ssnLastFour))
    && (d.email == "" || isEmail(d.email))
    && |d.phonePrimary| >= 10 && MatchesPhone(d.phonePrimary)
    && (d.phoneSecondary == "" || MatchesPhone(d.phoneSecondary))
    && 1 <= Utf16Length(d.addressStreet) <= 255
    && 1 <= Utf16Length(d.addressCity) <= 100
    && 2 <= Utf16Length(d.addressState) <= 50
    && MatchesZip(d.addressZip)
    && 1 <= Utf16Length(d.emergencyContactName) <= 200
    && |d.emergencyContactPhone| >= 10 && MatchesPhone(d.emergencyContactPhone)
    && 1 <= Utf16Length(d.emergencyContactRelationship) <= 50
  }

  /** The schema accepts the demographics exactly when every field rule holds. */
  lemma DemographicsAccepted(d: Demographics, isEmail: string -> bool, dateOk: string -> bool)
    ensures DemographicsIssues(d, isEmail, dateOk) == [] <==> DemographicsValid(d, isEmail, dateOk)
  {
    var a, b, c, e, f := NameIssues(d), PersonIssues(d, isEmail, dateOk), PhoneIssues(d), AddressIssues(d), EmergencyContactIssues(d);
    EmptyConcat3(a, b, c);
    EmptyConcat3(a + b + c, e, f);
  }

  // ---------------------------------------------------------------------------
  // Insurance
  // ---------------------------------------------------------------------------

  /** The submitted insurance section; None is a field left undefined. */
  datatype Insurance = Insurance(
    noInsurance: Option<bool>, carrierName: Option<string>, policyNumber: Option<string>,
    groupNumber: Option<string>, subscriberName: Option<string>, subscriberRelationship: Option<string>,
    subscriberDob: Option<string>, authorizationNumber: Option<string>)

  function OptionalField(s: Option<string>, check: string -> seq<Issue>): seq<Issue> {
    if s.None? then [] else OrEmpty(s.value, check(s.value))
  }

  predicate Truthy(s: Option<string>) {
    s.Some? && s.value != ""
  }

  const InsuranceRequiredMessage: string := "Insurance carrier and subscriber name are required"

  /** The cross-field rule: with insurance, the carrier and the subscriber
      must both be given; its issue is reported on the carrier. */
  function InsuranceRefinement(ins: Insurance): (r: seq<Issue>)
    ensures r == [] <==> ins.noInsurance == Some(true) || (Truthy(ins.carrierName) && Truthy(ins.subscriberName))
    ensures r != [] ==> r == [Issue(["carrierName"], InsuranceRequiredMessage)]
  {
    if ins.noInsurance == Some(true) then []
    else Rule("carrierName", Truthy(ins.carrierName) && Truthy(ins.subscriberName), InsuranceRequiredMessage)
  }

  /** The issues of the insurance schema: the field rules, then the
      cross-field rule. A present carrier name is checked even without
      insurance, and an empty one fails. */
  function InsuranceIssues(ins: Insurance): seq<Issue> {
    (if ins.carrierName.Some? then
       Bounded("carrierName", ins.carrierName.value, 1, "Insurance carrier is required", 200, "Carrier name is too long")
     else [])
    + OptionalField(ins.policyNumber, s => MaxLength("policyNumber", s, 100, "Policy number is too long"))
    + OptionalField(ins.groupNumber, s => MaxLength("groupNumber", s, 100, "Group number is too long"))
    + OptionalField(ins.subscriberName, s => MaxLength("subscriberName", s, 200, "Subscriber name is too long"))
    + OptionalField(ins.subscriberRelationship, s => MaxLength("subscriberRelationship", s, 50, "Relationship is too long"))
    + OptionalField(ins.authorizationNumber, s => MaxLength("authorizationNumber", s, 100, "Authorization number is too long"))
    + InsuranceRefinement(ins)
  }

  /** Without insurance the cross-field rule is silent, but an empty carrier
      name still fails its own rule; with insurance, a missing or empty carrier
      or subscriber fails the cross-field rule, reported on the carrier. */
  lemma InsuranceRules(ins: Insurance)
    ensures ins.noInsurance == Some(true) ==> InsuranceRefinement(ins) == []
    ensures ins.carrierName == Some("") ==>
      Issue(["carrierName"], "Insurance carrier is required") in InsuranceIssues(ins)
    ensures ins.noInsurance != Some(true) && !(Truthy(ins.carrierName) && Truthy(ins.subscriberName)) ==>
      InsuranceIssues(ins)[|InsuranceIssues(ins)| - 1] == Issue(["carrierName"], InsuranceRequiredMessage)
  {
    if ins.carrierName == Some("") {
      var b := Bounded("carrierName", "", 1, "Insurance carrier is required", 200, "Carrier name is too long");
      assert b[0] == Issue(["carrierName"], "Insurance carrier is required");
      assert InsuranceIssues(ins)[0] == b[0];
    }
  }

  // ---------------------------------------------------------------------------
  // Medical history
  // ---------------------------------------------------------------------------

  datatype MedicalHistory = MedicalHistory(
    chiefComplaint: string, symptomOnsetDate: string, symptomDescription: string, painLevel: int,
    currentMedications: string, allergies: string, pastSurgeries: string, chronicConditions: seq<string>,
    familyHistory: string, injuryDate: string, injuryDescription: string, injuryLocation: string,
    injuryCause: string, employerName: string, occupation: string, attorneyName: string,
    attorneyFirm: string, attorneyPhone: string, caseNumber: string)

  const PainLevelMessage: string := "Pain level must be between 0 and 10"

  function PainLevelIssues(p: int): (r: seq<Issue>)
    ensures r == [] <==> 0 <= p <= 10
  {
    var a, b := Rule("painLevel", p >= 0, PainLevelMessage), Rule("painLevel", p <= 10, PainLevelMessage);
    EmptyConcat(a, b);
    a + b
  }

  function SymptomIssues(h: MedicalHistory, dateOk: string -> bool): (r: seq<Issue>)
    ensures r == [] <==>
      && 1 <= Utf16Length(h.chiefComplaint) <= 1000
      && |h.symptomOnsetDate| >= 1 && dateOk(h.symptomOnsetDate)
      && (h.symptomDescription == "" || Utf16Length(h.symptomDescription) <= 5000)
      && 0 <= h.painLevel <= 10
  {
    var a := Bounded("chiefComplaint", h.chiefComplaint, 1, "Chief complaint is required", 1000, "Chief complaint is too long");
    var b := RequiredDate("symptomOnsetDate", "Symptom onset date is required", h.symptomOnsetDate, dateOk(h.symptomOnsetDate),
                          "Symptom onset date must be a valid date");
    var c := OptionalMax("symptomDescription", h.symptomDescription, 5000, "Description is too long");
    var e := PainLevelIssues(h.painLevel);
    EmptyConcat3(a, b, c);
    EmptyConcat(a + b + c, e);
    a + b + c + e
  }

  function HistoryIssues(h: MedicalHistory): (r: seq<Issue>)
    ensures r == [] <==>
      && (h.currentMedications == "" || Utf16Length(h.currentMedications) <= 2000)
      && (h.allergies == "" || Utf16Length(h.allergies) <= 2000)
      && (h.pastSurgeries == "" || Utf16Length(h.pastSurgeries) <= 2000)
      && (h.familyHistory == "" || Utf16Length(h.familyHistory) <= 2000)
  {
    var a := OptionalMax("currentMedications", h.currentMedications, 2000, "Medications list is too long");
    var b := OptionalMax("allergies", h.allergies, 2000, "Allergies list is too long");
    var c := OptionalMax("pastSurgeries", h.pastSurgeries, 2000, "Surgeries list is too long");
    var e := OptionalMax("familyHistory", h.familyHistory, 2000, "Family history is too long");
    EmptyConcat3(a, b, c);
    EmptyConcat(a + b + c, e);
    a + b + c + e
  }

  function InjuryIssues(h: MedicalHistory): (r: seq<Issue>)
    ensures r == [] <==>
      && (h.injuryDescription == "" || Utf16Length(h.injuryDescription) <= 2000)
      && (h.injuryLocation == "" || Utf16Length(h.injuryLocation) <= 255)
      && (h.injuryCause == "" || Utf16Length(h.injuryCause) <= 2000)
      && (h.employerName == "" || Utf16Length(h.employerName) <= 200)
      && (h.occupation == "" || Utf16Length(h.occupation) <= 200)
  {
    var a := OptionalMax("injuryDescription", h.injuryDescription, 2000, "Injury description is too long");
    var b := OptionalMax("injuryLocation", h.injuryLocation, 255, "Location is too long");
    var c := OptionalMax("injuryCause", h.injuryCause, 2000, "Cause description is too long");
    var e := OptionalMax("employerName", h.employerName, 200, "Employer name is too long");
    var f := OptionalMax("occupation", h.occupation, 200, "Occupation is too long");
    EmptyConcat3(a, b, c);
    EmptyConcat3(a + b + c, e, f);
    a + b + c + e + f
  }

  function AttorneyIssues(h: MedicalHistory): (r: seq<Issue>)
    ensures r == [] <==>
      && (h.attorneyName == "" || Utf16Length(h.attorneyName) <= 200)
      && (h.attorneyFirm == "" || Utf16Length(h.attorneyFirm) <= 200)
      && (h.attorneyPhone == "" || MatchesPhone(h.attorneyPhone))
      && (h.caseNumber == "" || Utf16Length(h.caseNumber) <= 100)
  {
    var a := OptionalMax("attorneyName", h.attorneyName, 200, "Attorney name is too long");
    var b := OptionalMax("attorneyFirm", h.attorneyFirm, 200, "Law firm name is too long");
    var c := OrEmpty(h.attorneyPhone, Rule("attorneyPhone", MatchesPhone(h.attorneyPhone), PhoneFormatMessage));
    var e := OptionalMax("caseNumber", h.caseNumber, 100, "Case number is too long");
    EmptyConcat3(a, b, c);
    EmptyConcat(a + b + c, e);
    a + b + c + e
  }

  /** The issues of the medical-history schema, field by field in declaration
      order; the onset-date check is given as `dateOk`. */
  function MedicalHistoryIssues(h: MedicalHistory, dateOk: string -> bool): seq<Issue> {
    SymptomIssues(h, dateOk) + HistoryIssues(h) + InjuryIssues(h) + AttorneyIssues(h)
  }

  predicate MedicalHistoryValid(h: MedicalHistory, dateOk: string -> bool) {
    && 1 <= Utf16Length(h.chiefComplaint) <= 1000
    && |h.symptomOnsetDate| >= 1 && dateOk(h.symptomOnsetDate)
    && (h.symptomDescription == "" || Utf16Length(h.symptomDescription) <= 5000)
    && 0 <= h.painLevel <= 10
    && (h.currentMedications == "" || Utf16Length(h.currentMedications) <= 2000)
    && (h.allergies == "" || Utf16Length(h.allergies) <= 2000)
    && (h.pastSurgeries == "" || Utf16Length(h.pastSurgeries) <= 2000)
    && (h.familyHistory == "" || Utf16Length(h.familyHistory) <= 2000)
    && (h.injuryDescription == "" || Utf16Length(h.injuryDescription) <= 2000)
    && (h.injuryLocation == "" || Utf16Length(h.injuryLocation) <= 255)
    && (h.injuryCause == "" || Utf16Length(h.injuryCause) <= 2000)
    && (h.employerName == "" || Utf16Length(h.employerName) <= 200)
    && (h.occupation == "" || Utf16Length(h.occupation) <= 200)
    && (h.attorneyName == "" || Utf16Length(h.attorneyName) <= 200)
    && (h.attorneyFirm == "" || Utf16Length(h.attorneyFirm) <= 200)
    && (h.attorneyPhone == "" || MatchesPhone(h.attorneyPhone))
    && (h.caseNumber == "" || Utf16Length(h.caseNumber) <= 100)
  }

  /** The schema accepts the medical history exactly when every field rule
      holds; the injury date and the conditions are never checked. */
  lemma MedicalHistoryAccepted(h: MedicalHistory, dateOk: string -> bool)
    ensures MedicalHistoryIssues(h, dateOk) == [] <==> MedicalHistoryValid(h, dateOk)
  {
    var a, b, c, e := SymptomIssues(h, dateOk), HistoryIssues(h), InjuryIssues(h), AttorneyIssues(h);
    EmptyConcat3(a, b, c);
    EmptyConcat(a + b + c, e);
  }
}
