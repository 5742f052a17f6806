/** The medical-history step of the intake wizard: the chronic conditions are
    chosen by toggling, the pain level comes from a slider, and a submission
    is checked against the medical-history schema before it is saved. */
module MedicalHistoryForm {
  import opened Shared
  import opened Validation
  import IntakeStore
  import DemographicsForm

  // ---------------------------------------------------------------------------
  // Chronic conditions
  // ---------------------------------------------------------------------------

  /** `list.filter(c => c !== condition)`. */
  function Without(list: seq<string>, condition: string): (r: seq<string>)
    ensures condition !in r
    ensures |r| <= |list|
  {
    if list == [] then []
    else (if list[0] == condition then [] else [list[0]]) + Without(list[1..], condition)
  }

  /** Removing a condition keeps every other entry, in order, and as often. */
  lemma {:induction false} WithoutKeepsOthers(list: seq<string>, condition: string)
    ensures forall x :: x != condition ==> multiset(Without(list, condition))[x] == multiset(list)[x]
    ensures condition !in list ==> Without(list, condition) == list
  {
    if list != [] {
      WithoutKeepsOthers(list[1..], condition);
      assert list == [list[0]] + list[1..];
    }
  }

  /** `toggleCondition`: a selected condition is removed (every copy of it),
      an unselected one is appended. */
  function Toggle(list: seq<string>, condition: string): (r: seq<string>)
    ensures condition in r <==> condition !in list
  {
    if condition in list then Without(list, condition) else list + [condition]
  }

  /** Toggling an unselected condition appends it at the end; toggling a
      selected one drops all its copies and keeps everything else in order;
      toggling an unselected condition twice restores the list. */
  lemma ToggleProperties(list: seq<string>, condition: string)
    ensures condition !in list ==> Toggle(list, condition) == list + [condition]
    ensures condition in list ==> Toggle(list, condition) == Without(list, condition)
    ensures forall x :: x != condition ==> multiset(Toggle(list, condition))[x] == multiset(list)[x]
    ensures condition !in list ==> Toggle(Toggle(list, condition), condition) == list
  {
    WithoutKeepsOthers(list, condition);
    if condition !in list {
      WithoutAppended(list, condition);
    }
  }

  lemma {:induction false} WithoutAppended(list: seq<string>, condition: string)
    requires condition !in list
    ensures Without(list + [condition], condition) == list
  {
    if list == [] {
      assert Without([condition], condition) == [] + Without([], condition);
    } else {
      assert (list + [condition])[1..] == list[1..] + [condition];
      WithoutAppended(list[1..], condition);
    }
  }

  /** The selection shown at first: the stored conditions, or none. */
  function InitialConditions(section: IntakeStore.Section): (r: seq<string>)
    ensures "chronicConditions" in section && section["chronicConditions"].TextList? ==>
      r == section["chronicConditions"].items
    ensures !("chronicConditions" in section && section["chronicConditions"].TextList?) ==> r == []
  {
    if "chronicConditions" in section && section["chronicConditions"].TextList? then section["chronicConditions"].items else []
  }

  // ---------------------------------------------------------------------------
  // Pain level
  // ---------------------------------------------------------------------------

  /** `Number(text) || 0` for the text the slider writes: a decimal numeral,
      possibly negative, gives its value; anything else, the empty text and a
      missing element give 0. */
  function PainLevelOf(text: Option<string>): (r: int)
    ensures text.None? || text == Some("") ==> r == 0
  {
    if text.None? then 0
    else
      var s := text.value;
      if |s| >= 1 && AllDigits(s) then DigitsValue(s)
      else if |s| >= 2 && s[0] == '-' && AllDigits(s[1..]) then 0 - DigitsValue(s[1..]) as int
      else 0
  }

  /** The slider's own values come back unchanged. */
  lemma SliderRoundTrip(level: nat)
    ensures PainLevelOf(Some(NatToString(level))) == level
  {
    NatToStringRoundTrip(level);
  }

  // ---------------------------------------------------------------------------
  // Submission
  // ---------------------------------------------------------------------------

  /** The submitted data: each text field is its element's text, or "" when
      the element is missing; the conditions are the current selection. */
  function Submitted(elements: map<string, string>, selected: seq<string>): (h: MedicalHistory)
    ensures h.chronicConditions == selected
    ensures h.painLevel == PainLevelOf(if "painLevel" in elements then Some(elements["painLevel"]) else None)
  {
    MedicalHistory(
      DemographicsForm.ElementText(elements, "chiefComplaint"), DemographicsForm.ElementText(elements, "symptomOnsetDate"),
      DemographicsForm.ElementText(elements, "symptomDescription"),
      PainLevelOf(if "painLevel" in elements then Some(elements["painLevel"]) else None),
      DemographicsForm.ElementText(elements, "currentMedications"), DemographicsForm.ElementText(elements, "allergies"),
      DemographicsForm.ElementText(elements, "pastSurgeries"), selected, DemographicsForm.ElementText(elements, "familyHistory"),
      DemographicsForm.ElementText(elements, "injuryDate"), DemographicsForm.ElementText(elements, "injuryDescription"),
      DemographicsForm.ElementText(elements, "injuryLocation"), DemographicsForm.ElementText(elements, "injuryCause"),
      DemographicsForm.ElementText(elements, "employerName"), DemographicsForm.ElementText(elements, "occupation"),
      DemographicsForm.ElementText(elements, "attorneyName"), DemographicsForm.ElementText(elements, "attorneyFirm"),
      DemographicsForm.ElementText(elements, "attorneyPhone"), DemographicsForm.ElementText(elements, "caseNumber"))
  }

  /** The submitted data as a store section, with every medical-history key. */
  function AsSection(h: MedicalHistory): (r: IntakeStore.Section)
    ensures r.Keys == IntakeStore.InitialMedicalHistory.Keys
    ensures r["painLevel"] == IntakeStore.Number(h.painLevel)
    ensures r["chronicConditions"] == IntakeStore.TextList(h.chronicConditions)
  {
    map[
      "chiefComplaint" := IntakeStore.Text(h.chiefComplaint), "symptomOnsetDate" := IntakeStore.Text(h.symptomOnsetDate),
      "symptomDescription" := IntakeStore.Text(h.symptomDescription), "painLevel" := IntakeStore.Number(h.painLevel),
      "currentMedications" := IntakeStore.Text(h.currentMedications), "allergies" := IntakeStore.Text(h.allergies),
      "pastSurgeries" := IntakeStore.Text(h.pastSurgeries), "chronicConditions" := IntakeStore.TextList(h.chronicConditions),
      "familyHistory" := IntakeStore.Text(h.familyHistory), "injuryDate" := IntakeStore.Text(h.injuryDate),
      "injuryDescription" := IntakeStore.Text(h.injuryDescription), "injuryLocation" := IntakeStore.Text(h.injuryLocation),
      "injuryCause" := IntakeStore.Text(h.injuryCause), "employerName" := IntakeStore.Text(h.employerName),
      "occupation" := IntakeStore.Text(h.occupation), "attorneyName" := IntakeStore.Text(h.attorneyName),
      "attorneyFirm" := IntakeStore.Text(h.attorneyFirm), "attorneyPhone" := IntakeStore.Text(h.attorneyPhone),
      "caseNumber" := IntakeStore.Text(h.caseNumber)
    ]
  }

  /** A saved selection is offered again when the step is shown anew. */
  lemma SavedSelectionReturns(section: IntakeStore.Section, h: MedicalHistory)
    ensures InitialConditions(IntakeStore.Merge(section, AsSection(h))) == h.chronicConditions
  {
  }

  class Form {
    var errors: map<string, string>
    var selectedConditions: seq<string>
    const store: IntakeStore.IntakeForm

    constructor (store: IntakeStore.IntakeForm)
      ensures this.store == store && errors == map[]
      ensures selectedConditions == InitialConditions(store.medicalHistory)
    {
      this.store := store;
      errors := map[];
      selectedConditions := InitialConditions(store.medicalHistory);
    }

    method ToggleCondition(condition: string)
      modifies this
      ensures selectedConditions == Toggle(old(selectedConditions), condition)
      ensures errors == old(errors)
    {
      selectedConditions := Toggle(selectedConditions, condition);
    }

    /** Submits the form with the current selection. Accepted data is merged
        into the store's medical history, the errors are cleared and
        `advanced` is true; rejected data leaves the store alone and shows
        each field's last message. */
    method HandleSubmit(elements: map<string, string>, dateOk: string -> bool) returns (advanced: bool)
      modifies this, store
      ensures advanced <==> MedicalHistoryValid(Submitted(elements, old(selectedConditions)), dateOk)
      ensures advanced ==> errors == map[]
      ensures advanced ==>
        store.medicalHistory == IntakeStore.Merge(old(store.medicalHistory), AsSection(Submitted(elements, old(selectedConditions))))
      ensures !advanced ==> errors == DemographicsForm.ErrorsFrom(MedicalHistoryIssues(Submitted(elements, old(selectedConditions)), dateOk))
                            && store.medicalHistory == old(store.medicalHistory)
      ensures selectedConditions == old(selectedConditions)
      ensures store.demographics == old(store.demographics) && store.insurance == old(store.insurance)
      ensures store.currentStep == old(store.currentStep) && store.signature == old(store.signature)
      ensures store.sessionId == old(store.sessionId) && store.patientId == old(store.patientId)
    {
      advanced := Decide(Submitted(elements, selectedConditions), dateOk);
    }

    /** The checks and the two outcomes for the submitted data `data`. */
    method Decide(data: MedicalHistory, dateOk: string -> bool) returns (advanced: bool)
      modifies this, store
      ensures advanced <==> MedicalHistoryValid(data, dateOk)
      ensures advanced ==> errors == map[] && store.medicalHistory == IntakeStore.Merge(old(store.medicalHistory), AsSection(data))
      ensures !advanced ==> errors == DemographicsForm.ErrorsFrom(MedicalHistoryIssues(data, dateOk))
                            && store.medicalHistory == old(store.medicalHistory)
      ensures selectedConditions == old(selectedConditions)
      ensures store.demographics == old(store.demographics) && store.insurance == old(store.insurance)
      ensures store.currentStep == old(store.currentStep) && store.signature == old(store.signature)
      ensures store.sessionId == old(store.sessionId) && store.patientId == old(store.patientId)
    {
      MedicalHistoryAccepted(data, dateOk);
      advanced := Settle(MedicalHistoryIssues(data, dateOk), AsSection(data));
    }

    /** The two outcomes of a submission: without issues the section is
        saved and the errors are cleared, otherwise the store is left alone
        and the issues' messages are shown. */
    method Settle(issues: seq<Issue>, section: IntakeStore.Section) returns (advanced: bool)
      modifies this, store
      ensures advanced <==> issues == []
      ensures advanced ==> errors == map[] && store.medicalHistory == IntakeStore.Merge(old(store.medicalHistory), section)
      ensures !advanced ==> errors == DemographicsForm.ErrorsFrom(issues) && store.medicalHistory == old(store.medicalHistory)
      ensures selectedConditions == old(selectedConditions)
      ensures store.demographics == old(store.demographics) && store.insurance == old(store.insurance)
      ensures store.currentStep == old(store.currentStep) && store.signature == old(store.signature)
      ensures store.sessionId == old(store.sessionId) && store.patientId == old(store.patientId)
    {
      if issues == [] {
        store.SetMedicalHistory(section);
        errors := map[];
        advanced := true;
      } else {
        errors := DemographicsForm.CollectFieldErrors(issues);
        advanced := false;
      }
    }
  }
}
