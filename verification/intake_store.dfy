/** The intake wizard's store: the step of the wizard, the three form sections
    being filled in, the signature and the ids given by the backend. */
module IntakeStore {
  import opened Shared

  /** A value held by a section field; `Undefined` is a key present with the
      value `undefined`. */
  datatype FieldData = Text(text: string) | Number(number: int) | Flag(flag: bool) | TextList(items: seq<string>) | Undefined

  /** A partially filled section: the keys it holds and their values. */
  type Section = map<string, FieldData>

  const FirstStep: int := 1
  const LastStep: int := 4

  const InitialDemographics: Section := map[
    "firstName" := Text(""), "lastName" := Text(""), "middleName" := Text(""),
    "dateOfBirth" := Text(""), "gender" := Undefined, "ssnLastFour" := Text(""),
    "email" := Text(""), "phonePrimary" := Text(""), "phoneSecondary" := Text(""),
    "addressStreet" := Text(""), "addressCity" := Text(""), "addressState" := Text(""),
    "addressZip" := Text(""), "emergencyContactName" := Text(""),
    "emergencyContactPhone" := Text(""), "emergencyContactRelationship" := Text("")
  ]

  const InitialInsurance: Section := map[
    "carrierName" := Text(""), "policyNumber" := Text(""), "groupNumber" := Text(""),
    "subscriberName" := Text(""), "subscriberRelationship" := Text(""),
    "subscriberDob" := Text(""), "authorizationNumber" := Text(""), "noInsurance" := Flag(false)
  ]

  const InitialMedicalHistory: Section := map[
    "chiefComplaint" := Text(""), "symptomOnsetDate" := Text(""), "symptomDescription" := Text(""),
    "painLevel" := Number(0), "currentMedications" := Text(""), "allergies" := Text(""),
    "pastSurgeries" := Text(""), "chronicConditions" := TextList([]), "familyHistory" := Text(""),
    "injuryDate" := Text(""), "injuryDescription" := Text(""), "injuryLocation" := Text(""),
    "injuryCause" := Text(""), "employerName" := Text(""), "occupation" := Text(""),
    "attorneyName" := Text(""), "attorneyFirm" := Text(""), "attorneyPhone" := Text(""),
    "caseNumber" := Text("")
  ]

  /** `{ ...section, ...patch }`: the patch's keys take the patch's values,
      every other key keeps its value, and no key is lost or invented. */
  function Merge(section: Section, patch: Section): (r: Section)
    ensures r.Keys == section.Keys + patch.Keys
    ensures forall k :: k in patch ==> r[k] == patch[k]
    ensures forall k :: k in section && k !in patch ==> r[k] == section[k]
  {
    section + patch
  }

  /** Merging the same patch twice is merging it once; an empty patch changes
      nothing. */
  lemma MergeIdempotent(section: Section, patch: Section)
    ensures Merge(Merge(section, patch), patch) == Merge(section, patch)
    ensures Merge(section, map[]) == section
  {
  }

  /** Merging one patch after another is merging the second over the first. */
  lemma MergeSequence(section: Section, p: Section, q: Section)
    ensures Merge(Merge(section, p), q) == Merge(section, Merge(p, q))
  {
  }

  /** `Math.min(step + 1, 4)`. */
  function NextStepOf(step: int): (r: int)
    ensures r <= LastStep
    ensures step < LastStep ==> r == step + 1
    ensures step >= LastStep ==> r == LastStep
  {
    Min(step + 1, LastStep)
  }

  /** `Math.max(step - 1, 1)`. */
  function PrevStepOf(step: int): (r: int)
    ensures r >= FirstStep
    ensures step > FirstStep ==> r == step - 1
    ensures step <= FirstStep ==> r == FirstStep
  {
    Max(step - 1, FirstStep)
  }

  predicate StepInRange(step: int) {
    FirstStep <= step <= LastStep
  }

  /** Next and previous keep a step within 1..4, and undo each other strictly
      inside the range. */
  lemma StepNavigation(step: int)
    requires StepInRange(step)
    ensures StepInRange(NextStepOf(step)) && StepInRange(PrevStepOf(step))
    ensures step < LastStep ==> PrevStepOf(NextStepOf(step)) == step
    ensures step > FirstStep ==> NextStepOf(PrevStepOf(step)) == step
    ensures NextStepOf(LastStep) == LastStep && PrevStepOf(FirstStep) == FirstStep
  {
  }

  /** From a step stored out of range by `setStep`, next and previous move it
      back into range only from one side: next from above 4 gives 4, previous
      from below 1 gives 1, but previous from above 5 stays above 4. */
  lemma OutOfRangeSteps(step: int)
    ensures step > LastStep ==> NextStepOf(step) == LastStep
    ensures step < FirstStep ==> PrevStepOf(step) == FirstStep
    ensures step > LastStep + 1 ==> !StepInRange(PrevStepOf(step))
  {
  }

  class IntakeForm {
    var sessionId: Option<string>
    var patientId: Option<string>
    var currentStep: int
    var demographics: Section
    var insurance: Section
    var medicalHistory: Section
    var signature: Option<string>

    /** The store in its initial state. */
    ghost predicate Initial()
      reads this
    {
      && sessionId == None && patientId == None && currentStep == FirstStep
      && demographics == InitialDemographics && insurance == InitialInsurance
      && medicalHistory == InitialMedicalHistory && signature == None
    }

    constructor ()
      ensures Initial()
    {
      sessionId := None;
      patientId := None;
      currentStep := FirstStep;
      demographics := InitialDemographics;
      insurance := InitialInsurance;
      medicalHistory := InitialMedicalHistory;
      signature := None;
    }

    method SetDemographics(patch: Section)
      modifies this
      ensures demographics == Merge(old(demographics), patch)
      ensures insurance == old(insurance) && medicalHistory == old(medicalHistory)
      ensures currentStep == old(currentStep) && signature == old(signature)
      ensures sessionId == old(sessionId) && patientId == old(patientId)
    {
      demographics := Merge(demographics, patch);
    }

    method SetInsurance(patch: Section)
      modifies this
      ensures insurance == Merge(old(insurance), patch)
      ensures demographics == old(demographics) && medicalHistory == old(medicalHistory)
      ensures currentStep == old(currentStep) && signature == old(signature)
      ensures sessionId == old(sessionId) && patientId == old(patientId)
    {
      insurance := Merge(insurance, patch);
    }

    method SetMedicalHistory(patch: Section)
      modifies this
      ensures medicalHistory == Merge(old(medicalHistory), patch)
      ensures demographics == old(demographics) && insurance == old(insurance)
      ensures currentStep == old(currentStep) && signature == old(signature)
      ensures sessionId == old(sessionId) && patientId == old(patientId)
    {
      medicalHistory := Merge(medicalHistory, patch);
    }

    method SetSignature(s: string)
      modifies this
      ensures signature == Some(s)
      ensures demographics == old(demographics) && insurance == old(insurance) && medicalHistory == old(medicalHistory)
      ensures currentStep == old(currentStep) && sessionId == old(sessionId) && patientId == old(patientId)
    {
      signature := Some(s);
    }

    method NextStep()
      modifies this
      ensures currentStep == NextStepOf(old(currentStep))
      ensures old(StepInRange(currentStep)) ==> StepInRange(currentStep)
      ensures demographics == old(demographics) && insurance == old(insurance) && medicalHistory == old(medicalHistory)
      ensures signature == old(signature) && sessionId == old(sessionId) && patientId == old(patientId)
    {
      currentStep := Min(currentStep + 1, LastStep);
    }

    method PrevStep()
      modifies this
      ensures currentStep == PrevStepOf(old(currentStep))
      ensures old(StepInRange(currentStep)) ==> StepInRange(currentStep)
      ensures demographics == old(demographics) && insurance == old(insurance) && medicalHistory == old(medicalHistory)
      ensures signature == old(signature) && sessionId == old(sessionId) && patientId == old(patientId)
    {
      currentStep := Max(currentStep - 1, FirstStep);
    }

    /** Stores the step as given, without clamping. */
    method SetStep(step: int)
      modifies this
      ensures currentStep == step
      ensures demographics == old(demographics) && insurance == old(insurance) && medicalHistory == old(medicalHistory)
      ensures signature == old(signature) && sessionId == old(sessionId) && patientId == old(patientId)
    {
      currentStep := step;
    }

    method SetSessionId(id: string)
      modifies this
      ensures sessionId == Some(id)
      ensures demographics == old(demographics) && insurance == old(insurance) && medicalHistory == old(medicalHistory)
      ensures currentStep == old(currentStep) && signature == old(signature) && patientId == old(patientId)
    {
      sessionId := Some(id);
    }

    method SetPatientId(id: string)
      modifies this
      ensures patientId == Some(id)
      ensures demographics == old(demographics) && insurance == old(insurance) && medicalHistory == old(medicalHistory)
      ensures currentStep == old(currentStep) && signature == old(signature) && sessionId == old(sessionId)
    {
      patientId := Some(id);
    }

    /** Restores every field to its initial value, from any state. */
    method Reset()
      modifies this
      ensures Initial()
    {
      sessionId := None;
      patientId := None;
      currentStep := FirstStep;
      demographics := InitialDemographics;
      insurance := InitialInsurance;
      medicalHistory := InitialMedicalHistory;
      signature := None;
    }
  }
}
