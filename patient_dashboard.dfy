/**
 * The operator's intake wizard: the step machine (registration, vitals,
 * symptoms, assessment, video, completed), the progress indicator, the
 * routing after triage, and the form sections each step edits.
 *
 * Creating the patient and case records and writing the assessment back are
 * database calls; the model receives their outcome as a parameter.
 */
module PatientDashboard {
  import opened Wrappers
  import Sym = Symptoms
  import VitalsForm
  import RegistrationForm
  import Triage

  /** The wizard's steps. */
  datatype Step = Registration | Vitals | Symptoms | Assessment | Video | Completed

  /** The steps shown in the progress indicator, in order; `Completed` is
      not among them. */
  const ProgressSteps: seq<Step> := [Registration, Vitals, Symptoms, Assessment, Video]

  /** The first position of `s` in `steps`, or -1 (`findIndex`). */
  function FindIndex(steps: seq<Step>, s: Step): (i: int)
    ensures -1 <= i < |steps|
    ensures i == -1 <==> s !in steps
    ensures 0 <= i ==> steps[i] == s && s !in steps[..i]
    decreases |steps|
  {
    if steps == [] then -1
    else if steps[0] == s then 0
    else
      var j := FindIndex(steps[1..], s);
      assert j >= 0 ==> steps[..j + 1] == [steps[0]] + steps[1..][..j];
      if j == -1 then -1 else j + 1
  }

  /** `getStepIndex`. */
  function StepIndex(s: Step): int
  {
    FindIndex(ProgressSteps, s)
  }

  /** The progress bar's percentage: `((index + 1) / 5) * 100`. */
  function Progress(s: Step): int
  {
    (StepIndex(s) + 1) * 100 / |ProgressSteps|
  }

  /** The indicator steps are numbered 0 to 4 in order, completed is -1,
      and progress runs 20, 40, 60, 80, 100 (0 for completed). */
  lemma ProgressValues()
    ensures StepIndex(Registration) == 0 && Progress(Registration) == 20
    ensures StepIndex(Vitals) == 1 && Progress(Vitals) == 40
    ensures StepIndex(Symptoms) == 2 && Progress(Symptoms) == 60
    ensures StepIndex(Assessment) == 3 && Progress(Assessment) == 80
    ensures StepIndex(Video) == 4 && Progress(Video) == 100
    ensures StepIndex(Completed) == -1 && Progress(Completed) == 0
  {
    EndIndices();
    LaterIndices();
  }

  lemma EndIndices()
    ensures StepIndex(Registration) == 0 && StepIndex(Video) == 4 && StepIndex(Completed) == -1
  {
    assert ProgressSteps[4..] == [Video];
    assert Video !in ProgressSteps[..4];
  }

  lemma LaterIndices()
    ensures StepIndex(Vitals) == 1 && StepIndex(Symptoms) == 2 && StepIndex(Assessment) == 3
  {
    var tail := ProgressSteps[1..];
    assert tail == [Vitals, Symptoms, Assessment, Video];
    assert tail[1..] == [Symptoms, Assessment, Video];
    assert tail[2..] == [Assessment, Video];
  }

  /** Progress is 20 times the step's position plus one, for every step but
      completed. */
  lemma ProgressOfIndex(s: Step)
    requires s != Completed
    ensures 20 <= Progress(s) <= 100
    ensures Progress(s) == (StepIndex(s) + 1) * 20
  {
    ProgressValues();
  }

  /** The buttons that move between steps without other work. */
  datatype NavEvent =
    | RegistrationNext  // registration form "Next"
    | VitalsNext        // vitals form "Next"
    | VitalsBack        // vitals form "Back"
    | SymptomsBack      // symptoms form "Back"
    | VideoBack         // video recorder "Back"

  /** The step on which each button is shown. */
  function ShownOn(e: NavEvent): Step
  {
    match e
    case RegistrationNext => Registration
    case VitalsNext | VitalsBack => Vitals
    case SymptomsBack => Symptoms
    case VideoBack => Video
  }

  /** The step each button sets. */
  function Target(e: NavEvent): Step
  {
    match e
    case RegistrationNext => Vitals
    case VitalsNext => Symptoms
    case VitalsBack => Registration
    case SymptomsBack => Vitals
    case VideoBack => Symptoms
  }

  /** A button press: it only exists on its own step. */
  function Navigate(s: Step, e: NavEvent): (r: Step)
    ensures ShownOn(e) == s ==> r == Target(e)
    ensures ShownOn(e) != s ==> r == s
  {
    if ShownOn(e) == s then Target(e) else s
  }

  /** Every navigation edge moves one position along the indicator, and
      only "Next" moves forward. */
  lemma {:induction false} NavigationIsOneStep(e: NavEvent)
    ensures var from, to := StepIndex(ShownOn(e)), StepIndex(Target(e));
            (e == RegistrationNext || e == VitalsNext) ==> to == from + 1
    ensures var from, to := StepIndex(ShownOn(e)), StepIndex(Target(e));
            (e == VitalsBack || e == SymptomsBack) ==> to == from - 1
    ensures e == VideoBack ==> StepIndex(Target(e)) == StepIndex(ShownOn(e)) - 2
  {
    ProgressValues();
  }

  /** No button leaves the assessment or completed step: the result view
      has no callbacks, and only "Start New Case" leaves completed. */
  lemma NoExitByNavigation(s: Step, e: NavEvent)
    requires s == Assessment || s == Completed
    ensures Navigate(s, e) == s
  {
  }

  /** The step after a successful assessment. */
  function RouteAfterAssessment(status: Triage.Status): (r: Step)
    ensures r == Video <==> status == Triage.Moderate
    ensures r == Completed <==> status != Triage.Moderate
  {
    if status == Triage.Simple then Completed
    else if status == Triage.Moderate then Video
    else Completed
  }

  /** Only a severity score from 4 to 6 leads to the video step. */
  lemma {:induction false} VideoExactlyForModerateScores(score: int)
    ensures RouteAfterAssessment(Triage.StatusOf(score)) == Video <==> 4 <= score <= 6
  {
  }

  /** The three form sections. */
  datatype FormData = FormData(
    patientInfo: RegistrationForm.PatientInfo,
    vitals: VitalsForm.Vitals,
    symptoms: seq<Sym.Symptom>)

  const EmptyForm := FormData(RegistrationForm.EmptyPatientInfo, VitalsForm.EmptyVitals, [])

  /** The dashboard's state. */
  class Dashboard {
    var currentStep: Step
    var formData: FormData
    var assessmentResult: Option<Triage.Assessment>
    var currentCaseId: Option<string>
    /** The `useAIAssessment` hook this dashboard uses. */
    const assessor: Triage.Assessor

    constructor ()
      ensures currentStep == Registration && formData == EmptyForm
      ensures assessmentResult == None && currentCaseId == None
      ensures fresh(assessor) && !assessor.isAssessing
    {
      currentStep := Registration;
      formData := EmptyForm;
      assessmentResult := None;
      currentCaseId := None;
      assessor := new Triage.Assessor();
    }

    /** `handlePatientInfoUpdate`: only the patient section changes. */
    method HandlePatientInfoUpdate(data: RegistrationForm.PatientInfo)
      modifies this
      ensures formData == old(formData).(patientInfo := data)
      ensures formData.vitals == old(formData.vitals) && formData.symptoms == old(formData.symptoms)
      ensures currentStep == old(currentStep) && assessmentResult == old(assessmentResult) && currentCaseId == old(currentCaseId)
    {
      formData := formData.(patientInfo := data);
    }

    /** `handleVitalsUpdate`: only the vitals section changes. */
    method HandleVitalsUpdate(data: VitalsForm.Vitals)
      modifies this
      ensures formData == old(formData).(vitals := data)
      ensures formData.patientInfo == old(formData.patientInfo) && formData.symptoms == old(formData.symptoms)
      ensures currentStep == old(currentStep) && assessmentResult == old(assessmentResult) && currentCaseId == old(currentCaseId)
    {
      formData := formData.(vitals := data);
    }

    /** `handleSymptomsUpdate`: only the symptom list changes. */
    method HandleSymptomsUpdate(data: seq<Sym.Symptom>)
      modifies this
      ensures formData == old(formData).(symptoms := data)
      ensures formData.patientInfo == old(formData.patientInfo) && formData.vitals == old(formData.vitals)
      ensures currentStep == old(currentStep) && assessmentResult == old(assessmentResult) && currentCaseId == old(currentCaseId)
    {
      formData := formData.(symptoms := data);
    }

    /** A navigation button. */
    method Press(e: NavEvent)
      modifies this
      ensures currentStep == Navigate(old(currentStep), e)
      ensures formData == old(formData) && assessmentResult == old(assessmentResult) && currentCaseId == old(currentCaseId)
    {
      if ShownOn(e) == currentStep {
        currentStep := Target(e);
      }
    }

    /** `handleAssessment`. `created` is the id of the new case, or `None`
        when creating the patient or case record failed. The step becomes
        'assessment' first and stays there on failure. */
    method HandleAssessment(created: Option<string>)
      modifies this, assessor
      ensures formData == old(formData)
      ensures created.None? ==> currentStep == Assessment && assessor.isAssessing == old(assessor.isAssessing) &&
                                assessmentResult == old(assessmentResult) && currentCaseId == old(currentCaseId)
      ensures created.Some? ==> currentCaseId == created && !assessor.isAssessing &&
                                assessmentResult == Some(Triage.Assess(formData.vitals, formData.symptoms)) &&
                                currentStep == RouteAfterAssessment(assessmentResult.value.status)
    {
      currentStep := Assessment;
      if created.Some? {
        RecordAssessment(created.value);
      }
    }

    /** The part of `handleAssessment` after the case record exists: assess,
        keep the result, and route on its status. */
    method RecordAssessment(caseId: string)
      modifies this, assessor
      ensures var a := Triage.Assess(old(formData).vitals, old(formData).symptoms);
              (formData, currentCaseId, assessmentResult, currentStep, assessor.isAssessing)
              == (old(formData), Some(caseId), Some(a), RouteAfterAssessment(a.status), false)
    {
      var vitals, symptoms := formData.vitals, formData.symptoms;
      var result := assessor.AssessPatient(vitals, symptoms);
      KeepResult(caseId, result);
    }

    /** Store the case id and the assessment, and route on its status. */
    method KeepResult(caseId: string, result: Triage.Assessment)
      modifies this
      ensures (formData, currentCaseId, assessmentResult, currentStep)
              == (old(formData), Some(caseId), Some(result), RouteAfterAssessment(result.status))
    {
      currentCaseId := Some(caseId);
      assessmentResult := Some(result);
      currentStep := RouteAfterAssessment(result.status);
    }

    /** `handleVideoComplete`: always ends the case. */
    method HandleVideoComplete(videoUrl: string)
      modifies this
      ensures currentStep == Completed
      ensures formData == old(formData) && assessmentResult == old(assessmentResult) && currentCaseId == old(currentCaseId)
    {
      currentStep := Completed;
    }

    /** `startNewCase`: back to an empty registration. */
    method StartNewCase()
      modifies this
      ensures currentStep == Registration && formData == EmptyForm
      ensures assessmentResult == None && currentCaseId == None
    {
      currentStep := Registration;
      formData := EmptyForm;
      assessmentResult := None;
      currentCaseId := None;
    }
  }
}
