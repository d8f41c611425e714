/**
  * The four-step planner wizard: class (and stream), subjects, daily hours and
  * exam date. The step counter and the form fields are state that the
  * buttons and inputs update; whether the current step may proceed and the
  * total-hours summary are computed from them. The exam date is modelled by
  * the whole number of days until it (`differenceInDays` against the clock),
  * None while no date is picked.
  */
module PlannerForm {
  import opened Text
  import PlannerData
  import SubjectSelector

  datatype Form = Form(
    classLevel: string,
    stream: string,
    selected: seq<SubjectSelector.SelectedSubject>,
    dailyHours: int,
    daysUntilExam: Option<int>)

  const FirstStep: int := 1
  const LastStep: int := 4

  function InitialForm(): (f: Form)
    ensures f.classLevel == "" && f.stream == "" && f.selected == []
    ensures f.dailyHours == 4 && f.daysUntilExam.None?
  {
    Form("", "", [], 4, None)
  }

  /** `needsStream`: the chosen class level is listed and its category is higher-secondary. */
  function NeedsStream(classLevel: string): (needs: bool)
    ensures needs ==> exists i :: 0 <= i < |PlannerData.ClassLevels()| && PlannerData.ClassLevels()[i].value == classLevel &&
                                  PlannerData.ClassLevels()[i].category == "higher-secondary"
  {
    match PlannerData.FindLevel(PlannerData.ClassLevels(), classLevel)
    case None => false
    case Some(level) => level.category == "higher-secondary"
  }

  /** `canProceed` for the given step. */
  function CanProceed(step: int, f: Form): (ok: bool)
    ensures ok ==> FirstStep <= step <= LastStep
    ensures step == 1 ==> (ok <==> f.classLevel != "" && (NeedsStream(f.classLevel) ==> f.stream != ""))
    ensures step == 2 ==> (ok <==> |f.selected| >= 1)
    ensures step == 3 ==> (ok <==> f.dailyHours >= 1)
    ensures step == 4 ==> (ok <==> f.daysUntilExam.Some? && f.daysUntilExam.value >= 1)
  {
    if step == 1 then f.classLevel != "" && (!NeedsStream(f.classLevel) || f.stream != "")
    else if step == 2 then |f.selected| > 0
    else if step == 3 then f.dailyHours >= 1
    else if step == 4 then f.daysUntilExam.Some? && f.daysUntilExam.value > 0
    else false
  }

  /** `handleNext`: one step forward, never past the last. */
  function NextStep(step: int): int {
    if step < LastStep then step + 1 else step
  }

  /** `handleBack`: one step back, never before the first. */
  function BackStep(step: int): int {
    if step > FirstStep then step - 1 else step
  }

  /** The "Total Study Hours" summary: `daysUntilExam ? daysUntilExam * dailyHours : 0`. */
  function TotalHours(f: Form): (total: int)
    ensures total == 0 <==> f.daysUntilExam.None? || f.daysUntilExam.value == 0 || f.dailyHours == 0
    ensures f.daysUntilExam.Some? && f.daysUntilExam.value >= 0 && f.dailyHours >= 0 ==> total >= 0
  {
    match f.daysUntilExam
    case None => 0
    case Some(days) => if days != 0 then days * f.dailyHours else 0
  }

  class PlannerWizard {
    var step: int
    var classLevel: string
    var stream: string
    var selected: seq<SubjectSelector.SelectedSubject>
    var dailyHours: int
    var daysUntilExam: Option<int>

    function CurrentForm(): Form
      reads this
    {
      Form(classLevel, stream, selected, dailyHours, daysUntilExam)
    }

    /** The step lies in 1..4 and the daily hours within the slider's 1..12. */
    predicate Valid()
      reads this
    {
      FirstStep <= step <= LastStep && 1 <= dailyHours <= 12
    }

    constructor ()
      ensures step == 1 && CurrentForm() == InitialForm() && Valid()
    {
      step := 1;
      classLevel := "";
      stream := "";
      selected := [];
      dailyHours := 4;
      daysUntilExam := None;
    }

    method HandleNext()
      modifies this
      requires Valid()
      ensures step == NextStep(old(step)) && CurrentForm() == old(CurrentForm()) && Valid()
    {
      if step < 4 {
        step := step + 1;
      }
    }

    method HandleBack()
      modifies this
      requires Valid()
      ensures step == BackStep(old(step)) && CurrentForm() == old(CurrentForm()) && Valid()
    {
      if step > 1 {
        step := step - 1;
      }
    }

    /** The Next button: shown before the last step and enabled only when the step may proceed. */
    method PressNext()
      modifies this
      requires Valid()
      ensures step == (if old(step) < LastStep && CanProceed(old(step), old(CurrentForm())) then old(step) + 1 else old(step))
      ensures CurrentForm() == old(CurrentForm()) && Valid()
    {
      if step < 4 && CanProceed(step, CurrentForm()) {
        HandleNext();
      }
    }

    method SetClassLevel(value: string)
      modifies this
      requires Valid()
      ensures CurrentForm() == old(CurrentForm()).(classLevel := value) && step == old(step) && Valid()
    {
      classLevel := value;
    }

    method SetStream(value: string)
      modifies this
      requires Valid()
      ensures CurrentForm() == old(CurrentForm()).(stream := value) && step == old(step) && Valid()
    {
      stream := value;
    }

    method SetSelectedSubjects(subjects: seq<SubjectSelector.SelectedSubject>)
      modifies this
      requires Valid()
      ensures CurrentForm() == old(CurrentForm()).(selected := subjects) && step == old(step) && Valid()
    {
      selected := subjects;
    }

    /** The slider reports whole hours between its bounds 1 and 12. */
    method SetDailyHours(hours: int)
      modifies this
      requires Valid() && 1 <= hours <= 12
      ensures CurrentForm() == old(CurrentForm()).(dailyHours := hours) && step == old(step) && Valid()
    {
      dailyHours := hours;
    }

    method SetExamDays(days: Option<int>)
      modifies this
      requires Valid()
      ensures CurrentForm() == old(CurrentForm()).(daysUntilExam := days) && step == old(step) && Valid()
    {
      daysUntilExam := days;
    }
  }

  /** Next and Back keep the step within 1..4, and each moves it by at most one. */
  lemma StepStaysInRange(step: int)
    requires FirstStep <= step <= LastStep
    ensures FirstStep <= NextStep(step) <= LastStep && FirstStep <= BackStep(step) <= LastStep
    ensures NextStep(step) == step + 1 || (step == LastStep && NextStep(step) == step)
    ensures BackStep(step) == step - 1 || (step == FirstStep && BackStep(step) == step)
  {
  }

  /** Only the four wizard steps can ever proceed. */
  lemma OtherStepsCannotProceed(step: int, f: Form)
    requires step < FirstStep || step > LastStep
    ensures !CanProceed(step, f)
  {
  }

  /** A stream is asked for exactly at the two higher-secondary levels of the catalogue. */
  lemma NeedsStreamAtHigherSecondary(i: int)
    requires 0 <= i < |PlannerData.ClassLevels()|
    ensures NeedsStream(PlannerData.ClassLevels()[i].value) <==> PlannerData.ClassLevels()[i].category == "higher-secondary"
  {
    PlannerData.FindListedLevel(i);
  }

  /** A class value outside the catalogue never asks for a stream. */
  lemma UnlistedLevelNeedsNoStream(classLevel: string)
    requires !PlannerData.IsListedLevel(classLevel)
    ensures !NeedsStream(classLevel)
  {
  }

  /**
    * Leaving step 1 with a catalogue class level (and, where one is asked for,
    * a catalogue stream) always leads to a non-empty subject list at step 2.
    */
  lemma StepOneLeadsToSubjects(f: Form, i: int, j: int)
    requires 0 <= i < |PlannerData.ClassLevels()| && f.classLevel == PlannerData.ClassLevels()[i].value
    requires 0 <= j < |PlannerData.Streams()|
    requires NeedsStream(f.classLevel) ==> f.stream == PlannerData.Streams()[j].value
    requires CanProceed(1, f)
    ensures PlannerData.GetSubjectsForLevel(f.classLevel, f.stream) != []
  {
    NeedsStreamAtHigherSecondary(i);
    PlannerData.ListedChoiceHasSubjects(i, f.stream);
  }

  /** When step 4 may proceed the total is days times hours, at least one day's hours. */
  lemma TotalHoursWhenReady(f: Form)
    requires CanProceed(4, f) && f.dailyHours >= 1
    ensures TotalHours(f) == f.daysUntilExam.value * f.dailyHours
    ensures TotalHours(f) >= f.dailyHours
  {
  }

  /** With no date, or a date today, the total shows 0; a date in the past gives a negative total. */
  lemma TotalHoursWithoutFutureDate(f: Form)
    requires f.daysUntilExam.None? || f.daysUntilExam.value <= 0
    ensures f.daysUntilExam.None? || f.daysUntilExam.value == 0 ==> TotalHours(f) == 0
    ensures f.daysUntilExam.Some? && f.daysUntilExam.value < 0 && f.dailyHours >= 1 ==> TotalHours(f) < 0
  {
  }
}
