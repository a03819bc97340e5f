/**
 * The parent questionnaire of `app/parent/questionnaire/page.tsx`: three
 * steps (questions 1-4, questions 5-8, diagnosis and notes) walked with Back
 * and Next, eight agreement ratings from 1 to 5 that start at 0
 * (unanswered), a "diagnosed learning difficulty" checkbox that starts
 * unticked, and Submit on the last step.
 */
module ParentQuestionnaire {

  const QuestionCount: nat := 8
  const TotalSteps: nat := 3

  /** A rating button's value: from 1 ("Never") to 5 ("Always"). */
  predicate IsRating(v: int)
  {
    1 <= v <= 5
  }

  /** The questions a step shows, in screen order: 1-4 on step 0, 5-8 on step 1, none on step 2. */
  function PageQuestions(step: nat): (qs: seq<nat>)
    ensures forall q: nat :: q in qs <==> (step == 0 && q < 4) || (step == 1 && 4 <= q < QuestionCount)
  {
    if step == 0 then [0, 1, 2, 3]
    else if step == 1 then [4, 5, 6, 7]
    else []
  }

  /** Every question is shown on exactly one step. */
  lemma EachQuestionOnOnePage(q: nat)
    requires q < QuestionCount
    ensures exists step: nat :: step < TotalSteps && q in PageQuestions(step)
    ensures forall s, t :: q in PageQuestions(s) && q in PageQuestions(t) ==> s == t
  {
    if q < 4 {
      assert q in PageQuestions(0);
    } else {
      assert q in PageQuestions(1);
    }
  }

  class Questionnaire {
    var currentStep: nat
    var answers: seq<int>
    var hasDiagnosis: bool
    var submitted: bool

    /** Eight answers, each unanswered (0) or a rating; the step one of the three. */
    predicate Valid()
      reads this
    {
      currentStep < TotalSteps
      && |answers| == QuestionCount
      && forall i :: 0 <= i < |answers| ==> answers[i] == 0 || IsRating(answers[i])
    }

    constructor ()
      ensures Valid()
      ensures currentStep == 0 && answers == seq(QuestionCount, _ => 0) && !hasDiagnosis && !submitted
    {
      currentStep := 0;
      answers := seq(QuestionCount, _ => 0);
      hasDiagnosis := false;
      submitted := false;
    }

    /** `handleLikertChange(questionIndex, value)`: a fresh copy of the answers with one entry replaced. */
    method HandleLikertChange(questionIndex: nat, value: int)
      requires Valid() && questionIndex < QuestionCount && IsRating(value)
      modifies this
      ensures Valid()
      ensures |answers| == QuestionCount && answers[questionIndex] == value
      ensures forall j :: 0 <= j < QuestionCount && j != questionIndex ==> answers[j] == old(answers)[j]
      ensures currentStep == old(currentStep) && hasDiagnosis == old(hasDiagnosis) && submitted == old(submitted)
    {
      answers := answers[questionIndex := value];
    }

    /**
     * A press of rating button `value` on the question at `position` of the
     * current page: only the questions of that page can change.
     */
    method PressRating(position: nat, value: int)
      requires Valid() && position < |PageQuestions(currentStep)| && IsRating(value)
      modifies this
      ensures Valid()
      ensures var q := PageQuestions(old(currentStep))[position];
              answers == old(answers)[q := value]
      ensures forall j :: 0 <= j < QuestionCount && j !in PageQuestions(currentStep) ==> answers[j] == old(answers)[j]
      ensures currentStep == old(currentStep) && hasDiagnosis == old(hasDiagnosis) && submitted == old(submitted)
    {
      var q := PageQuestions(currentStep)[position];
      HandleLikertChange(q, value);
    }

    /** The diagnosis checkbox, on the last step. */
    method SetDiagnosis(checked: bool)
      requires Valid() && currentStep == TotalSteps - 1
      modifies this
      ensures Valid()
      ensures hasDiagnosis == checked
      ensures currentStep == old(currentStep) && answers == old(answers) && submitted == old(submitted)
    {
      hasDiagnosis := checked;
    }

    /** Back, shown only past the first step. */
    method Back()
      requires Valid() && currentStep > 0
      modifies this
      ensures Valid()
      ensures currentStep == old(currentStep) - 1
      ensures answers == old(answers) && hasDiagnosis == old(hasDiagnosis) && submitted == old(submitted)
    {
      currentStep := currentStep - 1;
    }

    /** Next, shown on every step but the last. */
    method Next()
      requires Valid() && currentStep < TotalSteps - 1
      modifies this
      ensures Valid()
      ensures currentStep == old(currentStep) + 1
      ensures answers == old(answers) && hasDiagnosis == old(hasDiagnosis) && submitted == old(submitted)
    {
      currentStep := currentStep + 1;
    }

    /** Submit, shown only on the last step in place of Next; it leaves the page. */
    method Submit()
      requires Valid() && currentStep == TotalSteps - 1
      modifies this
      ensures Valid()
      ensures submitted && currentStep == old(currentStep) && answers == old(answers) && hasDiagnosis == old(hasDiagnosis)
    {
      submitted := true;
    }
  }
}
