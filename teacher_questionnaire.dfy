/**
 * The teacher questionnaire of `app/teacher/questionnaire/page.tsx`: four
 * steps (student details, questions 1-6, questions 7-12, notes and upload)
 * walked with Back and Next, twelve agreement ratings from 1 to 5 that start
 * at 0 (unanswered), and Submit on the last step.
 */
module TeacherQuestionnaire {

  const QuestionCount: nat := 12
  const TotalSteps: nat := 4
  const QuestionsPerPage: nat := 6

  /** A rating button's value: from 1 (strongly disagree) to 5 (strongly agree). */
  predicate IsRating(v: int)
  {
    1 <= v <= 5
  }

  /** The questions a step shows, in screen order: 1-6 on step 1, 7-12 on step 2, none elsewhere. */
  function PageQuestions(step: nat): (qs: seq<nat>)
    ensures forall q: nat :: q in qs <==> (step == 1 && q < 6) || (step == 2 && 6 <= q < QuestionCount)
  {
    if step == 1 then [0, 1, 2, 3, 4, 5]
    else if step == 2 then [6, 7, 8, 9, 10, 11]
    else []
  }

  /** Every question is shown on exactly one step. */
  lemma EachQuestionOnOnePage(q: nat)
    requires q < QuestionCount
    ensures exists step: nat :: step < TotalSteps && q in PageQuestions(step)
    ensures forall s, t :: q in PageQuestions(s) && q in PageQuestions(t) ==> s == t
  {
    if q < 6 {
      assert q in PageQuestions(1);
    } else {
      assert q in PageQuestions(2);
    }
  }

  class Questionnaire {
    var currentStep: nat
    var answers: seq<int>
    var submitted: bool

    /** Twelve answers, each unanswered (0) or a rating; the step one of the four. */
    predicate Valid()
      reads this
    {
      currentStep < TotalSteps
      && |answers| == QuestionCount
      && forall i :: 0 <= i < |answers| ==> answers[i] == 0 || IsRating(answers[i])
    }

    constructor ()
      ensures Valid()
      ensures currentStep == 0 && answers == seq(QuestionCount, _ => 0) && !submitted
    {
      currentStep := 0;
      answers := seq(QuestionCount, _ => 0);
      submitted := false;
    }

    /** `handleLikertChange(questionIndex, value)`: a fresh copy of the answers with one entry replaced. */
    method HandleLikertChange(questionIndex: nat, value: int)
      requires Valid() && questionIndex < QuestionCount && IsRating(value)
      modifies this
      ensures Valid()
      ensures |answers| == QuestionCount && answers[questionIndex] == value
      ensures forall j :: 0 <= j < QuestionCount && j != questionIndex ==> answers[j] == old(answers)[j]
      ensures currentStep == old(currentStep) && submitted == old(submitted)
    {
      answers := answers[questionIndex := value];
    }

    /**
     * A press of rating button `value` on the question at `position` of the
     * current page: only the questions of that page can change.
     */
    method PressRating(position: nat, value: int)
      requires Valid() && position < |PageQuestions(currentStep)| && IsRating(value)
      modifies this
      ensures Valid()
      ensures var q := PageQuestions(old(currentStep))[position];
              answers == old(answers)[q := value]
      ensures forall j :: 0 <= j < QuestionCount && j !in PageQuestions(currentStep) ==> answers[j] == old(answers)[j]
      ensures currentStep == old(currentStep) && submitted == old(submitted)
    {
      var q := PageQuestions(currentStep)[position];
      HandleLikertChange(q, value);
    }

    /** Back, shown only past the first step. */
    method Back()
      requires Valid() && currentStep > 0
      modifies this
      ensures Valid()
      ensures currentStep == old(currentStep) - 1 && answers == old(answers) && submitted == old(submitted)
    {
      currentStep := currentStep - 1;
    }

    /** Next, shown on every step but the last. */
    method Next()
      requires Valid() && currentStep < TotalSteps - 1
      modifies this
      ensures Valid()
      ensures currentStep == old(currentStep) + 1 && answers == old(answers) && submitted == old(submitted)
    {
      currentStep := currentStep + 1;
    }

    /** Submit, shown only on the last step in place of Next; it leaves the page. */
    method Submit()
      requires Valid() && currentStep == TotalSteps - 1
      modifies this
      ensures Valid()
      ensures submitted && currentStep == old(currentStep) && answers == old(answers)
    {
      submitted := true;
    }
  }
}
