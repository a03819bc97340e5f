/**
 * The student learning-style quiz of `app/student/quiz/page.tsx`: ten
 * questions, each offering one option per style in the order visual,
 * auditory, reading, kinesthetic; "Next" records the chosen option's style,
 * and after the tenth answer the result screen names the most chosen style.
 *
 * The component's React state is the class `StudentQuiz`; each handler is a
 * method that updates it. `QuizResult` specifies `calculateResult`.
 */
module QuizPage {
  import opened Wrappers
  import opened JsObject
  import AiService

  const QuestionCount: nat := 10
  const OptionCount: nat := 4

  /** The style of option `i` of any question. */
  function OptionStyle(i: nat): (style: string)
    requires i < OptionCount
    ensures style in AiService.Styles
  {
    AiService.Styles[i]
  }

  /**
   * `calculateResult`: count the answers per style in order of first
   * occurrence, take the head of the counts sorted by decreasing count, and
   * fall back to "visual" when there is no answer.
   */
  function QuizResult(answers: seq<string>): string
  {
    var counts := Tally([], answers, 1);
    if |counts| > 0 then TopKey(counts) else AiService.Visual
  }

  class StudentQuiz {
    var currentQuestion: nat
    var answers: seq<string>
    var selectedOption: Option<nat>
    var showResult: bool

    /**
     * The state the page can reach: one answer per question already passed
     * while the quiz runs, all ten once the result shows, every answer a
     * style, and the selection one of the four buttons.
     */
    predicate Valid()
      reads this
    {
      currentQuestion < QuestionCount
      && (!showResult ==> |answers| == currentQuestion)
      && (showResult ==> |answers| == QuestionCount && currentQuestion == QuestionCount - 1)
      && (forall i :: 0 <= i < |answers| ==> answers[i] in AiService.Styles)
      && (selectedOption.Some? ==> selectedOption.value < OptionCount)
    }

    constructor ()
      ensures Valid()
      ensures currentQuestion == 0 && answers == [] && selectedOption == None && !showResult
    {
      currentQuestion := 0;
      answers := [];
      selectedOption := None;
      showResult := false;
    }

    /** Clicking option button `i` of the current question selects it. */
    method SelectOption(i: nat)
      requires Valid() && !showResult && i < OptionCount
      modifies this
      ensures Valid()
      ensures selectedOption == Some(i)
      ensures currentQuestion == old(currentQuestion) && answers == old(answers) && showResult == old(showResult)
    {
      selectedOption := Some(i);
    }

    /**
     * `handleNext`: without a selection nothing happens; otherwise the
     * selected style is appended, the selection cleared, and the quiz moves
     * to the next question or, after the last, to the result.
     */
    method HandleNext()
      requires Valid() && !showResult
      modifies this
      ensures Valid()
      ensures old(selectedOption) == None ==>
                currentQuestion == old(currentQuestion) && answers == old(answers)
                && selectedOption == None && !showResult
      ensures old(selectedOption).Some? ==>
                answers == old(answers) + [OptionStyle(old(selectedOption).value)]
                && selectedOption == None
                && (old(currentQuestion) < QuestionCount - 1 ==>
                      currentQuestion == old(currentQuestion) + 1 && !showResult)
                && (old(currentQuestion) == QuestionCount - 1 ==>
                      currentQuestion == old(currentQuestion) && showResult)
    {
      if selectedOption.Some? {
        answers := answers + [OptionStyle(selectedOption.value)];
        selectedOption := None;
        if currentQuestion < QuestionCount - 1 {
          currentQuestion := currentQuestion + 1;
        } else {
          showResult := true;
        }
      }
    }

    /** `calculateResult`, with the `forEach` count written as a loop. */
    method CalculateResult() returns (result: string)
      ensures result == QuizResult(answers)
    {
      var counts: Entries := [];
      for i := 0 to |answers|
        invariant counts == Tally([], answers[..i], 1)
      {
        assert answers[..i + 1][..i] == answers[..i];
        counts := Bump(counts, answers[i], 1);
      }
      assert answers[..|answers|] == answers;
      if |counts| > 0 {
        result := TopKey(counts);
      } else {
        result := AiService.Visual;
      }
    }
  }

  /** The per-label counts: one entry per distinct answer, in order of first choice. */
  lemma CountsShape(answers: seq<string>)
    ensures var counts := Tally([], answers, 1);
            Keys(counts) == NewKeys([], answers) && DistinctKeys(counts)
            && (forall j :: 0 <= j < |counts| ==> counts[j].value == Count(answers, counts[j].key))
            && (forall s :: s !in answers ==> Count(answers, s) == 0)
            && (forall s :: s in answers <==> s in Keys(counts))
  {
    var counts := Tally([], answers, 1);
    TallyKeyOrder([], answers, 1);
    TallyKeys([], answers, 1);
    forall j | 0 <= j < |counts| ensures counts[j].value == Count(answers, counts[j].key) {
      LookupFound(counts, j);
      TallyValue([], answers, 1, counts[j].key);
    }
    forall s | s !in answers ensures Count(answers, s) == 0 {
      LookupMissing(counts, s);
      TallyValue([], answers, 1, s);
    }
  }

  /** The result is the most chosen label; with no answer it is "visual". */
  lemma QuizResultIsMostChosen(answers: seq<string>)
    ensures answers == [] ==> QuizResult(answers) == AiService.Visual
    ensures answers != [] ==> QuizResult(answers) in answers
    ensures forall s :: Count(answers, s) <= Count(answers, QuizResult(answers))
  {
    CountsShape(answers);
    var counts := Tally([], answers, 1);
    if answers != [] {
      assert answers[0] in Keys(counts);
      var i := TopKeyIsFirstMax(counts);
      var r := counts[i].key;
      forall s | s in answers ensures Count(answers, s) <= Count(answers, r) {
        var j :| 0 <= j < |counts| && Keys(counts)[j] == s;
      }
    }
  }

  /** Among labels chosen equally often, the one chosen first wins. */
  lemma QuizResultTieBreak(answers: seq<string>, s: string)
    requires s in answers && s != QuizResult(answers)
    requires Count(answers, s) == Count(answers, QuizResult(answers))
    ensures QuizResult(answers) in answers
    ensures FirstIndex(answers, QuizResult(answers)) < FirstIndex(answers, s)
  {
    CountsShape(answers);
    NewKeysOrder([], answers);
    var counts := Tally([], answers, 1);
    var i := TopKeyIsFirstMax(counts);
    var j :| 0 <= j < |counts| && Keys(counts)[j] == s;
    assert j != i;
  }

  /** Answers recorded by the page are styles, so the result is one of the four styles. */
  lemma QuizResultIsStyle(answers: seq<string>)
    requires forall i :: 0 <= i < |answers| ==> answers[i] in AiService.Styles
    ensures QuizResult(answers) in AiService.Styles
  {
    QuizResultIsMostChosen(answers);
  }
}
