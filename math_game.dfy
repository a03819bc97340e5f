/**
 * The quick-math game of `app/student/games/page.tsx`: a sum or difference
 * of two numbers from 1 to 10, answered by picking one of up to four
 * buttons; a right answer is worth 10 points and extends the streak, a
 * wrong one resets the streak.
 *
 * The random draws are parameters: the operator, the two operands, the
 * three offsets of the wrong answers and the shuffled order of the buttons.
 * The one-second delay before the next question is the caller's: it calls
 * `GenerateQuestion` again.
 */
module QuickMath {
  import opened Wrappers
  import opened JsArray
  import opened GameFeedback

  const PointsPerAnswer: nat := 10

  function Solution(plus: bool, n1: int, n2: int): int
  {
    if plus then n1 + n2 else n1 - n2
  }

  /**
   * The answer buttons before shuffling: the right answer, then the three
   * candidate wrong answers `correct + a + 1`, `correct - b - 1`,
   * `correct + c - 2` without those that equal the right answer or are
   * negative.
   */
  function Candidates(correct: int, a: nat, b: nat, c: nat): seq<int>
  {
    var wrongOptions := FilterSeq((x: int) => x != correct && x >= 0,
                                  [correct + a + 1, correct - b - 1, correct + c - 2]);
    [correct] + (if |wrongOptions| <= 3 then wrongOptions else wrongOptions[..3])
  }

  /**
   * The right answer is a button exactly once; every other button is a
   * non-negative number different from it; there are one to four buttons.
   * With subtraction the right answer itself may be negative.
   */
  lemma CandidatesRule(correct: int, a: nat, b: nat, c: nat)
    ensures var options := Candidates(correct, a, b, c);
            1 <= |options| <= 4
            && options[0] == correct
            && multiset(options)[correct] == 1
            && (forall i :: 1 <= i < |options| ==> options[i] != correct && options[i] >= 0)
  {
    var options := Candidates(correct, a, b, c);
    var wrongOptions := options[1..];
    assert options == [correct] + wrongOptions;
    assert correct !in wrongOptions;
    assert multiset(wrongOptions)[correct] == 0;
  }

  /** However the buttons are shuffled, the right answer is among them. */
  lemma RightAnswerShown(correct: int, a: nat, b: nat, c: nat, order: seq<int>)
    requires multiset(order) == multiset(Candidates(correct, a, b, c))
    ensures correct in order
  {
    CandidatesRule(correct, a, b, c);
    assert multiset(order)[correct] == 1;
  }

  /** One minus ten leaves a single button: the right answer, -9. */
  lemma OnlyRightAnswerExample(a: nat, b: nat, c: nat)
    requires a < 3 && b < 3 && c < 5
    ensures Candidates(Solution(false, 1, 10), a, b, c) == [-9]
  {
    var options := Candidates(-9, a, b, c);
    CandidatesRule(-9, a, b, c);
  }

  class MathGame {
    var num1: int
    var num2: int
    var plus: bool
    var options: seq<int>
    var score: nat
    var streak: nat
    var feedback: Option<Feedback>

    /** Points come in tens, and the streak never exceeds the right answers scored. */
    predicate Valid()
      reads this
    {
      score % PointsPerAnswer == 0 && streak * PointsPerAnswer <= score
    }

    constructor ()
      ensures Valid()
      ensures num1 == 0 && num2 == 0 && plus && options == [] && score == 0 && streak == 0 && feedback == None
    {
      num1, num2, plus, options, score, streak, feedback := 0, 0, true, [], 0, 0, None;
    }

    /**
     * `generateQuestion`: draws an operator and two operands from 1 to 10,
     * lays out the candidate buttons in the shuffled order `order`, and
     * clears the feedback. `a` and `b` are draws below 3, `c` below 5.
     */
    method GenerateQuestion(plusDrawn: bool, n1: int, n2: int, a: nat, b: nat, c: nat, order: seq<int>)
      requires Valid()
      requires 1 <= n1 <= 10 && 1 <= n2 <= 10 && a < 3 && b < 3 && c < 5
      requires multiset(order) == multiset(Candidates(Solution(plusDrawn, n1, n2), a, b, c))
      modifies this
      ensures Valid()
      ensures num1 == n1 && num2 == n2 && plus == plusDrawn && options == order && feedback == None
      ensures score == old(score) && streak == old(streak)
      ensures Solution(plus, num1, num2) in options
    {
      RightAnswerShown(Solution(plusDrawn, n1, n2), a, b, c, order);
      num1, num2, plus := n1, n2, plusDrawn;
      options := order;
      feedback := None;
    }

    /**
     * `handleAnswer(answer)`, reachable only while the buttons are enabled
     * (no feedback shown): the right answer adds 10 points and one to the
     * streak, a wrong answer resets the streak.
     */
    method HandleAnswer(answer: int)
      requires Valid() && feedback == None
      modifies this
      ensures Valid()
      ensures num1 == old(num1) && num2 == old(num2) && plus == old(plus) && options == old(options)
      ensures answer == Solution(plus, num1, num2) ==>
                score == old(score) + PointsPerAnswer && streak == old(streak) + 1 && feedback == Some(Correct)
      ensures answer != Solution(plus, num1, num2) ==>
                score == old(score) && streak == 0 && feedback == Some(Wrong)
    {
      var correct := if plus then num1 + num2 else num1 - num2;
      if answer == correct {
        score := score + PointsPerAnswer;
        streak := streak + 1;
        feedback := Some(Correct);
      } else {
        streak := 0;
        feedback := Some(Wrong);
      }
    }
  }
}
