/**
 * The colour-pattern game of `app/student/games/page.tsx`: the game shows a
 * sequence of colours, the player repeats it click by click, a wrong colour
 * ends the game, and each completed round scores a point and extends the
 * sequence by one random colour.
 *
 * The random colours are parameters; the timed animation that shows the
 * pattern is reduced to the `isShowing` flag it raises and lowers
 * (`BeginShowing`, `EndShowing`).
 */
module PatternRecall {

  datatype Color = Red | Blue | Green | Yellow

  /** The part of the game a colour click changes. */
  datatype Round = Round(pattern: seq<Color>, playerPattern: seq<Color>, score: nat, gameOver: bool)

  /**
   * While the game has not started there is no pattern and no score; once
   * started, the score is the number of rounds completed, one less than the
   * pattern length; while playing, the player's clicks are a proper prefix
   * of the pattern; after a game over, they agree with the pattern except
   * for the last click.
   */
  predicate Consistent(r: Round, gameStarted: bool)
  {
    (!gameStarted ==> r.pattern == [] && r.playerPattern == [] && r.score == 0 && !r.gameOver)
    && (gameStarted ==> |r.pattern| == r.score + 1)
    && (gameStarted && !r.gameOver ==>
          |r.playerPattern| < |r.pattern| && r.playerPattern == r.pattern[..|r.playerPattern|])
    && (r.gameOver ==>
          var n := |r.playerPattern|;
          0 < n <= |r.pattern|
          && r.playerPattern[..n - 1] == r.pattern[..n - 1]
          && r.playerPattern[n - 1] != r.pattern[n - 1])
  }

  /**
   * A click on `color` while the player may answer: the click is recorded;
   * a colour that differs from the pattern at that position ends the game;
   * a click that completes the pattern scores a point, appends `next` to
   * the pattern and starts a new attempt.
   */
  function Answer(r: Round, color: Color, next: Color): Round
    requires |r.playerPattern| < |r.pattern|
  {
    var newPlayerPattern := r.playerPattern + [color];
    var n := |newPlayerPattern|;
    if newPlayerPattern[n - 1] != r.pattern[n - 1] then
      r.(playerPattern := newPlayerPattern, gameOver := true)
    else if n == |r.pattern| then
      Round(r.pattern + [next], [], r.score + 1, r.gameOver)
    else
      r.(playerPattern := newPlayerPattern)
  }

  /** Every answer keeps the game consistent. */
  lemma AnswerKeepsConsistent(r: Round, color: Color, next: Color)
    requires Consistent(r, true) && !r.gameOver
    ensures Consistent(Answer(r, color, next), true)
  {
    var p := r.playerPattern + [color];
    var n := |p|;
    assert p[..n - 1] == r.playerPattern;
    if p[n - 1] == r.pattern[n - 1] && n < |r.pattern| {
      assert p == r.pattern[..n];
    }
  }

  /**
   * What an answer does: the right colour either advances within the
   * pattern or completes it (one more point, a pattern one colour longer,
   * a fresh attempt); the wrong colour ends the game with the score kept.
   */
  lemma AnswerRules(r: Round, color: Color, next: Color)
    requires Consistent(r, true) && !r.gameOver
    ensures var q := Answer(r, color, next);
            var k := |r.playerPattern|;
            (color != r.pattern[k] <==> q.gameOver)
            && (color != r.pattern[k] ==> q.score == r.score && q.pattern == r.pattern)
            && (color == r.pattern[k] && k + 1 == |r.pattern| ==>
                  q.score == r.score + 1 && q.pattern == r.pattern + [next] && q.playerPattern == [])
            && (color == r.pattern[k] && k + 1 < |r.pattern| ==>
                  q.score == r.score && q.pattern == r.pattern && q.playerPattern == r.pattern[..k + 1])
  {
    var p := r.playerPattern + [color];
    assert p[..|r.playerPattern|] == r.playerPattern;
    if color == r.pattern[|r.playerPattern|] {
      assert p == r.pattern[..|r.playerPattern| + 1];
    }
  }

  class PatternGame {
    var pattern: seq<Color>
    var playerPattern: seq<Color>
    var isShowing: bool
    var score: nat
    var gameOver: bool
    var gameStarted: bool

    predicate Valid()
      reads this
    {
      Consistent(Round(pattern, playerPattern, score, gameOver), gameStarted)
    }

    constructor ()
      ensures Valid()
      ensures pattern == [] && playerPattern == [] && !isShowing && score == 0 && !gameOver && !gameStarted
    {
      pattern, playerPattern, isShowing, score, gameOver, gameStarted := [], [], false, 0, false, false;
    }

    /** `startGame`: a one-colour pattern, a fresh attempt, no score. */
    method StartGame(first: Color)
      modifies this
      ensures Valid()
      ensures pattern == [first] && playerPattern == [] && !gameOver && gameStarted && score == 0
      ensures isShowing == old(isShowing)
    {
      pattern := [first];
      playerPattern := [];
      gameOver := false;
      gameStarted := true;
      score := 0;
    }

    /** The animation of the pattern begins: clicks are ignored until it ends. */
    method BeginShowing()
      requires Valid()
      modifies this
      ensures Valid() && isShowing
      ensures pattern == old(pattern) && playerPattern == old(playerPattern) && score == old(score)
      ensures gameOver == old(gameOver) && gameStarted == old(gameStarted)
    {
      isShowing := true;
    }

    method EndShowing()
      requires Valid()
      modifies this
      ensures Valid() && !isShowing
      ensures pattern == old(pattern) && playerPattern == old(playerPattern) && score == old(score)
      ensures gameOver == old(gameOver) && gameStarted == old(gameStarted)
    {
      isShowing := false;
    }

    /**
     * `handleColorClick(color)`: ignored while the pattern is shown, after
     * a game over or before the first start; otherwise an `Answer`, where
     * `next` is the random colour a completed round appends.
     */
    method HandleColorClick(color: Color, next: Color)
      requires Valid()
      modifies this
      ensures Valid()
      ensures isShowing == old(isShowing) && gameStarted == old(gameStarted)
      ensures old(isShowing || gameOver || !gameStarted) ==>
                Round(pattern, playerPattern, score, gameOver) == old(Round(pattern, playerPattern, score, gameOver))
      ensures old(!isShowing && !gameOver && gameStarted) ==>
                Round(pattern, playerPattern, score, gameOver)
                == Answer(old(Round(pattern, playerPattern, score, gameOver)), color, next)
    {
      if isShowing || gameOver || !gameStarted {
        return;
      }
      AnswerKeepsConsistent(Round(pattern, playerPattern, score, gameOver), color, next);
      var newPlayerPattern := playerPattern + [color];
      if newPlayerPattern[|newPlayerPattern| - 1] != pattern[|newPlayerPattern| - 1] {
        playerPattern := newPlayerPattern;
        gameOver := true;
        return;
      }
      if |newPlayerPattern| == |pattern| {
        score := score + 1;
        pattern := pattern + [next];
        playerPattern := [];
      } else {
        playerPattern := newPlayerPattern;
      }
    }
  }
}
