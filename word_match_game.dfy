/**
 * The word-match game of `app/student/games/page.tsx`: a word is shown with
 * four picture buttons, its own picture and three others; each answer
 * counts towards the total, and a right one towards the score.
 *
 * The random draws are parameters: which pair is asked, the shuffled order
 * of the other pictures, and the shuffled order of the four buttons.
 */
module WordMatch {
  import opened Wrappers
  import opened GameFeedback

  datatype WordPair = WordPair(word: string, icon: string)

  /** Apple, dog, sun, book, star, tree. */
  const WordPairs: seq<WordPair> := [
    WordPair("Apple", "\U{1F34E}"), WordPair("Dog", "\U{1F436}"),
    WordPair("Sun", "\U{2600}\U{FE0F}"), WordPair("Book", "\U{1F4DA}"),
    WordPair("Star", "\U{2B50}"), WordPair("Tree", "\U{1F333}")]

  /**
   * The pictures of the pairs whose word differs from the asked one, in list
   * order; the words are distinct, so these are all pairs but the one at `pick`.
   */
  function OtherIcons(pick: nat): (icons: seq<string>)
    requires pick < |WordPairs|
    ensures |icons| == |WordPairs| - 1
  {
    var others := WordPairs[..pick] + WordPairs[pick + 1..];
    seq(|others|, i requires 0 <= i < |others| => others[i].icon)
  }

  /** The buttons before the final shuffle: the right picture, then three of the others. */
  function Buttons(pick: nat, shuffledOthers: seq<string>): seq<string>
    requires pick < |WordPairs| && |shuffledOthers| >= 3
  {
    [WordPairs[pick].icon] + shuffledOthers[..3]
  }

  /** The six pictures are distinct. */
  lemma IconsDistinct()
    ensures forall i, j :: 0 <= i < j < |WordPairs| ==> WordPairs[i].icon != WordPairs[j].icon
  {
    var w := WordPairs;
    assert w[0].icon[0] != w[1].icon[0] && w[0].icon[0] != w[2].icon[0] && w[0].icon[0] != w[3].icon[0];
    assert w[0].icon[0] != w[4].icon[0] && w[0].icon[0] != w[5].icon[0];
    assert w[1].icon[0] != w[2].icon[0] && w[1].icon[0] != w[3].icon[0] && w[1].icon[0] != w[4].icon[0];
    assert w[1].icon[0] != w[5].icon[0] && w[2].icon[0] != w[3].icon[0] && w[2].icon[0] != w[4].icon[0];
    assert w[2].icon[0] != w[5].icon[0] && w[3].icon[0] != w[4].icon[0] && w[3].icon[0] != w[5].icon[0];
    assert w[4].icon[0] != w[5].icon[0];
  }

  /**
   * Four buttons, the asked pair's picture exactly once among them, the
   * other three pictures of other pairs.
   */
  lemma ButtonsRule(pick: nat, shuffledOthers: seq<string>)
    requires pick < |WordPairs|
    requires multiset(shuffledOthers) == multiset(OtherIcons(pick))
    ensures |shuffledOthers| >= 3
    ensures var buttons := Buttons(pick, shuffledOthers);
            |buttons| == 4
            && multiset(buttons)[WordPairs[pick].icon] == 1
            && forall i :: 1 <= i < 4 ==> buttons[i] in OtherIcons(pick)
  {
    assert |shuffledOthers| == |multiset(OtherIcons(pick))| == 5;
    IconsDistinct();
    var right := WordPairs[pick].icon;
    var others := OtherIcons(pick);
    assert right !in others;
    var taken := shuffledOthers[..3];
    assert multiset(others)[right] == 0;
    assert multiset(shuffledOthers)[right] == 0;
    assert shuffledOthers == taken + shuffledOthers[3..];
    assert multiset(taken)[right] == 0;
    forall i | 0 <= i < 3 ensures taken[i] in others {
      assert taken[i] in multiset(shuffledOthers);
    }
  }

  class WordMatchGame {
    var currentPair: WordPair
    var options: seq<string>
    var score: nat
    var total: nat
    var feedback: Option<Feedback>

    /** No more right answers than answers. */
    predicate Valid()
      reads this
    {
      score <= total
    }

    constructor ()
      ensures Valid()
      ensures currentPair == WordPairs[0] && options == [] && score == 0 && total == 0 && feedback == None
    {
      currentPair, options, score, total, feedback := WordPairs[0], [], 0, 0, None;
    }

    /**
     * `generateQuestion`: ask the pair at `pick`; the buttons are its
     * picture and the first three of the shuffled other pictures, in the
     * shuffled order `order`; the feedback is cleared.
     */
    method GenerateQuestion(pick: nat, shuffledOthers: seq<string>, order: seq<string>)
      requires Valid() && pick < |WordPairs|
      requires multiset(shuffledOthers) == multiset(OtherIcons(pick))
      requires |shuffledOthers| >= 3 && multiset(order) == multiset(Buttons(pick, shuffledOthers))
      modifies this
      ensures Valid()
      ensures currentPair == WordPairs[pick] && options == order && feedback == None
      ensures score == old(score) && total == old(total)
      ensures |options| == 4 && currentPair.icon in options
    {
      ButtonsRule(pick, shuffledOthers);
      assert multiset(order)[WordPairs[pick].icon] == 1;
      assert |order| == |multiset(order)| == |Buttons(pick, shuffledOthers)|;
      currentPair := WordPairs[pick];
      options := order;
      feedback := None;
    }

    /**
     * `handleAnswer(selectedIcon)`, reachable only while the buttons are
     * enabled: every answer counts, the right picture also scores.
     */
    method HandleAnswer(selectedIcon: string)
      requires Valid() && feedback == None
      modifies this
      ensures Valid()
      ensures currentPair == old(currentPair) && options == old(options)
      ensures total == old(total) + 1
      ensures selectedIcon == currentPair.icon ==> score == old(score) + 1 && feedback == Some(Correct)
      ensures selectedIcon != currentPair.icon ==> score == old(score) && feedback == Some(Wrong)
    {
      total := total + 1;
      if selectedIcon == currentPair.icon {
        score := score + 1;
        feedback := Some(Correct);
      } else {
        feedback := Some(Wrong);
      }
    }
  }
}
