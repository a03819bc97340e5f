/**
 * The colour-sorting game of `app/student/games/page.tsx`: a picture is
 * shown and the player presses one of four colour buttons; each answer
 * counts towards the total, and the picture's own colour also scores.
 *
 * The random draw of the next picture is a parameter.
 */
module ColorSorting {
  import opened Wrappers
  import opened GameFeedback

  datatype Item = Item(icon: string, color: string)

  const Red := "red"
  const Yellow := "yellow"
  const Green := "green"
  const Blue := "blue"

  /** The colours of the four buttons, in screen order. */
  const ButtonColors: seq<string> := [Red, Yellow, Green, Blue]

  /** Three red, three yellow, three green and three blue pictures. */
  const Items: seq<Item> := [
    Item("\U{1F34E}", Red), Item("\U{1F353}", Red), Item("\U{1F339}", Red),
    Item("\U{1F34C}", Yellow), Item("\U{2B50}", Yellow), Item("\U{2600}\U{FE0F}", Yellow),
    Item("\U{1F96C}", Green), Item("\U{1F333}", Green), Item("\U{1F438}", Green),
    Item("\U{1FAD0}", Blue), Item("\U{1F48E}", Blue), Item("\U{1F30A}", Blue)]

  function ItemColors(): (colors: seq<string>)
    ensures |colors| == |Items|
    ensures forall i :: 0 <= i < |Items| ==> colors[i] == Items[i].color
  {
    seq(|Items|, i requires 0 <= i < |Items| => Items[i].color)
  }

  lemma ColorNamesDiffer()
    ensures Red != Yellow && Red != Green && Red != Blue
    ensures Yellow != Green && Yellow != Blue && Green != Blue
  {
    assert Red[0] != Yellow[0] && Red[0] != Green[0] && Red[0] != Blue[0];
    assert Yellow[0] != Green[0] && Yellow[0] != Blue[0] && Green[0] != Blue[0];
  }

  /** Every picture's colour is exactly one of the buttons. */
  lemma EachItemHasOneButton()
    ensures forall i :: 0 <= i < |Items| ==> Items[i].color in ButtonColors
    ensures forall i :: 0 <= i < |Items| ==> multiset(ButtonColors)[Items[i].color] == 1
  {
    ColorNamesDiffer();
    assert multiset(ButtonColors) == multiset{Red, Yellow, Green, Blue};
  }

  /** Each button colour has three pictures. */
  lemma ThreeOfEachColor()
    ensures forall c :: c in ButtonColors ==> multiset(ItemColors())[c] == 3
  {
    ColorNamesDiffer();
    var colors := ItemColors();
    var r, y, g, b := [Red, Red, Red], [Yellow, Yellow, Yellow], [Green, Green, Green], [Blue, Blue, Blue];
    assert colors == r + y + g + b;
    assert multiset(colors) == multiset(r) + multiset(y) + multiset(g) + multiset(b);
  }

  class SortingGame {
    var currentItem: Item
    var score: nat
    var total: nat
    var feedback: Option<Feedback>

    /** No more right answers than answers, and the picture is one of the twelve. */
    predicate Valid()
      reads this
    {
      score <= total && currentItem in Items
    }

    constructor ()
      ensures Valid()
      ensures currentItem == Items[0] && score == 0 && total == 0 && feedback == None
    {
      currentItem, score, total, feedback := Items[0], 0, 0, None;
    }

    /** `generateItem`: show the picture at `pick` and clear the feedback. */
    method GenerateItem(pick: nat)
      requires Valid() && pick < |Items|
      modifies this
      ensures Valid()
      ensures currentItem == Items[pick] && feedback == None
      ensures score == old(score) && total == old(total)
    {
      currentItem := Items[pick];
      feedback := None;
    }

    /**
     * `handleSort(color)`, reachable only while the buttons are enabled:
     * every answer counts, the picture's own colour also scores.
     */
    method HandleSort(color: string)
      requires Valid() && feedback == None
      modifies this
      ensures Valid()
      ensures currentItem == old(currentItem) && total == old(total) + 1
      ensures color == currentItem.color ==> score == old(score) + 1 && feedback == Some(Correct)
      ensures color != currentItem.color ==> score == old(score) && feedback == Some(Wrong)
    {
      total := total + 1;
      if color == currentItem.color {
        score := score + 1;
        feedback := Some(Correct);
      } else {
        feedback := Some(Wrong);
      }
    }
  }
}
