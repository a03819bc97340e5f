/**
 * The memory-match game of `app/student/games/page.tsx`: sixteen face-down
 * cards holding each of eight animals twice; turning two equal cards keeps
 * them matched, two different cards are turned back after a delay, and
 * the game is won once every card is matched.
 *
 * The shuffle and the delayed turn-back are outside the model: the shuffled
 * deck is a parameter, and the timer's callback is the method `FlipBack`.
 */
module MemoryMatch {

  /** Dog, cat, rabbit, fox, frog, monkey, panda, lion. */
  const Emojis: seq<string> := [
    "\U{1F436}", "\U{1F431}", "\U{1F430}", "\U{1F98A}",
    "\U{1F438}", "\U{1F435}", "\U{1F43C}", "\U{1F981}"]

  /** Every animal twice, before shuffling. */
  function Deck(): seq<string>
  {
    Emojis + Emojis
  }

  predicate NoDuplicates(s: seq<nat>)
  {
    forall i, j :: 0 <= i < j < |s| ==> s[i] != s[j]
  }

  predicate Disjoint(s: seq<nat>, t: seq<nat>)
  {
    forall i, j :: 0 <= i < |s| && 0 <= j < |t| ==> s[i] != t[j]
  }

  predicate Below(s: seq<nat>, n: nat)
  {
    forall i :: 0 <= i < |s| ==> s[i] < n
  }

  /** Consecutive matched indices `2k`, `2k+1` are pairs of equal cards. */
  predicate PairedUp(cards: seq<string>, matched: seq<nat>)
    requires Below(matched, |cards|)
  {
    |matched| % 2 == 0
    && forall k :: 0 <= k < |matched| / 2 ==> cards[matched[2 * k]] == cards[matched[2 * k + 1]]
  }


  /**
   * At most two cards turned; turned and matched cards are
   * distinct cards of the deck; matched cards come in equal pairs, each
   * costing a move; the game is won only once all cards are matched.
   */
  predicate Consistent(cards: seq<string>, flipped: seq<nat>, matched: seq<nat>, moves: nat, won: bool)
  {
    |flipped| <= 2
    && Below(flipped, |cards|) && Below(matched, |cards|)
    && NoDuplicates(flipped) && NoDuplicates(matched) && Disjoint(flipped, matched)
    && PairedUp(cards, matched)
    && |matched| / 2 <= moves
    && (won ==> |matched| == |cards| && cards != [])
  }

  /** Turning a card that is neither turned nor matched, with fewer than two turned. */
  lemma TurnKeepsConsistent(cards: seq<string>, flipped: seq<nat>, matched: seq<nat>, moves: nat, won: bool, index: nat)
    requires Consistent(cards, flipped, matched, moves, won)
    requires index < |cards| && |flipped| < 2 && index !in flipped && index !in matched
    ensures Consistent(cards, flipped + [index], matched, moves, won)
    ensures Consistent(cards, flipped + [index], matched, moves + 1, won)
  {
  }

  /** A turned pair of equal cards moves to the matched cards. */
  lemma MatchKeepsConsistent(cards: seq<string>, a: nat, b: nat, matched: seq<nat>, moves: nat, won: bool)
    requires Consistent(cards, [a, b], matched, moves, won) && !won
    requires a < |cards| && b < |cards| && cards[a] == cards[b]
    ensures Consistent(cards, [], matched + [a, b], moves + 1, |matched + [a, b]| == |cards|)
  {
    PairedUpExtend(cards, matched, a, b);
    assert [a, b][0] != [a, b][1];
    assert a !in matched by {
      assert [a, b][0] == a;
    }
    assert b !in matched by {
      assert [a, b][1] == b;
    }
    MatchPair(matched, a, b);
  }

  /** The part of the game a click changes. */
  datatype Play = Play(flipped: seq<nat>, matched: seq<nat>, moves: nat, won: bool)

  /**
   * A click on card `index`: ignored while two cards are turned or when the
   * card is already turned or matched; otherwise the card is turned, and a
   * second turned card costs a move and, if it equals the first, moves both
   * to the matched cards, winning when no card is left.
   */
  function Click(cards: seq<string>, p: Play, index: nat): Play
    requires index < |cards| && Below(p.flipped, |cards|)
  {
    if |p.flipped| == 2 || index in p.flipped || index in p.matched then p
    else
      var turned := p.(flipped := p.flipped + [index]);
      if |turned.flipped| == 2 then Compare(cards, turned) else turned
  }

  /**
   * Two cards are turned: one more move, and equal cards join the matched
   * cards, winning when no card is left.
   */
  function Compare(cards: seq<string>, p: Play): Play
    requires |p.flipped| == 2 && Below(p.flipped, |cards|)
  {
    if cards[p.flipped[0]] == cards[p.flipped[1]] then
      var newMatched := p.matched + p.flipped;
      Play([], newMatched, p.moves + 1, if |newMatched| == |cards| then true else p.won)
    else p.(moves := p.moves + 1)
  }

  predicate ConsistentPlay(cards: seq<string>, p: Play)
  {
    Consistent(cards, p.flipped, p.matched, p.moves, p.won)
  }

  /** Every click keeps the game consistent. */
  lemma ClickKeepsConsistent(cards: seq<string>, p: Play, index: nat)
    requires ConsistentPlay(cards, p) && index < |cards|
    ensures ConsistentPlay(cards, Click(cards, p, index))
  {
    if p.won {
      WonMeansAllMatched(cards, p.flipped, p.matched, p.moves, p.won);
      assert index in p.matched;
    } else if !(|p.flipped| == 2 || index in p.flipped || index in p.matched) {
      TurnKeepsConsistent(cards, p.flipped, p.matched, p.moves, p.won, index);
      var newFlipped := p.flipped + [index];
      if |newFlipped| == 2 && cards[newFlipped[0]] == cards[index] {
        assert newFlipped == [newFlipped[0], index];
        MatchKeepsConsistent(cards, newFlipped[0], index, p.matched, p.moves, p.won);
      }
    }
  }

  /**
   * What a click does: nothing when ignored (always once the game is won);
   * a first card is turned; a second card costs one move and either joins
   * the first among the matched cards, winning exactly when all cards are
   * matched, or stays turned with it until `FlipBack`.
   */
  lemma ClickRules(cards: seq<string>, p: Play, index: nat)
    requires ConsistentPlay(cards, p) && index < |cards|
    ensures var q := Click(cards, p, index);
            (p.won ==> q == p)
            && (|p.flipped| == 2 || index in p.flipped || index in p.matched ==> q == p)
            && (|p.flipped| == 0 && index !in p.matched ==>
                  q == p.(flipped := [index]))
            && (|p.flipped| == 1 && index !in p.flipped && index !in p.matched ==>
                  q.moves == p.moves + 1
                  && (cards[p.flipped[0]] == cards[index] <==> index in q.matched)
                  && (cards[p.flipped[0]] == cards[index] ==>
                        q.flipped == [] && q.matched == p.matched + [p.flipped[0], index]
                        && (q.won <==> |q.matched| == |cards|))
                  && (cards[p.flipped[0]] != cards[index] ==>
                        q.flipped == [p.flipped[0], index] && q.matched == p.matched && !q.won))
  {
    if p.won {
      WonMeansAllMatched(cards, p.flipped, p.matched, p.moves, p.won);
      assert index in p.matched;
    }
    if |p.flipped| == 1 {
      assert p.flipped == [p.flipped[0]];
    }
  }

  class MemoryGame {
    var cards: seq<string>
    var flipped: seq<nat>
    var matched: seq<nat>
    var moves: nat
    var won: bool

    predicate Valid()
      reads this
    {
      ConsistentPlay(cards, Play(flipped, matched, moves, won))
    }

    constructor ()
      ensures Valid()
      ensures cards == [] && flipped == [] && matched == [] && moves == 0 && !won
    {
      cards, flipped, matched, moves, won := [], [], [], 0, false;
    }

    /** The mount effect: lay out the shuffled deck. */
    method Deal(shuffled: seq<string>)
      requires Valid() && cards == []
      requires multiset(shuffled) == multiset(Deck())
      modifies this
      ensures Valid()
      ensures cards == shuffled
      ensures flipped == old(flipped) && matched == old(matched) && moves == old(moves) && won == old(won)
    {
      cards := shuffled;
    }

    /** `handleCardClick(index)`, as specified by `Click`. */
    method HandleCardClick(index: nat)
      requires Valid() && index < |cards|
      modifies this
      ensures Valid()
      ensures cards == old(cards)
      ensures Play(flipped, matched, moves, won) == Click(cards, old(Play(flipped, matched, moves, won)), index)
    {
      ClickKeepsConsistent(cards, Play(flipped, matched, moves, won), index);
      if won {
        WonMeansAllMatched(cards, flipped, matched, moves, won);
        assert index in matched;
      }
      if |flipped| == 2 || index in flipped || index in matched {
        return;
      }
      TurnKeepsConsistent(cards, flipped, matched, moves, won, index);
      flipped := flipped + [index];
      if |flipped| == 2 {
        ComparePair();
      }
    }

    /** The second half of `handleCardClick`, once two cards are turned. */
    method ComparePair()
      requires Valid() && |flipped| == 2 && !won
      modifies this
      ensures Valid()
      ensures cards == old(cards)
      ensures Play(flipped, matched, moves, won) == Compare(cards, old(Play(flipped, matched, moves, won)))
    {
      var a, b := flipped[0], flipped[1];
      assert flipped == [a, b];
      moves := moves + 1;
      if cards[a] == cards[b] {
        MatchKeepsConsistent(cards, a, b, matched, moves - 1, won);
        matched := matched + [a, b];
        flipped := [];
        if |matched| == |cards| {
          won := true;
        }
      }
    }

    /**
     * The delayed callback after a mismatch: the timer is set only when two
     * different cards are up, and turns both back.
     */
    method FlipBack()
      requires Valid() && |flipped| == 2 && cards[flipped[0]] != cards[flipped[1]]
      modifies this
      ensures Valid()
      ensures flipped == [] && cards == old(cards) && matched == old(matched)
      ensures moves == old(moves) && won == old(won)
    {
      flipped := [];
    }

    /** `resetGame`: a new shuffled deck, nothing turned or matched, no moves. */
    method ResetGame(shuffled: seq<string>)
      requires multiset(shuffled) == multiset(Deck())
      modifies this
      ensures Valid()
      ensures cards == shuffled && flipped == [] && matched == [] && moves == 0 && !won
    {
      cards, flipped, matched, moves, won := shuffled, [], [], 0, false;
    }
  }

  lemma PairedUpExtend(cards: seq<string>, matched: seq<nat>, a: nat, b: nat)
    requires Below(matched, |cards|) && PairedUp(cards, matched)
    requires a < |cards| && b < |cards| && cards[a] == cards[b]
    ensures Below(matched + [a, b], |cards|) && PairedUp(cards, matched + [a, b])
  {
    var m := matched + [a, b];
    forall k | 0 <= k < |m| / 2 ensures cards[m[2 * k]] == cards[m[2 * k + 1]] {
      if k < |matched| / 2 {
        assert m[2 * k] == matched[2 * k] && m[2 * k + 1] == matched[2 * k + 1];
      }
    }
  }

  /** Two distinct unmatched cards join the matched ones without repeating an index. */
  lemma MatchPair(matched: seq<nat>, a: nat, b: nat)
    requires NoDuplicates(matched) && a != b && a !in matched && b !in matched
    ensures NoDuplicates(matched + [a, b])
  {
    var m := matched + [a, b];
    forall i, j | 0 <= i < j < |m| ensures m[i] != m[j] {
      if j == |matched| {
        assert m[i] in matched;
      } else if j == |matched| + 1 && i < |matched| {
        assert m[i] in matched;
      }
    }
  }

  /** The indices `0, ..., n - 1` in order. */
  function Indices(n: nat): (r: seq<nat>)
    ensures |r| == n && NoDuplicates(r)
    ensures forall x: nat :: x in r <==> x < n
  {
    if n == 0 then []
    else
      var p := Indices(n - 1);
      assert forall i :: 0 <= i < |p| ==> p[i] in p;
      p + [n - 1]
  }

  /** A list without duplicates has as many distinct elements as entries. */
  lemma {:induction false} DistinctCardinality(s: seq<nat>)
    requires NoDuplicates(s)
    ensures |set x: nat | x in s| == |s|
  {
    if s != [] {
      var last := s[|s| - 1];
      var init := s[..|s| - 1];
      assert s == init + [last];
      assert NoDuplicates(init);
      DistinctCardinality(init);
      var before := set x: nat | x in init;
      assert (set x: nat | x in s) == before + {last};
      assert last !in before;
    }
  }

  /**
   * A won game has every card matched: the matched indices are `|cards|`
   * distinct indices of the deck, so each index is among them, and every
   * further click is ignored.
   */
  lemma WonMeansAllMatched(cards: seq<string>, flipped: seq<nat>, matched: seq<nat>, moves: nat, won: bool)
    requires Consistent(cards, flipped, matched, moves, won) && won
    ensures forall i :: 0 <= i < |cards| ==> i in matched
  {
    Pigeonhole(matched, |cards|);
  }

  /** `n` distinct indices below `n` are all of them. */
  lemma Pigeonhole(m: seq<nat>, n: nat)
    requires NoDuplicates(m) && Below(m, n) && |m| == n
    ensures forall i :: 0 <= i < n ==> i in m
  {
    DistinctCardinality(m);
    DistinctCardinality(Indices(n));
    var ms := set x: nat | x in m;
    var range := set x: nat | x in Indices(n);
    assert ms <= range;
    var rest := range - ms;
    assert range == rest + ms && rest * ms == {};
    assert |range| == |rest| + |ms|;
    assert rest == {};
    assert ms == range;
    forall i | 0 <= i < n ensures i in m {
      assert i in range;
    }
  }

  /** The deck holds sixteen cards, each animal exactly twice. */
  lemma DeckHasPairs()
    ensures |Deck()| == 16
    ensures forall e :: e in Emojis ==> multiset(Deck())[e] == 2
  {
    var d := Deck();
    forall e | e in Emojis ensures multiset(d)[e] == 2 {
      assert multiset(d) == multiset(Emojis) + multiset(Emojis);
      assert Emojis[0][0] != Emojis[1][0] && Emojis[0][0] != Emojis[2][0];
    }
  }
}
