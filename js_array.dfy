/**
 * `Array.prototype.map` and `Array.prototype.filter` with callbacks that
 * only look at the element.
 */
module JsArray {

  /** `s.map(f)`. */
  function MapSeq<A, B>(f: A -> B, s: seq<A>): (r: seq<B>)
    ensures |r| == |s|
    ensures forall i :: 0 <= i < |s| ==> r[i] == f(s[i])
  {
    if s == [] then [] else [f(s[0])] + MapSeq(f, s[1..])
  }

  /** `s.filter(p)`: the elements satisfying `p`, in their original order. */
  function FilterSeq<T(!new)>(p: T -> bool, s: seq<T>): (r: seq<T>)
    ensures |r| <= |s|
    ensures forall i :: 0 <= i < |r| ==> p(r[i])
    ensures forall x :: x in r <==> x in s && p(x)
  {
    if s == [] then []
    else
      assert s == [s[0]] + s[1..];
      (if p(s[0]) then [s[0]] else []) + FilterSeq(p, s[1..])
  }

  /** Filtering keeps everything exactly when every element passes. */
  lemma {:induction false} FilterAll<T(!new)>(p: T -> bool, s: seq<T>)
    ensures FilterSeq(p, s) == s <==> forall i :: 0 <= i < |s| ==> p(s[i])
  {
    if s != [] {
      FilterAll(p, s[1..]);
      if FilterSeq(p, s) == s {
        assert p(FilterSeq(p, s)[0]);
        assert FilterSeq(p, s[1..]) == s[1..];
      }
    }
  }

  /** One step of filtering: the head is kept exactly when it passes. */
  lemma FilterCons<T(!new)>(p: T -> bool, s: seq<T>)
    requires s != []
    ensures FilterSeq(p, s) == (if p(s[0]) then [s[0]] else []) + FilterSeq(p, s[1..])
  {
  }

  /** `r` is the list of the entries of `s` at the strictly increasing indices `idx`. */
  ghost predicate Picks<T>(r: seq<T>, s: seq<T>, idx: seq<nat>)
  {
    |idx| == |r|
    && (forall k :: 0 <= k < |idx| ==> idx[k] < |s| && r[k] == s[idx[k]])
    && (forall k, l :: 0 <= k < l < |idx| ==> idx[k] < idx[l])
  }

  /** Indices into the tail of `s`, moved one place on, index `s` itself. */
  lemma PicksShift<T>(r: seq<T>, s: seq<T>, idx: seq<nat>) returns (shifted: seq<nat>)
    requires s != [] && Picks(r, s[1..], idx)
    ensures Picks(r, s, shifted) && forall k :: 0 <= k < |shifted| ==> shifted[k] > 0
  {
    shifted := seq(|idx|, k requires 0 <= k < |idx| => idx[k] + 1);
    forall k | 0 <= k < |shifted| ensures shifted[k] < |s| && r[k] == s[shifted[k]] {
      assert s[1..][idx[k]] == s[idx[k] + 1];
    }
  }

  /** Picking the head first, then indices past it. */
  lemma PicksCons<T>(r: seq<T>, s: seq<T>, idx: seq<nat>)
    requires s != [] && Picks(r, s, idx) && forall k :: 0 <= k < |idx| ==> idx[k] > 0
    ensures Picks([s[0]] + r, s, [0] + idx)
  {
    var r', idx' := [s[0]] + r, [0] + idx;
    forall k | 0 <= k < |idx'| ensures idx'[k] < |s| && r'[k] == s[idx'[k]] {
      if k > 0 { assert idx'[k] == idx[k - 1] && r'[k] == r[k - 1]; }
    }
    forall k, l | 0 <= k < l < |idx'| ensures idx'[k] < idx'[l] {
      if k > 0 { assert idx'[k] == idx[k - 1]; }
    }
  }

  /**
   * Filtering keeps the relative order: the result is the list of the
   * passing elements picked out by a strictly increasing index map.
   */
  lemma {:induction false} FilterOrder<T(!new)>(p: T -> bool, s: seq<T>) returns (idx: seq<nat>)
    ensures |idx| == |FilterSeq(p, s)|
    ensures forall k :: 0 <= k < |idx| ==> idx[k] < |s| && FilterSeq(p, s)[k] == s[idx[k]]
    ensures forall k, l :: 0 <= k < l < |idx| ==> idx[k] < idx[l]
  {
    if s == [] {
      idx := [];
    } else {
      var rest := FilterOrder(p, s[1..]);
      var tail := FilterSeq(p, s[1..]);
      assert Picks(tail, s[1..], rest);
      var shifted := PicksShift(tail, s, rest);
      FilterCons(p, s);
      if p(s[0]) {
        PicksCons(tail, s, shifted);
        idx := [0] + shifted;
      } else {
        idx := shifted;
      }
      assert Picks(FilterSeq(p, s), s, idx);
    }
  }
}
