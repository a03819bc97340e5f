/**
 * Plain JavaScript objects used as dictionaries from string keys to numbers,
 * as the list of their entries in enumeration (insertion) order, together
 * with the two idioms the application applies to them:
 *   - counting:  `obj[k] = (obj[k] || 0) + delta` for every label of a list;
 *   - picking the key of largest value:
 *     `Object.entries(obj).sort((a, b) => b[1] - a[1])[0]`.
 */
module JsObject {
  import opened Wrappers

  datatype Entry = Entry(key: string, value: int)

  type Entries = seq<Entry>

  function Keys(e: Entries): (ks: seq<string>)
    ensures |ks| == |e|
    ensures forall i :: 0 <= i < |e| ==> ks[i] == e[i].key
  {
    if e == [] then [] else [e[0].key] + Keys(e[1..])
  }

  predicate DistinctKeys(e: Entries)
  {
    forall i, j :: 0 <= i < j < |e| ==> e[i].key != e[j].key
  }

  /** `obj[k]`: `None` stands for `undefined`. */
  function Lookup(e: Entries, k: string): Option<int>
  {
    if e == [] then None else if e[0].key == k then Some(e[0].value) else Lookup(e[1..], k)
  }

  /** `obj[k] || 0` for numeric values (an undefined or zero entry reads as 0). */
  function ValueOrZero(e: Entries, k: string): int
  {
    match Lookup(e, k)
    case None => 0
    case Some(v) => v
  }

  /** `obj[k] = v`: an existing key keeps its place, a new key goes last. */
  function Assign(e: Entries, k: string, v: int): Entries
  {
    if e == [] then [Entry(k, v)]
    else if e[0].key == k then [Entry(k, v)] + e[1..]
    else [e[0]] + Assign(e[1..], k, v)
  }

  /** `obj[k] = (obj[k] || 0) + delta`. */
  function Bump(e: Entries, k: string, delta: int): Entries
  {
    Assign(e, k, ValueOrZero(e, k) + delta)
  }

  /** `labels.forEach((k) => { obj[k] = (obj[k] || 0) + delta })`, starting from `init`. */
  function Tally(init: Entries, labels: seq<string>, delta: int): Entries
  {
    if labels == [] then init
    else Bump(Tally(init, labels[..|labels| - 1], delta), labels[|labels| - 1], delta)
  }

  /** Number of occurrences of `k` in `labels`. */
  function Count(labels: seq<string>, k: string): (n: nat)
    ensures n <= |labels|
  {
    if labels == [] then 0
    else Count(labels[..|labels| - 1], k) + (if labels[|labels| - 1] == k then 1 else 0)
  }

  /** The labels that are not in `known`, each once, in order of first occurrence. */
  function NewKeys(known: seq<string>, labels: seq<string>): seq<string>
  {
    if labels == [] then []
    else
      var earlier := NewKeys(known, labels[..|labels| - 1]);
      var k := labels[|labels| - 1];
      if k in known || k in earlier then earlier else earlier + [k]
  }

  // ---------------------------------------------------------------------------
  // lookup and assignment

  lemma {:induction false} LookupAssign(e: Entries, k: string, v: int, q: string)
    ensures Lookup(Assign(e, k, v), q) == if q == k then Some(v) else Lookup(e, q)
  {
    if e != [] && e[0].key != k {
      LookupAssign(e[1..], k, v, q);
    }
  }

  lemma {:induction false} KeysAssign(e: Entries, k: string, v: int)
    ensures Keys(Assign(e, k, v)) == if k in Keys(e) then Keys(e) else Keys(e) + [k]
  {
    if e != [] && e[0].key != k {
      KeysAssign(e[1..], k, v);
      assert Keys(e) == [e[0].key] + Keys(e[1..]);
    }
  }

  /** Assigning a key that is not yet present appends it as the last entry. */
  lemma {:induction false} AssignMissing(e: Entries, k: string, v: int)
    requires k !in Keys(e)
    ensures Assign(e, k, v) == e + [Entry(k, v)]
  {
    if e != [] {
      assert Keys(e) == [e[0].key] + Keys(e[1..]);
      AssignMissing(e[1..], k, v);
      assert e == [e[0]] + e[1..];
    }
  }

  /** Count over a list extended by one label. */
  lemma CountSnoc(labels: seq<string>, x: string, k: string)
    ensures Count(labels + [x], k) == Count(labels, k) + (if x == k then 1 else 0)
  {
    assert (labels + [x])[..|labels|] == labels;
  }

  lemma {:induction false} LookupFound(e: Entries, i: nat)
    requires DistinctKeys(e) && i < |e|
    ensures Lookup(e, e[i].key) == Some(e[i].value)
  {
    if i > 0 {
      LookupFound(e[1..], i - 1);
    }
  }

  /** A key that is found is the key of some entry carrying the value found. */
  lemma {:induction false} LookupSome(e: Entries, k: string) returns (i: nat)
    requires Lookup(e, k).Some?
    ensures i < |e| && e[i] == Entry(k, Lookup(e, k).value)
  {
    if e[0].key == k {
      i := 0;
    } else {
      var j := LookupSome(e[1..], k);
      i := j + 1;
    }
  }

  lemma {:induction false} LookupMissing(e: Entries, k: string)
    requires k !in Keys(e)
    ensures Lookup(e, k) == None
  {
    if e != [] {
      assert Keys(e)[0] == e[0].key;
      assert Keys(e[1..]) == Keys(e)[1..];
      LookupMissing(e[1..], k);
    }
  }

  // ---------------------------------------------------------------------------
  // the counting idiom

  /**
   * Where counting puts keys: every key of `init` keeps its place and each
   * label not yet a key is appended once, in order of first occurrence.
   */
  lemma {:induction false} TallyKeyOrder(init: Entries, labels: seq<string>, delta: int)
    ensures Keys(Tally(init, labels, delta)) == Keys(init) + NewKeys(Keys(init), labels)
  {
    if labels != [] {
      var prefix := labels[..|labels| - 1];
      var k := labels[|labels| - 1];
      var t := Tally(init, prefix, delta);
      TallyKeyOrder(init, prefix, delta);
      KeysAssign(t, k, ValueOrZero(t, k) + delta);
    }
  }

  /** What counting computes: each key's value grows by `delta` per occurrence of the key. */
  lemma {:induction false} TallyValue(init: Entries, labels: seq<string>, delta: int, q: string)
    ensures ValueOrZero(Tally(init, labels, delta), q) == ValueOrZero(init, q) + delta * Count(labels, q)
  {
    if labels != [] {
      var prefix := labels[..|labels| - 1];
      var k := labels[|labels| - 1];
      var t := Tally(init, prefix, delta);
      TallyValue(init, prefix, delta, q);
      LookupAssign(t, k, ValueOrZero(t, k) + delta, q);
    }
  }

  lemma {:induction false} NewKeysDistinct(known: seq<string>, labels: seq<string>)
    ensures forall i, j :: 0 <= i < j < |NewKeys(known, labels)| ==> NewKeys(known, labels)[i] != NewKeys(known, labels)[j]
    ensures forall k :: k in NewKeys(known, labels) <==> k in labels && k !in known
  {
    if labels != [] {
      NewKeysDistinct(known, labels[..|labels| - 1]);
      var p := labels[..|labels| - 1];
      assert labels == p + [labels[|labels| - 1]];
    }
  }

  /** `labels.indexOf(k)` for a label that occurs. */
  function FirstIndex(labels: seq<string>, k: string): (i: nat)
    requires k in labels
    ensures i < |labels| && labels[i] == k && k !in labels[..i]
  {
    if labels[0] == k then 0
    else
      var j := FirstIndex(labels[1..], k);
      assert labels[..j + 1] == [labels[0]] + labels[1..][..j];
      j + 1
  }

  lemma FirstIndexSnoc(p: seq<string>, x: string, k: string)
    requires k in p + [x]
    ensures k in p ==> FirstIndex(p + [x], k) == FirstIndex(p, k)
    ensures k !in p ==> FirstIndex(p + [x], k) == |p|
  {
    var i := FirstIndex(p + [x], k);
    if k in p {
      var j := FirstIndex(p, k);
      assert (p + [x])[j] == k;
      assert (p + [x])[..i] == p[..i];
    }
  }

  /** New keys appear in the order in which their labels first occur. */
  lemma {:induction false} NewKeysOrder(known: seq<string>, labels: seq<string>)
    ensures forall k :: k in NewKeys(known, labels) ==> k in labels
    ensures forall i, j :: 0 <= i < j < |NewKeys(known, labels)| ==>
              FirstIndex(labels, NewKeys(known, labels)[i]) < FirstIndex(labels, NewKeys(known, labels)[j])
  {
    NewKeysDistinct(known, labels);
    if labels != [] {
      var p := labels[..|labels| - 1];
      var x := labels[|labels| - 1];
      assert labels == p + [x];
      NewKeysOrder(known, p);
      NewKeysDistinct(known, p);
      var earlier := NewKeys(known, p);
      var nk := NewKeys(known, labels);
      forall i, j | 0 <= i < j < |nk|
        ensures FirstIndex(labels, nk[i]) < FirstIndex(labels, nk[j])
      {
        assert nk[i] == earlier[i] && nk[i] in p;
        FirstIndexSnoc(p, x, nk[i]);
        FirstIndexSnoc(p, x, nk[j]);
        if j < |earlier| {
          assert nk[j] == earlier[j];
        } else {
          assert nk[j] == x && x !in p;
        }
      }
    }
  }

  /** Counting over distinct initial keys yields distinct keys, and every label is a key. */
  lemma TallyKeys(init: Entries, labels: seq<string>, delta: int)
    requires DistinctKeys(init)
    ensures DistinctKeys(Tally(init, labels, delta))
    ensures forall k :: k in Keys(Tally(init, labels, delta)) <==> k in Keys(init) || k in labels
  {
    TallyKeyOrder(init, labels, delta);
    NewKeysDistinct(Keys(init), labels);
    var t := Tally(init, labels, delta);
    var ks := Keys(t);
    var a, b := Keys(init), NewKeys(Keys(init), labels);
    assert ks == a + b;
    forall i, j | 0 <= i < j < |t| ensures t[i].key != t[j].key {
      assert ks[i] == t[i].key && ks[j] == t[j].key;
      if j < |a| {
        assert a[i] == init[i].key && a[j] == init[j].key;
      } else if i < |a| {
        assert ks[i] in a && ks[j] == b[j - |a|];
      } else {
        assert ks[i] == b[i - |a|] && ks[j] == b[j - |a|];
      }
    }
  }

  // ---------------------------------------------------------------------------
  // the stable descending sort and its first element

  /** Insert `x` before the first entry whose value does not exceed `x`'s. */
  function InsertDesc(x: Entry, s: Entries): (r: Entries)
    ensures |r| == |s| + 1
    ensures multiset(r) == multiset(s) + multiset{x}
  {
    if s == [] then [x]
    else if s[0].value <= x.value then [x] + s
    else
      assert s == [s[0]] + s[1..];
      [s[0]] + InsertDesc(x, s[1..])
  }

  /**
   * `entries.sort((a, b) => b[1] - a[1])`: a stable sort by decreasing value
   * (insertion sort; `Array.prototype.sort` is stable, so any stable sort
   * gives the same array).
   */
  function SortDesc(e: Entries): (r: Entries)
    ensures |r| == |e|
    ensures multiset(r) == multiset(e)
  {
    if e == [] then []
    else
      assert e == [e[0]] + e[1..];
      InsertDesc(e[0], SortDesc(e[1..]))
  }

  predicate SortedDesc(s: Entries)
  {
    forall i, j :: 0 <= i < j < |s| ==> s[i].value >= s[j].value
  }

  /** `i` is the position of the first entry with the largest value. */
  predicate IsFirstMax(e: Entries, i: int)
  {
    0 <= i < |e|
    && (forall j :: 0 <= j < |e| ==> e[j].value <= e[i].value)
    && (forall j :: 0 <= j < i ==> e[j].value < e[i].value)
  }

  lemma {:induction false} InsertDescSorted(x: Entry, s: Entries)
    requires SortedDesc(s)
    ensures SortedDesc(InsertDesc(x, s))
  {
    if s != [] && s[0].value > x.value {
      InsertDescSorted(x, s[1..]);
      var r := InsertDesc(x, s);
      assert r == [s[0]] + InsertDesc(x, s[1..]);
      forall j | 0 < j < |r| ensures r[0].value >= r[j].value {
        assert r[j] in multiset(InsertDesc(x, s[1..]));
        assert r[j] in multiset(s[1..]) + multiset{x};
        if r[j] in multiset(s[1..]) {
          var m :| 0 <= m < |s[1..]| && s[1..][m] == r[j];
        }
      }
    }
  }

  /** The sort orders by decreasing value and permutes its input. */
  lemma {:induction false} SortDescSorted(e: Entries)
    ensures SortedDesc(SortDesc(e))
    ensures multiset(SortDesc(e)) == multiset(e)
  {
    if e != [] {
      SortDescSorted(e[1..]);
      InsertDescSorted(e[0], SortDesc(e[1..]));
    }
  }

  lemma FirstMaxExists(e: Entries) returns (i: nat)
    requires e != []
    ensures IsFirstMax(e, i)
  {
    i := 0;
    var j := 1;
    while j < |e|
      invariant 1 <= j <= |e| && i < j
      invariant forall m :: 0 <= m < j ==> e[m].value <= e[i].value
      invariant forall m :: 0 <= m < i ==> e[m].value < e[i].value
    {
      if e[j].value > e[i].value { i := j; }
      j := j + 1;
    }
  }

  /**
   * Because the sort is stable, its first element is the EARLIEST entry of
   * largest value: ties go to the key enumerated first.
   */
  lemma {:induction false} SortDescHead(e: Entries, i: nat)
    requires IsFirstMax(e, i)
    ensures SortDesc(e)[0] == e[i]
  {
    var s := SortDesc(e[1..]);
    if s != [] {
      assert s[0] in multiset(e[1..]);
      var m :| 0 <= m < |e[1..]| && e[1..][m] == s[0];
      assert e[m + 1] == s[0];
    }
    if i > 0 {
      assert IsFirstMax(e[1..], i - 1);
      SortDescHead(e[1..], i - 1);
    }
  }

  /** The key the pick idiom returns, for a non-empty object. */
  function TopKey(e: Entries): string
    requires e != []
  {
    SortDesc(e)[0].key
  }

  /** The picked key carries a largest value and no earlier key carries as much. */
  lemma TopKeyIsFirstMax(e: Entries) returns (i: nat)
    requires e != []
    ensures IsFirstMax(e, i) && TopKey(e) == e[i].key
  {
    i := FirstMaxExists(e);
    SortDescHead(e, i);
  }
}
