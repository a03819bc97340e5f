/**
 * The JavaScript string operations the application relies on, over strings
 * of Unicode scalar values (Dafny's `char`), where JavaScript counts UTF-16
 * code units: `split` on a one-character separator,
 * `Array.prototype.join`, `trim`, ASCII case mapping, `includes`, `slice`
 * and the decimal rendering of a non-negative integer.
 */
module JsText {

  /** Number of occurrences of `c` in `s`. */
  function CountChar(s: string, c: char): (n: nat)
    ensures n <= |s|
  {
    if s == [] then 0 else (if s[0] == c then 1 else 0) + CountChar(s[1..], c)
  }

  // ---------------------------------------------------------------------------
  // split / join

  /** `s.split(d)` for a one-character separator `d`. */
  function Split(s: string, d: char): (parts: seq<string>)
    ensures |parts| >= 1
  {
    if s == [] then [[]]
    else
      var rest := Split(s[1..], d);
      if s[0] == d then [[]] + rest
      else [[s[0]] + rest[0]] + rest[1..]
  }

  /** `parts.join(sep)`; joining an empty array yields the empty string. */
  function Join(parts: seq<string>, sep: string): string
  {
    if |parts| == 0 then []
    else if |parts| == 1 then parts[0]
    else parts[0] + sep + Join(parts[1..], sep)
  }

  /** Replace every occurrence of the character `c` by `r`, one character at a time. */
  function Replace(s: string, c: char, r: string): string
  {
    if s == [] then [] else (if s[0] == c then r else [s[0]]) + Replace(s[1..], c, r)
  }

  lemma {:induction false} JoinCons(p: string, rest: seq<string>, sep: string)
    requires |rest| >= 1
    ensures Join([p] + rest, sep) == p + sep + Join(rest, sep)
  {
    assert ([p] + rest)[1..] == rest;
  }

  lemma {:induction false} JoinHeadExtend(c: char, rest: seq<string>, sep: string)
    requires |rest| >= 1
    ensures Join([[c] + rest[0]] + rest[1..], sep) == [c] + Join(rest, sep)
  {
    if |rest| == 1 {
      assert [[c] + rest[0]] + rest[1..] == [[c] + rest[0]];
    } else {
      JoinCons([c] + rest[0], rest[1..], sep);
      JoinCons(rest[0], rest[1..], sep);
      assert [rest[0]] + rest[1..] == rest;
    }
  }

  /** Splitting on `d` and joining with `r` replaces each `d` by `r`. */
  lemma {:induction false} SplitJoinReplace(s: string, d: char, r: string)
    ensures Join(Split(s, d), r) == Replace(s, d, r)
  {
    if s != [] {
      var rest := Split(s[1..], d);
      SplitJoinReplace(s[1..], d, r);
      if s[0] == d {
        JoinCons([], rest, r);
      } else {
        JoinHeadExtend(s[0], rest, r);
      }
    }
  }

  lemma {:induction false} ReplaceIdentity(s: string, c: char)
    ensures Replace(s, c, [c]) == s
  {
    if s != [] { ReplaceIdentity(s[1..], c); }
  }

  /** `s.split(d).join(d)` is `s`. */
  lemma SplitJoinRoundTrip(s: string, d: char)
    ensures Join(Split(s, d), [d]) == s
  {
    SplitJoinReplace(s, d, [d]);
    ReplaceIdentity(s, d);
  }

  /** No piece of a split contains the separator, and there is one more piece than separators. */
  lemma {:induction false} SplitPieces(s: string, d: char)
    ensures |Split(s, d)| == CountChar(s, d) + 1
    ensures forall i :: 0 <= i < |Split(s, d)| ==> d !in Split(s, d)[i]
  {
    if s != [] {
      SplitPieces(s[1..], d);
      var rest := Split(s[1..], d);
      if s[0] != d {
        var parts := Split(s, d);
        assert parts == [[s[0]] + rest[0]] + rest[1..];
        forall i | 0 <= i < |parts| ensures d !in parts[i] {
          if i > 0 { assert parts[i] == rest[i]; }
        }
      }
    }
  }

  /** Length of a replacement: each occurrence of `c` grows into `|r|` characters. */
  lemma {:induction false} ReplaceLength(s: string, c: char, r: string)
    ensures |Replace(s, c, r)| == |s| - CountChar(s, c) + CountChar(s, c) * |r|
  {
    if s != [] { ReplaceLength(s[1..], c, r); }
  }

  /** Replacing `c` by a string free of `d` leaves the number of `d`s alone. */
  lemma {:induction false} ReplaceKeepsOtherCount(s: string, c: char, r: string, d: char)
    requires c != d && d !in r
    ensures CountChar(Replace(s, c, r), d) == CountChar(s, d)
  {
    if s != [] {
      ReplaceKeepsOtherCount(s[1..], c, r, d);
      CountCharAppend(if s[0] == c then r else [s[0]], Replace(s[1..], c, r), d);
      CountCharNone(r, d);
    }
  }

  lemma {:induction false} CountCharAppend(a: string, b: string, d: char)
    ensures CountChar(a + b, d) == CountChar(a, d) + CountChar(b, d)
  {
    if a != [] {
      CountCharAppend(a[1..], b, d);
      var ab := a + b;
      assert ab[0] == a[0] && ab[1..] == a[1..] + b;
    } else {
      assert a + b == b;
    }
  }

  lemma {:induction false} CountCharNone(s: string, d: char)
    requires d !in s
    ensures CountChar(s, d) == 0
  {
    if s != [] {
      CountCharNone(s[1..], d);
    }
  }

  lemma {:induction false} ReplaceAbsent(s: string, c: char, r: string)
    requires c !in s
    ensures Replace(s, c, r) == s
  {
    if s != [] {
      ReplaceAbsent(s[1..], c, r);
      assert s == [s[0]] + s[1..];
    }
  }

  // ---------------------------------------------------------------------------
  // trim

  /** ECMAScript WhiteSpace and LineTerminator code points, which `trim` removes. */
  predicate IsJsWhitespace(c: char)
  {
    c == '\t' || c == '\n' || c == '\U{B}' || c == '\U{C}' || c == '\r' || c == ' '
    || c == '\U{A0}' || c == '\U{1680}' || ('\U{2000}' <= c <= '\U{200A}')
    || c == '\U{2028}' || c == '\U{2029}' || c == '\U{202F}' || c == '\U{205F}'
    || c == '\U{3000}' || c == '\U{FEFF}'
  }

  predicate AllWhitespace(s: string)
  {
    forall i :: 0 <= i < |s| ==> IsJsWhitespace(s[i])
  }

  function TrimStart(s: string): string
  {
    if s != [] && IsJsWhitespace(s[0]) then TrimStart(s[1..]) else s
  }

  function TrimEnd(s: string): string
  {
    if s != [] && IsJsWhitespace(s[|s| - 1]) then TrimEnd(s[..|s| - 1]) else s
  }

  /** `s.trim()`. */
  function Trim(s: string): string
  {
    TrimEnd(TrimStart(s))
  }

  lemma {:induction false} TrimStartShape(s: string) returns (i: nat)
    ensures i <= |s| && TrimStart(s) == s[i..] && AllWhitespace(s[..i])
    ensures TrimStart(s) == [] || !IsJsWhitespace(TrimStart(s)[0])
  {
    if s != [] && IsJsWhitespace(s[0]) {
      var i' := TrimStartShape(s[1..]);
      i := i' + 1;
      assert s[1..][i'..] == s[i..];
      assert s[..i] == [s[0]] + s[1..][..i'];
    } else {
      i := 0;
    }
  }

  lemma {:induction false} TrimEndShape(s: string) returns (j: nat)
    ensures j <= |s| && TrimEnd(s) == s[..j] && AllWhitespace(s[j..])
    ensures TrimEnd(s) == [] || !IsJsWhitespace(TrimEnd(s)[|TrimEnd(s)| - 1])
  {
    if s != [] && IsJsWhitespace(s[|s| - 1]) {
      var t := s[..|s| - 1];
      j := TrimEndShape(t);
      assert t[..j] == s[..j];
      assert s[j..] == t[j..] + [s[|s| - 1]];
    } else {
      j := |s|;
    }
  }

  /**
   * `trim` removes a whitespace prefix and a whitespace suffix and nothing
   * else: the result is the slice `s[i..j]`, and it neither begins nor ends
   * with whitespace.
   */
  lemma TrimShape(s: string) returns (i: nat, j: nat)
    ensures i <= j <= |s| && Trim(s) == s[i..j] && AllWhitespace(s[..i]) && AllWhitespace(s[j..])
    ensures Trim(s) != [] ==> !IsJsWhitespace(Trim(s)[0]) && !IsJsWhitespace(Trim(s)[|Trim(s)| - 1])
  {
    i := TrimStartShape(s);
    var u := TrimStart(s);
    var k := TrimEndShape(u);
    j := i + k;
    assert u[..k] == s[i..j];
    assert u[k..] == s[j..];
    if Trim(s) != [] {
      assert Trim(s)[0] == u[0];
    }
  }

  /** A trimmed string is empty exactly when the whole string is whitespace. */
  lemma {:induction false} TrimEmptyIff(s: string)
    ensures Trim(s) == [] <==> AllWhitespace(s)
  {
    var i, j := TrimShape(s);
    if Trim(s) == [] {
      assert i == j;
      forall k | 0 <= k < |s| ensures IsJsWhitespace(s[k]) {
        if k < i { assert s[..i][k] == s[k]; } else { assert s[j..][k - j] == s[k]; }
      }
    } else {
      assert s[i] == Trim(s)[0];
      assert !IsJsWhitespace(s[i]);
    }
  }

  // ---------------------------------------------------------------------------
  // case mapping (ASCII letters only)

  function UpperChar(c: char): char
  {
    if 'a' <= c <= 'z' then (c as int - 'a' as int + 'A' as int) as char else c
  }

  function LowerChar(c: char): char
  {
    if 'A' <= c <= 'Z' then (c as int - 'A' as int + 'a' as int) as char else c
  }

  /** `s.toUpperCase()` restricted to ASCII letters. */
  function ToUpper(s: string): (r: string)
    ensures |r| == |s|
    ensures forall i :: 0 <= i < |s| ==> r[i] == UpperChar(s[i])
  {
    if s == [] then [] else [UpperChar(s[0])] + ToUpper(s[1..])
  }

  /** `s.toLowerCase()` restricted to ASCII letters. */
  function ToLower(s: string): (r: string)
    ensures |r| == |s|
    ensures forall i :: 0 <= i < |s| ==> r[i] == LowerChar(s[i])
  {
    if s == [] then [] else [LowerChar(s[0])] + ToLower(s[1..])
  }

  /** Upper-casing twice is upper-casing once; nothing lower-case survives. */
  lemma ToUpperIdempotent(s: string)
    ensures ToUpper(ToUpper(s)) == ToUpper(s)
    ensures forall i :: 0 <= i < |s| ==> !('a' <= ToUpper(s)[i] <= 'z')
  {
    assert forall i :: 0 <= i < |s| ==> UpperChar(UpperChar(s[i])) == UpperChar(s[i]);
  }

  // ---------------------------------------------------------------------------
  // includes, slice

  predicate StartsWith(s: string, p: string)
  {
    |p| <= |s| && s[..|p|] == p
  }

  predicate EndsWith(s: string, p: string)
  {
    |p| <= |s| && s[|s| - |p|..] == p
  }

  /** `s.includes(p)`. */
  predicate Includes(s: string, p: string)
    decreases |s|
  {
    StartsWith(s, p) || (s != [] && Includes(s[1..], p))
  }

  /** `s.includes(p)` holds exactly when `p` occurs at some position of `s`. */
  lemma {:induction false} IncludesAt(s: string, p: string)
    ensures Includes(s, p) <==> exists k :: 0 <= k <= |s| - |p| && StartsWith(s[k..], p)
  {
    if s == [] {
      if Includes(s, p) { assert StartsWith(s[0..], p); }
    } else {
      IncludesAt(s[1..], p);
      if Includes(s, p) {
        if StartsWith(s, p) {
          assert StartsWith(s[0..], p);
        } else {
          var k :| 0 <= k <= |s[1..]| - |p| && StartsWith(s[1..][k..], p);
          assert s[1..][k..] == s[k + 1..];
        }
      } else {
        forall k | 0 <= k <= |s| - |p| ensures !StartsWith(s[k..], p) {
          if k > 0 { assert s[1..][k - 1..] == s[k..]; }
        }
      }
    }
  }

  /** `s.slice(0, n)` for `n >= 0`. */
  function SliceTo(s: string, n: nat): (r: string)
    ensures |r| == if n < |s| then n else |s|
    ensures StartsWith(s, r)
  {
    if n < |s| then s[..n] else s
  }

  // ---------------------------------------------------------------------------
  // number rendering

  function DigitChar(d: nat): char
    requires d < 10
  {
    ('0' as int + d) as char
  }

  /** Template-literal rendering `${n}` of a non-negative integer. */
  function NatToString(n: nat): (r: string)
    ensures |r| >= 1
    ensures forall i :: 0 <= i < |r| ==> '0' <= r[i] <= '9'
  {
    if n < 10 then [DigitChar(n)] else NatToString(n / 10) + [DigitChar(n % 10)]
  }

  /** Decimal value of a digit string. */
  function DigitsValue(s: string): nat
    requires forall i :: 0 <= i < |s| ==> '0' <= s[i] <= '9'
  {
    if s == [] then 0 else 10 * DigitsValue(s[..|s| - 1]) + (s[|s| - 1] as int - '0' as int)
  }

  /** The rendering is read back as the same number. */
  lemma {:induction false} NatToStringValue(n: nat)
    ensures DigitsValue(NatToString(n)) == n
  {
    if n >= 10 {
      NatToStringValue(n / 10);
      var r := NatToString(n);
      assert r[..|r| - 1] == NatToString(n / 10);
    }
  }
}
