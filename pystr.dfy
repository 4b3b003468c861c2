/**
 * The Python built-ins on `str` and `list` that the gateway relies on: slicing
 * with Python's index rules, `split`, `join`, `strip`, `lower` and the
 * substring test `sub in s`.  Strings are sequences of characters; only ASCII
 * letters are case-folded and only ASCII whitespace is stripped.
 */
module PyStr {

  // ---------------------------------------------------------------------------
  // Slicing
  // ---------------------------------------------------------------------------

  /** Python's normalisation of a slice bound `k` against a length `n`. */
  function SliceBound(k: int, n: nat): (b: nat)
    ensures b <= n
    ensures 0 <= k <= n ==> b == k
    ensures k < 0 && -k <= n ==> b == n + k
  {
    if k < 0 then (if n + k < 0 then 0 else n + k)
    else if k > n then n else k
  }

  /** `s[:k]` */
  function SliceTo<T>(s: seq<T>, k: int): (r: seq<T>)
    ensures |r| <= |s| && r == s[..|r|]
    ensures 0 <= k ==> |r| == if k < |s| then k else |s|
    ensures k < 0 ==> |r| == if |s| + k < 0 then 0 else |s| + k
  {
    s[..SliceBound(k, |s|)]
  }

  /** `s[k:]` */
  function SliceFrom<T>(s: seq<T>, k: int): (r: seq<T>)
    ensures |r| <= |s| && r == s[|s| - |r|..]
    ensures k < 0 ==> |r| == if -k < |s| then -k else |s|
    ensures 0 <= k ==> |r| == if k < |s| then |s| - k else 0
  {
    s[SliceBound(k, |s|)..]
  }

  // ---------------------------------------------------------------------------
  // Prefix, suffix and substring tests
  // ---------------------------------------------------------------------------

  predicate StartsWith(s: string, p: string) {
    |p| <= |s| && s[..|p|] == p
  }

  predicate EndsWith(s: string, p: string) {
    |p| <= |s| && s[|s| - |p|..] == p
  }

  /** `sub` occurs in `s` starting at position `i`. */
  predicate OccursAt(s: string, sub: string, i: int) {
    0 <= i <= |s| - |sub| && s[i..i + |sub|] == sub
  }

  /** Python's `sub in s`. */
  predicate Contains(s: string, sub: string)
    decreases |s|
  {
    StartsWith(s, sub) || (|s| > 0 && Contains(s[1..], sub))
  }

  /** `Contains` holds exactly when `sub` occurs at some position of `s`. */
  lemma {:induction false} ContainsIff(s: string, sub: string)
    ensures Contains(s, sub) <==> exists i :: OccursAt(s, sub, i)
    decreases |s|
  {
    if StartsWith(s, sub) {
      assert OccursAt(s, sub, 0);
    }
    if |s| > 0 {
      ContainsIff(s[1..], sub);
      if Contains(s[1..], sub) {
        var i :| OccursAt(s[1..], sub, i);
        assert OccursAt(s, sub, i + 1);
      }
      if !StartsWith(s, sub) && exists i :: OccursAt(s, sub, i) {
        var i :| OccursAt(s, sub, i);
        assert i != 0;
        assert OccursAt(s[1..], sub, i - 1);
      }
    } else if exists i :: OccursAt(s, sub, i) {
      var i :| OccursAt(s, sub, i);
      assert i == 0;
    }
  }

  /** A string shorter than `sub` never contains it, except when `sub` is empty. */
  lemma ShortNeverContains(s: string, sub: string)
    requires |s| < |sub|
    ensures !Contains(s, sub)
  {
    ContainsIff(s, sub);
  }

  /** Every character of `sub` occurs in a string that contains `sub`. */
  lemma {:induction false} ContainsHasChars(s: string, sub: string, j: int)
    requires 0 <= j < |sub|
    ensures Contains(s, sub) ==> sub[j] in s
    decreases |s|
  {
    if StartsWith(s, sub) {
      assert s[..|sub|][j] == s[j];
    } else if |s| > 0 {
      ContainsHasChars(s[1..], sub, j);
      assert forall k :: 0 <= k < |s| - 1 ==> s[1..][k] == s[k + 1];
    }
  }

  /** Occurrence of `sub` inside a prefix carries over to the whole string. */
  lemma ContainsOfPrefix(s: string, t: string, sub: string)
    requires Contains(s, sub)
    ensures Contains(s + t, sub)
  {
    ContainsIff(s, sub);
    ContainsIff(s + t, sub);
    var i :| OccursAt(s, sub, i);
    assert OccursAt(s + t, sub, i);
  }

  // ---------------------------------------------------------------------------
  // lower() and strip()
  // ---------------------------------------------------------------------------

  function LowerChar(c: char): char {
    if 'A' <= c <= 'Z' then (c as int - 'A' as int + 'a' as int) as char else c
  }

  /** `s.lower()` on ASCII letters. */
  function Lower(s: string): (r: string)
    ensures |r| == |s|
    ensures forall i :: 0 <= i < |s| ==> r[i] == LowerChar(s[i])
  {
    seq(|s|, i requires 0 <= i < |s| => LowerChar(s[i]))
  }

  /** The ASCII characters Python's `str.isspace` accepts. */
  predicate IsSpace(c: char) {
    c == ' ' || '\t' <= c <= '\r' || '\U{1C}' <= c <= '\U{1F}'
  }

  /** `s.lstrip()` */
  function StripLeft(s: string): string {
    if |s| > 0 && IsSpace(s[0]) then StripLeft(s[1..]) else s
  }

  /** `s.rstrip()` */
  function StripRight(s: string): string {
    if |s| > 0 && IsSpace(s[|s| - 1]) then StripRight(s[..|s| - 1]) else s
  }

  /** `s.strip()` */
  function Strip(s: string): string {
    StripRight(StripLeft(s))
  }

  /** `lstrip` removes exactly the leading whitespace run. */
  lemma {:induction false} StripLeftSpec(s: string)
    ensures var r := StripLeft(s);
      && |r| <= |s| && r == s[|s| - |r|..]
      && (r == [] || !IsSpace(r[0]))
      && forall i :: 0 <= i < |s| - |r| ==> IsSpace(s[i])
    decreases |s|
  {
    if |s| > 0 && IsSpace(s[0]) {
      StripLeftSpec(s[1..]);
    }
  }

  /** `rstrip` removes exactly the trailing whitespace run. */
  lemma {:induction false} StripRightSpec(s: string)
    ensures var r := StripRight(s);
      && |r| <= |s| && r == s[..|r|]
      && (r == [] || !IsSpace(r[|r| - 1]))
      && forall i :: |r| <= i < |s| ==> IsSpace(s[i])
    decreases |s|
  {
    if |s| > 0 && IsSpace(s[|s| - 1]) {
      StripRightSpec(s[..|s| - 1]);
    }
  }

  /**
   * `strip` keeps the infix of `s` left once the leading and the trailing
   * whitespace runs are removed: it starts where `lstrip` starts, has no
   * whitespace at either end, and everything cut off is whitespace.
   */
  lemma StripSpec(s: string)
    ensures OccursAt(s, Strip(s), |s| - |StripLeft(s)|)
    ensures Strip(s) == [] || (!IsSpace(Strip(s)[0]) && !IsSpace(Strip(s)[|Strip(s)| - 1]))
    ensures forall j :: 0 <= j < |s| - |StripLeft(s)| ==> IsSpace(s[j])
    ensures forall j :: |s| - |StripLeft(s)| + |Strip(s)| <= j < |s| ==> IsSpace(s[j])
  {
    var l := StripLeft(s);
    StripLeftSpec(s);
    StripRightSpec(l);
    var r := StripRight(l);
    var i := |s| - |l|;
    assert r == l[..|r|];
    assert s[i..i + |r|] == l[..|r|];
    forall j | i + |r| <= j < |s|
      ensures IsSpace(s[j])
    {
      assert s[j] == l[j - i];
    }
  }

  /** Stripping twice changes nothing. */
  lemma StripIdempotent(s: string)
    ensures Strip(Strip(s)) == Strip(s)
  {
    var r := Strip(s);
    StripSpec(s);
    assert StripLeft(r) == r;
    assert StripRight(r) == r;
  }

  // ---------------------------------------------------------------------------
  // split(sep) and sep.join(parts)
  // ---------------------------------------------------------------------------

  /** The number of occurrences of `c` in `s`. */
  function Count(s: string, c: char): nat {
    if s == [] then 0 else (if s[0] == c then 1 else 0) + Count(s[1..], c)
  }

  /** `s.split(c)` for a one-character separator. */
  function Split(s: string, c: char): (parts: seq<string>)
    ensures |parts| > 0
  {
    if s == [] then [""]
    else if s[0] == c then [""] + Split(s[1..], c)
    else
      var rest := Split(s[1..], c);
      [[s[0]] + rest[0]] + rest[1..]
  }

  /** `sep.join(parts)` */
  function Join(parts: seq<string>, sep: string): string {
    if parts == [] then ""
    else if |parts| == 1 then parts[0]
    else parts[0] + sep + Join(parts[1..], sep)
  }

  /** `split` yields one more part than there are separators. */
  lemma {:induction false} SplitLength(s: string, c: char)
    ensures |Split(s, c)| == Count(s, c) + 1
  {
    if s != [] {
      SplitLength(s[1..], c);
    }
  }

  /** No part of a `split` contains the separator. */
  lemma {:induction false} SplitPartsFree(s: string, c: char)
    ensures forall j, i :: 0 <= j < |Split(s, c)| && 0 <= i < |Split(s, c)[j]| ==> Split(s, c)[j][i] != c
  {
    if s != [] {
      SplitPartsFree(s[1..], c);
    }
  }

  /** Joining the parts of a `split` with the separator gives back the string. */
  lemma {:induction false} JoinSplit(s: string, c: char)
    ensures Join(Split(s, c), [c]) == s
  {
    if s != [] {
      var rest := Split(s[1..], c);
      JoinSplit(s[1..], c);
      if s[0] != c {
        var parts := Split(s, c);
        assert parts[1..] == rest[1..];
        if |rest| > 1 {
          assert Join(rest, [c]) == rest[0] + [c] + Join(rest[1..], [c]);
        }
      }
    }
  }

  /** A string without the separator splits into itself alone. */
  lemma {:induction false} SplitWithoutSeparator(s: string, c: char)
    requires c !in s
    ensures Split(s, c) == [s]
  {
    if s != [] {
      assert s[0] in s;
      assert forall x :: x in s[1..] ==> x in s;
      SplitWithoutSeparator(s[1..], c);
      assert s == [s[0]] + s[1..];
    }
  }

  /** `c` occurs in `s` exactly when it is counted there. */
  lemma {:induction false} CountPositive(s: string, c: char)
    ensures Count(s, c) > 0 <==> c in s
  {
    if s != [] {
      CountPositive(s[1..], c);
      assert s == [s[0]] + s[1..];
    }
  }

  /** The last part of `s.split(c)`, that is `s.split(c)[-1]`. */
  function LastPart(s: string, c: char): string {
    var parts := Split(s, c);
    parts[|parts| - 1]
  }

  /**
   * The last part of a `split` is the text after the last separator: a
   * suffix of `s`, preceded by the separator whenever `s` holds one, and all
   * of `s` when it holds none.
   */
  lemma {:induction false} LastPartSpec(s: string, c: char)
    ensures |LastPart(s, c)| <= |s| && s[|s| - |LastPart(s, c)|..] == LastPart(s, c)
    ensures c in s ==> |LastPart(s, c)| < |s| && s[|s| - |LastPart(s, c)| - 1] == c
    ensures c !in s ==> LastPart(s, c) == s
  {
    if c !in s {
      SplitWithoutSeparator(s, c);
    } else {
      var t := s[1..];
      var rest := Split(t, c);
      var l := LastPart(t, c);
      LastPartSpec(t, c);
      assert s == [s[0]] + t;
      if s[0] == c {
        assert LastPart(s, c) == l;
        assert t[|t| - |l|..] == s[|s| - |l|..];
        if |l| < |t| {
          assert t[|t| - |l| - 1] == s[|s| - |l| - 1];
        }
      } else {
        assert c in t;
        CountPositive(t, c);
        SplitLength(t, c);
        assert LastPart(s, c) == l;
        assert t[|t| - |l|..] == s[|s| - |l|..];
        assert t[|t| - |l| - 1] == s[|s| - |l| - 1];
      }
    }
  }

  /** The strings of `parts` written one after another, as `"".join(parts)`. */
  function Concat(parts: seq<string>): string {
    if parts == [] then "" else Concat(parts[..|parts| - 1]) + parts[|parts| - 1]
  }

  lemma ConcatSingle(s: string)
    ensures Concat([s]) == s
  {
    assert [s][..0] == [];
  }

  /** Concatenating two batches of parts concatenates their results. */
  lemma {:induction false} ConcatAppend(a: seq<string>, b: seq<string>)
    ensures Concat(a + b) == Concat(a) + Concat(b)
    decreases |b|
  {
    if b == [] {
      assert a + b == a;
    } else {
      var b', x := b[..|b| - 1], b[|b| - 1];
      calc {
        Concat(a + b);
      == { assert (a + b)[..|a + b| - 1] == a + b'; }
        Concat(a + b') + x;
      == { ConcatAppend(a, b'); }
        Concat(a) + Concat(b') + x;
      == 
        Concat(a) + Concat(b);
      }
    }
  }

  /** Applies `Strip` to every element, as `[x.strip() for x in xs]`. */
  function StripAll(xs: seq<string>): (r: seq<string>)
    ensures |r| == |xs|
    ensures forall i :: 0 <= i < |xs| ==> r[i] == Strip(xs[i])
  {
    seq(|xs|, i requires 0 <= i < |xs| => Strip(xs[i]))
  }
}
