/**
  The string operations the dataset builder takes from Python's `str`:
  `lower`, `in` (substring test), `replace` with and without a count,
  `strip` of one character, and the decimal rendering that an f-string
  gives a non-negative integer.  Only ASCII letters change case.
*/
module Text {

  /** Python's `c.lower()` restricted to ASCII. */
  function LowerChar(c: char): (r: char)
    ensures !('A' <= r <= 'Z')
    ensures 'a' <= c <= 'z' || !('A' <= c <= 'Z') ==> r == c
  {
    if 'A' <= c <= 'Z' then (c as int + 32) as char else c
  }

  /** Python's `s.lower()` (ASCII). */
  function Lower(s: string): (r: string)
    ensures |r| == |s|
  {
    if s == [] then [] else [LowerChar(s[0])] + Lower(s[1..])
  }

  /** Lower-casing works character by character. */
  lemma {:induction false} LowerChars(s: string)
    ensures forall i :: 0 <= i < |s| ==> Lower(s)[i] == LowerChar(s[i])
    decreases |s|
  {
    if s != [] {
      LowerChars(s[1..]);
      assert forall i :: 1 <= i < |s| ==> Lower(s)[i] == Lower(s[1..])[i - 1];
    }
  }

  /** No upper-case ASCII letter occurs in `s`. */
  predicate NoUpper(s: string) {
    forall i :: 0 <= i < |s| ==> !('A' <= s[i] <= 'Z')
  }

  /** A string made of characters of a lower-cased string has no upper-case letter. */
  lemma NoUpperFromLower(s: string, r: string)
    requires forall c :: c in r ==> c in Lower(s)
    ensures NoUpper(r)
  {
    LowerChars(s);
    forall i | 0 <= i < |r| ensures !('A' <= r[i] <= 'Z') {
      assert r[i] in Lower(s);
      var k :| 0 <= k < |s| && Lower(s)[k] == r[i];
    }
  }

  /** `sub` occurs in `s` starting at position `i`. */
  predicate OccursAt(s: string, sub: string, i: nat) {
    i + |sub| <= |s| && s[i..i + |sub|] == sub
  }

  /** Python's `sub in s`: `sub` occurs in `s` at some position. */
  predicate Contains(s: string, sub: string) {
    exists i: nat :: i <= |s| && OccursAt(s, sub, i)
  }

  /**
    Python's `s.replace(pat, rep)` for a non-empty `pat`: the occurrences
    are found left to right and do not overlap.
  */
  function ReplaceAll(s: string, pat: string, rep: string): (r: string)
    requires |pat| > 0
    decreases |s|
  {
    if |s| < |pat| then s
    else if s[..|pat|] == pat then rep + ReplaceAll(s[|pat|..], pat, rep)
    else [s[0]] + ReplaceAll(s[1..], pat, rep)
  }

  /** Python's `s.replace(pat, rep, 1)` for a non-empty `pat`. */
  function ReplaceFirst(s: string, pat: string, rep: string): (r: string)
    requires |pat| > 0
    ensures forall c :: c in r ==> c in s || c in rep
    ensures !Contains(s, pat) ==> r == s
    ensures Contains(s, pat) ==> |r| == |s| - |pat| + |rep|
    decreases |s|
  {
    if |s| < |pat| then s
    else if s[..|pat|] == pat then assert OccursAt(s, pat, 0); rep + s[|pat|..]
    else ContainsTail(s, pat); [s[0]] + ReplaceFirst(s[1..], pat, rep)
  }

  /** An occurrence one position into `s` is an occurrence in its tail. */
  lemma OccursAtTail(s: string, pat: string, j: nat)
    requires |s| > 0
    ensures OccursAt(s, pat, j + 1) <==> OccursAt(s[1..], pat, j)
  {
    if j + 1 + |pat| <= |s| {
      assert s[j + 1..j + 1 + |pat|] == s[1..][j..j + |pat|];
    }
  }

  /** `ReplaceFirst` at an occurrence. */
  lemma ReplaceFirstFront(s: string, pat: string, rep: string)
    requires |pat| > 0 && |s| >= |pat| && s[..|pat|] == pat
    ensures ReplaceFirst(s, pat, rep) == rep + s[|pat|..]
  {}

  /** `ReplaceFirst` past a character that starts no occurrence. */
  lemma ReplaceFirstSkip(s: string, pat: string, rep: string)
    requires |pat| > 0 && |s| >= |pat| && s[..|pat|] != pat
    ensures ReplaceFirst(s, pat, rep) == [s[0]] + ReplaceFirst(s[1..], pat, rep)
  {}

  /** Putting the head back in front of a split of the tail. */
  lemma ConsSplit(s: string, rep: string, i: nat, m: nat)
    requires 0 < |s| && i + m <= |s| - 1
    ensures [s[0]] + (s[1..][..i] + rep + s[1..][i + m..]) == s[..i + 1] + rep + s[i + 1 + m..]
  {
    assert s[..i + 1] == [s[0]] + s[1..][..i];
    assert s[i + 1 + m..] == s[1..][i + m..];
  }

  /** An occurrence at no position before `i + 1`, given none in the tail before `i`. */
  lemma NoneBefore(s: string, pat: string, i: nat)
    requires |s| > 0 && !OccursAt(s, pat, 0)
    requires forall j: nat :: j < i ==> !OccursAt(s[1..], pat, j)
    ensures forall j: nat :: j < i + 1 ==> !OccursAt(s, pat, j)
  {
    forall j: nat | 0 < j < i + 1
      ensures !OccursAt(s, pat, j)
    {
      OccursAtTail(s, pat, j - 1);
    }
  }

  /** The position of the leftmost occurrence, which `ReplaceFirst` replaces. */
  lemma {:induction false} LeftmostOccurrence(s: string, pat: string, rep: string, k: nat) returns (i: nat)
    requires |pat| > 0 && OccursAt(s, pat, k)
    ensures i <= k && OccursAt(s, pat, i)
    ensures forall j: nat :: j < i ==> !OccursAt(s, pat, j)
    ensures ReplaceFirst(s, pat, rep) == s[..i] + rep + s[i + |pat|..]
    decreases |s|
  {
    if s[..|pat|] == pat {
      i := 0;
      ReplaceFirstFront(s, pat, rep);
      assert OccursAt(s, pat, 0);
    } else {
      ReplaceFirstSkip(s, pat, rep);
      assert !OccursAt(s, pat, 0);
      OccursAtTail(s, pat, k - 1);
      var i' := LeftmostOccurrence(s[1..], pat, rep, k - 1);
      i := i' + 1;
      OccursAtTail(s, pat, i');
      NoneBefore(s, pat, i');
      ConsSplit(s, rep, i', |pat|);
    }
  }

  /**
    `s.replace(pat, rep, 1)` replaces the leftmost occurrence of `pat`:
    the text before it, then `rep`, then the text after it.
  */
  lemma ReplaceFirstLeftmost(s: string, pat: string, rep: string)
    requires |pat| > 0 && Contains(s, pat)
    ensures exists i: nat :: OccursAt(s, pat, i) && (forall j: nat :: j < i ==> !OccursAt(s, pat, j))
                             && ReplaceFirst(s, pat, rep) == s[..i] + rep + s[i + |pat|..]
  {
    var k: nat :| k <= |s| && OccursAt(s, pat, k);
    var i := LeftmostOccurrence(s, pat, rep, k);
  }

  /** Drops the leading copies of `c`. */
  function TrimLeft(s: string, c: char): (r: string)
    ensures |r| <= |s| && r == s[|s| - |r|..]
    ensures forall k :: 0 <= k < |s| - |r| ==> s[k] == c
    ensures r == [] || r[0] != c
    decreases |s|
  {
    if |s| > 0 && s[0] == c then
      var r := TrimLeft(s[1..], c);
      assert s[1..][|s| - 1 - |r|..] == s[|s| - |r|..];
      assert forall k :: 1 <= k < |s| - |r| ==> s[k] == s[1..][k - 1];
      r
    else s
  }

  /** Drops the trailing copies of `c`. */
  function TrimRight(s: string, c: char): (r: string)
    ensures |r| <= |s| && r == s[..|r|]
    ensures forall k :: |r| <= k < |s| ==> s[k] == c
    ensures r == [] || r[|r| - 1] != c
    decreases |s|
  {
    if |s| > 0 && s[|s| - 1] == c then
      var r := TrimRight(s[..|s| - 1], c);
      assert s[..|s| - 1][..|r|] == s[..|r|];
      assert forall k :: |r| <= k < |s| - 1 ==> s[k] == s[..|s| - 1][k];
      r
    else s
  }

  /** Python's `s.strip(c)` for a single character `c`. */
  function Strip(s: string, c: char): (r: string)
    ensures r == [] || (r[0] != c && r[|r| - 1] != c)
    ensures exists i, j :: 0 <= i <= j <= |s| && r == s[i..j]
                           && (forall k :: 0 <= k < i ==> s[k] == c)
                           && (forall k :: j <= k < |s| ==> s[k] == c)
  {
    var left := TrimLeft(s, c);
    var r := TrimRight(left, c);
    StripWitness(s, c, left, r);
    r
  }

  /** A slice cut from both ends of `s` lies between two runs of `c`. */
  lemma StripWitness(s: string, c: char, left: string, r: string)
    requires |left| <= |s| && left == s[|s| - |left|..]
    requires forall k :: 0 <= k < |s| - |left| ==> s[k] == c
    requires |r| <= |left| && r == left[..|r|]
    requires forall k :: |r| <= k < |left| ==> left[k] == c
    ensures exists i, j :: 0 <= i <= j <= |s| && r == s[i..j]
                           && (forall k :: 0 <= k < i ==> s[k] == c)
                           && (forall k :: j <= k < |s| ==> s[k] == c)
  {
    var i := |s| - |left|;
    var j := i + |r|;
    assert r == s[i..j];
    assert forall k :: j <= k < |s| ==> s[k] == left[k - i];
  }

  function DigitChar(d: nat): (r: char)
    requires d < 10
    ensures '0' <= r <= '9'
  {
    ('0' as int + d) as char
  }

  /** The decimal rendering `f"{n}"` of a non-negative integer. */
  function NatToString(n: nat): (r: string)
    ensures |r| >= 1
    ensures n >= 10 ==> |r| >= 2
    ensures forall i :: 0 <= i < |r| ==> '0' <= r[i] <= '9'
    decreases n
  {
    if n < 10 then [DigitChar(n)] else NatToString(n / 10) + [DigitChar(n % 10)]
  }

  /** Different numbers render differently, so generated file names never collide. */
  lemma {:induction false} NatToStringInjective(n: nat, m: nat)
    requires NatToString(n) == NatToString(m)
    ensures n == m
    decreases n
  {
    var s := NatToString(n);
    if n < 10 || m < 10 {
      // one of the renderings has length 1, hence so has the other
      assert |s| == 1;
      assert n < 10 && m < 10;
      assert DigitChar(n) == s[0] == DigitChar(m);
    } else {
      assert s[|s| - 1] == DigitChar(n % 10) == DigitChar(m % 10);
      assert s[..|s| - 1] == NatToString(n / 10) == NatToString(m / 10);
      NatToStringInjective(n / 10, m / 10);
    }
  }

  /** Without an occurrence at the front, `sub` occurs in `s` iff it occurs in its tail. */
  lemma ContainsTail(s: string, sub: string)
    requires |s| > 0 && !OccursAt(s, sub, 0)
    ensures Contains(s, sub) <==> Contains(s[1..], sub)
  {
    if Contains(s, sub) {
      var i: nat :| i <= |s| && OccursAt(s, sub, i);
      assert s[1..][i - 1..i - 1 + |sub|] == s[i..i + |sub|];
      assert OccursAt(s[1..], sub, i - 1);
    }
    if Contains(s[1..], sub) {
      var i: nat :| i <= |s| - 1 && OccursAt(s[1..], sub, i);
      assert s[1..][i..i + |sub|] == s[i + 1..i + 1 + |sub|];
      assert OccursAt(s, sub, i + 1);
    }
  }

  /** Every character of an occurring string is a character of the string it occurs in. */
  lemma ContainsChars(s: string, sub: string)
    ensures Contains(s, sub) ==> forall c :: c in sub ==> c in s
  {
    if Contains(s, sub) {
      var i: nat :| i <= |s| && OccursAt(s, sub, i);
      forall c | c in sub ensures c in s {
        var k :| 0 <= k < |sub| && sub[k] == c;
        assert s[i..i + |sub|][k] == sub[k];
      }
    }
  }

  /** A string that does not have `c` contains nothing that has `c`. */
  lemma MissingChar(s: string, sub: string, c: char)
    requires c in sub && c !in s
    ensures !Contains(s, sub)
  {
    ContainsChars(s, sub);
  }

  /** An occurrence that spans position |a| of `a + [c] + b` has `c`. */
  lemma SpanningOccurrence(a: string, c: char, b: string, sub: string, i: nat)
    ensures OccursAt(a + [c] + b, sub, i) && i <= |a| < i + |sub| ==> c in sub
  {
    if OccursAt(a + [c] + b, sub, i) && i <= |a| < i + |sub| {
      assert sub[|a| - i] == (a + [c] + b)[|a|];
    }
  }

  /**
    An occurrence of `sub` never spans a character that `sub` lacks, so
    it lies entirely on one side of it.
  */
  lemma ContainsAcross(a: string, c: char, b: string, sub: string)
    requires c !in sub
    ensures Contains(a + [c] + b, sub) <==> Contains(a, sub) || Contains(b, sub)
  {
    var s := a + [c] + b;
    if Contains(s, sub) {
      var i: nat :| i <= |s| && OccursAt(s, sub, i);
      SpanningOccurrence(a, c, b, sub, i);
      if i + |sub| <= |a| {
        assert a[i..i + |sub|] == s[i..i + |sub|];
        assert OccursAt(a, sub, i);
      } else {
        var j := i - |a| - 1;
        assert 0 <= j && j + |sub| <= |b|;
        assert s[|a| + 1..] == b;
        assert s[i..i + |sub|] == s[|a| + 1..][j..j + |sub|];
        assert OccursAt(b, sub, j);
      }
    }
    ContainsInLeft(a, [c] + b, sub);
    ContainsInRight(a + [c], b, sub);
    assert a + [c] + b == a + ([c] + b);
  }

  /** An occurrence in `a` is one in `a + t`. */
  lemma ContainsInLeft(a: string, t: string, sub: string)
    ensures Contains(a, sub) ==> Contains(a + t, sub)
  {
    if Contains(a, sub) {
      var i: nat :| i <= |a| && OccursAt(a, sub, i);
      assert (a + t)[i..i + |sub|] == a[i..i + |sub|];
      assert OccursAt(a + t, sub, i);
    }
  }

  /** An occurrence in `b` is one in `t + b`. */
  lemma ContainsInRight(t: string, b: string, sub: string)
    ensures Contains(b, sub) ==> Contains(t + b, sub)
  {
    if Contains(b, sub) {
      var i: nat :| i <= |b| && OccursAt(b, sub, i);
      assert (t + b)[|t| + i..|t| + i + |sub|] == b[i..i + |sub|];
      assert OccursAt(t + b, sub, |t| + i);
    }
  }

  /** Whatever contains `a + b` contains `a` and contains `b`. */
  lemma ContainsConcat(s: string, a: string, b: string)
    ensures Contains(s, a + b) ==> Contains(s, a) && Contains(s, b)
  {
    if Contains(s, a + b) {
      var i: nat :| i <= |s| && OccursAt(s, a + b, i);
      assert s[i..i + |a|] == (a + b)[..|a|] == a;
      assert OccursAt(s, a, i);
      assert s[i + |a|..i + |a| + |b|] == (a + b)[|a|..] == b;
      assert OccursAt(s, b, i + |a|);
    }
  }

  /** `s.replace(pat, rep)` leaves a string without `pat` unchanged. */
  lemma {:induction false} ReplaceAllNoMatch(s: string, pat: string, rep: string)
    requires |pat| > 0 && !Contains(s, pat)
    ensures ReplaceAll(s, pat, rep) == s
    decreases |s|
  {
    if |s| >= |pat| {
      assert !OccursAt(s, pat, 0);
      ContainsTail(s, pat);
      ReplaceAllNoMatch(s[1..], pat, rep);
    }
  }

  /** An occurrence at the front is replaced first. */
  lemma ReplaceAllAtFront(pat: string, t: string, rep: string)
    requires |pat| > 0
    ensures ReplaceAll(pat + t, pat, rep) == rep + ReplaceAll(t, pat, rep)
  {
    assert (pat + t)[..|pat|] == pat;
    assert (pat + t)[|pat|..] == t;
  }

  /** Cutting `a + [c] + b` at a position within `a`. */
  lemma AcrossParts(a: string, c: char, b: string, k: nat)
    requires k <= |a|
    ensures (a + [c] + b)[..k] == a[..k]
    ensures (a + [c] + b)[k..] == a[k..] + [c] + b
    ensures 0 < |a| ==> (a + [c] + b)[0] == a[0]
  {
    var s := a + [c] + b;
    assert forall i :: 0 <= i < k ==> s[..k][i] == a[..k][i];
    assert forall i :: 0 <= i < |s| - k ==> s[k..][i] == (a[k..] + [c] + b)[i];
  }

  /** One step of `replace` at an occurrence. */
  lemma ReplaceAllFront(s: string, pat: string, rep: string)
    requires |pat| > 0 && |s| >= |pat| && s[..|pat|] == pat
    ensures ReplaceAll(s, pat, rep) == rep + ReplaceAll(s[|pat|..], pat, rep)
  {}

  /** One step of `replace` past a character that starts no occurrence. */
  lemma ReplaceAllSkip(s: string, pat: string, rep: string)
    requires |pat| > 0 && |s| >= |pat| && s[..|pat|] != pat
    ensures ReplaceAll(s, pat, rep) == [s[0]] + ReplaceAll(s[1..], pat, rep)
  {}

  /**
    `s.replace(pat, rep)` works separately on the two sides of a
    character that `pat` lacks.
  */
  lemma {:induction false} ReplaceAllAcross(a: string, c: char, b: string, pat: string, rep: string)
    requires |pat| > 0 && c !in pat
    ensures ReplaceAll(a + [c] + b, pat, rep) == ReplaceAll(a, pat, rep) + [c] + ReplaceAll(b, pat, rep)
    decreases |a|
  {
    var s := a + [c] + b;
    if |s| < |pat| {
      ReplaceAllShort(s, pat, rep);
      ReplaceAllShort(a, pat, rep);
      ReplaceAllShort(b, pat, rep);
    } else if s[..|pat|] == pat {
      ReplaceAllFront(s, pat, rep);
      assert OccursAt(s, pat, 0);
      SpanningOccurrence(a, c, b, pat, 0);
      AcrossParts(a, c, b, |pat|);
      ReplaceAllFront(a, pat, rep);
      ReplaceAllAcross(a[|pat|..], c, b, pat, rep);
    } else if |a| == 0 {
      ReplaceAllSkip(s, pat, rep);
      assert s == [c] + b;
      assert s[1..] == b;
      ReplaceAllShort(a, pat, rep);
    } else {
      AcrossParts(a, c, b, 1);
      ReplaceAllSkip(s, pat, rep);
      ReplaceAllAcross(a[1..], c, b, pat, rep);
      if |a| < |pat| {
        ReplaceAllShort(a, pat, rep);
        ReplaceAllShort(a[1..], pat, rep);
        assert a == [a[0]] + a[1..];
      } else {
        AcrossParts(a, c, b, |pat|);
        ReplaceAllSkip(a, pat, rep);
      }
    }
  }


  /**
    `s.replace(pat, rep)` has only characters of `s` and `rep`, and only
    characters of `s` when those of `rep` are in `pat`; it is no longer
    than `s` when `rep` is no longer than `pat`.
  */
  lemma {:induction false} ReplaceAllChars(s: string, pat: string, rep: string)
    requires |pat| > 0
    ensures forall c :: c in ReplaceAll(s, pat, rep) ==> c in s || c in rep
    ensures (forall c :: c in rep ==> c in pat) ==> forall c :: c in ReplaceAll(s, pat, rep) ==> c in s
    ensures |rep| <= |pat| ==> |ReplaceAll(s, pat, rep)| <= |s|
    decreases |s|
  {
    if |s| < |pat| {
    } else if s[..|pat|] == pat {
      ReplaceAllChars(s[|pat|..], pat, rep);
      assert forall c :: c in pat ==> c in s;
    } else {
      ReplaceAllChars(s[1..], pat, rep);
    }
  }

  lemma ReplaceAllShort(s: string, pat: string, rep: string)
    requires |pat| > 0 && |s| < |pat|
    ensures ReplaceAll(s, pat, rep) == s
  {
  }

  /** Lower-casing distributes over concatenation. */
  lemma LowerConcat(a: string, b: string)
    ensures Lower(a + b) == Lower(a) + Lower(b)
  {
    LowerChars(a + b);
    LowerChars(a);
    LowerChars(b);
    assert forall i :: 0 <= i < |a + b| ==> Lower(a + b)[i] == (Lower(a) + Lower(b))[i];
  }

  /** Lower-casing a capitalised word changes only its first letter. */
  lemma LowerCapitalised(c: char, t: string)
    requires NoUpper(t)
    ensures Lower([c] + t) == [LowerChar(c)] + t
  {
    LowerConcat([c], t);
    LowerOfLower(t);
    assert Lower([c]) == [LowerChar(c)];
  }

  /** Lower-casing a string without upper-case letters changes nothing. */
  lemma LowerOfLower(s: string)
    requires NoUpper(s)
    ensures Lower(s) == s
  {
    LowerChars(s);
    assert forall i :: 0 <= i < |s| ==> Lower(s)[i] == s[i];
  }

}
