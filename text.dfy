/** The two string tests the request classifier applies to a URL:
    JavaScript's `String.prototype.includes` and `endsWith`. */
module Text {

  predicate StartsWith(s: string, prefix: string) {
    |prefix| <= |s| && s[..|prefix|] == prefix
  }

  /** `s.includes(sub)`: `sub` occurs somewhere in `s` (the empty string
      occurs everywhere). Written as a scan over the start positions. */
  predicate Contains(s: string, sub: string)
    ensures Contains(s, sub) ==> |sub| <= |s|
    decreases |s|
  {
    StartsWith(s, sub) || (|s| > 0 && Contains(s[1..], sub))
  }

  /** `sub` occurs in `s` starting at position `i`. */
  predicate OccursAt(s: string, sub: string, i: int) {
    0 <= i && i + |sub| <= |s| && s[i..i + |sub|] == sub
  }

  /** `s.endsWith(suffix)`. */
  predicate EndsWith(s: string, suffix: string) {
    |suffix| <= |s| && s[|s| - |suffix|..] == suffix
  }

  /** The scan agrees with the positional reading of a substring. */
  lemma {:induction false} ContainsAt(s: string, sub: string)
    ensures Contains(s, sub) <==> exists i :: OccursAt(s, sub, i)
    decreases |s|
  {
    assert StartsWith(s, sub) <==> OccursAt(s, sub, 0) by {
      if |sub| <= |s| { assert s[..|sub|] == s[0..|sub|]; }
    }
    if |s| > 0 {
      ContainsAt(s[1..], sub);
      OccursShift(s, sub);
    }
  }

  /** Dropping the first character shifts every later occurrence by one. */
  lemma OccursShift(s: string, sub: string)
    requires |s| > 0
    ensures forall i :: OccursAt(s, sub, i) && i > 0 ==> OccursAt(s[1..], sub, i - 1)
    ensures forall j :: OccursAt(s[1..], sub, j) ==> OccursAt(s, sub, j + 1)
  {
    forall i | OccursAt(s, sub, i) && i > 0 ensures OccursAt(s[1..], sub, i - 1) {
      assert s[1..][i - 1..i - 1 + |sub|] == s[i..i + |sub|];
    }
    forall j | OccursAt(s[1..], sub, j) ensures OccursAt(s, sub, j + 1) {
      assert s[1..][j..j + |sub|] == s[j + 1..j + 1 + |sub|];
    }
  }

  /** Whatever surrounds it, a string contains each of its pieces. */
  lemma ContainsPiece(a: string, sub: string, b: string)
    ensures Contains(a + sub + b, sub)
  {
    var s := a + sub + b;
    assert OccursAt(s, sub, |a|) by {
      assert s[|a|..|a| + |sub|] == sub;
    }
    ContainsAt(s, sub);
  }

  /** A string ends with whatever was appended last. */
  lemma EndsWithSuffix(a: string, suffix: string)
    ensures EndsWith(a + suffix, suffix)
  {
    assert (a + suffix)[|a|..] == suffix;
  }
}
