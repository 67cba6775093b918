/** The C string search used for parameter routing: `strstr(s, t)` is non-null
    exactly when `t` occurs somewhere in `s` (the empty string occurs everywhere). */
module CString {

  /** strstr(s, t) != nullptr, written as the search strstr performs:
      try each start position from the left. */
  predicate Contains(s: string, t: string)
    decreases |s|
  {
    |t| <= |s| && (s[..|t|] == t || Contains(s[1..], t))
  }

  /** `t` starts at position `i` of `s`. */
  ghost predicate OccursAt(s: string, t: string, i: int)
  {
    0 <= i && i + |t| <= |s| && s[i..i + |t|] == t
  }

  /** The search finds `t` exactly when `t` occurs at some position. */
  lemma {:induction false} ContainsIff(s: string, t: string)
    ensures Contains(s, t) <==> exists i :: OccursAt(s, t, i)
    decreases |s|
  {
    if |t| <= |s| {
      if s[..|t|] == t {
        assert OccursAt(s, t, 0);
      } else {
        ContainsIff(s[1..], t);
        forall i | OccursAt(s[1..], t, i)
          ensures OccursAt(s, t, i + 1)
        {
          assert s[1..][i..i + |t|] == s[i + 1..i + 1 + |t|];
        }
        forall i | OccursAt(s, t, i)
          ensures OccursAt(s[1..], t, i - 1)
        {
          assert i != 0;
          assert s[1..][i - 1..i - 1 + |t|] == s[i..i + |t|];
        }
      }
    }
  }

  /** Any text found between two others is found in their concatenation. */
  lemma ContainsMiddle(a: string, t: string, b: string)
    ensures Contains(a + t + b, t)
  {
    var s := a + t + b;
    assert s[|a|..|a| + |t|] == t;
    assert OccursAt(s, t, |a|);
    ContainsIff(s, t);
  }

  /** A text holding a character that `s` lacks is not found in `s`. */
  lemma NotContainsMissingChar(s: string, t: string, c: char)
    requires c in t && c !in s
    ensures !Contains(s, t)
  {
  }
}
