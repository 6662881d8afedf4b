/**
 * The two tests the gateway's resolver applies to a request path:
 * Go's `strings.HasPrefix` and `strings.Contains`, on `seq<char>`.
 */
module GoStrings {

  /** strings.HasPrefix(s, prefix): `prefix` is the first |prefix| characters of `s`. */
  predicate HasPrefix(s: string, prefix: string)
  {
    prefix <= s
  }

  /** strings.Contains(s, sub): `sub` occurs somewhere in `s` (the empty string occurs everywhere). */
  predicate Contains(s: string, sub: string)
    decreases |s|
  {
    HasPrefix(s, sub) || (|s| > 0 && Contains(s[1..], sub))
  }

  /** Reference definition: `sub` occurs in `s` starting at index `i`. */
  ghost predicate OccursAt(s: string, sub: string, i: int)
  {
    0 <= i && i + |sub| <= |s| && s[i..i + |sub|] == sub
  }

  lemma HasPrefixIffSlice(s: string, prefix: string)
    ensures HasPrefix(s, prefix) <==> |prefix| <= |s| && s[..|prefix|] == prefix
  {
  }

  /** An occurrence at any index is found by Contains. */
  lemma {:induction false} OccursAtContains(s: string, sub: string, i: int)
    requires OccursAt(s, sub, i)
    ensures Contains(s, sub)
    decreases i
  {
    if i == 0 {
      assert s[..|sub|] == sub;
    } else {
      assert s[1..][i - 1..i - 1 + |sub|] == s[i..i + |sub|];
      OccursAtContains(s[1..], sub, i - 1);
    }
  }

  /** Whatever Contains finds occurs at some index. */
  lemma {:induction false} ContainsOccurs(s: string, sub: string) returns (i: int)
    requires Contains(s, sub)
    ensures OccursAt(s, sub, i)
    decreases |s|
  {
    if HasPrefix(s, sub) {
      i := 0;
      assert s[0..|sub|] == sub;
    } else {
      var j := ContainsOccurs(s[1..], sub);
      i := j + 1;
      assert s[i..i + |sub|] == s[1..][j..j + |sub|];
    }
  }

  /** Contains agrees with the index-based definition, in both directions. */
  lemma ContainsIffOccurs(s: string, sub: string)
    ensures Contains(s, sub) <==> exists i :: OccursAt(s, sub, i)
  {
    if Contains(s, sub) {
      var i := ContainsOccurs(s, sub);
    }
    if exists i :: OccursAt(s, sub, i) {
      var i :| OccursAt(s, sub, i);
      OccursAtContains(s, sub, i);
    }
  }

  /** A string shorter than `sub` cannot contain it. */
  lemma {:induction false} ShorterNotContains(s: string, sub: string)
    requires |s| < |sub|
    ensures !Contains(s, sub)
    decreases |s|
  {
    if |s| > 0 {
      ShorterNotContains(s[1..], sub);
    }
  }
}
