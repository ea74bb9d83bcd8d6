/**
 * Ordinal, left-to-right, non-overlapping literal substring replacement,
 * the behaviour of .NET's String.Replace(string, string) that the client's
 * log formatter chains three times.
 */
module TextReplace {
  import opened SeqLaws

  /** `pat` occurs in `s` starting at index `i`. */
  predicate OccursAt(s: string, pat: string, i: nat)
  {
    i + |pat| <= |s| && s[i..i + |pat|] == pat
  }

  /** `pat` occurs somewhere in `s`. */
  ghost predicate Occurs(s: string, pat: string)
  {
    exists i: nat :: OccursAt(s, pat, i)
  }

  /**
   * Every occurrence of `pat` in `s`, scanning from the left and resuming
   * after each match, is replaced by `rep`. An empty `pat` makes .NET throw,
   * so it is excluded.
   */
  function ReplaceAll(s: string, pat: string, rep: string): (r: string)
    requires |pat| > 0
    ensures |rep| <= |pat| ==> |r| <= |s|
    ensures |pat| <= |rep| ==> |s| <= |r|
    decreases |s|
  {
    if |s| < |pat| then s
    else if s[..|pat|] == pat then rep + ReplaceAll(s[|pat|..], pat, rep)
    else [s[0]] + ReplaceAll(s[1..], pat, rep)
  }

  /** A string in which `pat` does not occur comes back unchanged. */
  lemma {:induction false} ReplaceWithoutOccurrence(s: string, pat: string, rep: string)
    requires |pat| > 0
    requires !Occurs(s, pat)
    ensures ReplaceAll(s, pat, rep) == s
    decreases |s|
  {
    if |s| >= |pat| {
      assert !OccursAt(s, pat, 0);
      assert !Occurs(s[1..], pat) by {
        forall i: nat | OccursAt(s[1..], pat, i)
          ensures false
        {
          assert s[1..][i..i + |pat|] == s[i + 1..i + 1 + |pat|];
          assert OccursAt(s, pat, i + 1);
        }
      }
      ReplaceWithoutOccurrence(s[1..], pat, rep);
      assert [s[0]] + s[1..] == s;
    }
  }

  /** A prefix that does not contain the first character of `pat` is copied through. */
  lemma {:induction false} ReplaceSkipsPlain(a: string, b: string, pat: string, rep: string)
    requires |pat| > 0
    requires pat[0] !in a
    ensures ReplaceAll(a + b, pat, rep) == a + ReplaceAll(b, pat, rep)
    decreases |a|
  {
    var s := a + b;
    if a == [] {
      assert s == b;
    } else if |s| < |pat| {
      ReplaceShort(s, pat, rep);
      ReplaceShort(b, pat, rep);
    } else {
      assert s[..|pat|] != pat by {
        assert s[..|pat|][0] == a[0];
      }
      assert s[1..] == a[1..] + b;
      assert ReplaceAll(s, pat, rep) == [a[0]] + ReplaceAll(a[1..] + b, pat, rep);
      ReplaceSkipsPlain(a[1..], b, pat, rep);
      Associative([a[0]], a[1..], ReplaceAll(b, pat, rep));
      assert [a[0]] + a[1..] == a;
    }
  }

  /** A string shorter than `pat` cannot hold it. */
  lemma ReplaceShort(s: string, pat: string, rep: string)
    requires 0 < |pat| && |s| < |pat|
    ensures ReplaceAll(s, pat, rep) == s
  {
  }

  /** An occurrence of `pat` at the very front becomes `rep`. */
  lemma ReplaceAtMatch(b: string, pat: string, rep: string)
    requires |pat| > 0
    ensures ReplaceAll(pat + b, pat, rep) == rep + ReplaceAll(b, pat, rep)
  {
    assert (pat + b)[..|pat|] == pat;
    assert (pat + b)[|pat|..] == b;
  }

  /**
   * A different token at the front, one that starts like `pat` but differs
   * from it in its second character and holds no further copy of `pat`'s
   * first character, is copied through.
   */
  lemma {:induction false} ReplaceAtMismatch(tok: string, b: string, pat: string, rep: string)
    requires |pat| >= 2 && |tok| >= 2
    requires tok[1] != pat[1]
    requires pat[0] !in tok[1..]
    ensures ReplaceAll(tok + b, pat, rep) == tok + ReplaceAll(b, pat, rep)
  {
    var s := tok + b;
    if |s| < |pat| {
      ReplaceShort(s, pat, rep);
      ReplaceShort(b, pat, rep);
    } else {
      assert s[..|pat|] != pat by {
        assert s[..|pat|][1] == tok[1];
      }
      assert s[0] == tok[0];
      assert s[1..] == tok[1..] + b;
      assert ReplaceAll(s, pat, rep) == [tok[0]] + ReplaceAll(tok[1..] + b, pat, rep);
      ReplaceSkipsPlain(tok[1..], b, pat, rep);
      Associative([tok[0]], tok[1..], ReplaceAll(b, pat, rep));
      assert [tok[0]] + tok[1..] == tok;
    }
  }

  /** Every character of the result comes from the string or the replacement. */
  lemma {:induction false} ReplaceCharacters(s: string, pat: string, rep: string)
    requires |pat| > 0
    ensures forall c :: c in ReplaceAll(s, pat, rep) ==> c in s || c in rep
    decreases |s|
  {
    if |s| >= |pat| {
      if s[..|pat|] == pat {
        assert forall c :: c in s[|pat|..] ==> c in s;
        ReplaceCharacters(s[|pat|..], pat, rep);
      } else {
        assert forall c :: c in s[1..] ==> c in s;
        ReplaceCharacters(s[1..], pat, rep);
      }
    }
  }
}
