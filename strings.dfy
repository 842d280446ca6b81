/** The string operations the core relies on: `toLowerCase`, `toUpperCase` and `includes`. */
module Strings {

  /** Case mapping of one character. Only the ASCII letters are mapped; every keyword the
      core tests for is plain ASCII. */
  function LowerChar(c: char): char
  {
    if 'A' <= c <= 'Z' then (c as int + 32) as char else c
  }

  function UpperChar(c: char): char
  {
    if 'a' <= c <= 'z' then (c as int - 32) as char else c
  }

  function Lower(s: string): (r: string)
    ensures |r| == |s| && forall i :: 0 <= i < |s| ==> r[i] == LowerChar(s[i])
  {
    seq(|s|, i requires 0 <= i < |s| => LowerChar(s[i]))
  }

  function Upper(s: string): (r: string)
    ensures |r| == |s| && forall i :: 0 <= i < |s| ==> r[i] == UpperChar(s[i])
  {
    seq(|s|, i requires 0 <= i < |s| => UpperChar(s[i]))
  }

  /** `LowerChar` changes exactly the capital letters, and never yields one. */
  lemma LowerCharFixesNonCapitals(c: char)
    ensures LowerChar(c) == c <==> !('A' <= c <= 'Z')
    ensures !('A' <= LowerChar(c) <= 'Z')
    ensures UpperChar(LowerChar(c)) == UpperChar(c)
  {
  }

  /** A lowered string holds no capital letter, and lowering it again changes nothing. */
  lemma LowerIdempotent(s: string)
    ensures forall i :: 0 <= i < |Lower(s)| ==> !('A' <= Lower(s)[i] <= 'Z')
    ensures Lower(Lower(s)) == Lower(s)
  {
    forall i | 0 <= i < |s|
      ensures Lower(Lower(s))[i] == Lower(s)[i] && !('A' <= Lower(s)[i] <= 'Z')
    {
      LowerCharFixesNonCapitals(s[i]);
    }
  }

  /** Upper-casing first makes no difference to the lowered string, so `toUpperCase` and
      `toLowerCase` comparisons agree on ASCII keywords. */
  lemma LowerOfUpper(s: string)
    ensures Lower(Upper(s)) == Lower(s)
    ensures Upper(Lower(s)) == Upper(s)
  {
    forall i | 0 <= i < |s|
      ensures Lower(Upper(s))[i] == Lower(s)[i] && Upper(Lower(s))[i] == Upper(s)[i]
    {
      LowerCharFixesNonCapitals(s[i]);
    }
  }

  /** Lowering keeps every occurrence: a word found in `s` is found, lowered, in `Lower(s)`. */
  lemma ContainsLowered(s: string, w: string)
    requires Contains(s, w)
    ensures Contains(Lower(s), Lower(w))
  {
    var i :| 0 <= i <= |s| - |w| && OccursAt(s, w, i);
    assert Lower(s)[i..i + |w|] == Lower(w) by {
      forall k | 0 <= k < |w|
        ensures Lower(s)[i..i + |w|][k] == Lower(w)[k]
      {
        assert s[i..i + |w|][k] == w[k];
      }
    }
    assert OccursAt(Lower(s), Lower(w), i);
  }

  /** `w` occurs in `s` starting at index `i`. */
  predicate OccursAt(s: string, w: string, i: int)
  {
    0 <= i <= |s| - |w| && s[i..i + |w|] == w
  }

  /** `s.includes(w)`. */
  predicate Contains(s: string, w: string)
  {
    exists i :: 0 <= i <= |s| - |w| && OccursAt(s, w, i)
  }

  /** Whatever contains `w + v` contains `w`. */
  lemma ContainsExtension(s: string, w: string, v: string)
    requires Contains(s, w + v)
    ensures Contains(s, w)
  {
    var i :| 0 <= i <= |s| - |w + v| && OccursAt(s, w + v, i);
    assert s[i..i + |w|] == (w + v)[..|w|] == w;
    assert OccursAt(s, w, i);
  }

  /** A word with a character that does not occur in `s` does not occur in `s`. */
  lemma NotContainsByChar(s: string, w: string, k: nat)
    requires k < |w|
    requires forall i :: 0 <= i < |s| ==> s[i] != w[k]
    ensures !Contains(s, w)
  {
    forall i | 0 <= i <= |s| - |w|
      ensures !OccursAt(s, w, i)
    {
      var window := s[i..i + |w|];
      assert window[k] == s[i + k];
    }
  }

  /** A word whose characters `k` and `k + 1` never stand side by side in `s` does not occur
      in `s`. This is how the model refutes `includes` on string constants. */
  lemma NotContainsByPair(s: string, w: string, k: nat)
    requires k + 1 < |w|
    requires forall i :: 0 <= i < |s| - 1 ==> s[i] != w[k] || s[i + 1] != w[k + 1]
    ensures !Contains(s, w)
  {
    forall i | 0 <= i <= |s| - |w|
      ensures !OccursAt(s, w, i)
    {
      var window := s[i..i + |w|];
      assert window[k] == s[i + k] && window[k + 1] == s[i + k + 1];
    }
  }
}
