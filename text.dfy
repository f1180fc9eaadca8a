/**
 * .NET's String.Trim(), which every key-taking request builder applies to the
 * issue key: it removes leading and trailing white-space characters, where a
 * white-space character is one for which Char.IsWhiteSpace holds.
 */
module Text {

  /**
   * Char.IsWhiteSpace: the control characters U+0009 to U+000D and U+0085, and
   * the Unicode space, line and paragraph separators.
   */
  predicate IsWhiteSpace(c: char)
  {
    ('\t' <= c <= '\r') || c == ' ' || c == '\U{0085}' || c == '\U{00A0}' || c == '\U{1680}'
    || ('\U{2000}' <= c <= '\U{200A}') || c == '\U{2028}' || c == '\U{2029}'
    || c == '\U{202F}' || c == '\U{205F}' || c == '\U{3000}'
  }

  /** The end of the run of white space that starts at i: where String.Trim's forward scan stops. */
  function WhiteSpaceRunEnd(s: string, i: nat): (k: nat)
    requires i <= |s|
    ensures i <= k <= |s|
    ensures forall m :: i <= m < k ==> IsWhiteSpace(s[m])
    ensures k == |s| || !IsWhiteSpace(s[k])
    decreases |s| - i
  {
    if i < |s| && IsWhiteSpace(s[i]) then WhiteSpaceRunEnd(s, i + 1) else i
  }

  /**
   * The start of the run of white space that ends at j, not going below lo:
   * where String.Trim's backward scan stops.
   */
  function WhiteSpaceRunStart(s: string, lo: nat, j: nat): (k: nat)
    requires lo <= j <= |s|
    ensures lo <= k <= j
    ensures forall m :: k <= m < j ==> IsWhiteSpace(s[m])
    ensures k == lo || !IsWhiteSpace(s[k - 1])
    decreases j - lo
  {
    if lo < j && IsWhiteSpace(s[j - 1]) then WhiteSpaceRunStart(s, lo, j - 1) else j
  }

  /**
   * String.Trim(): scan forward past the leading white space, then backward
   * past the trailing white space, and keep what lies between.
   */
  function Trim(s: string): string
  {
    var a := WhiteSpaceRunEnd(s, 0);
    s[a..WhiteSpaceRunStart(s, a, |s|)]
  }

  /**
   * What trimming means, independently of how it is computed: r is the slice
   * s[a..b] with only white space outside it, and r neither starts nor ends
   * with white space.
   */
  ghost predicate IsTrimOf(r: string, s: string)
  {
    exists a, b :: IsTrimSpan(s, a, b) && r == s[a..b]
  }

  ghost predicate IsTrimSpan(s: string, a: int, b: int)
  {
    0 <= a <= b <= |s|
    && (forall k :: 0 <= k < a ==> IsWhiteSpace(s[k]))
    && (forall k :: b <= k < |s| ==> IsWhiteSpace(s[k]))
    && (a < b ==> !IsWhiteSpace(s[a]) && !IsWhiteSpace(s[b - 1]))
  }

  /** The span Trim keeps is a trimming span. */
  lemma TrimSpan(s: string)
    ensures var a := WhiteSpaceRunEnd(s, 0);
            var b := WhiteSpaceRunStart(s, a, |s|);
            IsTrimSpan(s, a, b) && Trim(s) == s[a..b]
  {
    var a := WhiteSpaceRunEnd(s, 0);
    var b := WhiteSpaceRunStart(s, a, |s|);
    assert a < |s| ==> !IsWhiteSpace(s[a]);
    assert a < b ==> !IsWhiteSpace(s[b - 1]);
  }

  /** Trim computes a trimming of its argument. */
  lemma TrimIsTrimOf(s: string)
    ensures IsTrimOf(Trim(s), s)
  {
    TrimSpan(s);
    var a := WhiteSpaceRunEnd(s, 0);
    var b := WhiteSpaceRunStart(s, a, |s|);
    assert IsTrimSpan(s, a, b) && Trim(s) == s[a..b];
  }

  /** A string with no white space at its ends is left unchanged. */
  lemma TrimUnpadded(t: string)
    requires t == [] || (!IsWhiteSpace(t[0]) && !IsWhiteSpace(t[|t| - 1]))
    ensures Trim(t) == t
  {
    assert WhiteSpaceRunEnd(t, 0) == 0;
    assert WhiteSpaceRunStart(t, 0, |t|) == |t|;
    assert t[0..|t|] == t;
  }

  /** A string has only one trimming, so IsTrimOf pins Trim down completely. */
  lemma TrimOfUnique(s: string, r1: string, r2: string)
    requires IsTrimOf(r1, s) && IsTrimOf(r2, s)
    ensures r1 == r2
  {
    var a1, b1 :| IsTrimSpan(s, a1, b1) && r1 == s[a1..b1];
    var a2, b2 :| IsTrimSpan(s, a2, b2) && r2 == s[a2..b2];
    assert a1 < b1 ==> a1 == a2 && b1 == b2;
  }

  /** White space around a string without white space at its ends is exactly what Trim removes. */
  lemma TrimPadded(before: string, t: string, after: string)
    requires forall k :: 0 <= k < |before| ==> IsWhiteSpace(before[k])
    requires forall k :: 0 <= k < |after| ==> IsWhiteSpace(after[k])
    requires t == [] || (!IsWhiteSpace(t[0]) && !IsWhiteSpace(t[|t| - 1]))
    ensures Trim(before + t + after) == t
  {
    var s := before + t + after;
    var a, b := |before|, |before| + |t|;
    if t == [] {
      forall k | 0 <= k < |s| ensures IsWhiteSpace(s[k]) {
        if k < a { assert s[k] == before[k]; } else { assert s[k] == after[k - a]; }
      }
      assert IsTrimSpan(s, 0, 0);
      assert s[0..0] == t;
    } else {
      forall k | 0 <= k < a ensures IsWhiteSpace(s[k]) {
        assert s[k] == before[k];
      }
      forall k | b <= k < |s| ensures IsWhiteSpace(s[k]) {
        assert s[k] == after[k - b];
      }
      assert s[a] == t[0] && s[b - 1] == t[|t| - 1];
      assert IsTrimSpan(s, a, b);
      assert s[a..b] == t;
    }
    TrimIsTrimOf(s);
    TrimOfUnique(s, Trim(s), t);
  }

  /** Trimming a trimmed string changes nothing. */
  lemma TrimIdempotent(s: string)
    ensures Trim(Trim(s)) == Trim(s)
  {
    TrimSpan(s);
    TrimUnpadded(Trim(s));
  }

  /** Trim removes something exactly when the string has white space at an end. */
  lemma TrimChanges(s: string)
    ensures Trim(s) != s <==> (|s| > 0 && (IsWhiteSpace(s[0]) || IsWhiteSpace(s[|s| - 1])))
  {
    if |s| > 0 && (IsWhiteSpace(s[0]) || IsWhiteSpace(s[|s| - 1])) {
      TrimSpan(s);
      var a := WhiteSpaceRunEnd(s, 0);
      var b := WhiteSpaceRunStart(s, a, |s|);
      assert |Trim(s)| == b - a;
      assert a == 0 ==> !IsWhiteSpace(s[0]);
      assert b == |s| && a < b ==> !IsWhiteSpace(s[|s| - 1]);
    } else {
      TrimUnpadded(s);
    }
  }
}
