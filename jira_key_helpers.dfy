/**
 * JiraKeyHelpers.ParseUrlToKey: pull a Jira issue key out of pasted text such
 * as a browse URL. The source matches the case-insensitive regular expression
 * [A-Z0-9_]+-\d+ and returns the first match, or the text itself when nothing
 * matches. Here the regular expression is a language (IsKey) and the match is
 * found by a hand-written leftmost scanner whose result is proved to be the
 * match the regular-expression engine reports.
 */
module JiraKeyHelpers {
  import opened Optional

  /** [A-Z0-9_] under RegexOptions.IgnoreCase, for ASCII letters. */
  predicate IsKeyChar(c: char)
  {
    'A' <= c <= 'Z' || 'a' <= c <= 'z' || '0' <= c <= '9' || c == '_'
  }

  /** \d, for ASCII digits. */
  predicate IsDigit(c: char)
  {
    '0' <= c <= '9'
  }

  /** t splits at index k into key characters, the hyphen, and digits (at least one of each). */
  ghost predicate IsKeySplit(t: string, k: int)
  {
    0 < k < |t| - 1 && t[k] == '-'
    && (forall m :: 0 <= m < k ==> IsKeyChar(t[m]))
    && (forall m :: k < m < |t| ==> IsDigit(t[m]))
  }

  /** t is in the language of [A-Z0-9_]+-\d+ (case-insensitively). */
  ghost predicate IsKey(t: string)
  {
    exists k :: IsKeySplit(t, k)
  }

  /** The pattern matches s[i..j]. */
  ghost predicate MatchesAt(s: string, i: int, j: int)
  {
    0 <= i <= j <= |s| && IsKey(s[i..j])
  }

  ghost predicate HasKey(s: string)
  {
    exists i, j :: MatchesAt(s, i, j)
  }

  /**
   * s[i..j] is the match the regular-expression engine reports: no match
   * starts earlier, and no longer match starts at i (the quantifiers are
   * greedy).
   */
  ghost predicate IsFirstMatch(s: string, i: int, j: int)
  {
    MatchesAt(s, i, j)
    && (forall i', j' :: 0 <= i' < i && i' <= j' <= |s| ==> !MatchesAt(s, i', j'))
    && (forall j' :: j < j' <= |s| ==> !MatchesAt(s, i, j'))
  }

  datatype Span = Span(start: nat, end: nat)

  /** The end of the run of key characters that starts at i. */
  function KeyRunEnd(s: string, i: nat): (e: nat)
    requires i <= |s|
    ensures i <= e <= |s|
    ensures forall m :: i <= m < e ==> IsKeyChar(s[m])
    ensures e == |s| || !IsKeyChar(s[e])
    decreases |s| - i
  {
    if i < |s| && IsKeyChar(s[i]) then KeyRunEnd(s, i + 1) else i
  }

  /** The end of the run of digits that starts at i. */
  function DigitRunEnd(s: string, i: nat): (e: nat)
    requires i <= |s|
    ensures i <= e <= |s|
    ensures forall m :: i <= m < e ==> IsDigit(s[m])
    ensures e == |s| || !IsDigit(s[e])
    decreases |s| - i
  {
    if i < |s| && IsDigit(s[i]) then DigitRunEnd(s, i + 1) else i
  }

  /**
   * The engine's attempt at one start position. Because '-' is not a key
   * character, [A-Z0-9_]+ can only end where the run of key characters ends,
   * so no backtracking is needed.
   */
  function MatchAt(s: string, i: nat): Option<nat>
    requires i <= |s|
  {
    var e := KeyRunEnd(s, i);
    if i < e && e + 1 < |s| && s[e] == '-' && IsDigit(s[e + 1]) then Some(DigitRunEnd(s, e + 1)) else None
  }

  /** In any match starting at i, the hyphen sits where the run of key characters from i ends. */
  lemma SplitAtRunEnd(s: string, i: nat, j: nat, k: int)
    requires i <= j <= |s| && IsKeySplit(s[i..j], k)
    ensures i + k == KeyRunEnd(s, i)
    ensures forall m :: i + k < m < j ==> IsDigit(s[m])
  {
    var t, e := s[i..j], KeyRunEnd(s, i);
    assert t[k] == s[i + k];
    assert e <= i + k;
    assert forall m :: i <= m < i + k ==> s[m] == t[m - i];
    assert forall m :: i + k < m < j ==> s[m] == t[m - i];
  }

  /** A match at i, described by the run of key characters from i. */
  lemma MatchesAtIff(s: string, i: nat, j: nat)
    requires i <= j <= |s|
    ensures MatchesAt(s, i, j) <==>
              var e := KeyRunEnd(s, i);
              i < e && e + 1 < j && s[e] == '-' && forall m :: e < m < j ==> IsDigit(s[m])
  {
    var e := KeyRunEnd(s, i);
    if MatchesAt(s, i, j) {
      var k :| IsKeySplit(s[i..j], k);
      SplitAtRunEnd(s, i, j, k);
    }
    if i < e && e + 1 < j && s[e] == '-' && forall m :: e < m < j ==> IsDigit(s[m]) {
      var t := s[i..j];
      assert forall m :: 0 <= m < |t| ==> t[m] == s[i + m];
      assert IsKeySplit(t, e - i);
    }
  }

  /** MatchAt finds the longest match starting at i, and finds none when there is none. */
  lemma MatchAtCorrect(s: string, i: nat)
    requires i <= |s|
    ensures MatchAt(s, i).Some? ==>
              var j := MatchAt(s, i).value;
              MatchesAt(s, i, j) && forall j' :: j < j' <= |s| ==> !MatchesAt(s, i, j')
    ensures MatchAt(s, i).None? ==> forall j :: i <= j <= |s| ==> !MatchesAt(s, i, j)
  {
    var e := KeyRunEnd(s, i);
    forall j | i <= j <= |s|
      ensures MatchesAt(s, i, j) <==> i < e && e + 1 < j && s[e] == '-' && forall m :: e < m < j ==> IsDigit(s[m])
    {
      MatchesAtIff(s, i, j);
    }
  }

  /** The engine's scan: try each start position from i onwards, in order. */
  function FirstMatchFrom(s: string, i: nat): (r: Option<Span>)
    requires i <= |s|
    ensures r.None? ==> forall i', j' :: i <= i' <= j' <= |s| ==> !MatchesAt(s, i', j')
    ensures r.Some? ==>
              i <= r.value.start && MatchesAt(s, r.value.start, r.value.end)
              && (forall i', j' :: i <= i' < r.value.start && i' <= j' <= |s| ==> !MatchesAt(s, i', j'))
              && (forall j' :: r.value.end < j' <= |s| ==> !MatchesAt(s, r.value.start, j'))
    decreases |s| - i
  {
    MatchAtCorrect(s, i);
    match MatchAt(s, i)
    case Some(j) => Some(Span(i, j))
    case None => if i == |s| then None else FirstMatchFrom(s, i + 1)
  }

  /** Regex.Match: the first match of the pattern in s, if any. */
  function FirstMatch(s: string): (r: Option<Span>)
    ensures r.None? <==> !HasKey(s)
    ensures r.Some? ==> IsFirstMatch(s, r.value.start, r.value.end)
  {
    FirstMatchFrom(s, 0)
  }

  /**
   * JiraKeyHelpers.ParseUrlToKey: the first match, as it appears in the text
   * (its casing kept), or the text itself when there is no match.
   */
  function ParseUrlToKey(text: string): (r: string)
    ensures !HasKey(text) ==> r == text
    ensures HasKey(text) ==> exists i, j :: IsFirstMatch(text, i, j) && r == text[i..j]
  {
    match FirstMatch(text)
    case Some(m) => text[m.start..m.end]
    case None => text
  }

  /** When the text holds a key, what comes back is a key. */
  lemma ParseUrlToKeyIsKey(text: string)
    requires HasKey(text)
    ensures IsKey(ParseUrlToKey(text))
  {
    var m := FirstMatch(text).value;
    assert ParseUrlToKey(text) == text[m.start..m.end];
    assert MatchesAt(text, m.start, m.end);
  }

  /** The first match is unique: the engine's answer is fully determined by IsFirstMatch. */
  lemma FirstMatchUnique(s: string, i1: int, j1: int, i2: int, j2: int)
    requires IsFirstMatch(s, i1, j1) && IsFirstMatch(s, i2, j2)
    ensures i1 == i2 && j1 == j2
  {
  }

  /** Whatever the first match is, it is what ParseUrlToKey returns. */
  lemma ParseUrlToKeyOfFirstMatch(s: string, i: int, j: int)
    requires IsFirstMatch(s, i, j)
    ensures ParseUrlToKey(s) == s[i..j]
  {
    var m := FirstMatch(s).value;
    FirstMatchUnique(s, i, j, m.start, m.end);
  }

  /** The digit part is greedy: the first match is not followed by a digit. */
  lemma FirstMatchDigitsMaximal(s: string, i: int, j: int)
    requires IsFirstMatch(s, i, j)
    ensures j == |s| || !IsDigit(s[j])
  {
    if j < |s| && IsDigit(s[j]) {
      var k :| IsKeySplit(s[i..j], k);
      var t := s[i..j + 1];
      assert IsKeySplit(t, k) by {
        forall m | 0 <= m < |t| - 1 ensures t[m] == s[i..j][m] { }
      }
      assert MatchesAt(s, i, j + 1);
    }
  }

  /** The first match starts where a run of key characters starts. */
  lemma FirstMatchStartsRun(s: string, i: int, j: int)
    requires IsFirstMatch(s, i, j)
    ensures i == 0 || !IsKeyChar(s[i - 1])
  {
    if i > 0 && IsKeyChar(s[i - 1]) {
      var k :| IsKeySplit(s[i..j], k);
      var t := s[i - 1..j];
      assert IsKeySplit(t, k + 1) by {
        forall m | 1 <= m < |t| ensures t[m] == s[i..j][m - 1] { }
      }
      assert MatchesAt(s, i - 1, j);
    }
  }

  /** A whole key is its own first match. */
  lemma KeyIsOwnFirstMatch(t: string)
    requires IsKey(t)
    ensures IsFirstMatch(t, 0, |t|)
  {
    assert t[0..|t|] == t;
  }

  /** Extracting again from an extracted key gives the same key. */
  lemma ParseUrlToKeyIdempotent(text: string)
    ensures ParseUrlToKey(ParseUrlToKey(text)) == ParseUrlToKey(text)
  {
    if HasKey(text) {
      var r := ParseUrlToKey(text);
      var i, j :| IsFirstMatch(text, i, j) && r == text[i..j];
      KeyIsOwnFirstMatch(r);
      assert MatchesAt(r, 0, |r|);
      var i2, j2 :| IsFirstMatch(r, i2, j2) && ParseUrlToKey(r) == r[i2..j2];
      FirstMatchUnique(r, 0, |r|, i2, j2);
      assert r[0..|r|] == r;
    }
  }

  /** Without a hyphen followed by a digit there is no key, so the text comes back unchanged. */
  lemma NoHyphenDigitEchoes(text: string)
    requires forall m :: 0 <= m < |text| - 1 ==> !(text[m] == '-' && IsDigit(text[m + 1]))
    ensures ParseUrlToKey(text) == text
  {
    forall i, j, k | 0 <= i <= j <= |text| ensures !IsKeySplit(text[i..j], k) {
      if 0 < k < j - i - 1 {
        assert text[i..j][k] == text[i + k];
        assert text[i..j][k + 1] == text[i + k + 1];
      }
    }
  }

  /** No match starts inside a hyphen-free prefix that ends on a non-key character. */
  lemma NoMatchInHyphenFreePrefix(p: string, t: string)
    requires '-' !in p
    requires p == [] || !IsKeyChar(p[|p| - 1])
    ensures forall i, j :: 0 <= i < |p| && i <= j <= |p + t| ==> !MatchesAt(p + t, i, j)
  {
    var s := p + t;
    forall i, j, k | 0 <= i < |p| && i <= j <= |s| ensures !IsKeySplit(s[i..j], k) {
      if 0 < k < j - i - 1 && s[i..j][k] == '-' {
        assert s[i..j][k] == s[i + k];
        assert |p| <= i + k;
        assert s[i..j][|p| - 1 - i] == p[|p| - 1];
      }
    }
  }

  /** A key followed by a non-digit is the longest match at its start. */
  lemma KeyLongestBeforeNonDigit(key: string, rest: string)
    requires IsKey(key)
    requires rest == [] || !IsDigit(rest[0])
    ensures forall j :: |key| < j <= |key + rest| ==> !MatchesAt(key + rest, 0, j)
  {
    var s := key + rest;
    var k0 :| IsKeySplit(key, k0);
    forall j, k | |key| < j <= |s| ensures !IsKeySplit(s[0..j], k) {
      if 0 < k < j - 1 && s[0..j][k] == '-' {
        assert s[0..j][k] == s[k];
        assert s[0..j][|key|] == rest[0];
        if k < k0 {
          assert s[k] == key[k];
        } else if k0 < k {
          assert s[0..j][k0] == key[k0];
        }
      }
    }
  }

  /** A match inside t is a match at the shifted position of p + t. */
  lemma MatchesAtShift(p: string, t: string, i: nat, j: nat)
    requires i <= j <= |t|
    ensures MatchesAt(p + t, |p| + i, |p| + j) <==> MatchesAt(t, i, j)
  {
    assert (p + t)[|p| + i..|p| + j] == t[i..j];
  }

  /** How splitting p + key + rest around key reads back. */
  lemma ConcatAround(p: string, key: string, rest: string)
    ensures p + key + rest == p + (key + rest)
    ensures (p + (key + rest))[|p|..|p| + |key|] == key
  {
    assert (p + (key + rest))[|p|..|p| + |key|] == (key + rest)[..|key|];
  }

  /**
   * A key that follows text with no hyphen, and that is not glued to a key
   * character before it, is the one extracted, whatever comes after it as
   * long as it does not extend the digits: later look-alikes such as a
   * key=FOO-555 query parameter are ignored.
   */
  lemma KeyAfterHyphenFreePrefix(p: string, key: string, rest: string)
    requires '-' !in p
    requires p == [] || !IsKeyChar(p[|p| - 1])
    requires IsKey(key)
    requires rest == [] || !IsDigit(rest[0])
    ensures ParseUrlToKey(p + key + rest) == key
  {
    var t := key + rest;
    var s := p + t;
    var i, j := |p|, |p| + |key|;
    NoMatchInHyphenFreePrefix(p, t);
    KeyLongestBeforeNonDigit(key, rest);
    forall j' | j < j' <= |s| ensures !MatchesAt(s, i, j') {
      MatchesAtShift(p, t, 0, j' - i);
    }
    ConcatAround(p, key, rest);
    MatchesAtShift(p, t, 0, |key|);
    assert IsFirstMatch(s, i, j);
    ParseUrlToKeyOfFirstMatch(s, i, j);
  }

  /** A bare key is returned as it is. */
  lemma ParseUrlToKeyBareKey()
    ensures ParseUrlToKey("KEY-123") == "KEY-123"
  {
    var key := "KEY-123";
    assert IsKeySplit(key, 3);
    KeyAfterHyphenFreePrefix("", key, "");
    assert "" + key + "" == key;
  }

  /**
   * In a browse URL the path key wins over a later key=FOO-555 query
   * parameter, with or without path segments after the key.
   */
  lemma ParseUrlToKeyBrowseUrl()
    ensures ParseUrlToKey("http://jira.test.local/browse/" + "KEY-123" + "?foo=bar&key=FOO-555") == "KEY-123"
    ensures ParseUrlToKey("http://jira.test.local/browse/" + "KEY-123" + "/somefoo/qwe?foo=bar&key=FOO-555") == "KEY-123"
  {
    assert IsKeySplit("KEY-123", 3);
    KeyAfterHyphenFreePrefix("http://jira.test.local/browse/", "KEY-123", "?foo=bar&key=FOO-555");
    KeyAfterHyphenFreePrefix("http://jira.test.local/browse/", "KEY-123", "/somefoo/qwe?foo=bar&key=FOO-555");
  }

  /** Text without a key, including a key prefix with no digits, is echoed. */
  lemma ParseUrlToKeyNoKey()
    ensures ParseUrlToKey("ABC") == "ABC"
    ensures ParseUrlToKey("http://jira.test.local/browse/KEY-") == "http://jira.test.local/browse/KEY-"
  {
    NoHyphenDigitEchoes("ABC");
    var bare := "http://jira.test.local/browse/KEY-";
    assert '-' !in bare[..|bare| - 1] by {
      assert bare[..|bare| - 1] == "http://jira.test.local/browse/KEY";
    }
    assert forall m :: 0 <= m < |bare| - 1 ==> bare[m] != '-' by {
      forall m | 0 <= m < |bare| - 1 ensures bare[m] != '-' {
        assert bare[m] == bare[..|bare| - 1][m];
      }
    }
    NoHyphenDigitEchoes(bare);
  }
}
