// The string operations that configuration, routing and environment files share, on
// sequences of code points with the white space of Unicode and the letter case of ASCII.

module Text {
  predicate IsSpace(c: char) {
    '\t' <= c <= '\r' || c == ' ' || c == '\U{0085}' || c == '\U{00A0}' || c == '\U{1680}'
    || '\U{2000}' <= c <= '\U{200A}' || c == '\U{2028}' || c == '\U{2029}' || c == '\U{202F}' || c == '\U{205F}'
    || c == '\U{3000}'
  }

  function TrimLeft(s: string): (r: string)
    ensures |r| <= |s| && r == s[|s| - |r|..]
    ensures r == [] || !IsSpace(r[0])
  {
    if s != [] && IsSpace(s[0]) then TrimLeft(s[1..]) else s
  }

  function TrimRight(s: string): (r: string)
    ensures r <= s
    ensures r == [] || !IsSpace(r[|r| - 1])
  {
    if s != [] && IsSpace(s[|s| - 1]) then TrimRight(s[..|s| - 1]) else s
  }

  function TrimSpace(s: string): (r: string)
    ensures |r| <= |s|
    ensures r == [] || (!IsSpace(r[0]) && !IsSpace(r[|r| - 1]))
  {
    TrimRight(TrimLeft(s))
  }

  // Text that neither starts nor ends with white space.
  predicate Trimmed(s: string) { s == [] || (!IsSpace(s[0]) && !IsSpace(s[|s| - 1])) }

  lemma TrimTrimmed(s: string)
    requires Trimmed(s)
    ensures TrimSpace(s) == s
  {}

  predicate AllSpace(s: string) { forall i :: 0 <= i < |s| ==> IsSpace(s[i]) }

  lemma {:induction false} TrimLeftSkips(before: string, s: string)
    requires AllSpace(before)
    ensures TrimLeft(before + s) == TrimLeft(s)
  {
    if before == "" {
      assert before + s == s;
    } else {
      assert (before + s)[1..] == before[1..] + s;
      TrimLeftSkips(before[1..], s);
    }
  }

  lemma {:induction false} TrimRightSkips(s: string, after: string)
    requires AllSpace(after)
    ensures TrimRight(s + after) == TrimRight(s)
  {
    if after == "" {
      assert s + after == s;
    } else {
      assert (s + after)[..|s + after| - 1] == s + after[..|after| - 1];
      TrimRightSkips(s, after[..|after| - 1]);
    }
  }

  // Trimming takes away the white space around a text and nothing else.
  lemma TrimSpaceMeans(before: string, s: string, after: string)
    requires AllSpace(before) && Trimmed(s) && AllSpace(after)
    ensures TrimSpace(before + s + after) == s
  {
    hide AllSpace, TrimLeft, TrimRight;
    assert before + s + after == before + (s + after);
    TrimLeftSkips(before, s + after);
    if s == "" {
      assert s + after == after + "";
      TrimLeftSkips(after, "");
      NothingToTrim("");
    } else {
      assert (s + after)[0] == s[0];
      NothingToTrim(s + after);
      NothingToTrim(s);
      TrimRightSkips(s, after);
    }
  }

  lemma NothingToTrim(s: string)
    ensures s == "" || !IsSpace(s[0]) ==> TrimLeft(s) == s
    ensures s == "" || !IsSpace(s[|s| - 1]) ==> TrimRight(s) == s
  {}

  function LowerChar(c: char): char { if 'A' <= c <= 'Z' then (c as int + 32) as char else c }

  function ToLower(s: string): (r: string)
    ensures |r| == |s|
    ensures forall i :: 0 <= i < |s| ==> r[i] == LowerChar(s[i])
  {
    seq(|s|, i requires 0 <= i < |s| => LowerChar(s[i]))
  }

  // The same letter, or the same character that is none.
  predicate SameLetter(c: char, d: char) {
    c == d || ('A' <= c <= 'Z' && d == ('a' as int + (c as int - 'A' as int)) as char)
    || ('A' <= d <= 'Z' && c == ('a' as int + (d as int - 'A' as int)) as char)
  }

  // Two texts are alike in lower case exactly if they differ in the case of letters only, and no
  // capital is left.
  lemma LowerMeans(s: string, t: string)
    ensures ToLower(s) == ToLower(t) <==> |s| == |t| && forall i :: 0 <= i < |s| ==> SameLetter(s[i], t[i])
    ensures forall i :: 0 <= i < |s| ==> !('A' <= ToLower(s)[i] <= 'Z') && SameLetter(s[i], ToLower(s)[i])
  {
    forall i | 0 <= i < |s| && i < |t| ensures SameLetter(s[i], t[i]) <==> LowerChar(s[i]) == LowerChar(t[i]) {}
    if ToLower(s) == ToLower(t) {
      forall i | 0 <= i < |s| ensures SameLetter(s[i], t[i]) { assert ToLower(s)[i] == ToLower(t)[i]; }
    }
  }

  lemma LowerTwice(s: string)
    ensures ToLower(ToLower(s)) == ToLower(s)
  {}

  function TrimPrefix(s: string, prefix: string): string {
    if prefix <= s then s[|prefix|..] else s
  }

  // The text without the slashes at its end.
  function TrimSlashes(s: string): (r: string)
    ensures r <= s && (r == [] || r[|r| - 1] != '/')
    ensures forall i :: |r| <= i < |s| ==> s[i] == '/'
  {
    if s != [] && s[|s| - 1] == '/' then TrimSlashes(s[..|s| - 1]) else s
  }
}
