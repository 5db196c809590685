/** The Python string operations the planner and the analyzer rely on. */
module Text {
  import opened Wrappers

  /** str.isspace: the characters `str.split()` splits on and `\s` matches. */
  predicate IsSpace(c: char) {
    || c == ' ' || ('\t' <= c <= '\r') || ('\U{1C}' <= c <= '\U{1F}')
    || c == '\U{85}' || c == '\U{A0}' || c == '\U{1680}'
    || ('\U{2000}' <= c <= '\U{200A}') || c == '\U{2028}' || c == '\U{2029}'
    || c == '\U{202F}' || c == '\U{205F}' || c == '\U{3000}'
  }

  /** `\d` restricted to ASCII digits. */
  predicate IsDigit(c: char) {
    '0' <= c <= '9'
  }

  function LowerChar(c: char): char {
    if 'A' <= c <= 'Z' then (c as int - 'A' as int + 'a' as int) as char else c
  }

  predicate IsUpper(c: char) {
    'A' <= c <= 'Z'
  }

  /**
   * str.lower on the ASCII letters: no capital is left, each capital becomes the letter
   * 32 code points above it, and every other character stays where it was.
   */
  function Lower(s: string): (r: string)
    ensures |r| == |s|
    ensures forall i :: 0 <= i < |r| ==> !IsUpper(r[i])
    ensures forall i :: 0 <= i < |s| && IsUpper(s[i]) ==> r[i] as int == s[i] as int + 32
    ensures forall i :: 0 <= i < |s| && !IsUpper(s[i]) ==> r[i] == s[i]
  {
    seq(|s|, i requires 0 <= i < |s| => LowerChar(s[i]))
  }

  /** Text without capitals is its own lower case. */
  lemma LowerOfLowerCase(s: string)
    requires forall i :: 0 <= i < |s| ==> !IsUpper(s[i])
    ensures Lower(s) == s
  {
  }

  /** Lowering twice is lowering once. */
  lemma LowerIdempotent(s: string)
    ensures Lower(Lower(s)) == Lower(s)
  {
    LowerOfLowerCase(Lower(s));
  }

  predicate IsPrefix(p: string, s: string) {
    |p| <= |s| && s[..|p|] == p
  }

  /** sub occurs in s starting at index i. */
  predicate OccursAt(s: string, sub: string, i: int) {
    0 <= i && i + |sub| <= |s| && s[i..i + |sub|] == sub
  }

  /** Python's `sub in s`: sub occurs somewhere in s. */
  predicate Contains(s: string, sub: string) {
    exists i :: 0 <= i <= |s| - |sub| && OccursAt(s, sub, i)
  }

  /** An occurrence in a suffix of s is an occurrence in s. */
  lemma ContainsInSuffix(s: string, sub: string, d: nat)
    requires d <= |s|
    ensures Contains(s[d..], sub) ==> Contains(s, sub)
  {
    if Contains(s[d..], sub) {
      var i :| 0 <= i <= |s[d..]| - |sub| && OccursAt(s[d..], sub, i);
      assert s[d..][i..i + |sub|] == s[i + d..i + d + |sub|];
      assert OccursAt(s, sub, i + d);
    }
  }

  /** Every character of an occurring string is a character of s. */
  lemma CharsOfOccurrence(s: string, sub: string, k: nat)
    requires k < |sub|
    ensures Contains(s, sub) ==> sub[k] in s
  {
    if Contains(s, sub) {
      var i :| 0 <= i <= |s| - |sub| && OccursAt(s, sub, i);
      assert s[i + k] == s[i..i + |sub|][k];
    }
  }

  /** A word is absent when one of its characters is. */
  lemma Absent(q: string, w: string, k: nat)
    requires k < |w| && w[k] !in q
    ensures !Contains(q, w)
  {
    CharsOfOccurrence(q, w, k);
  }

  /** An occurrence starts at an occurrence of its first character: if that is only at i, it starts at i. */
  lemma HeadOccurrence(s: string, sub: string, i: nat, k: nat)
    requires 0 < |sub| && i < |s| && k < |sub|
    ensures Contains(s, sub) ==>
      sub[0] in s[..i] || sub[0] in s[i + 1..] || (i + k < |s| && s[i + k] == sub[k])
  {
    if Contains(s, sub) {
      var j :| 0 <= j <= |s| - |sub| && OccursAt(s, sub, j);
      assert s[j] == s[j..j + |sub|][0];
      if j < i {
        assert s[..i][j] == s[j];
      } else if j > i {
        assert s[i + 1..][j - i - 1] == s[j];
      } else {
        assert s[i + k] == s[j..j + |sub|][k];
      }
    }
  }

  /** The longest prefix of s without whitespace. */
  function Word(s: string): (w: string)
    ensures IsPrefix(w, s)
    ensures forall i :: 0 <= i < |w| ==> !IsSpace(w[i])
    ensures |w| == |s| || IsSpace(s[|w|])
    decreases |s|
  {
    if |s| == 0 || IsSpace(s[0]) then [] else [s[0]] + Word(s[1..])
  }

  /** `s.split()[0]`: the first whitespace-separated token, or None where Python raises IndexError. */
  function FirstWord(s: string): (w: Option<string>)
    ensures w.None? <==> forall i :: 0 <= i < |s| ==> IsSpace(s[i])
    ensures w.Some? ==> w.value != [] && Contains(s, w.value)
    ensures w.Some? ==> forall i :: 0 <= i < |w.value| ==> !IsSpace(w.value[i])
    decreases |s|
  {
    if |s| == 0 then None
    else if IsSpace(s[0]) then
      var w := FirstWord(s[1..]);
      assert forall i :: 1 <= i < |s| ==> s[i] == s[1..][i - 1];
      ContainsInSuffix(s, w.GetOr([]), 1);
      w
    else
      assert OccursAt(s, Word(s), 0);
      Some(Word(s))
  }

  /** A slice of a suffix is a slice of the whole, shifted. */
  lemma SliceOfSuffix(s: string, d: nat, i: nat, j: nat)
    requires d <= |s| && i <= j <= |s| - d
    ensures s[d..][i..j] == s[i + d..j + d]
  {
  }

  /** w is a whole whitespace-delimited token of s starting at index k. */
  predicate TokenAt(s: string, w: string, k: nat) {
    OccursAt(s, w, k) && (k + |w| == |s| || IsSpace(s[k + |w|]))
  }

  /** A token of s[1..] is a token of s one index further on. */
  lemma TokenShift(s: string, w: string, k: nat)
    requires |s| > 0 && TokenAt(s[1..], w, k)
    ensures TokenAt(s, w, k + 1)
  {
    SliceOfSuffix(s, 1, k, k + |w|);
    if k + 1 + |w| < |s| {
      assert s[k + 1 + |w|] == s[1..][k + |w|];
    }
  }

  /**
   * The token FirstWord finds starts right after the leading whitespace and runs up to the
   * next whitespace character or the end of s.
   */
  lemma {:induction false} FirstWordAfterSpaces(s: string)
    requires FirstWord(s).Some?
    ensures TokenAt(s, FirstWord(s).value, SpaceRun(s))
    decreases |s|
  {
    if IsSpace(s[0]) {
      LeadingSpace(s);
      FirstWordAfterSpaces(s[1..]);
      TokenShift(s, FirstWord(s).value, SpaceRun(s[1..]));
    } else {
      NoLeadingSpace(s);
    }
  }

  /** A leading space is skipped by both FirstWord and SpaceRun. */
  lemma LeadingSpace(s: string)
    requires |s| > 0 && IsSpace(s[0])
    ensures FirstWord(s) == FirstWord(s[1..]) && SpaceRun(s) == SpaceRun(s[1..]) + 1
  {
  }

  /** Without leading space the first word is the word at index 0. */
  lemma NoLeadingSpace(s: string)
    requires |s| > 0 && !IsSpace(s[0])
    ensures FirstWord(s) == Some(Word(s)) && SpaceRun(s) == 0 && OccursAt(s, Word(s), 0)
  {
    assert s[0..|Word(s)|] == s[..|Word(s)|];
  }



  function Pow10(n: nat): (p: nat)
    ensures p >= 1
  {
    if n == 0 then 1 else 10 * Pow10(n - 1)
  }

  function DigitValue(c: char): (v: nat)
    ensures v <= 9
  {
    if IsDigit(c) then c as int - '0' as int else 0
  }

  /** The value of a run of ASCII digits, as Python's int() reads it: below 10 to its length. */
  function DigitsValue(d: string): (v: nat)
    ensures v < Pow10(|d|)
    decreases |d|
  {
    if d == [] then 0
    else
      var init := DigitsValue(d[..|d| - 1]);
      assert init * 10 <= (Pow10(|d| - 1) - 1) * 10;
      init * 10 + DigitValue(d[|d| - 1])
  }

  /** The last digit of the value is the last character's digit. */
  lemma DigitsValueLast(d: string)
    requires d != []
    ensures DigitsValue(d) % 10 == DigitValue(d[|d| - 1])
    ensures DigitsValue(d) / 10 == DigitsValue(d[..|d| - 1])
  {
  }

  /** Leading zeros do not change the value: `int("007") == 7`. */
  lemma {:induction false} DigitsValueLeadingZero(d: string)
    ensures DigitsValue("0" + d) == DigitsValue(d)
    decreases |d|
  {
    if d != [] {
      assert ("0" + d)[..|d|] == "0" + d[..|d| - 1];
      DigitsValueLeadingZero(d[..|d| - 1]);
    }
  }

  /** The length of the run of characters satisfying `IsSpace` at the start of s. */
  function SpaceRun(s: string): (n: nat)
    ensures n <= |s|
    ensures forall i :: 0 <= i < n ==> IsSpace(s[i])
    ensures n == |s| || !IsSpace(s[n])
    decreases |s|
  {
    if |s| > 0 && IsSpace(s[0]) then 1 + SpaceRun(s[1..]) else 0
  }

  /** The length of the run of digits at the start of s. */
  function DigitRun(s: string): (n: nat)
    ensures n <= |s|
    ensures forall i :: 0 <= i < n ==> IsDigit(s[i])
    ensures n == |s| || !IsDigit(s[n])
    decreases |s|
  {
    if |s| > 0 && IsDigit(s[0]) then 1 + DigitRun(s[1..]) else 0
  }

  /** `s.replace(pat, '')`: every non-overlapping occurrence of pat, scanning left to right, removed. */
  function RemoveAll(s: string, pat: string): (r: string)
    ensures |r| <= |s|
    ensures !Contains(s, pat) ==> r == s
    decreases |s|
  {
    if pat == [] || |s| == 0 then s
    else if IsPrefix(pat, s) then
      assert OccursAt(s, pat, 0);
      RemoveAll(s[|pat|..], pat)
    else
      ContainsInSuffix(s, pat, 1);
      [s[0]] + RemoveAll(s[1..], pat)
  }

  /** Removing a leading `pat` from `pat + x` leaves x when x holds no further occurrence. */
  lemma RemoveLeading(pat: string, x: string)
    requires pat != [] && !Contains(x, pat)
    ensures RemoveAll(pat + x, pat) == x
  {
    assert IsPrefix(pat, pat + x);
    assert (pat + x)[|pat|..] == x;
  }
}
