/**
 * The fragment of Python's `re` that the query planner's patterns use, and `re.search`
 * over it. A pattern is a sequence of tokens; matching is existential, which is what a
 * backtracking engine decides for these constructs.
 */
module Patterns {
  import opened Text

  datatype Token =
    | Lit(text: string)  // a literal run of characters
    | Gap                // `.*`: any characters except a newline
    | Spaces             // `\s+`
    | Digits             // `\d+`
    | Opt(c: char)       // `c?`

  type Pattern = seq<Token>

  /** Some prefix of s matches p. */
  predicate MatchesFrom(s: string, p: Pattern)
    decreases |s|, |p|
  {
    if p == [] then true
    else match p[0]
      case Lit(w) => IsPrefix(w, s) && MatchesFrom(s[|w|..], p[1..])
      case Gap => MatchesFrom(s, p[1..]) || (|s| > 0 && s[0] != '\n' && MatchesFrom(s[1..], p))
      case Spaces => |s| > 0 && IsSpace(s[0]) && (MatchesFrom(s[1..], p[1..]) || MatchesFrom(s[1..], p))
      case Digits => |s| > 0 && IsDigit(s[0]) && (MatchesFrom(s[1..], p[1..]) || MatchesFrom(s[1..], p))
      case Opt(c) => MatchesFrom(s, p[1..]) || (|s| > 0 && s[0] == c && MatchesFrom(s[1..], p[1..]))
  }

  /** `re.search(p, s)` succeeds: p matches starting at some position of s. */
  predicate Search(s: string, p: Pattern)
    decreases |s|
  {
    MatchesFrom(s, p) || (|s| > 0 && Search(s[1..], p))
  }

  predicate MatchesAt(s: string, p: Pattern, i: int) {
    0 <= i <= |s| && MatchesFrom(s[i..], p)
  }

  /** Search succeeds exactly when some start position matches. */
  lemma {:induction false} SearchIff(s: string, p: Pattern)
    ensures Search(s, p) <==> exists i :: MatchesAt(s, p, i)
    decreases |s|
  {
    if Search(s, p) {
      if MatchesFrom(s, p) {
        assert MatchesAt(s, p, 0);
      } else {
        SearchIff(s[1..], p);
        var i :| MatchesAt(s[1..], p, i);
        assert s[1..][i..] == s[i + 1..];
        assert MatchesAt(s, p, i + 1);
      }
    }
    if exists i :: MatchesAt(s, p, i) {
      var i :| MatchesAt(s, p, i);
      SearchAt(s, p, i);
    }
  }

  lemma {:induction false} SearchAt(s: string, p: Pattern, i: nat)
    requires MatchesAt(s, p, i)
    ensures Search(s, p)
    decreases i
  {
    if i > 0 {
      assert s[1..][i - 1..] == s[i..];
      SearchAt(s[1..], p, i - 1);
    }
  }

  predicate NoNewline(s: string) {
    forall k :: 0 <= k < |s| ==> s[k] != '\n'
  }

  /** `.*` followed by rest matches exactly when rest matches after some newline-free stretch. */
  lemma {:induction false} GapIff(s: string, p: Pattern)
    requires p != [] && p[0] == Gap
    ensures MatchesFrom(s, p) <==> exists j :: 0 <= j <= |s| && NoNewline(s[..j]) && MatchesFrom(s[j..], p[1..])
    decreases |s|
  {
    if MatchesFrom(s, p) {
      if MatchesFrom(s, p[1..]) {
        assert NoNewline(s[..0]) && MatchesFrom(s[0..], p[1..]);
      } else {
        GapIff(s[1..], p);
        var j :| 0 <= j <= |s| - 1 && NoNewline(s[1..][..j]) && MatchesFrom(s[1..][j..], p[1..]);
        assert s[1..][j..] == s[j + 1..];
        assert s[..j + 1] == [s[0]] + s[1..][..j];
        assert NoNewline(s[..j + 1]) && MatchesFrom(s[j + 1..], p[1..]);
      }
    }
    if exists j :: 0 <= j <= |s| && NoNewline(s[..j]) && MatchesFrom(s[j..], p[1..]) {
      var j :| 0 <= j <= |s| && NoNewline(s[..j]) && MatchesFrom(s[j..], p[1..]);
      GapOver(s, p, j);
    }
  }

  lemma {:induction false} GapOver(s: string, p: Pattern, j: nat)
    requires p != [] && p[0] == Gap && j <= |s|
    requires NoNewline(s[..j]) && MatchesFrom(s[j..], p[1..])
    ensures MatchesFrom(s, p)
    decreases j
  {
    if j > 0 {
      assert s[1..][j - 1..] == s[j..];
      assert s[1..][..j - 1] == s[1..j];
      assert s[0] == s[..j][0];
      GapOver(s[1..], p, j - 1);
    }
  }

  /** A search for a pattern that starts with a literal finds that literal as a substring. */
  lemma {:induction false} SearchFindsLit(s: string, p: Pattern)
    requires p != [] && p[0].Lit? && Search(s, p)
    ensures Contains(s, p[0].text)
    decreases |s|
  {
    if MatchesFrom(s, p) {
      assert OccursAt(s, p[0].text, 0);
    } else {
      SearchFindsLit(s[1..], p);
      ContainsInSuffix(s, p[0].text, 1);
    }
  }

  /** A literal found at i is a match of the one-token pattern. */
  lemma LitAt(s: string, w: string, i: nat)
    requires OccursAt(s, w, i)
    ensures Search(s, [Lit(w)])
  {
    assert s[i..][..|w|] == s[i..i + |w|];
    assert MatchesAt(s, [Lit(w)], i);
    SearchAt(s, [Lit(w)], i);
  }

  /** `a.*b` is found when a occurs at i and b occurs at j, with no newline between them. */
  lemma LitGapLitAt(s: string, a: string, b: string, i: nat, j: nat)
    requires OccursAt(s, a, i) && OccursAt(s, b, j) && i + |a| <= j
    requires NoNewline(s[i + |a|..j])
    ensures Search(s, [Lit(a), Gap, Lit(b)])
  {
    var p := [Lit(a), Gap, Lit(b)];
    var t := s[i + |a|..];
    assert t[j - i - |a|..] == s[j..];
    assert IsPrefix(b, s[j..]) by {
      assert s[j..][..|b|] == s[j..j + |b|];
    }
    assert MatchesFrom(s[j..], [Lit(b)]) by {
      assert [Lit(b)][1..] == [];
      assert MatchesFrom(s[j..][|b|..], []);
    }
    assert p[1..][1..] == [Lit(b)];
    assert t[..j - i - |a|] == s[i + |a|..j];
    GapOver(t, p[1..], j - i - |a|);
    assert s[i..][..|a|] == s[i..i + |a|];
    assert s[i..][|a|..] == t;
    assert MatchesAt(s, p, i);
    SearchAt(s, p, i);
  }
}
