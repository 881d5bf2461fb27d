/**
 * Keyword search: the escaped keyword between two wildcards, under LIKE with
 * backslash as its escape character, finds the keyword literally.
 */
module LikeSearch {
  const ESCAPE := '\\'

  /** Two characters the comparison takes for the same; a case-insensitive search folds case here. */
  type Comparison = (char, char) -> bool

  predicate IsMetacharacter(c: char) {
    c == '\\' || c == '%' || c == '_'
  }

  function EscapeLikeKeyword(keyword: string): string {
    if keyword == "" then ""
    else (if IsMetacharacter(keyword[0]) then [ESCAPE, keyword[0]] else [keyword[0]]) + EscapeLikeKeyword(keyword[1..])
  }

  /** Section 8.5 of ISO/IEC 9075-2:2003, with the escape character given; a dangling escape matches nothing. */
  predicate Like(pattern: string, s: string, same: Comparison)
    decreases |pattern| + |s|
  {
    if pattern == "" then s == ""
    else if pattern[0] == '%' then Like(pattern[1..], s, same) || (s != "" && Like(pattern, s[1..], same))
    else if pattern[0] == '_' then s != "" && Like(pattern[1..], s[1..], same)
    else if pattern[0] == ESCAPE then
      |pattern| > 1 && s != "" && same(pattern[1], s[0]) && Like(pattern[2..], s[1..], same)
    else s != "" && same(pattern[0], s[0]) && Like(pattern[1..], s[1..], same)
  }

  /** The keyword stands at position `i`. */
  predicate OccursAt(keyword: string, s: string, same: Comparison, i: nat) {
    i + |keyword| <= |s| && forall j | 0 <= j < |keyword| :: same(keyword[j], s[i + j])
  }

  ghost predicate Occurs(keyword: string, s: string, same: Comparison) {
    exists i :: OccursAt(keyword, s, same, i)
  }

  lemma {:induction false} TrailingWildcard(s: string, same: Comparison)
    ensures Like("%", s, same)
  {
    if s != "" {
      TrailingWildcard(s[1..], same);
    } else {
      assert "%"[1..] == "";
    }
  }

  /**
   * An escaped keyword matches itself and only itself, whatever it consists of:
   * in front of any pattern it takes the keyword's characters and leaves the rest.
   */
  lemma {:induction false} EscapedIsLiteral(keyword: string, rest: string, s: string, same: Comparison)
    ensures Like(EscapeLikeKeyword(keyword) + rest, s, same) <==>
            OccursAt(keyword, s, same, 0) && Like(rest, s[|keyword|..], same)
  {
    var pattern := EscapeLikeKeyword(keyword) + rest;
    if keyword == "" {
      assert pattern == rest && s[0..] == s;
    } else {
      var shorter := EscapeLikeKeyword(keyword[1..]) + rest;
      assert pattern == (if IsMetacharacter(keyword[0]) then [ESCAPE, keyword[0]] else [keyword[0]]) + shorter;
      assert IsMetacharacter(keyword[0]) ==> pattern[2..] == shorter;
      assert !IsMetacharacter(keyword[0]) ==> pattern[1..] == shorter;
      if s != "" {
        EscapedIsLiteral(keyword[1..], rest, s[1..], same);
        OccursInRest(keyword, s, same);
        assert |keyword| <= |s| ==> s[1..][|keyword[1..]|..] == s[|keyword|..];
      }
    }
  }

  lemma OccursInRest(keyword: string, s: string, same: Comparison)
    requires keyword != "" && s != ""
    ensures OccursAt(keyword, s, same, 0) <==> same(keyword[0], s[0]) && OccursAt(keyword[1..], s[1..], same, 0)
  {
    if same(keyword[0], s[0]) && OccursAt(keyword[1..], s[1..], same, 0) {
      forall j | 0 <= j < |keyword|
        ensures same(keyword[j], s[j])
      {
        if j > 0 {
          assert same(keyword[1..][j - 1], s[1..][0 + (j - 1)]);
        }
      }
    }
    if OccursAt(keyword, s, same, 0) {
      assert same(keyword[0], s[0 + 0]);
      forall j | 0 <= j < |keyword[1..]|
        ensures same(keyword[1..][j], s[1..][0 + j])
      {
        assert same(keyword[j + 1], s[0 + (j + 1)]);
      }
    }
  }

  /** A leading wildcard skips any number of characters. */
  lemma {:induction false} LeadingWildcard(pattern: string, s: string, same: Comparison)
    ensures Like("%" + pattern, s, same) <==> exists i :: 0 <= i <= |s| && Like(pattern, s[i..], same)
    decreases |s|
  {
    assert ("%" + pattern)[1..] == pattern && s[0..] == s;
    if s != "" {
      LeadingWildcard(pattern, s[1..], same);
      assert forall i | 0 <= i <= |s[1..]| :: s[1..][i..] == s[i + 1..];
      if i :| 0 <= i <= |s| && Like(pattern, s[i..], same) {
        if i > 0 {
          assert s[1..][i - 1..] == s[i..];
        }
      }
    }
  }

  /** The search finds a keyword exactly where it occurs, even one made of wildcards and backslashes. */
  lemma SearchIsLiteral(keyword: string, s: string, same: Comparison)
    ensures Like("%" + (EscapeLikeKeyword(keyword) + "%"), s, same) <==> Occurs(keyword, s, same)
  {
    var pattern := EscapeLikeKeyword(keyword) + "%";
    LeadingWildcard(pattern, s, same);
    forall i | 0 <= i <= |s|
      ensures Like(pattern, s[i..], same) <==> OccursAt(keyword, s, same, i)
    {
      EscapedIsLiteral(keyword, "%", s[i..], same);
      if OccursAt(keyword, s[i..], same, 0) {
        TrailingWildcard(s[i..][|keyword|..], same);
      }
      ShiftedOccurrence(keyword, s, same, i);
    }
  }

  lemma ShiftedOccurrence(keyword: string, s: string, same: Comparison, i: nat)
    requires i <= |s|
    ensures OccursAt(keyword, s[i..], same, 0) <==> OccursAt(keyword, s, same, i)
  {
    if OccursAt(keyword, s[i..], same, 0) {
      forall j | 0 <= j < |keyword|
        ensures same(keyword[j], s[i + j])
      {
        assert same(keyword[j], s[i..][0 + j]);
      }
    }
  }
}
