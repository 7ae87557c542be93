/** The wildcard matcher SafeFNMatch_ of app/glog/src/vlog_is_on.cc. */
module Glob {

  /** '*' stands for any characters, '?' for one, every other character for itself. */
  ghost predicate Matches(p: string, s: string)
    decreases |p|
  {
    if p == [] then s == []
    else if p[0] == '*' then exists k :: 0 <= k <= |s| && Matches(p[1..], s[k..])
    else s != [] && (p[0] == '?' || p[0] == s[0]) && Matches(p[1..], s[1..])
  }

  /** What the matcher answers. */
  ghost predicate Answer(p: string, s: string)
    decreases |p|
  {
    if p == [] then s == []
    else if s == [] then p == "*"
    else if p[0] == s[0] || p[0] == '?' then Answer(p[1..], s[1..])
    else p[0] == '*' && (|p| == 1 || exists k :: 0 <= k < |s| && Answer(p[1..], s[k..]))
  }

  lemma AnswerStep(p: string, s: string)
    ensures Answer(p, s) <==>
      if p == [] then s == []
      else if s == [] then p == "*"
      else if p[0] == s[0] || p[0] == '?' then Answer(p[1..], s[1..])
      else p[0] == '*' && (|p| == 1 || exists k :: 0 <= k < |s| && Answer(p[1..], s[k..]))
  {}

  /** SafeFNMatch_; the recursion is on a shorter pattern, the loops on what is left of both. */
  method SafeFNMatch(pattern: string, str: string) returns (r: bool)
    ensures r <==> Answer(pattern, str)
    decreases |pattern|
  {
    hide Answer;
    var p, s := 0, 0;
    assert pattern[0..] == pattern && str[0..] == str;
    while true
      invariant 0 <= p <= |pattern| && 0 <= s <= |str|
      invariant Answer(pattern, str) <==> Answer(pattern[p..], str[s..])
      decreases |pattern| - p
    {
      ghost var p0, s0 := pattern[p..], str[s..];
      AnswerStep(p0, s0);
      if p == |pattern| && s == |str| { return true; }
      if p == |pattern| { return false; }
      if s == |str| { return p + 1 == |pattern| && pattern[p] == '*'; }
      if pattern[p] == str[s] || pattern[p] == '?' {
        assert p0[1..] == pattern[p + 1..] && s0[1..] == str[s + 1..];
        p, s := p + 1, s + 1;
        continue;
      }
      if pattern[p] == '*' {
        if p + 1 == |pattern| { return true; }
        ghost var first := s;
        assert p0[1..] == pattern[p + 1..];
        while true
          invariant first <= s < |str|
          invariant forall k :: 0 <= k < s - first ==> !Answer(p0[1..], s0[k..])
          decreases |str| - s
        {
          assert s0[s - first..] == str[s..];
          var found := SafeFNMatch(pattern[p + 1..], str[s..]);
          if found { return true; }
          s := s + 1;
          if s == |str| { break; }
        }
        return false;
      }
      return false;
    }
  }

  /** The matcher never accepts what the pattern does not mean. */
  lemma {:induction false} Sound(p: string, s: string)
    requires Answer(p, s)
    ensures Matches(p, s)
    decreases |p|
  {
    if p == [] {
    } else if s == [] {
      assert Matches(p[1..], s[0..]);
    } else if p[0] == s[0] || p[0] == '?' {
      Sound(p[1..], s[1..]);
      if p[0] == '*' { assert s[1..] == s[1..][0..]; assert Matches(p[1..], s[1..]); }
    } else if |p| == 1 {
      assert Matches(p[1..], s[|s|..]);
    } else {
      var k :| 0 <= k < |s| && Answer(p[1..], s[k..]);
      Sound(p[1..], s[k..]);
    }
  }

  // ---------------------------------------------------------------- strings without '*'

  predicate EndsInTwoStars(p: string) { |p| >= 2 && p[|p| - 2..] == "**" }

  /** The matcher reads a final "**" as "*?". */
  function Meaning(p: string): string {
    if EndsInTwoStars(p) then p[..|p| - 1] + "?" else p
  }

  lemma MeaningOfTail(p: string)
    requires p != [] && p != "**"
    ensures Meaning(p) == [p[0]] + Meaning(p[1..])
  {
    if |p| >= 3 { assert p[1..][|p| - 3..] == p[|p| - 2..]; }
    if EndsInTwoStars(p) { assert p == "**" || |p| >= 3; }
  }

  lemma {:induction false} MatchesEmpty(q: string)
    requires q != []
    ensures Matches(Meaning(q), "") <==> q == "*"
    decreases |q|
  {
    var m := Meaning(q);
    if q == "**" {
      assert m == "*?" && m[1..] == "?";
    } else if q == "*" {
      assert Matches(m[1..], ""[0..]);
    } else {
      MeaningOfTail(q);
      assert m[1..] == Meaning(q[1..]) && m[0] == q[0] && ""[0..] == "";
      if q[0] == '*' { MatchesEmpty(q[1..]); }
    }
  }

  /** "*?" means one character or more. */
  lemma StarQuestion(s: string)
    ensures Matches("*?", s) <==> s != []
  {
    assert "*?"[1..] == "?" && "?"[1..] == "";
    if s != [] {
      assert s[|s| - 1..][1..] == "";
      assert Matches("?", s[|s| - 1..]);
    }
  }

  lemma Star(s: string)
    ensures Matches("*", s)
  {
    assert "*"[1..] == "";
    assert Matches("", s[|s|..]);
  }

  /** On strings without '*' the matcher decides Meaning(p). */
  lemma {:induction false} DecidesMeaning(p: string, s: string)
    requires '*' !in s
    ensures Answer(p, s) <==> Matches(Meaning(p), s)
    decreases |p|
  {
    if p == [] {
    } else if s == [] {
      MatchesEmpty(p);
    } else if p == "*" {
      Star(s);
    } else if p == "**" {
      TwoStars(s);
    } else {
      MeaningOfTail(p);
      var m := Meaning(p);
      assert m[1..] == Meaning(p[1..]) && m[0] == p[0];
      hide Meaning;
      if p[0] == '*' {
        forall k | 0 <= k < |s|
          ensures Answer(p[1..], s[k..]) <==> Matches(m[1..], s[k..]) { DecidesMeaning(p[1..], s[k..]); }
        MatchesEmpty(p[1..]);
        StarStep(p, m, s);
      } else {
        DecidesMeaning(p[1..], s[1..]);
      }
    }
  }

  lemma TwoStars(s: string)
    requires s != [] && '*' !in s
    ensures Answer("**", s) && Matches(Meaning("**"), s)
  {
    StarQuestion(s);
    assert Meaning("**") == "*?";
    assert "**"[1..] == "*" && s[0..] == s;
    assert Answer("*", s);
  }

  /** The empty rest of the string, which the matcher does not try, does not match. */
  lemma StarStep(p: string, m: string, s: string)
    requires |p| > 1 && p[0] == '*' && p[1..] != "*" && m != [] && m[0] == '*' && s != [] && '*' !in s
    requires !Matches(m[1..], "")
    requires forall k :: 0 <= k < |s| ==> (Answer(p[1..], s[k..]) <==> Matches(m[1..], s[k..]))
    ensures Answer(p, s) <==> Matches(m, s)
  {
    assert s[|s|..] == "";
    assert p[0] != s[0];
    AnswerStep(p, s);
    MatchesStep(m, s);
    hide Answer, Matches;
    if Matches(m, s) {
      var k :| 0 <= k <= |s| && Matches(m[1..], s[k..]);
      assert k < |s| && Answer(p[1..], s[k..]);
    }
    if Answer(p, s) {
      var k :| 0 <= k < |s| && Answer(p[1..], s[k..]);
      assert Matches(m[1..], s[k..]);
    }
  }

  lemma MatchesStep(p: string, s: string)
    requires p != [] && p[0] == '*'
    ensures Matches(p, s) <==> exists k :: 0 <= k <= |s| && Matches(p[1..], s[k..])
  {}

  // ---------------------------------------------------------------- when the matcher is complete

  function Fixed(p: string): nat {
    if p == [] then 0 else (if p[0] == '*' then 0 else 1) + Fixed(p[1..])
  }

  lemma {:induction false} MatchIsLongEnough(p: string, s: string)
    requires Matches(p, s)
    ensures Fixed(p) <= |s|
    decreases |p|
  {
    if p == [] {
    } else if p[0] == '*' {
      var k :| 0 <= k <= |s| && Matches(p[1..], s[k..]);
      MatchIsLongEnough(p[1..], s[k..]);
    } else {
      MatchIsLongEnough(p[1..], s[1..]);
    }
  }

  /** The shortest match: stars stand for nothing. */
  function Shortest(p: string): string {
    if p == [] then "" else (if p[0] == '*' then "" else if p[0] == '?' then "a" else [p[0]]) + Shortest(p[1..])
  }

  lemma {:induction false} ShortestMatches(p: string)
    ensures Matches(p, Shortest(p)) && |Shortest(p)| == Fixed(p) && '*' !in Shortest(p)
    decreases |p|
  {
    if p != [] {
      ShortestMatches(p[1..]);
      if p[0] == '*' {
        assert Shortest(p)[0..] == Shortest(p[1..]);
      } else {
        assert Shortest(p)[1..] == Shortest(p[1..]);
      }
    }
  }

  lemma {:induction false} MeaningNeedsMore(p: string)
    requires EndsInTwoStars(p)
    ensures Fixed(Meaning(p)) == Fixed(p) + 1
    decreases |p|
  {
    if p == "**" {
      assert Meaning(p) == "*?" && "*?"[1..] == "?" && "?"[1..] == "" && p[1..] == "*" && "*"[1..] == "";
    } else {
      MeaningOfTail(p);
      assert Meaning(p)[1..] == Meaning(p[1..]);
      MeaningNeedsMore(p[1..]);
    }
  }

  /** For strings without '*' the matcher is complete exactly for the patterns not ending in "**". */
  lemma CompleteWithoutStars(p: string)
    ensures (forall s :: '*' !in s && Matches(p, s) ==> Answer(p, s)) <==> !EndsInTwoStars(p)
  {
    if EndsInTwoStars(p) {
      var s := Shortest(p);
      ShortestMatches(p);
      MeaningNeedsMore(p);
      DecidesMeaning(p, s);
      if Answer(p, s) { MatchIsLongEnough(Meaning(p), s); }
    } else {
      forall s | '*' !in s && Matches(p, s) ensures Answer(p, s) { DecidesMeaning(p, s); }
    }
  }

  lemma {:induction false} NoStarNoChoice(p: string, s: string)
    requires '*' !in p
    ensures Answer(p, s) <==> Matches(p, s)
    ensures Answer(p, s) ==> |p| == |s|
    decreases |p|
  {
    if p != [] && s != [] { NoStarNoChoice(p[1..], s[1..]); }
  }

  /** A '*' in the string is taken by a '*' of the pattern on its own; here the last star meets two. */
  function Confusing(p: string): string {
    if p == [] then ""
    else
      var first := if p[0] == '*' then (if '*' in p[1..] then "*" else "**") else if p[0] == '?' then "a" else [p[0]];
      first + Confusing(p[1..])
  }

  lemma {:induction false} Confuses(p: string)
    ensures Matches(p, Confusing(p))
    ensures '*' !in p ==> |Confusing(p)| == |p|
    ensures '*' in p ==> !Answer(p, Confusing(p))
    decreases |p|
  {
    if p != [] {
      var s, q := Confusing(p), p[1..];
      Confuses(q);
      if p[0] == '*' && '*' !in q {
        assert s[2..] == Confusing(q);
        assert s[1..] == "*" + Confusing(q);
        NoStarNoChoice(q, s[1..]);
      } else {
        assert s[1..] == Confusing(q);
        assert p[0] == '*' ==> Matches(q, s[1..]);
      }
    }
  }

  /** For all strings it is complete exactly for the patterns without '*'. */
  lemma CompleteForAllStrings(p: string)
    ensures (forall s :: Matches(p, s) ==> Answer(p, s)) <==> '*' !in p
  {
    if '*' in p { Confuses(p); }
    forall s | '*' !in p && Matches(p, s) ensures Answer(p, s) { NoStarNoChoice(p, s); }
  }
}
