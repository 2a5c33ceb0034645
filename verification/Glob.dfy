/** URL globs: a pattern is escaped, its escaped stars are replaced, and the result is used as a regular expression. */
module Glob {
  import opened Common

  // ---------- the translation ----------

  /** The characters the escape puts a backslash before; they are the SyntaxCharacters of ECMA-262, section 22.2.1. */
  predicate IsSyntax(c: char) { c in ".*+?^${}()|[]\\" }

  function EscapeChar(c: char): string { if IsSyntax(c) then ['\\', c] else [c] }

  function Escape(s: string): string { if s == "" then "" else EscapeChar(s[0]) + Escape(s[1..]) }

  /** String.prototype.replace with a global pattern that matches exactly the text `what`. */
  function ReplaceAll(s: string, what: string, with: string): string
    requires what != ""
  {
    if |s| < |what| then s
    else if s[..|what|] == what then with + ReplaceAll(s[|what|..], what, with)
    else [s[0]] + ReplaceAll(s[1..], what, with)
  }

  const ESCAPED_STAR := "\\*"
  const ESCAPED_STARS := "\\*\\*"

  function Translate(p: string): string { ReplaceAll(ReplaceAll(Escape(p), ESCAPED_STARS, ".*"), ESCAPED_STAR, ".*") }

  // ---------- the part of regular expressions that comes out of it ----------

  datatype Atom = Char(c: char) | Any
  datatype Term = Term(atom: Atom, star: bool)

  function ParseAtom(s: string): (r: Option<(Atom, string)>)
    requires s != ""
    ensures r.Some? ==> |r.value.1| < |s|
  {
    if s[0] == '\\' then
      if |s| >= 2 && IsSyntax(s[1]) then Some((Char(s[1]), s[2..])) else None
    else if s[0] == '.' then Some((Any, s[1..]))
    else if IsSyntax(s[0]) then None
    else Some((Char(s[0]), s[1..]))
  }

  /** The terms between the anchors; None for anything outside this part of the grammar. */
  function Parse(s: string): Option<seq<Term>>
    decreases |s|
  {
    if s == "" then Some([])
    else
      var atom := ParseAtom(s);
      if atom.None? then None
      else
        var (a, rest) := atom.value;
        var star := rest != "" && rest[0] == '*';
        var tail := Parse(if star then rest[1..] else rest);
        if tail.None? then None else Some([Term(a, star)] + tail.value)
  }

  predicate IsLineTerminator(c: char) { c in "\n\r\U{2028}\U{2029}" }

  predicate Accepts(a: Atom, c: char) { match a case Char(d) => c == d case Any => !IsLineTerminator(c) }

  /** Whether the terms, anchored at both ends, match. */
  predicate Matches(ts: seq<Term>, u: string)
    decreases |ts| + |u|
  {
    if ts == [] then u == ""
    else if ts[0].star then Matches(ts[1..], u) || (u != "" && Accepts(ts[0].atom, u[0]) && Matches(ts, u[1..]))
    else u != "" && Accepts(ts[0].atom, u[0]) && Matches(ts[1..], u[1..])
  }

  /** What the constructor and the test make of an anchored expression; None if the constructor throws. */
  function Test(re: string, u: string): Option<bool> {
    var ts := Parse(re);
    if ts.Some? then Some(Matches(ts.value, u)) else None
  }

  // ---------- what a glob means ----------

  /** A star stands for any text, of one line if `oneLine`; every other character stands for itself. */
  predicate GlobMatch(p: string, u: string, oneLine: bool)
    decreases |p| + |u|
  {
    if p == "" then u == ""
    else if p[0] == '*' then
      GlobMatch(p[1..], u, oneLine)
      || (u != "" && !(oneLine && IsLineTerminator(u[0])) && GlobMatch(p, u[1..], oneLine))
    else u != "" && u[0] == p[0] && GlobMatch(p[1..], u[1..], oneLine)
  }

  // ---------- the translation, stage by stage ----------

  /** After the first replacement: pairs of stars are gone. */
  function Stage1(p: string): string {
    if p == "" then ""
    else if |p| >= 2 && p[0] == '*' && p[1] == '*' then ".*" + Stage1(p[2..])
    else EscapeChar(p[0]) + Stage1(p[1..])
  }

  function Stage2(p: string): string {
    if p == "" then ""
    else if |p| >= 2 && p[0] == '*' && p[1] == '*' then ".*" + Stage2(p[2..])
    else if p[0] == '*' then ".*" + Stage2(p[1..])
    else EscapeChar(p[0]) + Stage2(p[1..])
  }

  function Terms(p: string): seq<Term> {
    if p == "" then []
    else if |p| >= 2 && p[0] == '*' && p[1] == '*' then [Term(Any, true)] + Terms(p[2..])
    else if p[0] == '*' then [Term(Any, true)] + Terms(p[1..])
    else [Term(Char(p[0]), false)] + Terms(p[1..])
  }

  /** A star is never the first character of what a later stage scans, so no match can straddle two escapes. */
  predicate NoLeadingStar(s: string) { s == "" || s[0] != '*' }

  lemma ReplaceSteps(s: string, what: string, with: string)
    requires s != "" && what != "" && !(what <= s)
    ensures ReplaceAll(s, what, with) == [s[0]] + ReplaceAll(s[1..], what, with)
  {
  }

  lemma ReplaceTakes(s: string, what: string, with: string)
    requires what != ""
    ensures ReplaceAll(what + s, what, with) == with + ReplaceAll(s, what, with)
  {
    assert (what + s)[..|what|] == what && (what + s)[|what|..] == s;
  }

  /** Scanning for an escaped star, or a pair of them, passes over any character not at the start of one. */
  lemma ReplaceSkips(c: char, s: string, what: string, with: string)
    requires |what| >= 2 && what[0] == '\\' && what[1] == '*'
    requires c != '\\' || NoLeadingStar(s)
    ensures ReplaceAll([c] + s, what, with) == [c] + ReplaceAll(s, what, with)
  {
    var t := [c] + s;
    assert t[1..] == s;
    assert !(what <= t);
    ReplaceSteps(t, what, with);
  }

  lemma ReplaceSkipsEscape(c: char, s: string, what: string, with: string)
    requires |what| >= 2 && what[0] == '\\' && what[1] == '*'
    requires c != '*' && NoLeadingStar(s)
    ensures ReplaceAll(EscapeChar(c) + s, what, with) == EscapeChar(c) + ReplaceAll(s, what, with)
  {
    ReplaceSkips(c, s, what, with);
    if IsSyntax(c) {
      ReplaceSkips('\\', [c] + s, what, with);
      assert EscapeChar(c) + s == ['\\'] + ([c] + s);
    }
  }

  lemma ReplaceSkipsDotStar(s: string)
    ensures ReplaceAll(".*" + s, ESCAPED_STAR, ".*") == ".*" + ReplaceAll(s, ESCAPED_STAR, ".*")
  {
    ReplaceSkips('*', s, ESCAPED_STAR, ".*");
    ReplaceSkips('.', ['*'] + s, ESCAPED_STAR, ".*");
    assert ".*" + s == ['.'] + (['*'] + s);
  }

  lemma EscapeStartsStar(p: string)
    ensures NoLeadingStar(Escape(p))
    ensures ESCAPED_STAR <= Escape(p) ==> p != "" && p[0] == '*'
  {
    if p != "" && ESCAPED_STAR <= Escape(p) {
      assert Escape(p)[1] == '*' && Escape(p)[0] == '\\';
    }
  }

  /** A single escaped star is not taken for a pair. */
  lemma SingleStarStays(rest: string)
    requires NoLeadingStar(rest) && !(ESCAPED_STAR <= rest)
    ensures ReplaceAll(ESCAPED_STAR + rest, ESCAPED_STARS, ".*") == ESCAPED_STAR + ReplaceAll(rest, ESCAPED_STARS, ".*")
  {
    var s := ESCAPED_STAR + rest;
    assert !(ESCAPED_STARS <= s);
    ReplaceSteps(s, ESCAPED_STARS, ".*");
    assert s[1..] == ['*'] + rest;
    ReplaceSkips('*', rest, ESCAPED_STARS, ".*");
  }

  lemma {:induction false} EscapeThenPairs(p: string)
    ensures ReplaceAll(Escape(p), ESCAPED_STARS, ".*") == Stage1(p)
    ensures NoLeadingStar(Stage1(p))
    decreases |p|
  {
    if p == "" {
    } else if |p| >= 2 && p[0] == '*' && p[1] == '*' {
      EscapeThenPairs(p[2..]);
      assert p[1..][1..] == p[2..];
      assert Escape(p) == ESCAPED_STARS + Escape(p[2..]);
      ReplaceTakes(Escape(p[2..]), ESCAPED_STARS, ".*");
    } else {
      EscapeThenPairs(p[1..]);
      EscapeStartsStar(p[1..]);
      if p[0] == '*' {
        SingleStarStays(Escape(p[1..]));
        assert Escape(p) == ESCAPED_STAR + Escape(p[1..]);
      } else {
        ReplaceSkipsEscape(p[0], Escape(p[1..]), ESCAPED_STARS, ".*");
      }
    }
  }

  lemma {:induction false} PairsThenStars(p: string)
    ensures ReplaceAll(Stage1(p), ESCAPED_STAR, ".*") == Stage2(p)
    decreases |p|
  {
    if p == "" {
    } else if |p| >= 2 && p[0] == '*' && p[1] == '*' {
      PairsThenStars(p[2..]);
      ReplaceSkipsDotStar(Stage1(p[2..]));
    } else {
      PairsThenStars(p[1..]);
      if p[0] == '*' {
        assert Stage1(p) == ESCAPED_STAR + Stage1(p[1..]);
        ReplaceTakes(Stage1(p[1..]), ESCAPED_STAR, ".*");
      } else {
        EscapeThenPairs(p[1..]);
        ReplaceSkipsEscape(p[0], Stage1(p[1..]), ESCAPED_STAR, ".*");
      }
    }
  }

  /** The regular expression is well formed, so the constructor never throws, and its terms are those of the glob. */
  lemma {:induction false} Stage2Parses(p: string)
    ensures Parse(Stage2(p)) == Some(Terms(p))
    ensures NoLeadingStar(Stage2(p))
    decreases |p|
  {
    if p == "" {
    } else if p[0] == '*' {
      var q := if |p| >= 2 && p[1] == '*' then p[2..] else p[1..];
      Stage2Parses(q);
      assert Stage2(p) == ".*" + Stage2(q);
      assert Stage2(p)[1..] == "*" + Stage2(q);
      assert Stage2(p)[1..][1..] == Stage2(q);
    } else {
      var rest := Stage2(p[1..]);
      Stage2Parses(p[1..]);
      if IsSyntax(p[0]) {
        assert Stage2(p)[2..] == rest;
      } else {
        assert Stage2(p)[1..] == rest;
      }
    }
  }

  lemma TranslationParses(p: string)
    ensures Translate(p) == Stage2(p)
    ensures Parse(Translate(p)) == Some(Terms(p))
  {
    EscapeThenPairs(p);
    PairsThenStars(p);
    Stage2Parses(p);
  }

  /** Two stars in a row mean what one means. */
  lemma {:induction false} StarsCollapse(p: string, u: string, oneLine: bool)
    requires |p| >= 2 && p[0] == '*' && p[1] == '*'
    ensures GlobMatch(p, u, oneLine) == GlobMatch(p[1..], u, oneLine)
    decreases |u|
  {
    if u != "" {
      StarsCollapse(p, u[1..], oneLine);
    }
  }

  lemma {:induction false} TermsMeanGlob(p: string, u: string)
    ensures Matches(Terms(p), u) == GlobMatch(p, u, true)
    decreases |p| + |u|
  {
    if p == "" {
    } else if p[0] == '*' {
      var pair := |p| >= 2 && p[1] == '*';
      var q := if pair then p[2..] else p[1..];
      assert Terms(p)[1..] == Terms(q);
      TermsMeanGlob(q, u);
      if u != "" {
        TermsMeanGlob(p, u[1..]);
      }
      if pair {
        StarsCollapse(p, u, true);
        assert p[1..][1..] == q;
        if u != "" {
          StarsCollapse(p, u[1..], true);
        }
      }
    } else {
      assert Terms(p)[1..] == Terms(p[1..]);
      if u != "" {
        TermsMeanGlob(p[1..], u[1..]);
      }
    }
  }

  predicate OneLine(u: string) { forall i :: 0 <= i < |u| ==> !IsLineTerminator(u[i]) }

  lemma {:induction false} OneLineGlob(p: string, u: string)
    ensures GlobMatch(p, u, true) ==> GlobMatch(p, u, false)
    ensures OneLine(u) ==> GlobMatch(p, u, true) == GlobMatch(p, u, false)
    decreases |p| + |u|
  {
    if p != "" {
      OneLineGlob(p[1..], u);
      if u != "" {
        OneLineGlob(p, u[1..]);
        OneLineGlob(p[1..], u[1..]);
      }
    }
  }

  /** Translation preserves meaning: the expression accepts a URL exactly if the glob matches it line by line, and so,
      on a URL of one line, exactly if the glob matches it. */
  lemma TranslationPreservesMeaning(p: string, u: string)
    ensures Test(Translate(p), u) == Some(GlobMatch(p, u, true))
    ensures OneLine(u) ==> Test(Translate(p), u) == Some(GlobMatch(p, u, false))
  {
    TranslationParses(p);
    TermsMeanGlob(p, u);
    OneLineGlob(p, u);
  }

  lemma {:induction false} StarMatchesAll(u: string)
    ensures GlobMatch("*", u, false)
    ensures GlobMatch("*", u, true) == OneLine(u)
    decreases |u|
  {
    var star := "*";
    assert star[1..] == "";
    if u != "" {
      StarMatchesAll(u[1..]);
      assert u == [u[0]] + u[1..];
      assert OneLine(u) ==> OneLine(u[1..]) by { assert forall i :: 0 <= i < |u| - 1 ==> u[1..][i] == u[i + 1]; }
      assert !IsLineTerminator(u[0]) && OneLine(u[1..]) ==> OneLine(u) by {
        assert forall i :: 0 < i < |u| ==> u[i] == u[1..][i - 1];
      }
    }
  }

  /** With line terminators allowed the two part ways: they agree on every pattern exactly for the URLs of one line. */
  lemma MeaningPreservedIffOneLine(u: string)
    ensures (forall p :: Test(Translate(p), u) == Some(GlobMatch(p, u, false))) <==> OneLine(u)
  {
    if OneLine(u) {
      forall p ensures Test(Translate(p), u) == Some(GlobMatch(p, u, false)) {
        TranslationPreservesMeaning(p, u);
      }
    } else {
      StarMatchesAll(u);
      TranslationPreservesMeaning("*", u);
      assert Test(Translate("*"), u) != Some(GlobMatch("*", u, false));
    }
  }

  // ---------- the two users ----------

  predicate OccursAt(s: string, t: string, i: nat) { i + |t| <= |s| && s[i..i + |t|] == t }

  predicate Contains(s: string, t: string) { exists i :: 0 <= i <= |s| && OccursAt(s, t, i) }

  predicate UrlMatchesGlobPattern(url: string, pattern: string) {
    var p := Trim(pattern);
    if p == "" then true
    else if '*' !in p then Contains(url, p)
    else
      var ok := Test(Translate(p), url);
      if ok.Some? then ok.value else Contains(url, ReplaceAll(p, "*", ""))
  }

  /** The content script's glob comparison; None where it reports a missing pattern. */
  function AssertGlob(url: string, pattern: string): Option<bool> {
    var p := Trim(pattern);
    if p == "" then None
    else
      var ok := Test(Translate(p), url);
      if ok.Some? then ok else Some(false)
  }

  lemma UrlMatchesIff(url: string, pattern: string)
    ensures UrlMatchesGlobPattern(url, pattern) <==>
        (IsBlank(pattern)
         || ('*' !in Trim(pattern) && Contains(url, Trim(pattern)))
         || ('*' in Trim(pattern) && GlobMatch(Trim(pattern), url, true)))
  {
    TranslationPreservesMeaning(Trim(pattern), url);
  }

  lemma {:induction false} StarlessIsLiteral(p: string, u: string)
    requires '*' !in p
    ensures GlobMatch(p, u, true) == (p == u)
  {
    if p != "" && u != "" {
      StarlessIsLiteral(p[1..], u[1..]);
      assert p == [p[0]] + p[1..] && u == [u[0]] + u[1..];
    }
  }

  /** The two copies agree on a pattern with a star. Without one the background looks for a substring and the content
      script for the whole URL, so they agree unless the pattern is a proper part of the URL. On a blank pattern they
      never agree: the background accepts any URL and the content script refuses the pattern. */
  lemma CopiesAgreeIff(url: string, pattern: string)
    ensures AssertGlob(url, pattern) == Some(UrlMatchesGlobPattern(url, pattern)) <==>
        !IsBlank(pattern) && ('*' in Trim(pattern) || url == Trim(pattern) || !Contains(url, Trim(pattern)))
  {
    var p := Trim(pattern);
    TranslationPreservesMeaning(p, url);
    if '*' !in p {
      StarlessIsLiteral(p, url);
      if p == url {
        assert OccursAt(url, p, 0);
      }
    }
  }
}
