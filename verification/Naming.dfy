/** Names in generated types: snake case to Pascal case for the type, and back again in its type guard. */
module Naming {
  import opened Common

  /** Case mapping of ASCII letters; names are ASCII. */
  function Upper(c: char): char { if 'a' <= c <= 'z' then c - 'a' + 'A' else c }
  predicate IsUpper(c: char) { 'A' <= c <= 'Z' }
  predicate IsLower(c: char) { 'a' <= c <= 'z' }

  // ---------- to Pascal case ----------

  /** str.split('_') */
  function Split(s: string): (ws: seq<string>)
    ensures ws != []
  {
    if s == "" then [""]
    else
      var rest := Split(s[1..]);
      if s[0] == '_' then [""] + rest else [[s[0]] + rest[0]] + rest[1..]
  }

  function Capitalize(w: string): string { if w == "" then "" else [Upper(w[0])] + w[1..] }

  function JoinCapitalized(ws: seq<string>): string {
    if ws == [] then "" else Capitalize(ws[0]) + JoinCapitalized(ws[1..])
  }

  function ToPascalCase(s: string): string { JoinCapitalized(Split(s)) }

  // ---------- to snake case ----------

  function MarkCapitals(s: string): string {
    if s == "" then "" else (if IsUpper(s[0]) then ['_', s[0]] else [s[0]]) + MarkCapitals(s[1..])
  }

  function DropLeading(s: string): string { if s != "" && s[0] == '_' then s[1..] else s }

  function ToSnakeCase(s: string): string { DropLeading(Lower(MarkCapitals(s))) }

  // ---------- which names survive ----------

  predicate NoUpper(s: string) { forall i :: 0 <= i < |s| ==> !IsUpper(s[i]) }

  predicate StartsLower(w: string) { w != "" && IsLower(w[0]) }

  /** No capitals; every word after the first starts with a letter; the first word is not empty unless the name is. */
  predicate SurvivesRoundTrip(s: string) {
    var ws := Split(s);
    NoUpper(s) && (forall i :: 1 <= i < |ws| ==> StartsLower(ws[i])) && (s == "" || ws[0] != "")
  }

  /** What follows the first word of a name. */
  function Tail(ws: seq<string>): string { if ws == [] then "" else ['_'] + ws[0] + Tail(ws[1..]) }

  function MarkedChar(c: char): string { if IsUpper(c) then ['_', LowerChar(c)] else [c] }

  /** Marking capitals and lowering in one pass. */
  function Mark(s: string): string { if s == "" then "" else MarkedChar(s[0]) + Mark(s[1..]) }

  lemma {:induction false} MarkIs(s: string)
    ensures Mark(s) == Lower(MarkCapitals(s))
  {
    if s != "" {
      MarkIs(s[1..]);
      var m := MarkCapitals(s);
      if IsUpper(s[0]) {
        assert m[1..] == [s[0]] + MarkCapitals(s[1..]) && m[1..][1..] == MarkCapitals(s[1..]);
      } else {
        assert m[1..] == MarkCapitals(s[1..]);
      }
    }
  }

  /** What the two conversions make of a list of words, before a leading underscore is dropped. */
  function Marked(ws: seq<string>): string { Mark(JoinCapitalized(ws)) }

  lemma {:induction false} SplitJoins(s: string)
    ensures Split(s)[0] + Tail(Split(s)[1..]) == s
  {
    if s != "" {
      SplitJoins(s[1..]);
      var rest := Split(s[1..]);
      assert s == [s[0]] + s[1..];
      if s[0] == '_' {
        assert Split(s)[1..] == rest;
      } else {
        assert Split(s)[1..] == rest[1..];
      }
    }
  }

  lemma {:induction false} SplitIsClean(s: string)
    ensures forall i :: 0 <= i < |Split(s)| ==> '_' !in Split(s)[i]
    ensures NoUpper(s) ==> forall i :: 0 <= i < |Split(s)| ==> NoUpper(Split(s)[i])
  {
    if s != "" {
      assert forall i :: 0 <= i < |s| - 1 ==> s[1..][i] == s[i + 1];
      SplitIsClean(s[1..]);
    }
  }

  lemma {:induction false} MarkAppend(a: string, b: string)
    ensures Mark(a + b) == Mark(a) + Mark(b)
  {
    if a == "" {
      assert a + b == b;
    } else {
      MarkAppend(a[1..], b);
      assert (a + b)[1..] == a[1..] + b && (a + b)[0] == a[0];
    }
  }

  lemma {:induction false} MarkPlain(w: string)
    requires NoUpper(w)
    ensures Mark(w) == w
  {
    if w != "" {
      assert forall i :: 0 <= i < |w| - 1 ==> w[1..][i] == w[i + 1];
      MarkPlain(w[1..]);
      assert w == [w[0]] + w[1..];
    }
  }

  lemma MarkUpper(c: char)
    requires !IsUpper(c)
    ensures MarkedChar(Upper(c)) == if IsLower(c) then ['_', c] else [c]
  {
  }

  lemma MarkWord(w: string)
    requires NoUpper(w)
    ensures Mark(Capitalize(w)) == if StartsLower(w) then ['_'] + w else w
  {
    if w != "" {
      var x, rest := Capitalize(w), w[1..];
      assert forall i :: 0 <= i < |rest| ==> rest[i] == w[i + 1];
      MarkPlain(rest);
      MarkUpper(w[0]);
      assert x[0] == Upper(w[0]) && x[1..] == rest;
      assert Mark(x) == MarkedChar(x[0]) + rest;
      assert ['_', w[0]] + rest == ['_'] + w && [w[0]] + rest == w;
    }
  }

  lemma MarkedStep(ws: seq<string>)
    requires ws != []
    ensures Marked(ws) == Mark(Capitalize(ws[0])) + Marked(ws[1..])
  {
    MarkAppend(Capitalize(ws[0]), JoinCapitalized(ws[1..]));
  }

  /** The words after the first come back if and only if each starts with a letter; otherwise something is lost. */
  lemma {:induction false} MarkedTail(ws: seq<string>)
    requires forall i :: 0 <= i < |ws| ==> NoUpper(ws[i])
    ensures |Marked(ws)| <= |Tail(ws)|
    ensures (forall i :: 0 <= i < |ws| ==> StartsLower(ws[i])) ==> Marked(ws) == Tail(ws)
    ensures !(forall i :: 0 <= i < |ws| ==> StartsLower(ws[i])) ==> |Marked(ws)| < |Tail(ws)|
  {
    if ws != [] {
      assert forall i :: 0 <= i < |ws| - 1 ==> ws[1..][i] == ws[i + 1];
      MarkedTail(ws[1..]);
      MarkedStep(ws);
      MarkWord(ws[0]);
    }
  }

  lemma {:induction false} LowerHasNoUpper(s: string)
    ensures NoUpper(Lower(s))
  {
    if s != "" {
      LowerHasNoUpper(s[1..]);
    }
  }

  lemma SnakeHasNoUpper(s: string)
    ensures NoUpper(ToSnakeCase(s))
  {
    LowerHasNoUpper(MarkCapitals(s));
  }

  /** The round trip, with its exact condition. */
  lemma RoundTripIff(s: string)
    ensures ToSnakeCase(ToPascalCase(s)) == s <==> SurvivesRoundTrip(s)
  {
    SnakeHasNoUpper(ToPascalCase(s));
    MarkIs(ToPascalCase(s));
    if NoUpper(s) {
      SplitJoins(s);
      SplitIsClean(s);
      RoundTripOfWords(Split(s), s);
    }
  }

  lemma RoundTripOfWords(ws: seq<string>, s: string)
    requires ws != [] && ws[0] + Tail(ws[1..]) == s
    requires forall i :: 0 <= i < |ws| ==> NoUpper(ws[i]) && '_' !in ws[i]
    ensures DropLeading(Marked(ws)) == s <==>
        (forall i :: 1 <= i < |ws| ==> StartsLower(ws[i])) && (s == "" || ws[0] != "")
  {
    var rest := ws[1..];
    assert forall i :: 0 <= i < |rest| ==> rest[i] == ws[i + 1];
    MarkedTail(rest);
    MarkedStep(ws);
    MarkWord(ws[0]);
    FirstWord(ws[0], Marked(rest), Tail(rest), forall i :: 0 <= i < |rest| ==> StartsLower(rest[i]));
    assert (forall i :: 1 <= i < |ws| ==> StartsLower(ws[i])) ==> forall i :: 0 <= i < |rest| ==> StartsLower(rest[i]);
    if forall i :: 0 <= i < |rest| ==> StartsLower(rest[i]) {
      forall i | 1 <= i < |ws| ensures StartsLower(ws[i]) { assert ws[i] == rest[i - 1]; }
    }
  }

  /** The underscore that is dropped at the front must be the one the first word gained. */
  lemma FirstWord(w: string, marked: string, tail: string, good: bool)
    requires '_' !in w && |marked| <= |tail| && (good ==> marked == tail) && (!good ==> |marked| < |tail|)
    requires tail == "" || tail[0] == '_'
    ensures DropLeading((if StartsLower(w) then ['_'] + w else w) + marked) == w + tail
        <==> good && (w + tail == "" || w != "")
  {
    var m := (if StartsLower(w) then ['_'] + w else w) + marked;
    if w != "" {
      assert w[0] in w;
      assert StartsLower(w) ==> m[1..] == w + marked;
      assert DropLeading(m) == w + marked;
      assert |w + marked| == |w| + |marked|;
      assert marked == (w + marked)[|w|..] && tail == (w + tail)[|w|..];
    } else {
      assert m == marked && w + tail == tail;
    }
  }

  /** The type guard of a name that survives compares with that very name, and no other such name shares its type. */
  lemma GuardsAreFaithful(a: string, b: string)
    requires SurvivesRoundTrip(a) && SurvivesRoundTrip(b)
    ensures ToSnakeCase(ToPascalCase(a)) == a
    ensures ToPascalCase(a) == ToPascalCase(b) ==> a == b
  {
    RoundTripIff(a);
    RoundTripIff(b);
  }

  /** A digit at the start of a word is enough to lose the underscore before it. */
  lemma DigitWordIsLost()
    ensures !SurvivesRoundTrip("a_2") && ToSnakeCase(ToPascalCase("a_2")) != "a_2"
  {
    RoundTripIff("a_2");
    assert "2"[1..] == "" && "_2"[1..] == "2" && "a_2"[1..] == "_2";
    assert Split("2") == [['2'] + ""];
    assert Split("_2") == [""] + Split("2");
    assert Split("a_2")[1] == "2";
  }
}
