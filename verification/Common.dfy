/** Option values, and the string trimming and case mapping the extension applies to ids, hosts and names. */
module Common {
  datatype Option<+T> = None | Some(value: T)

  /** The characters String.prototype.trim removes (WhiteSpace and LineTerminator of ECMA-262). */
  predicate IsWhite(c: char) {
    || '\t' <= c <= '\r' || c == ' ' || c == '\U{A0}' || c == '\U{1680}' || '\U{2000}' <= c <= '\U{200A}'
    || c == '\U{2028}' || c == '\U{2029}' || c == '\U{202F}' || c == '\U{205F}' || c == '\U{3000}' || c == '\U{FEFF}'
  }

  function TrimStart(s: string): (r: string)
    ensures r != "" ==> !IsWhite(r[0])
    ensures s != "" && !IsWhite(s[0]) ==> r == s
  {
    if s != "" && IsWhite(s[0]) then TrimStart(s[1..]) else s
  }

  function TrimEnd(s: string): (r: string)
    ensures r <= s
    ensures r != "" ==> !IsWhite(r[|r| - 1])
    ensures s != "" && !IsWhite(s[|s| - 1]) ==> r == s
  {
    if s != "" && IsWhite(s[|s| - 1]) then TrimEnd(s[..|s| - 1]) else s
  }

  function Trim(s: string): (r: string)
    ensures r != "" ==> !IsWhite(r[0]) && !IsWhite(r[|r| - 1])
  {
    TrimEnd(TrimStart(s))
  }

  predicate AllWhite(s: string) { forall c <- s :: IsWhite(c) }

  predicate NoWhiteEnds(t: string) { t != "" ==> !IsWhite(t[0]) && !IsWhite(t[|t| - 1]) }

  /** All of `s` but the white space around it. */
  ghost predicate IsTextOf(s: string, t: string) { NoWhiteEnds(t) && exists a, b :: Surrounds(s, a, t, b) }

  predicate Surrounds(s: string, a: string, t: string, b: string) { s == a + t + b && AllWhite(a) && AllWhite(b) }

  lemma {:induction false} TrimStartDrops(s: string) returns (a: string)
    ensures s == a + TrimStart(s) && AllWhite(a)
  {
    if s != "" && IsWhite(s[0]) {
      var b := TrimStartDrops(s[1..]);
      a := [s[0]] + b;
      assert s == [s[0]] + s[1..];
    } else {
      a := "";
    }
  }

  lemma {:induction false} TrimEndDrops(s: string) returns (b: string)
    ensures s == TrimEnd(s) + b && AllWhite(b)
  {
    if s != "" && IsWhite(s[|s| - 1]) {
      var a := TrimEndDrops(s[..|s| - 1]);
      b := a + [s[|s| - 1]];
      assert s == s[..|s| - 1] + [s[|s| - 1]];
    } else {
      b := "";
    }
  }

  /** Trimming takes the white space off both ends and nothing else. */
  lemma TrimIff(s: string, t: string)
    ensures Trim(s) == t <==> IsTextOf(s, t)
    ensures Trim(s) == "" <==> AllWhite(s)
  {
    var a := TrimStartDrops(s);
    var b := TrimEndDrops(TrimStart(s));
    assert Surrounds(s, a, Trim(s), b);
    WhiteAround(s, a, Trim(s), b);
    if IsTextOf(s, t) {
      var c, d :| Surrounds(s, c, t, d);
      TextIsUnique(s, a, Trim(s), b, c, t, d);
    }
    if Trim(s) == "" {
      assert s == a + b;
    }
  }

  lemma TextIsUnique(s: string, a: string, t: string, b: string, c: string, u: string, d: string)
    requires Surrounds(s, a, t, b) && Surrounds(s, c, u, d) && NoWhiteEnds(t) && NoWhiteEnds(u)
    ensures t == u
  {
    WhiteAround(s, a, t, b);
    WhiteAround(s, c, u, d);
    if t != "" && u != "" {
      assert |a| == |c| && |b| == |d|;
    }
  }

  lemma WhiteAround(s: string, a: string, t: string, b: string)
    requires Surrounds(s, a, t, b) && NoWhiteEnds(t)
    ensures |a| + |t| + |b| == |s| && t == s[|a|..|a| + |t|]
    ensures forall i :: 0 <= i < |a| || |a| + |t| <= i < |s| ==> IsWhite(s[i])
    ensures t != "" ==> !IsWhite(s[|a|]) && !IsWhite(s[|a| + |t| - 1])
  {
    assert forall i :: 0 <= i < |a| ==> s[i] == a[i];
    assert forall i :: |a| + |t| <= i < |s| ==> s[i] == b[i - |a| - |t|];
    assert t != "" ==> s[|a|] == t[0] && s[|a| + |t| - 1] == t[|t| - 1];
  }

  /** toLowerCase on ASCII text, which host names and schema names are. */
  function LowerChar(c: char): char { if 'A' <= c <= 'Z' then c - 'A' + 'a' else c }
  function Lower(s: string): string { if s == "" then "" else [LowerChar(s[0])] + Lower(s[1..]) }

  /** Capitals become small letters, and nothing else changes. */
  lemma {:induction false} LowerIs(s: string)
    ensures |Lower(s)| == |s|
    ensures forall i :: 0 <= i < |s| ==>
      if 'A' <= s[i] <= 'Z' then 'a' <= Lower(s)[i] <= 'z' && Lower(s)[i] - 'a' == s[i] - 'A' else Lower(s)[i] == s[i]
  {
    if s != "" {
      LowerIs(s[1..]);
    }
  }

  predicate IsBlank(s: string) { Trim(s) == "" }

  const DEFAULT_SESSION := "default"
  const CONTROL_PLANE_SESSION := "__control_plane"

  /** The session a message names; "" stands for a missing or non-string id. */
  function NormalizeSessionId(raw: string): string {
    if IsBlank(raw) then DEFAULT_SESSION else Trim(raw)
  }

  /** What session a raw id names: the default one if it is white space, or else its text. */
  ghost predicate NamesSession(raw: string, sid: string) {
    if AllWhite(raw) then sid == "default" else IsTextOf(raw, sid)
  }

  lemma NormalizeIff(raw: string, sid: string)
    ensures NormalizeSessionId(raw) == sid <==> NamesSession(raw, sid)
  {
    TrimIff(raw, sid);
  }

  lemma NormalizeIsIdempotent(raw: string)
    ensures NormalizeSessionId(NormalizeSessionId(raw)) == NormalizeSessionId(raw)
    ensures NormalizeSessionId(raw) != ""
  {
    var n := NormalizeSessionId(raw);
    assert n == DEFAULT_SESSION || n == Trim(raw);
    assert Trim(n) == n by {
      if n == DEFAULT_SESSION {
        assert !IsWhite(n[0]) && !IsWhite(n[|n| - 1]);
      }
    }
  }
}
