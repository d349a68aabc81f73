/** Text as the host trims it. */
module Texts {

  /** What JavaScript trims: white space and line terminators. */
  predicate Blank(c: char) {
    || c in "\t\n\r \U{000B}\U{000C}\U{00A0}\U{1680}\U{2028}\U{2029}\U{202F}\U{205F}\U{3000}\U{FEFF}"
    || '\U{2000}' <= c <= '\U{200A}'
  }

  function TrimStart(s: string): string {
    if s != "" && Blank(s[0]) then TrimStart(s[1..]) else s
  }

  function TrimEnd(s: string): string {
    if s != "" && Blank(s[|s| - 1]) then TrimEnd(s[..|s| - 1]) else s
  }

  function Trim(s: string): string {
    TrimEnd(TrimStart(s))
  }

  predicate AllBlank(s: string) {
    forall i :: 0 <= i < |s| ==> Blank(s[i])
  }

  /** Neither begins nor ends blank. */
  predicate Tight(s: string) {
    s != "" ==> !Blank(s[0]) && !Blank(s[|s| - 1])
  }

  /** Trimming takes the blanks off both ends of a text and nothing else. */
  lemma TrimIs(a: string, t: string, b: string)
    requires AllBlank(a) && AllBlank(b) && Tight(t)
    ensures Trim(a + t + b) == t
  {
    hide Blank;
    if t == "" {
      BlankStart(a + b, "");
      assert a + t + b == a + b && a + b + "" == a + b;
    } else {
      BlankStart(a, t + b);
      assert a + t + b == a + (t + b);
      BlankEnd(t, b);
    }
  }

  lemma {:induction false} BlankStart(a: string, s: string)
    requires AllBlank(a) && (s != "" ==> !Blank(s[0]))
    ensures TrimStart(a + s) == s
  {
    if a == "" {
      assert a + s == s;
    } else {
      BlankStart(a[1..], s);
      assert (a + s)[1..] == a[1..] + s;
    }
  }

  lemma {:induction false} BlankEnd(s: string, b: string)
    requires AllBlank(b) && (s != "" ==> !Blank(s[|s| - 1]))
    ensures TrimEnd(s + b) == s
  {
    if b == "" {
      assert s + b == s;
    } else {
      BlankEnd(s, b[..|b| - 1]);
      assert (s + b)[..|s + b| - 1] == s + b[..|b| - 1];
    }
  }

  /** Every text is blanks around a tight one. */
  lemma Trimmed(s: string) returns (a: string, b: string)
    ensures AllBlank(a) && AllBlank(b) && Tight(Trim(s)) && s == a + Trim(s) + b
  {
    a := StartOf(s);
    b := EndOfText(TrimStart(s));
    assert s == a + (Trim(s) + b);
    if Trim(s) != "" {
      assert Trim(s)[0] == TrimStart(s)[0];
    }
  }

  lemma {:induction false} StartOf(s: string) returns (a: string)
    ensures AllBlank(a) && s == a + TrimStart(s) && (TrimStart(s) != "" ==> !Blank(TrimStart(s)[0]))
  {
    hide Blank;
    if s != "" && Blank(s[0]) {
      var rest := StartOf(s[1..]);
      a := [s[0]] + rest;
      assert s == [s[0]] + s[1..];
    } else {
      a := "";
    }
  }

  lemma {:induction false} EndOfText(s: string) returns (b: string)
    ensures AllBlank(b) && s == TrimEnd(s) + b && (TrimEnd(s) != "" ==> !Blank(TrimEnd(s)[|TrimEnd(s)| - 1]))
  {
    hide Blank;
    if s != "" && Blank(s[|s| - 1]) {
      var rest := EndOfText(s[..|s| - 1]);
      b := rest + [s[|s| - 1]];
      assert s == s[..|s| - 1] + [s[|s| - 1]];
    } else {
      b := "";
    }
  }
}
