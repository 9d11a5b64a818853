/**
 The text handling on which keys and markers depend: trimming as Python and .NET do it,
 and the code-point order in which both the database and Python compare strings.
 */
module Text {
  import opened Basics

  /** The characters System.Char.IsWhiteSpace accepts. */
  predicate DotNetSpace(c: char) {
    || '\U{9}' <= c <= '\U{D}'
    || c == ' ' || c == '\U{85}' || c == '\U{A0}' || c == '\U{1680}'
    || '\U{2000}' <= c <= '\U{200A}'
    || c == '\U{2028}' || c == '\U{2029}' || c == '\U{202F}' || c == '\U{205F}' || c == '\U{3000}'
  }

  /** The characters Python's str.isspace accepts: four ASCII separators more. */
  predicate PythonSpace(c: char) {
    DotNetSpace(c) || '\U{1C}' <= c <= '\U{1F}'
  }

  /** Some characters that are space for both, one that is space for Python only, and some that are none. */
  lemma SpacesAre()
    ensures forall c | c in " \t\n\r\U{A0}\U{3000}" :: DotNetSpace(c) && PythonSpace(c)
    ensures PythonSpace('\U{1C}') && !DotNetSpace('\U{1C}')
    ensures forall c | '!' <= c <= '~' :: !DotNetSpace(c) && !PythonSpace(c)
  {
  }

  function TrimLeft(space: char -> bool, s: string): string {
    if s != "" && space(s[0]) then TrimLeft(space, s[1..]) else s
  }

  function TrimRight(space: char -> bool, s: string): string {
    if s != "" && space(s[|s| - 1]) then TrimRight(space, s[..|s| - 1]) else s
  }

  function Trim(space: char -> bool, s: string): string {
    TrimRight(space, TrimLeft(space, s))
  }

  predicate Trimmed(space: char -> bool, s: string) {
    s == "" || (!space(s[0]) && !space(s[|s| - 1]))
  }

  predicate Blank(space: char -> bool, s: string) {
    forall i | 0 <= i < |s| :: space(s[i])
  }

  function Strip(s: string): string { Trim(PythonSpace, s) }

  /** str(value).strip() or None */
  function Clean(s: Option<string>): (cleaned: Option<string>)
    ensures cleaned.Some? ==> cleaned.value != "" && Strip(cleaned.value) == cleaned.value
  {
    match s
    case None => None
    case Some(v) =>
      StrippedIsTrimmedForDotNet(v);
      if Strip(v) == "" then None else Some(Strip(v))
  }

  lemma {:induction false} TrimLeftStarts(space: char -> bool, s: string)
    ensures TrimLeft(space, s) == "" || !space(TrimLeft(space, s)[0])
    ensures TrimLeft(space, s) == "" <==> Blank(space, s)
    ensures exists k | 0 <= k <= |s| :: TrimLeft(space, s) == s[k..]
  {
    if s != "" && space(s[0]) {
      TrimLeftStarts(space, s[1..]);
      var k :| 0 <= k <= |s[1..]| && TrimLeft(space, s[1..]) == s[1..][k..];
      assert s[1..][k..] == s[k + 1..];
      assert Blank(space, s) <==> Blank(space, s[1..]) by {
        assert s == [s[0]] + s[1..];
      }
    } else {
      assert s == s[0..];
    }
  }

  lemma {:induction false} TrimRightEnds(space: char -> bool, s: string)
    ensures TrimRight(space, s) <= s
    ensures TrimRight(space, s) == "" || !space(TrimRight(space, s)[|TrimRight(space, s)| - 1])
    ensures TrimRight(space, s) == "" <==> Blank(space, s)
  {
    if s != "" && space(s[|s| - 1]) {
      TrimRightEnds(space, s[..|s| - 1]);
    }
  }

  /** Trimming leaves no space at either end, is empty exactly on blank text, and keeps trimmed text. */
  lemma TrimIsTrimmed(space: char -> bool, s: string)
    ensures Trimmed(space, Trim(space, s))
    ensures Trim(space, s) == "" <==> Blank(space, s)
    ensures Trimmed(space, s) ==> Trim(space, s) == s
  {
    TrimLeftStarts(space, s);
    TrimRightEnds(space, TrimLeft(space, s));
    var l := TrimLeft(space, s);
    if !Blank(space, s) {
      assert l != "" && !space(l[0]);
      assert !Blank(space, l);
    }
  }

  /** What trimming takes off is space, at the two ends. */
  lemma TrimTakesOffSpace(space: char -> bool, s: string)
    ensures exists i, j | 0 <= i <= j <= |s| ::
              Trim(space, s) == s[i..j] && Blank(space, s[..i]) && Blank(space, s[j..])
  {
    var i := LeftSpace(space, s);
    var l := TrimLeft(space, s);
    var n := RightSpace(space, l);
    assert s[i..i + n] == l[..n] && s[i + n..] == l[n..];
  }

  lemma {:induction false} LeftSpace(space: char -> bool, s: string) returns (i: nat)
    ensures i <= |s| && TrimLeft(space, s) == s[i..] && Blank(space, s[..i])
  {
    i := 0;
    if s != "" && space(s[0]) {
      var k := LeftSpace(space, s[1..]);
      i := k + 1;
      assert s[1..][..k] == s[1..i] && s[1..][k..] == s[i..];
      assert s[..i] == [s[0]] + s[1..i];
    }
  }

  lemma {:induction false} RightSpace(space: char -> bool, s: string) returns (n: nat)
    ensures n <= |s| && TrimRight(space, s) == s[..n] && Blank(space, s[n..])
  {
    n := |s|;
    if s != "" && space(s[|s| - 1]) {
      var front := s[..|s| - 1];
      n := RightSpace(space, front);
      assert s[..n] == front[..n] && s[n..] == front[n..] + [s[|s| - 1]];
    }
  }

  /** Text stripped by the gateway is left alone by the worker's String.Trim. */
  lemma StrippedIsTrimmedForDotNet(s: string)
    ensures Trim(DotNetSpace, Strip(s)) == Strip(s)
    ensures Strip(Strip(s)) == Strip(s)
  {
    TrimIsTrimmed(PythonSpace, s);
    TrimIsTrimmed(PythonSpace, Strip(s));
    TrimIsTrimmed(DotNetSpace, Strip(s));
  }

  /** Python's str.upper and .NET's invariant upper-casing agree on ASCII, which is all that is modelled. */
  function UpperChar(c: char): char {
    if 'a' <= c <= 'z' then (c as int - 32) as char else c
  }

  /** The letters from a to z, and no other character, have a capital. */
  lemma CapitalsAre(c: char)
    ensures UpperChar(c) == c <==> c < 'a' || 'z' < c
    ensures 'a' <= c <= 'z' ==> UpperChar(c) as int - 'A' as int == c as int - 'a' as int
  {
  }

  function Upper(s: string): (u: string)
    ensures |u| == |s|
    ensures forall i | 0 <= i < |s| :: u[i] == UpperChar(s[i])
  {
    if s == "" then "" else [UpperChar(s[0])] + Upper(s[1..])
  }

  /** Code-point order: how Python compares str values and SQLite compares text. */
  predicate LexLess(a: string, b: string) {
    if b == "" then false
    else if a == "" then true
    else if a[0] != b[0] then a[0] < b[0]
    else LexLess(a[1..], b[1..])
  }

  lemma {:induction false} LexTrichotomy(a: string, b: string)
    ensures LexLess(a, b) || LexLess(b, a) || a == b
    ensures !(LexLess(a, b) && LexLess(b, a))
    ensures !LexLess(a, a)
  {
    if a != "" && b != "" && a[0] == b[0] {
      LexTrichotomy(a[1..], b[1..]);
      if a[1..] == b[1..] { assert a == [a[0]] + a[1..] == b; }
    }
    if a != "" { LexIrreflexive(a); }
  }

  lemma {:induction false} LexIrreflexive(a: string)
    ensures !LexLess(a, a)
  {
    if a != "" { LexIrreflexive(a[1..]); }
  }

  lemma {:induction false} LexTransitive(a: string, b: string, c: string)
    requires LexLess(a, b) && LexLess(b, c)
    ensures LexLess(a, c)
  {
    if a != "" && a[0] == b[0] && b[0] == c[0] {
      LexTransitive(a[1..], b[1..], c[1..]);
    }
  }
}
