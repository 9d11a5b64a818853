/** The clean-up of Tiger codes, on which the grouping of vouchers by bank account depends. */
module TigerCodes {
  import opened Text

  predicate Separator(c: char) {
    c == ' ' || c == '\t' || c == '\r' || c == '\n'
  }

  /** The number of characters before the first separator. */
  function WordLength(s: string): (k: nat)
    ensures k <= |s|
    ensures forall i | 0 <= i < k :: !Separator(s[i])
    ensures k < |s| ==> Separator(s[k])
  {
    if s == "" || Separator(s[0]) then 0 else 1 + WordLength(s[1..])
  }

  /** Split(separators, RemoveEmptyEntries) */
  function Words(s: string): seq<string>
    decreases |s|
  {
    if s == "" then []
    else if Separator(s[0]) then Words(s[1..])
    else [s[..WordLength(s)]] + Words(s[WordLength(s)..])
  }

  /** string.Join(" ", words) */
  function Joined(words: seq<string>): string {
    if words == [] then ""
    else if |words| == 1 then words[0]
    else words[0] + " " + Joined(words[1..])
  }

  function CleanTigerCode(value: string): string {
    Joined(Words(Trim(DotNetSpace, value)))
  }

  predicate IsWord(w: string) {
    w != "" && forall i | 0 <= i < |w| :: !Separator(w[i])
  }

  ghost predicate AllWords(words: seq<string>) {
    forall i | 0 <= i < |words| :: IsWord(words[i])
  }

  lemma {:induction false} WordsAreWords(s: string)
    ensures AllWords(Words(s))
    decreases |s|
  {
    if s != "" {
      if Separator(s[0]) { WordsAreWords(s[1..]); } else { WordsAreWords(s[WordLength(s)..]); }
    }
  }

  lemma FirstWord(w: string, rest: string)
    requires IsWord(w) && (rest == "" || Separator(rest[0]))
    ensures Words(w + rest) == [w] + Words(rest)
  {
    var s := w + rest;
    var k := WordLength(s);
    assert forall i | 0 <= i < |w| :: s[i] == w[i];
    assert rest != "" ==> s[|w|] == rest[0];
    assert s[..k] == w && s[k..] == rest;
  }

  /** Joined words split into themselves. */
  lemma {:induction false} JoinedSplits(words: seq<string>)
    requires AllWords(words)
    ensures Words(Joined(words)) == words
  {
    if |words| == 1 {
      FirstWord(words[0], "");
      assert words[0] + "" == words[0];
    } else if words != [] {
      JoinedSplits(words[1..]);
      var rest := " " + Joined(words[1..]);
      assert rest[1..] == Joined(words[1..]);
      FirstWord(words[0], rest);
      assert Joined(words) == words[0] + rest;
    }
  }

  lemma {:induction false} JoinedKeepsTheEnds(s: string)
    requires s != "" && !Separator(s[|s| - 1])
    ensures Joined(Words(s)) != "" && Joined(Words(s))[|Joined(Words(s))| - 1] == s[|s| - 1]
    ensures !Separator(s[0]) ==> Joined(Words(s))[0] == s[0]
    decreases |s|
  {
    if Separator(s[0]) {
      JoinedKeepsTheEnds(s[1..]);
    } else {
      var k := WordLength(s);
      var rest := Words(s[k..]);
      if k == |s| {
        assert s[..k] == s && s[k..] == "";
      } else {
        JoinedKeepsTheEnds(s[k..]);
        var words := [s[..k]] + rest;
        assert words[1..] == rest;
        assert Joined(words) == s[..k] + " " + Joined(rest);
      }
    }
  }

  /** A cleaned code is clean: cleaning it again, as the grouping of a re-read voucher does, changes nothing. */
  lemma CleanedCodeIsClean(value: string)
    ensures CleanTigerCode(CleanTigerCode(value)) == CleanTigerCode(value)
  {
    var s := Trim(DotNetSpace, value);
    var code := CleanTigerCode(value);
    TrimIsTrimmed(DotNetSpace, value);
    if s != "" {
      JoinedKeepsTheEnds(s);
      TrimIsTrimmed(DotNetSpace, code);
    }
    WordsAreWords(s);
    JoinedSplits(Words(s));
  }

  /** Cleaning keeps the words and nothing else: two codes are cleaned alike exactly if they have the same words. */
  lemma SameWordsSameCode(a: string, b: string)
    ensures CleanTigerCode(a) == CleanTigerCode(b) <==> Words(Trim(DotNetSpace, a)) == Words(Trim(DotNetSpace, b))
  {
    WordsAreWords(Trim(DotNetSpace, a));
    WordsAreWords(Trim(DotNetSpace, b));
    JoinedSplits(Words(Trim(DotNetSpace, a)));
    JoinedSplits(Words(Trim(DotNetSpace, b)));
  }

  /** What a cleaned code looks like: words with one blank between them, and no other separator anywhere. */
  predicate SingleSpaced(s: string) {
    && (forall i | 0 <= i < |s| :: s[i] != '\t' && s[i] != '\r' && s[i] != '\n')
    && (s != "" ==> s[0] != ' ' && s[|s| - 1] != ' ')
    && forall i | 0 <= i < |s| - 1 :: !(s[i] == ' ' && s[i + 1] == ' ')
  }

  lemma {:induction false} JoinedIsSingleSpaced(words: seq<string>)
    requires AllWords(words)
    ensures SingleSpaced(Joined(words)) && (words != [] ==> Joined(words) != "")
  {
    if |words| == 1 {
      assert Joined(words) == words[0];
    } else if words != [] {
      JoinedIsSingleSpaced(words[1..]);
      var rest := Joined(words[1..]);
      assert Joined(words) == words[0] + " " + rest;
    }
  }

  /** Cleaning keeps the words of a code, in order, and nothing between them but single blanks. */
  lemma CleanedCodeKeepsTheWords(value: string)
    ensures Words(CleanTigerCode(value)) == Words(Trim(DotNetSpace, value)) && SingleSpaced(CleanTigerCode(value))
  {
    WordsAreWords(Trim(DotNetSpace, value));
    JoinedSplits(Words(Trim(DotNetSpace, value)));
    JoinedIsSingleSpaced(Words(Trim(DotNetSpace, value)));
  }
}
