/** How the 1C side recognises a payment's document: a tag in the comment, searched for with LIKE. */
module PaymentTag {
  /** The fields of an event's payload, trimmed as they are read. */
  datatype Payment = Payment(paymentId: string, invoiceId: string, invoiceNumber: string, paymentCode: string)

  const TAG := "PayQR paymentId="

  /** PayQR_МеткаPaymentId */
  function Marker(paymentId: string): string { TAG + paymentId }

  function Line(name: string, value: string): string {
    if value == "" then "" else "\n" + (name + value)
  }

  function Tail(p: Payment): string {
    Line("invoiceId=", p.invoiceId) + Line("invoiceNumber=", p.invoiceNumber) + Line("paymentCode=", p.paymentCode)
  }

  /** PayQR_КомментарийОплаты */
  function Comment(p: Payment): string {
    Marker(p.paymentId) + Tail(p)
  }

  /** The comment in full: the tag with the payment id, and a line for each further field that is filled. */
  lemma CommentSays(p: Payment)
    ensures Comment(p) == "PayQR paymentId=" + p.paymentId +
              ((if p.invoiceId == "" then "" else "\ninvoiceId=" + p.invoiceId) +
               (if p.invoiceNumber == "" then "" else "\ninvoiceNumber=" + p.invoiceNumber) +
               (if p.paymentCode == "" then "" else "\npaymentCode=" + p.paymentCode))
  {
    LineSays("invoiceId=", "\ninvoiceId=", p.invoiceId);
    LineSays("invoiceNumber=", "\ninvoiceNumber=", p.invoiceNumber);
    LineSays("paymentCode=", "\npaymentCode=", p.paymentCode);
  }

  lemma LineSays(name: string, whole: string, value: string)
    requires "\n" + name == whole
    ensures Line(name, value) == if value == "" then "" else whole + value
  {
  }

  // ----- LIKE -----

  function ClosingBracket(pattern: string): (c: nat)
    ensures c <= |pattern|
  {
    if pattern == "" || pattern[0] == ']' then 0 else 1 + ClosingBracket(pattern[1..])
  }

  predicate InClass(c: char, members: string) {
    if members != "" && members[0] == '^' then c !in members[1..] else c in members
  }

  /** The query language's LIKE: any run, any character, one of a bracketed class, or the character itself. */
  predicate Like(pattern: string, s: string)
    decreases |pattern| + |s|
  {
    if pattern == "" then s == ""
    else if pattern[0] == '%' then Like(pattern[1..], s) || (s != "" && Like(pattern, s[1..]))
    else if s == "" then false
    else if pattern[0] == '_' then Like(pattern[1..], s[1..])
    else if pattern[0] == '[' then
      var c := ClosingBracket(pattern[1..]);
      1 + c < |pattern| && InClass(s[0], pattern[1..1 + c]) && Like(pattern[2 + c..], s[1..])
    else s[0] == pattern[0] && Like(pattern[1..], s[1..])
  }

  /** What the special characters of a pattern stand for: any run, any one character, one of a class or none of it. */
  lemma LikeBasics(c: char, s: string)
    ensures Like("%", s)
    ensures Like("_", s) <==> |s| == 1
    ensures Like("[ab]", s) <==> s == "a" || s == "b"
    ensures Like("[^ab]", [c]) <==> c != 'a' && c != 'b'
    ensures c !in "%_[" ==> (Like([c], s) <==> s == [c])
  {
    AnythingMatches(s);
    OneCharacter(s);
    OneOfClass(s);
    NoneOfClass(c);
    if c !in "%_[" { ItselfOnly(c, s); }
  }

  lemma ItselfOnly(c: char, s: string)
    requires c != '%' && c != '_' && c != '['
    ensures Like([c], s) <==> s == [c]
  {
    assert [c][1..] == "";
    if s != "" { assert s == [s[0]] + s[1..]; }
  }

  lemma OneCharacter(s: string)
    ensures Like("_", s) <==> |s| == 1
  {
    assert "_"[1..] == "";
  }

  lemma OneOfClass(s: string)
    ensures Like("[ab]", s) <==> s == "a" || s == "b"
  {
    var pattern := "[ab]";
    assert pattern[1..] == "ab]" && "ab]"[1..] == "b]" && "b]"[1..] == "]";
    assert ClosingBracket("]") == 0 && ClosingBracket("b]") == 1 && ClosingBracket("ab]") == 2;
    assert pattern[1..3] == "ab" && pattern[4..] == "";
    if s != "" { assert s == [s[0]] + s[1..]; }
  }

  lemma NoneOfClass(c: char)
    ensures Like("[^ab]", [c]) <==> c != 'a' && c != 'b'
  {
    var pattern := "[^ab]";
    assert pattern[1..] == "^ab]" && "^ab]"[1..] == "ab]" && "ab]"[1..] == "b]" && "b]"[1..] == "]";
    assert ClosingBracket("b]") == 1 && ClosingBracket("ab]") == 2 && ClosingBracket("^ab]") == 3;
    assert pattern[1..4] == "^ab" && "^ab"[1..] == "ab" && pattern[5..] == "" && [c][1..] == "";
  }

  /** The WHERE clause of PayQR_НайтиДокументОплатыПоPaymentId */
  predicate Matches(comment: string, paymentId: string) {
    Like("%" + Marker(paymentId) + "%", comment)
  }

  predicate PlainText(s: string) {
    forall i | 0 <= i < |s| :: s[i] != '%' && s[i] != '_' && s[i] != '['
  }

  predicate NoClass(s: string) {
    forall i | 0 <= i < |s| :: s[i] != '['
  }

  /** m occurs in s at position k. */
  predicate At(s: string, m: string, k: nat) {
    k + |m| <= |s| && s[k..k + |m|] == m
  }

  predicate Contains(s: string, m: string) {
    exists k: nat | k <= |s| :: At(s, m, k)
  }

  lemma {:induction false} AnythingMatches(s: string)
    ensures Like("%", s)
    decreases |s|
  {
    assert "%"[1..] == "";
    if s != "" { AnythingMatches(s[1..]); }
  }

  /** A plain start of a pattern has to be there literally. */
  lemma {:induction false} LikePlainThen(m: string, pattern: string, s: string)
    requires PlainText(m)
    ensures Like(m + pattern, s) <==> m <= s && Like(pattern, s[|m|..])
    decreases |m|
  {
    var whole := m + pattern;
    if m == "" {
      assert whole == pattern && s[0..] == s;
    } else {
      assert whole[1..] == m[1..] + pattern && whole[0] == m[0];
      if s != "" {
        LikePlainThen(m[1..], pattern, s[1..]);
        if m[0] == s[0] && m[1..] <= s[1..] { assert m == [m[0]] + m[1..] && s == [s[0]] + s[1..]; }
        if m <= s { assert m[1..] <= s[1..] && s[1..][|m| - 1..] == s[|m|..]; }
      }
    }
  }

  /** The same plain start of pattern and text can be left out. */
  lemma PlainCancels(m: string, pattern: string, after: string, s: string)
    requires PlainText(m) && s == m + after
    ensures Like(m + pattern, s) <==> Like(pattern, after)
  {
    assert m <= s && s[|m|..] == after;
    LikePlainThen(m, pattern, s);
  }

  /** A plain pattern followed by % matches exactly the texts that start with it. */
  lemma LikeIsPrefix(m: string, s: string)
    requires PlainText(m)
    ensures Like(m + "%", s) <==> m <= s
  {
    LikePlainThen(m, "%", s);
    if m <= s { AnythingMatches(s[|m|..]); }
  }

  lemma ContainsStep(m: string, s: string)
    requires s != ""
    ensures Contains(s, m) <==> m <= s || Contains(s[1..], m)
  {
    if Contains(s, m) {
      var k: nat :| k <= |s| && At(s, m, k);
      if k > 0 {
        assert s[1..][k - 1..k - 1 + |m|] == s[k..k + |m|];
        assert At(s[1..], m, k - 1);
      }
    }
    if m <= s { assert At(s, m, 0); }
    if Contains(s[1..], m) {
      var k: nat :| k <= |s[1..]| && At(s[1..], m, k);
      assert s[1..][k..k + |m|] == s[k + 1..k + 1 + |m|];
      assert At(s, m, k + 1);
    }
  }

  /** Without wildcards the search is a search for a substring. */
  lemma {:induction false} LikeIsContains(m: string, s: string)
    requires PlainText(m) && m != ""
    ensures Like("%" + (m + "%"), s) <==> Contains(s, m)
    decreases |s|
  {
    var pattern := "%" + (m + "%");
    assert pattern[1..] == m + "%";
    LikeIsPrefix(m, s);
    if s == "" {
      assert Contains(s, m) ==> m <= s;
    } else {
      ContainsStep(m, s);
      LikeIsContains(m, s[1..]);
    }
  }

  /** Only a class can keep a pattern from matching its own text. */
  lemma {:induction false} PatternMatchesItself(m: string, rest: string)
    requires NoClass(m)
    ensures Like(m + "%", m + rest)
    decreases |m|
  {
    var pattern, s := m + "%", m + rest;
    if m == "" {
      assert pattern == "%";
      AnythingMatches(s);
    } else {
      assert pattern[1..] == m[1..] + "%" && s[1..] == m[1..] + rest;
      PatternMatchesItself(m[1..], rest);
      if m[0] == '%' {
        OneMoreAnything(pattern[1..], s);
      }
    }
  }

  /** What matches the rest of the text after a run also matches with a longer run. */
  lemma OneMoreAnything(pattern: string, s: string)
    requires s != "" && Like(pattern, s[1..])
    ensures Like("%" + pattern, s)
  {
  }

  lemma TagIsPlain()
    ensures PlainText(TAG) && NoClass(TAG) && |TAG| == 16
  {
  }

  /** Every payment's document is found by its own id, unless the id contains a bracket. */
  lemma OwnDocumentIsFound(p: Payment)
    requires NoClass(p.paymentId)
    ensures Matches(Comment(p), p.paymentId)
  {
    var m := Marker(p.paymentId);
    TagIsPlain();
    PatternMatchesItself(m, Tail(p));
    assert "%" + m + "%" == "%" + (m + "%");
    assert ("%" + (m + "%"))[1..] == m + "%";
  }

  // ----- Whose document is found -----

  predicate OneLine(s: string) {
    forall i | 0 <= i < |s| :: s[i] != '\n'
  }

  /** A field that does not itself contain a tag. */
  predicate Quiet(value: string) { !Contains(value, TAG) }

  predicate AllQuiet(p: Payment) {
    Quiet(p.paymentId) && Quiet(p.invoiceId) && Quiet(p.invoiceNumber) && Quiet(p.paymentCode)
  }

  predicate NewLines(s: string) { s == "" || s[0] == '\n' }

  predicate NoP(s: string) { forall i | 0 <= i < |s| :: s[i] != 'P' }

  lemma TagStarts(name: string)
    requires name in ["invoiceId=", "invoiceNumber=", "paymentCode="]
    ensures TAG[0] == 'P' && NoP(TAG[1..]) && NoP(name) && OneLine(TAG)
  {
  }

  /** An occurrence of text that starts with the tag is an occurrence of the tag. */
  lemma MarkerHasTag(s: string, id: string, k: nat)
    requires At(s, Marker(id), k)
    ensures At(s, TAG, k) && k < |s| && s[k] == 'P'
  {
    assert s[k..k + |TAG|] == s[k..k + |Marker(id)|][..|TAG|] == TAG;
    assert s[k] == TAG[0];
  }

  lemma CharacterOf(s: string, m: string, k: nat, j: nat)
    requires At(s, m, k) && j < |m|
    ensures m[j] == s[k + j]
  {
  }

  /** A one-line text cannot reach across the start of a new line. */
  lemma NoCrossing(a: string, b: string, m: string, k: nat)
    requires OneLine(m) && NewLines(b) && At(a + b, m, k)
    ensures At(a, m, k) || (k >= |a| && At(b, m, k - |a|)) || m == ""
  {
    var s := a + b;
    if k < |a| < k + |m| { CharacterOf(s, m, k, |a| - k); }
    if k + |m| <= |a| {
      assert s[k..k + |m|] == a[k..k + |m|];
    } else if k >= |a| {
      assert s[k..k + |m|] == b[k - |a|..k - |a| + |m|];
    }
  }

  /** One more line does not bring in a marker. */
  lemma QuietLine(name: string, value: string, rest: string, id: string)
    requires TAG[0] == 'P' && NoP(name) && Quiet(value) && NewLines(rest) && OneLine(Marker(id))
    requires !Contains(rest, Marker(id))
    ensures NewLines(Line(name, value) + rest) && !Contains(Line(name, value) + rest, Marker(id))
  {
    if value == "" {
      assert Line(name, value) + rest == rest;
    } else {
      var a, s := Line(name, value), Line(name, value) + rest;
      forall k: nat | k <= |s| ensures !At(s, Marker(id), k) {
        if At(s, Marker(id), k) {
          NoCrossing(a, rest, Marker(id), k);
          MarkerHasTag(s, id, k);
          if At(a, Marker(id), k) {
            MarkerHasTag(a, id, k);
            TagInsideLine(name, value, k);
          }
        }
      }
    }
  }

  /** The tag can only start inside the value of a line, so a quiet value rules it out. */
  lemma TagInsideLine(name: string, value: string, k: nat)
    requires value != "" && NoP(name) && Quiet(value)
    ensures !(At(Line(name, value), TAG, k) && k < |Line(name, value)| && Line(name, value)[k] == 'P')
  {
    var a := Line(name, value);
    if At(a, TAG, k) && k < |a| && a[k] == 'P' && k > |name| {
      assert a[k..k + |TAG|] == value[k - |name| - 1..k - |name| - 1 + |TAG|];
      assert At(value, TAG, k - |name| - 1);
    }
  }

  lemma QuietTail(p: Payment, id: string)
    requires AllQuiet(p) && OneLine(Marker(id))
    ensures NewLines(Tail(p)) && !Contains(Tail(p), Marker(id))
  {
    TagStarts("invoiceId=");
    TagStarts("invoiceNumber=");
    TagStarts("paymentCode=");
    var third := Line("paymentCode=", p.paymentCode);
    var second := Line("invoiceNumber=", p.invoiceNumber) + third;
    assert third + "" == third;
    QuietLine("paymentCode=", p.paymentCode, "", id);
    QuietLine("invoiceNumber=", p.invoiceNumber, third, id);
    QuietLine("invoiceId=", p.invoiceId, second, id);
    assert Tail(p) == Line("invoiceId=", p.invoiceId) + second;
  }

  /** In a comment of quiet fields the marker of an id occurs exactly if the id is a prefix of the comment's own id. */
  lemma MarkerOccursIffPrefix(p: Payment, id: string)
    requires AllQuiet(p) && OneLine(id)
    ensures Contains(Comment(p), Marker(id)) <==> id <= p.paymentId
  {
    TagStarts("invoiceId=");
    QuietTail(p, id);
    var s, m, a := Comment(p), Marker(id), Marker(p.paymentId);
    if id <= p.paymentId {
      assert s[..|m|] == m;
      assert At(s, m, 0);
    }
    if Contains(s, m) {
      var k: nat :| k <= |s| && At(s, m, k);
      NoCrossing(a, Tail(p), m, k);
      assert At(a, m, k);
      MarkerHasTag(a, id, k);
      OwnMarkerOnly(p.paymentId, id, k);
    }
  }

  lemma TagBehindTag(own: string, k: nat)
    requires k >= |TAG| && At(Marker(own), TAG, k)
    ensures At(own, TAG, k - |TAG|)
  {
  }

  lemma TagInsideTag(own: string, k: nat)
    requires At(Marker(own), TAG, k)
    ensures 0 < k < |TAG| ==> TAG[0] == TAG[1..][k - 1]
  {
  }

  lemma OwnMarkerOnly(own: string, id: string, k: nat)
    requires Quiet(own) && TAG[0] == 'P' && NoP(TAG[1..]) && At(Marker(own), Marker(id), k) && At(Marker(own), TAG, k)
    ensures k == 0 && id <= own
  {
    var a, n := Marker(own), |TAG|;
    if k >= n { TagBehindTag(own, k); }
    TagInsideTag(own, k);
    assert k == 0;
    assert a[..n + |id|] == Marker(id);
    assert own[..|id|] == a[n..n + |id|] == id;
  }

  /** The search for a plain id finds exactly the documents whose payment id starts with it. */
  lemma FoundIffPrefix(p: Payment, id: string)
    requires AllQuiet(p) && OneLine(id) && PlainText(id)
    ensures Matches(Comment(p), id) <==> id <= p.paymentId
  {
    var m := Marker(id);
    TagIsPlain();
    assert "%" + m + "%" == "%" + (m + "%");
    LikeIsContains(m, Comment(p));
    MarkerOccursIffPrefix(p, id);
  }

  // ----- What any id finds -----

  /** In a comment of quiet fields the tag occurs at the start only. */
  lemma TagOnlyAtStart(p: Payment, k: nat)
    requires AllQuiet(p) && At(Comment(p), TAG, k)
    ensures k == 0
  {
    TagStarts("invoiceId=");
    QuietTail(p, "");
    assert Marker("") == TAG && TAG[0] == 'P';
    NoCrossing(Marker(p.paymentId), Tail(p), TAG, k);
    OwnMarkerOnly(p.paymentId, "", k);
  }

  /** A pattern after a run of anything matches somewhere. */
  lemma {:induction false} LikeSomewhere(pattern: string, s: string) returns (k: nat)
    requires Like("%" + pattern, s)
    ensures k <= |s| && Like(pattern, s[k..])
    decreases |s|
  {
    assert ("%" + pattern)[1..] == pattern;
    if Like(pattern, s) {
      assert s[0..] == s;
      k := 0;
    } else {
      k := LikeSomewhere(pattern, s[1..]);
      assert s[1..][k..] == s[k + 1..];
      k := k + 1;
    }
  }

  lemma TagThenId(p: Payment, id: string)
    ensures Like(TAG + (id + "%"), Comment(p)) <==> Like(id + "%", p.paymentId + Tail(p))
  {
    TagIsPlain();
    PlainCancels(TAG, id + "%", p.paymentId + Tail(p), Comment(p));
  }

  lemma SearchIsAtTheStart(p: Payment, id: string)
    requires AllQuiet(p)
    ensures Matches(Comment(p), id) <==> Like(TAG + (id + "%"), Comment(p))
  {
    var s, pattern := Comment(p), TAG + (id + "%");
    assert "%" + Marker(id) + "%" == "%" + pattern;
    assert ("%" + pattern)[1..] == pattern;
    if Matches(s, id) {
      var k := LikeSomewhere(pattern, s);
      TagIsPlain();
      LikePlainThen(TAG, id + "%", s[k..]);
      assert s[k..][..|TAG|] == TAG;
      TagOnlyAtStart(p, k);
      assert s[0..] == s;
    }
  }

  /** The search for any id compares its pattern with what follows the tag, and nothing else. */
  lemma SearchStartsAtTheTag(p: Payment, id: string)
    requires AllQuiet(p)
    ensures Matches(Comment(p), id) <==> Like(id + "%", p.paymentId + Tail(p))
  {
    SearchIsAtTheStart(p, id);
    TagThenId(p, id);
  }

  // ----- Bracketed ids -----

  /** What the class after the first bracket of an id makes of the id's own text: it has to be closed, to accept the
      bracket, and to leave a pattern that matches the rest. */
  predicate ClassAccepts(w: string, rest: string) {
    var pattern := w + "%";
    var c := ClosingBracket(pattern);
    c < |pattern| && InClass('[', pattern[..c]) && Like(pattern[c + 1..], rest)
  }

  lemma OpeningBracket(w: string, rest: string)
    ensures Like("[" + (w + "%"), "[" + rest) <==> ClassAccepts(w, rest)
  {
    var pattern, s := "[" + (w + "%"), "[" + rest;
    var c := ClosingBracket(w + "%");
    assert pattern[1..] == w + "%" && s[1..] == rest;
    assert pattern[1..1 + c] == (w + "%")[..c];
    if c < |w + "%"| { assert pattern[2 + c..] == (w + "%")[c + 1..]; }
  }

  lemma PlainThenBracket(u: string, w: string, rest: string)
    requires PlainText(u)
    ensures Like(u + ("[" + (w + "%")), u + ("[" + rest)) <==> ClassAccepts(w, rest)
  {
    PlainCancels(u, "[" + (w + "%"), "[" + rest, u + ("[" + rest));
    OpeningBracket(w, rest);
  }

  lemma OwnText(id: string, u: string, w: string, tail: string)
    requires PlainText(u) && id == u + "[" + w
    ensures Like(id + "%", id + tail) <==> ClassAccepts(w, w + tail)
  {
    assert id + "%" == u + ("[" + (w + "%"));
    assert id + tail == u + ("[" + (w + tail));
    PlainThenBracket(u, w, w + tail);
  }

  /** A payment whose id has a bracket finds its own document exactly if the class accepts the id's own text. */
  lemma BracketedIdIsFoundIff(p: Payment, u: string, w: string)
    requires AllQuiet(p) && PlainText(u) && p.paymentId == u + "[" + w
    ensures Matches(Comment(p), p.paymentId) <==> ClassAccepts(w, w + Tail(p))
  {
    SearchStartsAtTheTag(p, p.paymentId);
    OwnText(p.paymentId, u, w, Tail(p));
  }

  /** So it never finds it if that class does not accept an opening bracket, or is never closed. */
  lemma BracketedIdIsNotFound(p: Payment, u: string, members: string, v: string)
    requires AllQuiet(p) && PlainText(u) && ']' !in members && !InClass('[', members)
    requires p.paymentId == u + "[" + (members + "]" + v) || (p.paymentId == u + "[" + members && v == "")
    ensures !Matches(Comment(p), p.paymentId)
  {
    if p.paymentId == u + "[" + members && v == "" {
      BracketedIdIsFoundIff(p, u, members);
      ClosesAt(members, "%");
    } else {
      BracketedIdIsFoundIff(p, u, members + "]" + v);
      ClosesAt(members, "]" + v + "%");
      assert members + "]" + v + "%" == members + ("]" + v + "%");
    }
  }

  lemma {:induction false} ClosesAt(members: string, rest: string)
    requires ']' !in members
    ensures ClosingBracket(members + rest) == |members| + ClosingBracket(rest)
    ensures (members + rest)[..|members|] == members
  {
    if members == "" {
      assert members + rest == rest;
    } else {
      assert (members + rest)[1..] == members[1..] + rest;
      ClosesAt(members[1..], rest);
    }
  }
}
