/**
 Tiger's bank vouchers as the worker sees them: what its queries find, what an export contains and
 what saving a document does. A voucher's logical reference is its position in the book.
 */
module Ledger {
  import opened Basics
  import opened Text
  import opened AmountText
  import opened VoucherXml

  datatype Voucher = Voucher(cancelled: bool, note: Content, total: nat, date: Content, lines: seq<Xml>)

  type Book = seq<Voucher>

  // ----- Sums -----

  function SumOf<T>(s: seq<T>, f: T -> nat): nat {
    if s == [] then 0 else SumOf(s[..|s| - 1], f) + f(s[|s| - 1])
  }

  lemma SumOfSnoc<T>(s: seq<T>, x: T, f: T -> nat)
    ensures SumOf(s + [x], f) == SumOf(s, f) + f(x)
  {
  }

  lemma {:induction false} SumOfUpdate<T>(s: seq<T>, i: nat, x: T, f: T -> nat)
    requires i < |s|
    ensures SumOf(s[i := x], f) + f(s[i]) == SumOf(s, f) + f(x)
  {
    var n := |s| - 1;
    if i == n {
      assert s[i := x][..n] == s[..n];
    } else {
      SumOfUpdate(s[..n], i, x, f);
      assert s[i := x][..n] == s[..n][i := x];
    }
  }

  lemma {:induction false} SumOfMember<T>(s: seq<T>, i: nat, f: T -> nat)
    requires i < |s|
    ensures f(s[i]) <= SumOf(s, f)
  {
    if i < |s| - 1 { SumOfMember(s[..|s| - 1], i, f); }
  }

  // ----- Reading -----

  function AmountOf(value: Option<Content>): nat {
    match value
    case Some(Plain(s)) => ParseAmount(s)
    case _ => 0
  }

  function LineAmount(line: Xml): nat { AmountOf(ValueOf(line.kids, "AMOUNT")) }

  function LineNote(line: Xml): Content { ValueOf(line.kids, "DESCRIPTION").GetOr(Plain("")) }

  function LineReference(line: Xml): Option<Content> { ValueOf(line.kids, "INTERNAL_REFERENCE") }

  /** The sum of the line amounts, zero without lines. */
  function LineSum(v: Voucher): nat { SumOf(v.lines, LineAmount) }

  function NoteCount(note: Content, invoice: string): nat {
    if note == LineMarker(invoice) then 1 else 0
  }

  function LineCounter(invoice: string): Xml -> nat {
    (line: Xml) => NoteCount(LineNote(line), invoice)
  }

  /** How often a live voucher carries the marker of an invoice, on its header or on its lines. */
  function EntriesIn(v: Voucher, invoice: string): nat {
    if v.cancelled then 0 else NoteCount(v.note, invoice) + SumOf(v.lines, LineCounter(invoice))
  }

  function EntryCounter(invoice: string): Voucher -> nat {
    (v: Voucher) => EntriesIn(v, invoice)
  }

  /** The accounting entries of an invoice. */
  function Entries(book: Book, invoice: string): nat { SumOf(book, EntryCounter(invoice)) }

  function GroupSum(v: Voucher): nat {
    if !v.cancelled && v.note.GroupMarker? then LineSum(v) else 0
  }

  /** The money in the live group vouchers. */
  function Money(book: Book): nat { SumOf(book, GroupSum) }

  /** The voucher with the highest reference that satisfies the condition. */
  function LastRef(book: Book, condition: Voucher -> bool): (ref: Option<nat>)
    ensures ref.Some? ==> ref.value < |book| && condition(book[ref.value])
    ensures ref.Some? ==> forall i | ref.value < i < |book| :: !condition(book[i])
    ensures ref.None? ==> forall i | 0 <= i < |book| :: !condition(book[i])
  {
    if book == [] then None
    else if condition(book[|book| - 1]) then Some(|book| - 1)
    else LastRef(book[..|book| - 1], condition)
  }

  function IsGroup(group: Content): Voucher -> bool {
    (v: Voucher) => !v.cancelled && v.note == group
  }

  function HasEntry(invoice: string): Voucher -> bool {
    (v: Voucher) => EntriesIn(v, invoice) > 0
  }

  /** FindExistingGroupVoucher */
  function FindGroup(book: Book, group: Content): (ref: Option<nat>)
    ensures ref.Some? ==> ref.value < |book| && !book[ref.value].cancelled && book[ref.value].note == group
    ensures ref.Some? ==> forall i | ref.value < i < |book| :: book[i].cancelled || book[i].note != group
    ensures ref.None? ==> forall i | 0 <= i < |book| :: !book[i].cancelled ==> book[i].note != group
  {
    LastRef(book, IsGroup(group))
  }

  /** FindExistingInvoiceLine: by header note or by line description. */
  function FindInvoice(book: Book, invoice: string): (ref: Option<nat>)
    ensures ref.Some? ==> ref.value < |book| && EntriesIn(book[ref.value], invoice) > 0
    ensures ref.Some? ==> forall i | ref.value < i < |book| :: EntriesIn(book[i], invoice) == 0
    ensures ref.Some? <==> Entries(book, invoice) > 0
  {
    FoundIffEntered(book, invoice);
    LastRef(book, HasEntry(invoice))
  }

  lemma FoundIffEntered(book: Book, invoice: string)
    ensures LastRef(book, HasEntry(invoice)).Some? <==> Entries(book, invoice) > 0
  {
  }

  /** A live voucher is marked for the invoice on its header or on one of its lines. */
  ghost predicate MarkedFor(v: Voucher, invoice: string) {
    && !v.cancelled
    && (v.note == LineMarker(invoice)
        || exists j | 0 <= j < |v.lines| :: ValueOf(v.lines[j].kids, "DESCRIPTION") == Some(LineMarker(invoice)))
  }

  lemma {:induction false} SomeCounted<T>(s: seq<T>, f: T -> nat) returns (i: nat)
    requires SumOf(s, f) > 0
    ensures i < |s| && f(s[i]) > 0
  {
    i := |s| - 1;
    if f(s[i]) == 0 { i := SomeCounted(s[..|s| - 1], f); }
  }

  lemma MarkedIffCounted(v: Voucher, invoice: string)
    ensures EntriesIn(v, invoice) > 0 <==> MarkedFor(v, invoice)
  {
    if !v.cancelled && SumOf(v.lines, LineCounter(invoice)) > 0 {
      var j := SomeCounted(v.lines, LineCounter(invoice));
      assert LineNote(v.lines[j]) == LineMarker(invoice);
    }
    if MarkedFor(v, invoice) && v.note != LineMarker(invoice) {
      var j :| 0 <= j < |v.lines| && ValueOf(v.lines[j].kids, "DESCRIPTION") == Some(LineMarker(invoice));
      SumOfMember(v.lines, j, LineCounter(invoice));
    }
  }

  /** An invoice is entered exactly if some live voucher is marked for it. */
  lemma EnteredIff(book: Book, invoice: string)
    ensures Entries(book, invoice) > 0 <==> exists i | 0 <= i < |book| :: MarkedFor(book[i], invoice)
  {
    if Entries(book, invoice) > 0 {
      var i := SomeCounted(book, EntryCounter(invoice));
      MarkedIffCounted(book[i], invoice);
    }
    if i :| 0 <= i < |book| && MarkedFor(book[i], invoice) {
      MarkedIffCounted(book[i], invoice);
      SumOfMember(book, i, EntryCounter(invoice));
    }
  }

  /** A cancelled voucher holds no money, a live group's voucher the sum of its lines. */
  lemma MoneyIs(v: Voucher, group: Content)
    ensures v.cancelled ==> GroupSum(v) == 0
    ensures !v.cancelled && v.note.GroupMarker? ==> GroupSum(v) == SumOf(v.lines, LineAmount)
    ensures !v.note.GroupMarker? ==> GroupSum(v) == 0
  {
  }

  // ----- Documents -----

  function GroupOf(p: Posting): Content { GroupMarker(p.date, Upper(p.account)) }

  /** BuildBankVoucherInsertXml */
  function InsertDocument(p: Posting): Xml {
    var kids := [
      Leaf("DATE", Plain(FormatDate(p.date))), Leaf("TYPE", Plain("3")),
      Leaf("TOTAL_DEBIT", Plain(FormatAmount(p.amount))), Leaf("NOTES1", GroupOf(p)),
      Leaf("CURRSEL_TOTALS", Plain("1")), Leaf("DIVISION", Plain("0")), Leaf("DEPARMENT", Plain("0")),
      Parent("TRANSACTIONS", [BuildTransactionElement(p)])];
    Parent("BANK_VOUCHERS", [Element("BANK_VOUCHER", map["DBOP" := "INS"], Plain(""), kids)])
  }

  /** ExportToXML of the voucher under that reference */
  function Export(v: Voucher, ref: nat): Xml {
    var kids := [
      Leaf("INTERNAL_REFERENCE", Reference(ref)), Leaf("DATE", v.date), Leaf("TYPE", Plain("3")),
      Leaf("TOTAL_DEBIT", Plain(FormatAmount(v.total))), Leaf("NOTES1", v.note),
      Parent("TRANSACTIONS", v.lines)];
    Parent("BANK_VOUCHERS", [Parent("BANK_VOUCHER", kids)])
  }

  // ----- Saving -----

  /** What Tiger itself adds to a new line. */
  datatype Generated = Generated(reference: nat, extras: seq<Xml>)

  function Enriched(line: Xml, g: Generated): Xml {
    line.(kids := line.kids + [Leaf("INTERNAL_REFERENCE", Reference(g.reference))] + g.extras)
  }

  function ReferenceIndex(lines: seq<Xml>, reference: Content, start: nat): (i: nat)
    requires start <= |lines|
    ensures start <= i <= |lines|
    ensures i < |lines| ==> LineReference(lines[i]) == Some(reference)
    ensures forall j | start <= j < i :: LineReference(lines[j]) != Some(reference)
    decreases |lines| - start
  {
    if start == |lines| || LineReference(lines[start]) == Some(reference) then start
    else ReferenceIndex(lines, reference, start + 1)
  }

  /** A line with a known reference overwrites that line; any other line is new. */
  function SaveLine(lines: seq<Xml>, line: Xml, g: Generated): seq<Xml> {
    match LineReference(line)
    case None => lines + [Enriched(line, g)]
    case Some(reference) =>
      var i := ReferenceIndex(lines, reference, 0);
      if i < |lines| then lines[i := line] else lines + [line]
  }

  function SaveLines(lines: seq<Xml>, document: seq<Xml>, g: Generated): seq<Xml>
    decreases |document|
  {
    if document == [] then lines else SaveLines(SaveLine(lines, document[0], g), document[1..], g)
  }

  function OrEmpty(value: Option<Content>): Content { value.GetOr(Plain("")) }

  function SavedVoucher(v: Xml, cancelled: bool, lines: seq<Xml>, g: Generated): Voucher {
    var document := match ChildOf(v.kids, "TRANSACTIONS") case None => [] case Some(t) => t.kids;
    Voucher(cancelled, OrEmpty(ValueOf(v.kids, "NOTES1")), AmountOf(ValueOf(v.kids, "TOTAL_DEBIT")),
            OrEmpty(ValueOf(v.kids, "DATE")), SaveLines(lines, document, g))
  }

  /** The book after a successful Post of the document. */
  function Saved(book: Book, root: Xml, g: Generated): Book {
    match ChildOf(root.kids, "BANK_VOUCHER")
    case None => book
    case Some(v) =>
      if "DBOP" in v.attributes && v.attributes["DBOP"] == "INS" then book + [SavedVoucher(v, false, [], g)]
      else
        match ValueOf(v.kids, "DATA_REFERENCE")
        case Some(Reference(ref)) =>
          if ref < |book| then book[ref := SavedVoucher(v, book[ref].cancelled, book[ref].lines, g)] else book
        case _ => book
  }

  // ----- The invariant -----

  /** A line the worker posted for that account and date. */
  predicate InGroup(line: Xml, group: Content) {
    && group.GroupMarker?
    && (match ValueOf(line.kids, "BANKACC_CODE") case Some(Plain(s)) => Upper(s) == group.account case _ => false)
    && ValueOf(line.kids, "DATE") == Some(Plain(FormatDate(group.date)))
  }

  ghost predicate AllInGroup(lines: seq<Xml>, group: Content) {
    forall i | 0 <= i < |lines| :: InGroup(lines[i], group)
  }

  ghost predicate LinesOk(lines: seq<Xml>) {
    && (forall i | 0 <= i < |lines| ::
          lines[i].name == "TRANSACTION" && UniqueNames(lines[i].kids) && LineReference(lines[i]).Some?)
    && (forall i, j | 0 <= i < j < |lines| :: LineReference(lines[i]) != LineReference(lines[j]))
  }

  ghost predicate GroupOk(v: Voucher) {
    v.lines != [] && LinesOk(v.lines) && v.total == LineSum(v) && AllInGroup(v.lines, v.note)
  }

  predicate LiveGroup(v: Voucher) { !v.cancelled && v.note.GroupMarker? }

  ghost predicate VouchersOk(book: Book) {
    forall i | 0 <= i < |book| :: LiveGroup(book[i]) ==> GroupOk(book[i])
  }

  ghost predicate GroupsApart(book: Book) {
    forall i, j | 0 <= i < j < |book| :: LiveGroup(book[i]) && LiveGroup(book[j]) ==> book[i].note != book[j].note
  }

  ghost predicate GroupsOk(book: Book) { VouchersOk(book) && GroupsApart(book) }

  ghost predicate OneEntryEach(book: Book) { forall invoice :: Entries(book, invoice) <= 1 }

  /** At most one live voucher for each account and date, its total the sum of its lines, every line in its own
      group, and at most one entry for each invoice. */
  ghost predicate BookOk(book: Book) { GroupsOk(book) && OneEntryEach(book) }

  // ----- One more line -----

  /** A stored line that enters the posting's amount for its invoice in its group. */
  ghost predicate LineFor(line: Xml, p: Posting) {
    && line.name == "TRANSACTION" && UniqueNames(line.kids)
    && LineAmount(line) == p.amount && LineNote(line) == LineMarker(p.invoice) && InGroup(line, GroupOf(p))
  }

  ghost predicate FreshReference(lines: seq<Xml>, line: Xml) {
    LineReference(line).Some? && forall i | 0 <= i < |lines| :: LineReference(lines[i]) != LineReference(line)
  }

  function Extended(v: Voucher, p: Posting, line: Xml): Voucher {
    v.(note := GroupOf(p), total := LineSum(v) + p.amount, lines := v.lines + [line])
  }

  /** The book with the line in a new voucher. */
  function Opened(book: Book, p: Posting, line: Xml): Book {
    book + [Voucher(false, GroupOf(p), p.amount, Plain(FormatDate(p.date)), [line])]
  }

  /** The book with the line in the live voucher of its group, which is created if there is none. */
  function Grown(book: Book, p: Posting, line: Xml): Book {
    match FindGroup(book, GroupOf(p))
    case None => Opened(book, p, line)
    case Some(ref) => book[ref := Extended(book[ref], p, line)]
  }

  /** The line can be added: it is the posting's, and its reference is new to the voucher. */
  ghost predicate Fits(book: Book, p: Posting, line: Xml) {
    && LineFor(line, p) && LineReference(line).Some?
    && (FindGroup(book, GroupOf(p)).Some? ==>
          FreshReference(book[FindGroup(book, GroupOf(p)).value].lines, line))
  }

  lemma BusinessFieldsMakeTheLine(line: Xml, p: Posting)
    requires line.name == "TRANSACTION" && UniqueNames(line.kids) && Carries(line.kids, BusinessFields(p))
    ensures LineFor(line, p)
  {
    var fields := BusinessFields(p);
    assert ValueOf(line.kids, fields[1].name) == Some(fields[1].value);
    assert ValueOf(line.kids, fields[3].name) == Some(fields[3].value);
    assert ValueOf(line.kids, fields[8].name) == Some(fields[8].value);
    assert ValueOf(line.kids, fields[17].name) == Some(fields[17].value);
    AmountRoundTrip(p.amount);
  }

  /** The amount can be read back from the line, three times over. */
  lemma LineAmountsReadBack(line: Xml, p: Posting)
    requires Carries(line.kids, BusinessFields(p))
    ensures AmountOf(ValueOf(line.kids, "DEBIT")) == AmountOf(ValueOf(line.kids, "AMOUNT")) == p.amount
    ensures AmountOf(ValueOf(line.kids, "TC_AMOUNT")) == p.amount
  {
    var fields := BusinessFields(p);
    assert ValueOf(line.kids, fields[7].name) == Some(fields[7].value);
    assert ValueOf(line.kids, fields[8].name) == Some(fields[8].value);
    assert ValueOf(line.kids, fields[10].name) == Some(fields[10].value);
    AmountRoundTrip(p.amount);
  }

  lemma LineAmountsReadAlike(line: Xml, p: Posting)
    requires Carries(line.kids, BusinessFields(p))
    ensures ValueOf(line.kids, "DEBIT") == ValueOf(line.kids, "AMOUNT") == ValueOf(line.kids, "TC_AMOUNT")
         == Some(Plain(FormatAmount(p.amount)))
  {
    var fields := BusinessFields(p);
    assert ValueOf(line.kids, fields[7].name) == Some(fields[7].value);
    assert ValueOf(line.kids, fields[8].name) == Some(fields[8].value);
    assert ValueOf(line.kids, fields[10].name) == Some(fields[10].value);
  }

  /** A line's amount is read from its AMOUNT, in hundredths. */
  lemma LineAmountIs(line: Xml, n: nat)
    requires ValueOf(line.kids, "AMOUNT") == Some(Plain(FormatAmount(n)))
    ensures LineAmount(line) == n
  {
    AmountRoundTrip(n);
  }

  /** The codes that every line carries. */
  predicate Coded(kids: seq<Xml>) {
    && ValueOf(kids, "TYPE") == ValueOf(kids, "TC_XRATE") == ValueOf(kids, "AFFECT_RISK") == ValueOf(kids, "COSTTYPE")
       == Some(Plain("1"))
    && ValueOf(kids, "TRCODE") == ValueOf(kids, "BN_CRDTYPE") == Some(Plain("3"))
    && ValueOf(kids, "MODULENR") == Some(Plain("7")) && ValueOf(kids, "CURR_TRANS") == Some(Plain("37"))
    && ValueOf(kids, "BANK_PROC_TYPE") == Some(Plain("2")) && ValueOf(kids, "DIVISION") == Some(Plain("0"))
  }

  lemma LineCodesReadBack(line: Xml, p: Posting)
    requires Carries(line.kids, BusinessFields(p))
    ensures Coded(line.kids)
  {
    var fields := BusinessFields(p);
    assert ValueOf(line.kids, fields[0].name) == Some(fields[0].value);
    assert ValueOf(line.kids, fields[4].name) == Some(fields[4].value);
    assert ValueOf(line.kids, fields[5].name) == Some(fields[5].value);
    assert ValueOf(line.kids, fields[6].name) == Some(fields[6].value);
    assert ValueOf(line.kids, fields[9].name) == Some(fields[9].value);
    assert ValueOf(line.kids, fields[11].name) == Some(fields[11].value);
    assert ValueOf(line.kids, fields[13].name) == Some(fields[13].value);
    assert ValueOf(line.kids, fields[14].name) == Some(fields[14].value);
    assert ValueOf(line.kids, fields[15].name) == Some(fields[15].value);
    assert ValueOf(line.kids, fields[16].name) == Some(fields[16].value);
  }

  /** So can its account, client, dates and marker. */
  lemma LineTextsReadBack(line: Xml, p: Posting)
    requires Carries(line.kids, BusinessFields(p))
    ensures ValueOf(line.kids, "ARP_CODE") == Some(Plain(p.client))
    ensures ValueOf(line.kids, "BANKACC_CODE") == Some(Plain(p.account))
    ensures ValueOf(line.kids, "DATE") == ValueOf(line.kids, "DUE_DATE") == Some(Plain(FormatDate(p.date)))
    ensures ValueOf(line.kids, "DESCRIPTION") == Some(LineMarker(p.invoice))
  {
    var fields := BusinessFields(p);
    assert ValueOf(line.kids, fields[1].name) == Some(fields[1].value);
    assert ValueOf(line.kids, fields[2].name) == Some(fields[2].value);
    assert ValueOf(line.kids, fields[3].name) == Some(fields[3].value);
    assert ValueOf(line.kids, fields[12].name) == Some(fields[12].value);
    assert ValueOf(line.kids, fields[17].name) == Some(fields[17].value);
  }

  /** All that a posting's line says. */
  predicate ReadsAs(kids: seq<Xml>, p: Posting) {
    && ValueOf(kids, "BANKACC_CODE") == Some(Plain(p.account)) && ValueOf(kids, "ARP_CODE") == Some(Plain(p.client))
    && ValueOf(kids, "DATE") == ValueOf(kids, "DUE_DATE") == Some(Plain(FormatDate(p.date)))
    && ValueOf(kids, "AMOUNT") == ValueOf(kids, "DEBIT") == ValueOf(kids, "TC_AMOUNT")
       == Some(Plain(FormatAmount(p.amount)))
    && ValueOf(kids, "DESCRIPTION") == Some(LineMarker(p.invoice)) && Coded(kids)
  }

  lemma LineReads(line: Xml, p: Posting)
    requires Carries(line.kids, BusinessFields(p))
    ensures ReadsAs(line.kids, p)
  {
    LineTextsReadBack(line, p);
    LineAmountsReadAlike(line, p);
    LineCodesReadBack(line, p);
  }

  lemma LinesGrow(lines: seq<Xml>, line: Xml, p: Posting, invoice: string)
    requires LineFor(line, p)
    ensures SumOf(lines + [line], LineAmount) == SumOf(lines, LineAmount) + p.amount
    ensures SumOf(lines + [line], LineCounter(invoice))
         == SumOf(lines, LineCounter(invoice)) + if invoice == p.invoice then 1 else 0
  {
  }

  /** So does a line in a new voucher. */
  lemma OpenedCounts(book: Book, p: Posting, line: Xml, invoice: string)
    requires LineFor(line, p)
    ensures Entries(Opened(book, p, line), invoice)
         == Entries(book, invoice) + if invoice == p.invoice then 1 else 0
    ensures Money(Opened(book, p, line)) == Money(book) + p.amount
  {
    var v := Voucher(false, GroupOf(p), p.amount, Plain(FormatDate(p.date)), [line]);
    assert [] + [line] == [line];
    LinesGrow([], line, p, invoice);
    SumOfSnoc(book, v, EntryCounter(invoice));
    SumOfSnoc(book, v, GroupSum);
  }

  /** Adding a line enters its invoice once more, no other invoice, and adds exactly its amount. */
  lemma GrownCounts(book: Book, p: Posting, line: Xml, invoice: string)
    requires LineFor(line, p)
    ensures Entries(Grown(book, p, line), invoice)
         == Entries(book, invoice) + if invoice == p.invoice then 1 else 0
    ensures Money(Grown(book, p, line)) == Money(book) + p.amount
  {
    match FindGroup(book, GroupOf(p))
    case None =>
      OpenedCounts(book, p, line, invoice);
    case Some(ref) =>
      var v := Extended(book[ref], p, line);
      LinesGrow(book[ref].lines, line, p, invoice);
      SumOfUpdate(book, ref, v, EntryCounter(invoice));
      SumOfUpdate(book, ref, v, GroupSum);
  }

  lemma LinesStayOk(lines: seq<Xml>, line: Xml)
    requires LinesOk(lines) && FreshReference(lines, line)
    requires line.name == "TRANSACTION" && UniqueNames(line.kids)
    ensures LinesOk(lines + [line])
  {
  }

  lemma LinesStayInGroup(lines: seq<Xml>, line: Xml, group: Content)
    requires AllInGroup(lines, group) && InGroup(line, group)
    ensures AllInGroup(lines + [line], group)
  {
  }

  lemma ExtendedIsOk(v: Voucher, p: Posting, line: Xml)
    requires GroupOk(v) && v.note == GroupOf(p) && LineFor(line, p) && FreshReference(v.lines, line)
    ensures GroupOk(Extended(v, p, line))
  {
    LinesStayOk(v.lines, line);
    LinesStayInGroup(v.lines, line, v.note);
    LinesGrow(v.lines, line, p, "");
  }

  lemma NewGroupIsOk(p: Posting, line: Xml)
    requires LineFor(line, p) && LineReference(line).Some?
    ensures GroupOk(Voucher(false, GroupOf(p), p.amount, Plain(FormatDate(p.date)), [line]))
  {
    assert [] + [line] == [line];
    LinesStayOk([], line);
    LinesStayInGroup([], line, GroupOf(p));
    LinesGrow([], line, p, "");
  }

  /** The first vouchers of the second book are in the same groups as those of the first. */
  ghost predicate SameGroups(book: Book, after: Book) {
    && |book| <= |after|
    && forall i | 0 <= i < |book| :: LiveGroup(after[i]) == LiveGroup(book[i]) && after[i].note == book[i].note
  }

  lemma ApartBefore(book: Book, after: Book)
    requires SameGroups(book, after) && GroupsApart(after)
    ensures GroupsApart(book)
  {
    forall i, j | 0 <= i < j < |book| && LiveGroup(book[i]) && LiveGroup(book[j]) ensures book[i].note != book[j].note {
      assert LiveGroup(after[i]) && LiveGroup(after[j]);
    }
  }

  /** A new voucher for its line keeps every group's voucher in order; two live ones of a group appear exactly if there
      was one already. */
  lemma OpenedKeepsVouchers(book: Book, p: Posting, line: Xml)
    requires VouchersOk(book) && LineFor(line, p) && LineReference(line).Some?
    ensures VouchersOk(Opened(book, p, line))
    ensures GroupsApart(Opened(book, p, line)) <==> GroupsApart(book) && FindGroup(book, GroupOf(p)).None?
  {
    NewGroupIsOk(p, line);
    var after, ref := Opened(book, p, line), FindGroup(book, GroupOf(p));
    if ref.Some? { assert LiveGroup(after[ref.value]) && after[ref.value].note == after[|book|].note; }
    if GroupsApart(after) { ApartBefore(book, after); }
  }

  /** One more line in its group's voucher keeps every group's voucher in order, and the groups as they are. */
  lemma GrownKeepsVouchers(book: Book, p: Posting, line: Xml)
    requires VouchersOk(book) && Fits(book, p, line) && FindGroup(book, GroupOf(p)).Some?
    ensures VouchersOk(Grown(book, p, line))
    ensures GroupsApart(Grown(book, p, line)) <==> GroupsApart(book)
  {
    var after, ref := Grown(book, p, line), FindGroup(book, GroupOf(p)).value;
    ExtendedIsOk(book[ref], p, line);
    assert SameGroups(book, after) && SameGroups(after, book);
    if GroupsApart(after) { ApartBefore(book, after); }
    if GroupsApart(book) { ApartBefore(after, book); }
  }

  // ----- Other users of the ledger -----

  predicate Marked(v: Voucher) {
    || v.note.GroupMarker? || v.note.LineMarker?
    || exists i | 0 <= i < |v.lines| :: LineNote(v.lines[i]).LineMarker?
  }

  /** Others add, change and cancel vouchers, but not those with the worker's markers. */
  ghost predicate OthersWork(book: Book, after: Book) {
    && |book| <= |after|
    && forall i | 0 <= i < |after| ::
         if i < |book| && Marked(book[i]) then after[i] == book[i] else !Marked(after[i])
  }

  lemma {:induction false} UnmarkedLines(lines: seq<Xml>, invoice: string)
    requires forall i | 0 <= i < |lines| :: !LineNote(lines[i]).LineMarker?
    ensures SumOf(lines, LineCounter(invoice)) == 0
  {
    if lines != [] { UnmarkedLines(lines[..|lines| - 1], invoice); }
  }

  lemma UnmarkedIsNothing(v: Voucher, invoice: string)
    requires !Marked(v)
    ensures EntriesIn(v, invoice) == 0 == GroupSum(v)
  {
    UnmarkedLines(v.lines, invoice);
  }

  lemma {:induction false} SameWhereItCounts(book: Book, after: Book, f: Voucher -> nat)
    requires OthersWork(book, after) && forall v :: !Marked(v) ==> f(v) == 0
    ensures SumOf(after, f) == SumOf(book, f)
    decreases |after|
  {
    if after != [] {
      var n := |after| - 1;
      if |book| == |after| {
        SameWhereItCounts(book[..n], after[..n], f);
      } else {
        SameWhereItCounts(book, after[..n], f);
      }
    }
  }

  /** The worker's entries, money and invariant do not depend on what others do with their vouchers. */
  lemma OthersDoNotMatter(book: Book, after: Book, invoice: string)
    requires OthersWork(book, after)
    ensures Entries(after, invoice) == Entries(book, invoice) && Money(after) == Money(book)
  {
    forall v | !Marked(v) ensures EntryCounter(invoice)(v) == 0 == GroupSum(v) { UnmarkedIsNothing(v, invoice); }
    SameWhereItCounts(book, after, EntryCounter(invoice));
    SameWhereItCounts(book, after, GroupSum);
  }

  lemma OthersKeepVouchers(book: Book, after: Book)
    requires OthersWork(book, after)
    ensures VouchersOk(book) ==> VouchersOk(after)
    ensures GroupsApart(book) <==> GroupsApart(after)
  {
    forall i | 0 <= i < |after| && after[i].note.GroupMarker? ensures i < |book| && after[i] == book[i] {
      assert Marked(after[i]);
    }
    forall i | 0 <= i < |book| && book[i].note.GroupMarker? ensures after[i] == book[i] { assert Marked(book[i]); }
  }
}
