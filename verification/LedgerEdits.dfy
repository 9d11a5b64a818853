/** Saving the two documents the worker builds adds one line to the book and changes nothing else. */
module LedgerEdits {
  import opened Basics
  import opened Text
  import opened AmountText
  import opened VoucherXml
  import opened VoucherEdit
  import opened Ledger

  /** Tiger adds fields from its own list, each once. */
  ghost predicate AddsGenerated(g: Generated, names: seq<string>) {
    && UniqueNames(g.extras)
    && "INTERNAL_REFERENCE" in names
    && forall i | 0 <= i < |g.extras| :: g.extras[i].name in names && g.extras[i].name != "INTERNAL_REFERENCE"
  }

  ghost predicate NewReference(book: Book, reference: nat) {
    forall i, j | 0 <= i < |book| && 0 <= j < |book[i].lines| ::
      LineReference(book[i].lines[j]) != Some(Reference(reference))
  }

  lemma NoChildNoName(kids: seq<Xml>, name: string, i: nat)
    requires ChildOf(kids, name) == None && i < |kids|
    ensures kids[i].name != name
  {
  }

  /** A new line keeps all it said and gets a reference. */
  lemma EnrichedEffect(line: Xml, g: Generated, names: seq<string>, fields: seq<Field>)
    requires UniqueNames(line.kids) && AddsGenerated(g, names) && Carries(line.kids, fields)
    requires forall name | name in names :: ChildOf(line.kids, name) == None
    ensures var kids := Enriched(line, g).kids;
            UniqueNames(kids) && Carries(kids, fields) && ValueOf(kids, "INTERNAL_REFERENCE") == Some(Reference(g.reference))
  {
    var own := Leaf("INTERNAL_REFERENCE", Reference(g.reference));
    var kids, n := line.kids + [own] + g.extras, |line.kids|;
    forall i, j | 0 <= i < j < |kids| ensures kids[i].name != kids[j].name {
      if i < n && j >= n {
        NoChildNoName(line.kids, kids[j].name, i);
      }
    }
    forall i: nat | i < n ensures kids[i].name != "INTERNAL_REFERENCE" {
      NoChildNoName(line.kids, "INTERNAL_REFERENCE", i);
    }
    FindIs(kids, "INTERNAL_REFERENCE", n);
    forall i | 0 <= i < |fields| ensures ValueOf(kids, fields[i].name) == Some(fields[i].value) {
      FindIs(kids, fields[i].name, Find(line.kids, fields[i].name));
    }
  }

  lemma KnownLineStays(lines: seq<Xml>, k: nat, g: Generated)
    requires LinesOk(lines) && k < |lines|
    ensures SaveLine(lines, lines[k], g) == lines
  {
  }

  /** Saving the exported lines changes nothing, so saving them and one more adds that one. */
  lemma {:induction false} SaveOwnLines(lines: seq<Xml>, k: nat, line: Xml, g: Generated)
    requires LinesOk(lines) && k <= |lines| && LineReference(line) == None
    ensures SaveLines(lines, lines[k..] + [line], g) == lines + [Enriched(line, g)]
    decreases |lines| - k
  {
    var document := lines[k..] + [line];
    if k == |lines| {
      assert document == [line];
      assert SaveLines(lines + [Enriched(line, g)], [], g) == lines + [Enriched(line, g)];
    } else {
      KnownLineStays(lines, k, g);
      assert document[0] == lines[k] && document[1..] == lines[k + 1..] + [line];
      SaveOwnLines(lines, k + 1, line, g);
    }
  }

  /** The line that serves as a template: the first of the group's voucher. */
  function Template(book: Book, group: Content): Option<Xml> {
    match FindGroup(book, group)
    case None => None
    case Some(ref) => ChildOf(book[ref].lines, "TRANSACTION")
  }

  /** The stored form of the line added by the worker. */
  function NewLine(book: Book, p: Posting, g: Generated): Xml {
    match Template(book, GroupOf(p))
    case None => Enriched(BuildTransactionElement(p), g)
    case Some(template) => Enriched(AppendedLine(template, p), g)
  }

  lemma TemplateIsFirst(book: Book, group: Content)
    requires VouchersOk(book) && group.GroupMarker?
    ensures match FindGroup(book, group)
            case None => Template(book, group) == None
            case Some(ref) =>
              && GroupOk(book[ref]) && Template(book, group) == Some(book[ref].lines[0])
              && book[ref].lines[0].name == "TRANSACTION" && UniqueNames(book[ref].lines[0].kids)
  {
  }

  ghost predicate Bare(line: Xml, fields: seq<Field>, names: seq<string>) {
    && line.name == "TRANSACTION" && UniqueNames(line.kids) && Carries(line.kids, fields)
    && forall name | name in names :: ChildOf(line.kids, name) == None
  }

  lemma BuiltLineIsBare(p: Posting)
    ensures Bare(BuildTransactionElement(p), BusinessFields(p), GENERATED_NAMES)
  {
    BusinessNamesAreDistinct(p);
    GeneratedNamesAreNoBusiness(p);
    LeavesCarry(BusinessFields(p));
  }

  lemma CopiedLineIsBare(template: Xml, p: Posting)
    requires template.name == "TRANSACTION" && UniqueNames(template.kids)
    ensures Bare(AppendedLine(template, p), BusinessFields(p), GENERATED_NAMES)
  {
    AppendRefinesInsert(template, p);
  }

  lemma BareLine(book: Book, p: Posting, g: Generated) returns (bare: Xml)
    requires VouchersOk(book)
    ensures NewLine(book, p, g) == Enriched(bare, g) && Bare(bare, BusinessFields(p), GENERATED_NAMES)
  {
    TemplateIsFirst(book, GroupOf(p));
    match Template(book, GroupOf(p))
    case None =>
      BuiltLineIsBare(p);
      bare := BuildTransactionElement(p);
    case Some(template) =>
      CopiedLineIsBare(template, p);
      bare := AppendedLine(template, p);
  }

  /** The new line carries all 18 business fields, whatever line it was copied from, and fits into the book. */
  lemma NewLineIsRight(book: Book, p: Posting, g: Generated)
    requires VouchersOk(book) && AddsGenerated(g, GENERATED_NAMES) && NewReference(book, g.reference)
    ensures Fits(book, p, NewLine(book, p, g)) && Carries(NewLine(book, p, g).kids, BusinessFields(p))
  {
    var fields, names := BusinessFields(p), GENERATED_NAMES;
    var bare := BareLine(book, p, g);
    EnrichedEffect(bare, g, names, fields);
    BusinessFieldsMakeTheLine(NewLine(book, p, g), p);
  }

  /** So does the line of a new voucher. */
  lemma FirstLineIsRight(p: Posting, g: Generated)
    requires AddsGenerated(g, GENERATED_NAMES)
    ensures var line := Enriched(BuildTransactionElement(p), g);
            LineFor(line, p) && LineReference(line).Some? && Carries(line.kids, BusinessFields(p))
  {
    var fields, names := BusinessFields(p), GENERATED_NAMES;
    BuiltLineIsBare(p);
    EnrichedEffect(BuildTransactionElement(p), g, names, fields);
    BusinessFieldsMakeTheLine(Enriched(BuildTransactionElement(p), g), p);
  }

  lemma BuiltLineHasNoReference(p: Posting)
    ensures LineReference(BuildTransactionElement(p)) == None
  {
  }

  /** The insert document holds one line, and saving it opens a voucher with that line. */
  lemma InsertSaves(book: Book, p: Posting, g: Generated)
    ensures LinesOf(InsertDocument(p)) == Some([BuildTransactionElement(p)])
    ensures Saved(book, InsertDocument(p), g) == Opened(book, p, Enriched(BuildTransactionElement(p), g))
  {
    var line := BuildTransactionElement(p);
    var voucher := InsertDocument(p).kids[0];
    FindIs(InsertDocument(p).kids, "BANK_VOUCHER", 0);
    FindIs(voucher.kids, "DATE", 0);
    FindIs(voucher.kids, "TOTAL_DEBIT", 2);
    FindIs(voucher.kids, "NOTES1", 3);
    FindIs(voucher.kids, "TRANSACTIONS", 7);
    AmountRoundTrip(p.amount);
    BuiltLineHasNoReference(p);
    assert SaveLines([], [line], g) == [] + [Enriched(line, g)] == [Enriched(line, g)] by {
      SaveOwnLines([], 0, line, g);
      assert [][0..] + [line] == [line];
    }
  }

  /** What the insert document says besides its line. */
  lemma InsertDocumentReads(p: Posting)
    ensures var voucher := ChildOf(InsertDocument(p).kids, "BANK_VOUCHER");
            && voucher.Some? && voucher.value.attributes == map["DBOP" := "INS"]
            && var kids := voucher.value.kids;
               && ValueOf(kids, "DATE") == Some(Plain(FormatDate(p.date))) && ValueOf(kids, "TYPE") == Some(Plain("3"))
               && ValueOf(kids, "TOTAL_DEBIT") == Some(Plain(FormatAmount(p.amount)))
               && ValueOf(kids, "NOTES1") == Some(GroupMarker(p.date, Upper(p.account)))
               && ValueOf(kids, "CURRSEL_TOTALS") == Some(Plain("1"))
               && ValueOf(kids, "DIVISION") == ValueOf(kids, "DEPARMENT") == Some(Plain("0"))
  {
    var kids := InsertDocument(p).kids[0].kids;
    FindIs(InsertDocument(p).kids, "BANK_VOUCHER", 0);
    FindIs(kids, "DATE", 0);
    FindIs(kids, "TYPE", 1);
    FindIs(kids, "TOTAL_DEBIT", 2);
    FindIs(kids, "NOTES1", 3);
    FindIs(kids, "CURRSEL_TOTALS", 4);
    FindIs(kids, "DIVISION", 5);
    FindIs(kids, "DEPARMENT", 6);
  }

  /** What the edited export says besides its lines. */
  lemma EditedHeaderReads(root: Xml, ref: nat, total: nat, group: Content, p: Posting)
    requires Prepared(root, HeaderFields(ref, total, group), p).Some?
    ensures var voucher := ChildOf(Prepared(root, HeaderFields(ref, total, group), p).value.kids, "BANK_VOUCHER");
            && voucher.Some? && "DBOP" in voucher.value.attributes && voucher.value.attributes["DBOP"] == "UPD"
            && var kids := voucher.value.kids;
               && ValueOf(kids, "DATA_REFERENCE") == Some(Reference(ref)) && ValueOf(kids, "TYPE") == Some(Plain("3"))
               && ValueOf(kids, "TOTAL_DEBIT") == Some(Plain(FormatAmount(total))) && ValueOf(kids, "NOTES1") == Some(group)
  {
    var header := HeaderFields(ref, total, group);
    HeaderIsDistinct(ref, total, group);
    PreparedEffect(root, header, p);
    var kids := ChildOf(Prepared(root, header, p).value.kids, "BANK_VOUCHER").value.kids;
    assert ValueOf(kids, header[0].name) == Some(header[0].value);
    assert ValueOf(kids, header[1].name) == Some(header[1].value);
    assert ValueOf(kids, header[2].name) == Some(header[2].value);
    assert ValueOf(kids, header[3].name) == Some(header[3].value);
  }

  lemma CopyHasNoReference(template: Xml, p: Posting)
    requires template.name == "TRANSACTION" && UniqueNames(template.kids)
    ensures LineReference(AppendedLine(template, p)) == None
  {
    CopiedLineIsBare(template, p);
    assert GENERATED_NAMES[0] in GENERATED_NAMES;
  }

  lemma ExportReads(v: Voucher, ref: nat)
    ensures var voucher := ChildOf(Export(v, ref).kids, "BANK_VOUCHER");
            && voucher.Some? && ChildOf(voucher.value.kids, "TRANSACTIONS") == Some(Parent("TRANSACTIONS", v.lines))
            && ValueOf(voucher.value.kids, "DATE") == Some(v.date)
    ensures LinesOf(Export(v, ref)) == Some(v.lines)
  {
    var voucher := Export(v, ref).kids[0];
    FindIs(Export(v, ref).kids, "BANK_VOUCHER", 0);
    FindIs(voucher.kids, "DATE", 1);
    FindIs(voucher.kids, "TRANSACTIONS", 5);
  }

  lemma HeaderIsDistinct(ref: nat, total: nat, group: Content)
    ensures var header := HeaderFields(ref, total, group);
            Distinct(header) && !Names(header, "TRANSACTIONS") && !Names(header, "DATE")
  {
  }

  lemma CarriedHeader(kids: seq<Xml>, ref: nat, total: nat, group: Content)
    requires Carries(kids, HeaderFields(ref, total, group))
    ensures ValueOf(kids, "DATA_REFERENCE") == Some(Reference(ref))
    ensures AmountOf(ValueOf(kids, "TOTAL_DEBIT")) == total
    ensures ValueOf(kids, "NOTES1") == Some(group)
  {
    var header := HeaderFields(ref, total, group);
    assert ValueOf(kids, header[0].name) == Some(header[0].value);
    assert ValueOf(kids, header[2].name) == Some(header[2].value);
    assert ValueOf(kids, header[3].name) == Some(header[3].value);
    AmountRoundTrip(total);
  }

  /** The document: an update of that voucher with its own lines and one new one. */
  ghost predicate Appends(document: Xml, v: Voucher, ref: nat, total: nat, group: Content, line: Xml) {
    && ChildOf(document.kids, "BANK_VOUCHER").Some?
    && LinesOf(document) == Some(v.lines + [line])
    && var now := ChildOf(document.kids, "BANK_VOUCHER").value;
       && "DBOP" in now.attributes && now.attributes["DBOP"] == "UPD"
       && Carries(now.kids, HeaderFields(ref, total, group))
       && ValueOf(now.kids, "DATE") == Some(v.date)
  }

  lemma PreparedAppends(v: Voucher, ref: nat, total: nat, p: Posting, document: Option<Xml>)
    requires GroupOk(v) && document == Prepared(Export(v, ref), HeaderFields(ref, total, GroupOf(p)), p)
    ensures document.Some?
    ensures Appends(document.value, v, ref, total, GroupOf(p), AppendedLine(v.lines[0], p))
  {
    var root, header := Export(v, ref), HeaderFields(ref, total, GroupOf(p));
    ExportReads(v, ref);
    HeaderIsDistinct(ref, total, GroupOf(p));
    PreparedEffect(root, header, p);
    FindIs(v.lines, "TRANSACTION", 0);
    var now := ChildOf(document.value.kids, "BANK_VOUCHER").value;
    SameChildSameValue(now.kids, ChildOf(root.kids, "BANK_VOUCHER").value.kids, "DATE");
  }

  lemma AppendingSaves(book: Book, document: Xml, ref: nat, p: Posting, line: Xml, g: Generated, total: nat)
    requires ref < |book| && LinesOk(book[ref].lines) && LineReference(line) == None && !book[ref].cancelled
    requires total == LineSum(book[ref]) + p.amount
    requires Appends(document, book[ref], ref, total, GroupOf(p), line)
    ensures Saved(book, document, g) == book[ref := Extended(book[ref], p, Enriched(line, g))]
  {
    var v := book[ref];
    var now := ChildOf(document.kids, "BANK_VOUCHER").value;
    CarriedHeader(now.kids, ref, total, GroupOf(p));
    assert v.lines[0..] == v.lines;
    SaveOwnLines(v.lines, 0, line, g);
    assert SavedVoucher(now, false, v.lines, g) == Extended(v, p, Enriched(line, g));
  }

  /** The edited export holds one line more, and saving it adds that line to the voucher. */
  lemma AppendSaves(book: Book, ref: nat, p: Posting, g: Generated, total: nat, document: Option<Xml>)
    requires VouchersOk(book) && FindGroup(book, GroupOf(p)) == Some(ref) && total == LineSum(book[ref]) + p.amount
    requires document == Prepared(Export(book[ref], ref), HeaderFields(ref, total, GroupOf(p)), p)
    ensures document.Some? && LinesOf(document.value).Some?
    ensures |LinesOf(document.value).value| == |book[ref].lines| + 1
    ensures Saved(book, document.value, g) == Grown(book, p, NewLine(book, p, g))
  {
    TemplateIsFirst(book, GroupOf(p));
    PreparedAppends(book[ref], ref, total, p, document);
    CopyHasNoReference(book[ref].lines[0], p);
    AppendingSaves(book, document.value, ref, p, AppendedLine(book[ref].lines[0], p), g, total);
  }
}
