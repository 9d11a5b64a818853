/** LogoObjectsClient.ProcessInvoicePaid: one delivered event against the ledger, with failures at every call. */
module TigerWorker {
  import opened Basics
  import opened Text
  import opened TigerCodes
  import opened AmountText
  import opened VoucherXml
  import opened VoucherEdit
  import opened Ledger
  import opened LedgerEdits
  import opened PaymentEvents

  /** The calls into Tiger that may throw, and two that may answer no. */
  datatype Call =
    | CreateApplication | Login | WriteGuard | FindLine | FindVoucher | Import | ImportRefused | ReadReference | Verify
    | FindLineAgain | ReadBefore | ExportVoucher | FindLineLast | ReadLatest | ReadAfter | Probe

  datatype PostOutcome = Saves | Refused | LostBefore | LostAfter

  /** What goes wrong during one call of ProcessInvoicePaid: calls that fail, queries whose OpenDirect answers false,
      and the outcome of Post. */
  datatype Weather = Weather(faults: set<Call>, closed: set<Call>, post: PostOutcome)

  const CALM := Weather({}, {}, Saves)

  /** An exception or a value. */
  datatype Attempt<+T> = Threw(message: string) | Got(value: T)

  datatype InvoiceResult = InvoiceResult(
    success: bool,
    invoiceId: string,
    dryRun: bool,
    alreadyExists: bool,
    reference: Option<nat>,
    lineCount: Option<nat>,
    error: Option<string>)

  datatype Summary = Summary(group: Content, lineCount: nat, lineSum: nat)

  datatype Verification = Verification(found: bool, lineCount: nat)

  function PostingOf(e: Event, date: Date): Posting
    requires WorkerComplaint(e).None?
  {
    Posting(CleanTigerCode(e.bankAccount.value), CleanTigerCode(e.clientCode.value), e.amountTyiyn.value, date,
            Trim(DotNetSpace, e.invoiceId))
  }

  function InvoiceOf(e: Event): string { Trim(DotNetSpace, e.invoiceId) }

  /** The last line of a voucher with the invoice's marker. */
  function MarkedLine(lines: seq<Xml>, invoice: string): (i: Option<nat>)
    ensures i.Some? ==> i.value < |lines| && LineNote(lines[i.value]) == LineMarker(invoice)
    ensures i.Some? ==> forall j | i.value < j < |lines| :: LineNote(lines[j]) != LineMarker(invoice)
    ensures i.None? ==> forall j | 0 <= j < |lines| :: LineNote(lines[j]) != LineMarker(invoice)
  {
    if lines == [] then None
    else if LineNote(lines[|lines| - 1]) == LineMarker(invoice) then Some(|lines| - 1)
    else MarkedLine(lines[..|lines| - 1], invoice)
  }

  /** FindExistingInvoiceLine: a query that cannot be opened finds nothing. */
  function FindExistingInvoiceLine(book: Book, invoice: string, c: Call, w: Weather): (found: Attempt<Option<nat>>)
    ensures found == Got(None) <==> c !in w.faults && (c in w.closed || Entries(book, invoice) == 0)
    ensures found.Got? && found.value.Some? ==>
              found.value.value < |book| && EntriesIn(book[found.value.value], invoice) > 0
  {
    if c in w.faults then Threw("query")
    else if c in w.closed then Got(None)
    else Got(FindInvoice(book, invoice))
  }

  // ----- What a call does to the ledger -----

  /** The look finds no entry, because there is none or because the query could not be opened. */
  predicate Overlooks(book: Book, p: Posting, c: Call, w: Weather) {
    c !in w.faults && (c in w.closed || Entries(book, p.invoice) == 0)
  }

  predicate Readable(c: Call, w: Weather) { c !in w.faults && c !in w.closed }

  predicate Imports(w: Weather) {
    Import !in w.faults && ImportRefused !in w.faults && (w.post.Saves? || w.post.LostAfter?)
  }

  predicate FindsGroup(book: Book, p: Posting, w: Weather) {
    FindGroup(book, GroupOf(p)).Some? && FindVoucher !in w.closed
  }

  /** Between finding the group's voucher and Post nothing fails and the invoice is not found. */
  predicate ReachesAppend(book: Book, p: Posting, w: Weather) {
    Overlooks(book, p, FindLineAgain, w) && Readable(ReadBefore, w) && ReachesPost(book, p, w)
  }

  predicate ReachesPost(book: Book, p: Posting, w: Weather) {
    ExportVoucher !in w.faults && Overlooks(book, p, FindLineLast, w) && Imports(w) && Readable(ReadLatest, w)
  }

  /** The call saves a line: every look for the invoice found nothing and every call up to Post went through. */
  predicate Posts(book: Book, p: Posting, w: Weather) {
    && CreateApplication !in w.faults && Login !in w.faults && WriteGuard !in w.faults
    && Overlooks(book, p, FindLine, w) && FindVoucher !in w.faults
    && if FindsGroup(book, p, w) then ReachesAppend(book, p, w) else Imports(w)
  }

  /** What a call has to get through to save a line: the connection, the write guard, the looks for invoice and voucher,
      the import, Post; and if it appends, two more looks, the export and two readings of the voucher. Every look must
      have found nothing, or have been answered false. */
  lemma PostsIff(book: Book, p: Posting, w: Weather)
    ensures Posts(book, p, w) <==>
            && {CreateApplication, Login, WriteGuard, FindLine, FindVoucher, Import, ImportRefused} !! w.faults
            && (w.post == Saves || w.post == LostAfter)
            && (FindLine in w.closed || Entries(book, p.invoice) == 0)
            && (FindGroup(book, GroupOf(p)).Some? && FindVoucher !in w.closed ==>
                  && {FindLineAgain, ReadBefore, ExportVoucher, FindLineLast, ReadLatest} !! w.faults
                  && {ReadBefore, ReadLatest} !! w.closed
                  && ({FindLineAgain, FindLineLast} <= w.closed || Entries(book, p.invoice) == 0))
  {
  }

  /** One more line for the posting, carrying all its fields, in its group's voucher. */
  ghost predicate Adds(book: Book, p: Posting, after: Book) {
    exists line :: Fits(book, p, line) && Carries(line.kids, BusinessFields(p)) && after == Grown(book, p, line)
  }

  /** The same in a new voucher. */
  ghost predicate Opens(book: Book, p: Posting, after: Book) {
    exists line :: LineFor(line, p) && LineReference(line).Some? && Carries(line.kids, BusinessFields(p))
                   && after == Opened(book, p, line)
  }

  /** Exactly what a call does to the ledger. */
  ghost predicate Effect(book: Book, p: Posting, w: Weather, after: Book) {
    if !Posts(book, p, w) then after == book
    else if FindsGroup(book, p, w) then Adds(book, p, after)
    else Opens(book, p, after)
  }

  /** A call that saves a line enters its invoice once more and adds its amount, and any other call changes nothing. */
  lemma EffectCounts(book: Book, p: Posting, w: Weather, after: Book, invoice: string)
    requires Effect(book, p, w, after)
    ensures Entries(after, invoice)
         == Entries(book, invoice) + if Posts(book, p, w) && invoice == p.invoice then 1 else 0
    ensures Money(after) == Money(book) + if Posts(book, p, w) then p.amount else 0
  {
    if Posts(book, p, w) && FindsGroup(book, p, w) {
      var line :| Fits(book, p, line) && Carries(line.kids, BusinessFields(p)) && after == Grown(book, p, line);
      GrownCounts(book, p, line, invoice);
    } else if Posts(book, p, w) {
      var line :| LineFor(line, p) && LineReference(line).Some? && after == Opened(book, p, line);
      OpenedCounts(book, p, line, invoice);
    }
  }

  /** Every group's voucher stays in order, whatever goes wrong. */
  lemma EffectKeepsVouchers(book: Book, p: Posting, w: Weather, after: Book)
    requires VouchersOk(book) && Effect(book, p, w, after)
    ensures VouchersOk(after)
    ensures GroupsApart(after) <==> GroupsApart(book) && !OpensAgain(book, p, w)
  {
    if Posts(book, p, w) && FindsGroup(book, p, w) {
      var line :| Fits(book, p, line) && Carries(line.kids, BusinessFields(p)) && after == Grown(book, p, line);
      GrownKeepsVouchers(book, p, line);
    } else if Posts(book, p, w) {
      var line :| LineFor(line, p) && LineReference(line).Some? && after == Opened(book, p, line);
      OpenedKeepsVouchers(book, p, line);
    }
  }

  /** A line is saved for an invoice that already has an entry. */
  predicate EntersAgain(book: Book, p: Posting, w: Weather) { Posts(book, p, w) && Entries(book, p.invoice) > 0 }

  /** A voucher is opened for a group that already has a live one. */
  predicate OpensAgain(book: Book, p: Posting, w: Weather) {
    Posts(book, p, w) && FindGroup(book, GroupOf(p)).Some? && !FindsGroup(book, p, w)
  }

  /** Both take queries that answer false: a second entry in the group's voucher takes three. */
  lemma AgainNeedsFalseAnswers(book: Book, p: Posting, w: Weather)
    ensures OpensAgain(book, p, w) ==> FindVoucher in w.closed
    ensures EntersAgain(book, p, w) ==> FindLine in w.closed
    ensures EntersAgain(book, p, w) && FindsGroup(book, p, w) ==> {FindLine, FindLineAgain, FindLineLast} <= w.closed
  {
  }

  lemma EntriesStayOneIff(book: Book, p: Posting, w: Weather, after: Book)
    requires Effect(book, p, w, after)
    ensures OneEntryEach(after) <==> OneEntryEach(book) && !EntersAgain(book, p, w)
  {
    if OneEntryEach(book) && !EntersAgain(book, p, w) {
      forall invoice ensures Entries(after, invoice) <= 1 { EffectCounts(book, p, w, after, invoice); }
    } else {
      var invoice := if EntersAgain(book, p, w) then p.invoice else SecondEntry(book);
      EffectCounts(book, p, w, after, invoice);
      assert Entries(after, invoice) > 1;
    }
  }

  ghost function SecondEntry(book: Book): (invoice: string)
    requires !OneEntryEach(book)
    ensures Entries(book, invoice) > 1
  {
    var invoice :| Entries(book, invoice) > 1; invoice
  }

  /** The ledger keeps one entry per invoice and one live voucher per group exactly if the call does neither. */
  lemma LedgerStaysInOrderIff(book: Book, p: Posting, w: Weather, after: Book)
    requires VouchersOk(book) && Effect(book, p, w, after)
    ensures VouchersOk(after)
    ensures OneEntryEach(after) <==> OneEntryEach(book) && !EntersAgain(book, p, w)
    ensures GroupsApart(after) <==> GroupsApart(book) && !OpensAgain(book, p, w)
  {
    EffectKeepsVouchers(book, p, w, after);
    EntriesStayOneIff(book, p, w, after);
  }

  const NEW_VOUCHER := {FindLine, FindVoucher}
  const SAME_VOUCHER := {FindLine, FindLineAgain, FindLineLast}

  lemma PostsWhen(book: Book, p: Posting, w: Weather)
    requires w.faults == {} && w.post == Saves
    requires w.closed == NEW_VOUCHER || w.closed == SAME_VOUCHER || (w.closed == {} && Entries(book, p.invoice) == 0)
    ensures Posts(book, p, w)
  {
  }

  lemma FirstPosting(p: Posting, first: Book)
    requires Effect([], p, CALM, first)
    ensures Entries(first, p.invoice) == 1 && FindGroup(first, GroupOf(p)).Some? && VouchersOk(first) && GroupsApart(first)
  {
    PostsWhen([], p, CALM);
    EffectCounts([], p, CALM, first, p.invoice);
    EffectKeepsVouchers([], p, CALM, first);
    assert first[0].note == GroupOf(p) && !first[0].cancelled;
  }

  ghost predicate OnlyClosed(w: Weather) {
    w.faults == {} && w.post == Saves && (w.closed == NEW_VOUCHER || w.closed == SAME_VOUCHER)
  }

  lemma SecondPosting(p: Posting, first: Book, w: Weather, second: Book)
    requires Entries(first, p.invoice) == 1 && FindGroup(first, GroupOf(p)).Some?
    requires VouchersOk(first) && GroupsApart(first) && Effect(first, p, w, second) && OnlyClosed(w)
    ensures Entries(second, p.invoice) == 2 && (GroupsApart(second) <==> FindVoucher !in w.closed)
  {
    PostsWhen(first, p, w);
    EffectCounts(first, p, w, second, p.invoice);
    EffectKeepsVouchers(first, p, w, second);
  }

  /** It does happen: the same posting twice, the second time with false answers, makes two entries, in two vouchers or
      in one. */
  lemma FalseAnswersEnterTwice(p: Posting, first: Book, w: Weather, second: Book)
    requires Effect([], p, CALM, first) && OnlyClosed(w) && Effect(first, p, w, second)
    ensures Entries(second, p.invoice) == 2
    ensures GroupsApart(first) && (GroupsApart(second) <==> FindVoucher !in w.closed)
  {
    FirstPosting(p, first);
    SecondPosting(p, first, w, second);
  }

  /** A result that claims success names a live voucher with the invoice's entry. */
  ghost predicate Truthful(book: Book, invoice: string, r: InvoiceResult) {
    r.success && !r.dryRun ==>
      r.reference.Some? && r.reference.value < |book| && EntriesIn(book[r.reference.value], invoice) > 0
  }

  /** Everything a caller can know about one call: what it did to the ledger and what its result is worth. */
  ghost predicate Handled(book: Book, e: Event, date: Date, w: Weather, after: Book, r: InvoiceResult) {
    && (if WorkerComplaint(e).Some? then after == book && !r.success
        else if r.dryRun then after == book
        else Effect(book, PostingOf(e, date), w, after))
    && Truthful(after, InvoiceOf(e), r)
  }

  /** Without failures a call saves a line exactly if the invoice has no entry. */
  lemma CalmCallSaves(book: Book, p: Posting, after: Book)
    requires Effect(book, p, CALM, after)
    ensures after != book <==> Entries(book, p.invoice) == 0
  {
    EffectCounts(book, p, CALM, after, p.invoice);
  }

  // ----- What a saved line says -----

  /** The voucher has that line more, at its end, and nothing else in the ledger has changed. */
  ghost predicate OneLineMore(book: Book, after: Book, ref: nat, line: Xml) {
    && ref <= |book| && ref < |after| && !after[ref].cancelled
    && after == (if ref == |book| then book + [after[ref]] else book[ref := after[ref]])
    && after[ref].lines == (if ref == |book| then [] else book[ref].lines) + [line]
  }

  /** The line books the event's amount on its bank account for its client, on that date and under its invoice. */
  predicate Books(line: Xml, e: Event, date: Date) {
    && e.bankAccount.Some? && e.clientCode.Some? && e.amountTyiyn.Some? && e.amountTyiyn.value >= 0
    && ValueOf(line.kids, "BANKACC_CODE") == Some(Plain(CleanTigerCode(e.bankAccount.value)))
    && ValueOf(line.kids, "ARP_CODE") == Some(Plain(CleanTigerCode(e.clientCode.value)))
    && ValueOf(line.kids, "DATE") == ValueOf(line.kids, "DUE_DATE") == Some(Plain(FormatDate(date)))
    && ValueOf(line.kids, "AMOUNT") == ValueOf(line.kids, "DEBIT") == ValueOf(line.kids, "TC_AMOUNT")
       == Some(Plain(FormatAmount(e.amountTyiyn.value)))
    && ValueOf(line.kids, "DESCRIPTION") == Some(LineMarker(Trim(DotNetSpace, e.invoiceId)))
    && Coded(line.kids)
  }

  /** The voucher of the event's account and date, and the amount in its total. */
  predicate GroupsUnder(was: nat, v: Voucher, e: Event, date: Date) {
    && e.bankAccount.Some? && e.amountTyiyn.Some?
    && v.note == GroupMarker(date, Upper(CleanTigerCode(e.bankAccount.value)))
    && v.total == was + e.amountTyiyn.value
  }

  /** The ledger has one line more, and that books the event. */
  ghost predicate Booked(book: Book, after: Book, e: Event, date: Date) {
    exists ref: nat, line ::
      && OneLineMore(book, after, ref, line) && Books(line, e, date)
      && GroupsUnder(if ref == |book| then 0 else LineSum(book[ref]), after[ref], e, date)
  }

  lemma LineBooks(line: Xml, e: Event, date: Date)
    requires WorkerComplaint(e).None? && ReadsAs(line.kids, PostingOf(e, date))
    ensures Books(line, e, date)
  {
    PostingIs(e, date);
    ReadsAsTheEvent(line, e, date, PostingOf(e, date));
  }

  /** The posting has the event's account, client, amount and invoice. */
  predicate IsPostingOf(p: Posting, e: Event, date: Date) {
    && e.bankAccount.Some? && e.clientCode.Some? && e.amountTyiyn.Some?
    && p.account == CleanTigerCode(e.bankAccount.value) && p.client == CleanTigerCode(e.clientCode.value)
    && p.amount == e.amountTyiyn.value && p.date == date && p.invoice == Trim(DotNetSpace, e.invoiceId)
  }

  lemma PostingIs(e: Event, date: Date)
    requires WorkerComplaint(e).None?
    ensures IsPostingOf(PostingOf(e, date), e, date)
  {
  }

  lemma ReadsAsTheEvent(line: Xml, e: Event, date: Date, p: Posting)
    requires ReadsAs(line.kids, p) && IsPostingOf(p, e, date)
    ensures Books(line, e, date)
  {
  }

  lemma GrownBooks(book: Book, e: Event, date: Date, line: Xml)
    requires WorkerComplaint(e).None? && FindGroup(book, GroupOf(PostingOf(e, date))).Some?
    requires Carries(line.kids, BusinessFields(PostingOf(e, date)))
    ensures Booked(book, Grown(book, PostingOf(e, date), line), e, date)
  {
    var p := PostingOf(e, date);
    var ref := FindGroup(book, GroupOf(p)).value;
    LineReads(line, p);
    LineBooks(line, e, date);
    assert OneLineMore(book, Grown(book, p, line), ref, line);
  }

  lemma OpenedBooks(book: Book, e: Event, date: Date, line: Xml)
    requires WorkerComplaint(e).None? && Carries(line.kids, BusinessFields(PostingOf(e, date)))
    ensures Booked(book, Opened(book, PostingOf(e, date), line), e, date)
  {
    LineReads(line, PostingOf(e, date));
    LineBooks(line, e, date);
    assert OneLineMore(book, Opened(book, PostingOf(e, date), line), |book|, line);
  }

  /** A call that saves a line books the event: its amount, its account and client, the date and the invoice. */
  lemma SavedLineBooksTheEvent(book: Book, e: Event, date: Date, w: Weather, after: Book)
    requires WorkerComplaint(e).None? && Effect(book, PostingOf(e, date), w, after) && after != book
    ensures Booked(book, after, e, date)
    ensures Money(after) == Money(book) + e.amountTyiyn.value
  {
    var p := PostingOf(e, date);
    EffectCounts(book, p, w, after, p.invoice);
    if FindsGroup(book, p, w) {
      var line :| Fits(book, p, line) && Carries(line.kids, BusinessFields(p)) && after == Grown(book, p, line);
      GrownBooks(book, e, date, line);
    } else {
      var line :| LineFor(line, p) && LineReference(line).Some? && Carries(line.kids, BusinessFields(p))
                  && after == Opened(book, p, line);
      OpenedBooks(book, e, date, line);
    }
  }

  /** What a result says besides success: an error exactly if it failed, and where it found or saved the line, how many
      lines the voucher then had. */
  predicate Tells(book: Book, invoiceId: string, r: InvoiceResult) {
    && r.invoiceId == invoiceId
    && (r.success <==> r.error.None?)
    && (!r.success ==> r.reference.None? && r.lineCount.None? && !r.alreadyExists)
    && (r.success && r.dryRun ==> r.reference.None? && r.lineCount == Some(1) && !r.alreadyExists)
    && (r.success && !r.dryRun ==> if r.alreadyExists then r.lineCount.None? else r.lineCount.Some?)
    && (r.lineCount.Some? && !r.dryRun ==>
          r.reference.Some? && r.reference.value < |book| && r.lineCount.value == |book[r.reference.value].lines|)
  }

  lemma TruthfulMeansEntered(book: Book, invoice: string, r: InvoiceResult)
    requires Truthful(book, invoice, r) && r.success && !r.dryRun
    ensures Entries(book, invoice) > 0
  {
    SumOfMember(book, r.reference.value, EntryCounter(invoice));
  }

  lemma LinePosition(v: Voucher, i: nat, invoice: string)
    requires i < |v.lines| && !v.cancelled && LineNote(v.lines[i]) == LineMarker(invoice)
    ensures EntriesIn(v, invoice) > 0
  {
    SumOfMember(v.lines, i, LineCounter(invoice));
  }

  /** The live voucher has a line with the invoice's marker, and the last such line has that amount. */
  predicate Shows(v: Voucher, invoice: string, amount: nat) {
    && !v.cancelled && MarkedLine(v.lines, invoice).Some?
    && LineAmount(v.lines[MarkedLine(v.lines, invoice).value]) == amount
  }

  /** Where an appended line is: in the group's voucher, with its amount under the marker, and count and sum have grown
      by it. */
  lemma PostedLineIsFound(book: Book, p: Posting, line: Xml)
    requires Fits(book, p, line) && FindGroup(book, GroupOf(p)).Some?
    ensures var after, ref := Grown(book, p, line), FindGroup(book, GroupOf(p)).value;
            && ref < |after| && Shows(after[ref], p.invoice, p.amount)
            && |after[ref].lines| == |book[ref].lines| + 1
            && LineSum(after[ref]) == LineSum(book[ref]) + p.amount
  {
  }

  /** Saving a document that adds the posting's line. */
  lemma SavingAdds(book: Book, ref: nat, p: Posting, document: Xml, g: Generated)
    requires VouchersOk(book) && AddsGenerated(g, GENERATED_NAMES) && NewReference(book, g.reference)
    requires FindGroup(book, GroupOf(p)) == Some(ref)
    requires Saved(book, document, g) == Grown(book, p, NewLine(book, p, g))
    ensures var after := Saved(book, document, g);
            && Adds(book, p, after)
            && ref < |after| && Shows(after[ref], p.invoice, p.amount)
            && |after[ref].lines| == |book[ref].lines| + 1
            && LineSum(after[ref]) == LineSum(book[ref]) + p.amount
  {
    NewLineIsRight(book, p, g);
    PostedLineIsFound(book, p, NewLine(book, p, g));
  }

  /** And a line in a new voucher. */
  lemma OpenedLineIsFound(book: Book, p: Posting, line: Xml)
    requires LineFor(line, p)
    ensures Shows(Opened(book, p, line)[|book|], p.invoice, p.amount)
  {
  }

  lemma InsertDocumentHoldsOneLine(p: Posting)
    ensures LinesOf(InsertDocument(p)) == Some([BuildTransactionElement(p)])
  {
    FindIs(InsertDocument(p).kids, "BANK_VOUCHER", 0);
    FindIs(InsertDocument(p).kids[0].kids, "TRANSACTIONS", 7);
  }

  class LogoObjectsClient {
    const dryRun: bool
    /** How Tiger numbers and completes a new line. */
    const numbering: Book -> Generated
    var book: Book

    ghost predicate Valid()
      reads this
    {
      VouchersOk(book) && Numbers()
    }

    ghost predicate Numbers() {
      forall b :: AddsGenerated(numbering(b), GENERATED_NAMES) && NewReference(b, numbering(b).reference)
    }

    constructor (dryRun: bool, numbering: Book -> Generated, book: Book)
      requires VouchersOk(book)
      requires forall b :: AddsGenerated(numbering(b), GENERATED_NAMES) && NewReference(b, numbering(b).reference)
      ensures Valid() && this.dryRun == dryRun && this.numbering == numbering && this.book == book
    {
      this.dryRun := dryRun;
      this.numbering := numbering;
      this.book := book;
    }

    function Succeeded(invoiceId: string, dry: bool, alreadyExists: bool, reference: Option<nat>, lines: Option<nat>)
      : InvoiceResult
    {
      InvoiceResult(true, invoiceId, dry, alreadyExists, reference, lines, None)
    }

    function Failed(invoiceId: string, error: string): InvoiceResult {
      InvoiceResult(false, invoiceId, dryRun, false, None, None, Some(error))
    }

    /** Post saves the document, refuses it, or is interrupted before or after saving. */
    method Post(document: Xml, outcome: PostOutcome) returns (ok: Attempt<bool>)
      modifies this`book
      ensures book == if outcome.Saves? || outcome.LostAfter?
                      then Saved(old(book), document, numbering(old(book))) else old(book)
      ensures ok == if outcome.Saves? then Got(true) else if outcome.Refused? then Got(false) else Threw("Post")
    {
      if outcome.Saves? || outcome.LostAfter? { book := Saved(book, document, numbering(book)); }
      ok := if outcome.Saves? then Got(true) else if outcome.Refused? then Got(false) else Threw("Post");
    }

    /** The summary of a voucher with a group's marker is that of the group's one live voucher, which has lines, and
        the sum of its lines is the total in its header. */
    method ReadVoucherSummary(ref: nat, fails: bool) returns (s: Attempt<Summary>)
      ensures s.Got? && GroupsOk(book) && s.value.group.GroupMarker? ==>
                && FindGroup(book, s.value.group) == Some(ref)
                && s.value.lineCount > 0 && s.value.lineSum == book[ref].total
      ensures s == if fails || ref >= |book| || book[ref].cancelled then Threw("voucher summary")
                   else Got(Summary(book[ref].note, |book[ref].lines|, LineSum(book[ref])))
    {
      if fails || ref >= |book| || book[ref].cancelled { return Threw("voucher summary"); }
      s := Got(Summary(book[ref].note, |book[ref].lines|, LineSum(book[ref])));
    }

    method VerifyLinePersisted(ref: nat, invoice: string, amount: nat, w: Weather) returns (v: Attempt<Verification>)
      ensures v.Got? && v.value.found ==>
                ref < |book| && Shows(book[ref], invoice, amount)
                && EntriesIn(book[ref], invoice) > 0 && v.value.lineCount == |book[ref].lines|
      ensures Readable(Verify, w) && ref < |book| && Shows(book[ref], invoice, amount) ==> v.Got? && v.value.found
    {
      if Verify in w.faults { return Threw("verification"); }
      if Verify in w.closed || ref >= |book| || book[ref].cancelled { return Got(Verification(false, 0)); }
      var line := MarkedLine(book[ref].lines, invoice);
      if line.None? { return Got(Verification(false, |book[ref].lines|)); }
      if LineAmount(book[ref].lines[line.value]) != amount { return Threw("amount mismatch"); }
      LinePosition(book[ref], line.value, invoice);
      v := Got(Verification(true, |book[ref].lines|));
    }

    method CreateGroupedVoucher(e: Event, p: Posting, w: Weather) returns (a: Attempt<InvoiceResult>)
      requires Valid()
      modifies this`book
      ensures if !dryRun && Imports(w) then Opens(old(book), p, book) else book == old(book)
      ensures a.Got? ==> a.value.dryRun == dryRun && Truthful(book, p.invoice, a.value)
      ensures a.Got? && !a.value.success ==> book == old(book)
      ensures w == CALM ==> a.Got? && a.value.success && !a.value.alreadyExists
      ensures a.Got? ==> Tells(book, e.invoiceId, a.value)
    {
      var document := InsertDocument(p);
      if Import in w.faults { return Threw("import"); }
      if ImportRefused in w.faults { return Got(Failed(e.invoiceId, "XML import failed")); }
      InsertDocumentHoldsOneLine(p);
      var importedLineCount := |LinesOf(document).GetOr([])|;
      if importedLineCount != 1 { return Got(Failed(e.invoiceId, "Expected one imported line")); }
      if dryRun { return Got(Succeeded(e.invoiceId, true, false, None, Some(importedLineCount))); }
      var ref := |book|;
      InsertSaves(book, p, numbering(book));
      FirstLineIsRight(p, numbering(book));
      OpenedLineIsFound(book, p, Enriched(BuildTransactionElement(p), numbering(book)));
      var ok := Post(document, w.post);
      if ok.Threw? { return Threw(ok.message); }
      if !ok.value { return Got(Failed(e.invoiceId, "Tiger Post returned false")); }
      if ReadReference in w.faults { return Threw("reference"); }
      var verification := VerifyLinePersisted(ref, p.invoice, p.amount, w);
      if verification.Threw? { return Threw(verification.message); }
      if !verification.value.found { return Threw("posted but line marker was not found"); }
      a := Got(Succeeded(e.invoiceId, false, false, Some(ref), Some(verification.value.lineCount)));
    }

    /** Saving the document adds the posting's line to its group's voucher. */
    ghost predicate AddsTheLine(document: Xml, p: Posting)
      reads this
    {
      Saved(book, document, numbering(book)) == Grown(book, p, NewLine(book, p, numbering(book)))
    }

    /** The document holds one line more than the voucher had, and the voucher still has its lines and their sum. */
    ghost predicate OneMoreThan(document: Xml, ref: nat, before: Summary)
      reads this
    {
      && LinesOf(document).Some? && |LinesOf(document).value| == before.lineCount + 1
      && ref < |book| && |book[ref].lines| == before.lineCount && LineSum(book[ref]) == before.lineSum
    }

    method ExportForAppend(ref: nat, p: Posting, before: Summary, w: Weather) returns (a: Attempt<Xml>)
      requires Valid() && FindGroup(book, GroupOf(p)) == Some(ref)
      requires before.lineCount == |book[ref].lines| && before.lineSum == LineSum(book[ref])
      ensures a.Got? ==> AddsTheLine(a.value, p) && OneMoreThan(a.value, ref, before)
      ensures a.Got? <==> ExportVoucher !in w.faults
    {
      if ExportVoucher in w.faults { return Threw("export"); }
      var total := before.lineSum + p.amount;
      var document :=
        PrepareExportedXmlForAppend(Export(book[ref], ref), HeaderFields(ref, total, GroupOf(p)), p);
      AppendSaves(book, ref, p, numbering(book), total, document);
      a := if document.None? then Threw("exported document") else Got(document.value);
    }

    method AppendToGroupedVoucher(e: Event, p: Posting, ref: nat, w: Weather) returns (a: Attempt<InvoiceResult>)
      requires Valid() && !dryRun && FindGroup(book, GroupOf(p)) == Some(ref)
      modifies this`book
      ensures if ReachesAppend(old(book), p, w) then Adds(old(book), p, book) else book == old(book)
      ensures a.Got? ==> a.value.success && !a.value.dryRun && Truthful(book, p.invoice, a.value)
      ensures a.Got? && a.value.alreadyExists ==> book == old(book)
      ensures w == CALM ==> a.Got? && (a.value.alreadyExists <==> Entries(old(book), p.invoice) > 0)
      ensures a.Got? ==> Tells(book, e.invoiceId, a.value)
    {
      var existing := FindExistingInvoiceLine(book, p.invoice, FindLineAgain, w);
      if existing.Threw? { return Threw(existing.message); }
      if existing.value.Some? { return Got(Succeeded(e.invoiceId, false, true, existing.value, None)); }
      var before := ReadVoucherSummary(ref, !Readable(ReadBefore, w));
      if before.Threw? { return Threw(before.message); }
      if before.value.group != GroupOf(p) { return Threw("marker mismatch"); }
      a := ExportAndAppend(e, p, ref, before.value, w);
    }

    /** The part of the append that is between reading the summary and the result. */
    method ExportAndAppend(e: Event, p: Posting, ref: nat, before: Summary, w: Weather)
      returns (a: Attempt<InvoiceResult>)
      requires Valid() && !dryRun && FindGroup(book, GroupOf(p)) == Some(ref)
      requires before.lineCount == |book[ref].lines| && before.lineSum == LineSum(book[ref])
      modifies this`book
      ensures if ReachesPost(old(book), p, w) then Adds(old(book), p, book) else book == old(book)
      ensures a.Got? ==> a.value.success && !a.value.dryRun && Truthful(book, p.invoice, a.value)
      ensures a.Got? && a.value.alreadyExists ==> book == old(book) && Entries(book, p.invoice) > 0
      ensures w == CALM ==> a.Got? && (a.value.alreadyExists <==> Entries(old(book), p.invoice) > 0)
      ensures a.Got? ==> Tells(book, e.invoiceId, a.value)
    {
      var document := ExportForAppend(ref, p, before, w);
      if document.Threw? { return Threw(document.message); }
      var duplicate := FindExistingInvoiceLine(book, p.invoice, FindLineLast, w);
      if duplicate.Threw? { return Threw(duplicate.message); }
      if duplicate.value.Some? { return Got(Succeeded(e.invoiceId, false, true, duplicate.value, None)); }
      a := ImportAndPost(e, p, ref, document.value, before, w);
    }

    /** Nothing is posted unless the imported document holds one line more and the voucher has not changed since the
        summary was read. */
    method ImportAndPost(e: Event, p: Posting, ref: nat, document: Xml, before: Summary, w: Weather)
      returns (a: Attempt<InvoiceResult>)
      requires Valid() && !dryRun && FindGroup(book, GroupOf(p)) == Some(ref)
      requires AddsTheLine(document, p)
      modifies this`book
      ensures if Imports(w) && Readable(ReadLatest, w) && old(OneMoreThan(document, ref, before))
              then Adds(old(book), p, book) else book == old(book)
      ensures a.Got? ==> old(OneMoreThan(document, ref, before))
      ensures a.Got? || book != old(book) ==>
                && LinesOf(document).Some? && |LinesOf(document).value| == before.lineCount + 1
                && |old(book)[ref].lines| == before.lineCount && LineSum(old(book)[ref]) == before.lineSum
      ensures a.Got? ==>
                a.value.success && !a.value.dryRun && !a.value.alreadyExists && Truthful(book, p.invoice, a.value)
      ensures w == CALM ==> (a.Got? <==> old(OneMoreThan(document, ref, before)))
      ensures a.Got? ==> Tells(book, e.invoiceId, a.value)
    {
      if Import in w.faults || ImportRefused in w.faults { return Threw("import"); }
      var importedLineCount := |LinesOf(document).GetOr([])|;
      if importedLineCount != before.lineCount + 1 { return Threw("imported line count"); }
      var latest := ReadVoucherSummary(ref, !Readable(ReadLatest, w));
      if latest.Threw? { return Threw(latest.message); }
      if latest.value.lineCount != before.lineCount || latest.value.lineSum != before.lineSum {
        return Threw("voucher changed during append");
      }
      a := PostAppended(e, p, ref, document, before, w);
    }

    method PostAppended(e: Event, p: Posting, ref: nat, document: Xml, before: Summary, w: Weather)
      returns (a: Attempt<InvoiceResult>)
      requires Valid() && !dryRun && FindGroup(book, GroupOf(p)) == Some(ref)
      requires AddsTheLine(document, p) && OneMoreThan(document, ref, before)
      modifies this`book
      ensures if w.post.Saves? || w.post.LostAfter? then Adds(old(book), p, book) else book == old(book)
      ensures a.Got? ==>
                a.value.success && !a.value.dryRun && !a.value.alreadyExists && Truthful(book, p.invoice, a.value)
      ensures w == CALM ==> a.Got?
      ensures a.Got? ==> Tells(book, e.invoiceId, a.value)
    {
      SavingAdds(book, ref, p, document, numbering(book));
      var ok := Post(document, w.post);
      if ok.Threw? { return Threw(ok.message); }
      if !ok.value { return Threw("Append Post failed"); }
      a := VerifyAppend(e, p, ref, before, w);
    }

    /** The checks after an append, and its result. */
    method VerifyAppend(e: Event, p: Posting, ref: nat, before: Summary, w: Weather)
      returns (a: Attempt<InvoiceResult>)
      requires !dryRun
      ensures a.Got? ==>
                a.value.success && !a.value.dryRun && !a.value.alreadyExists && Truthful(book, p.invoice, a.value)
      ensures w == CALM && ref < |book| && Shows(book[ref], p.invoice, p.amount)
              && |book[ref].lines| == before.lineCount + 1 && LineSum(book[ref]) == before.lineSum + p.amount ==>
                a.Got?
      ensures a.Got? ==>
                ref < |book| && Shows(book[ref], p.invoice, p.amount)
                && |book[ref].lines| == before.lineCount + 1 && LineSum(book[ref]) == before.lineSum + p.amount
      ensures a.Got? ==> Tells(book, e.invoiceId, a.value)
    {
      var after := ReadVoucherSummary(ref, !Readable(ReadAfter, w));
      if after.Threw? { return Threw(after.message); }
      if after.value.lineCount != before.lineCount + 1 { return Threw("line count verification"); }
      if after.value.lineSum != before.lineSum + p.amount { return Threw("amount verification"); }
      var verification := VerifyLinePersisted(ref, p.invoice, p.amount, w);
      if verification.Threw? { return Threw(verification.message); }
      if !verification.value.found { return Threw("posted but line marker was not found"); }
      a := Got(Succeeded(e.invoiceId, false, false, Some(ref), Some(after.value.lineCount)));
    }

    /** The try block. */
    method TryProcess(e: Event, p: Posting, w: Weather) returns (a: Attempt<InvoiceResult>)
      requires Valid()
      modifies this`book
      ensures if dryRun then book == old(book) else Effect(old(book), p, w, book)
      ensures a.Got? ==> a.value.dryRun == dryRun && Truthful(book, p.invoice, a.value)
      ensures (a.Got? && !a.value.success) || CreateApplication in w.faults ==> book == old(book)
      ensures w == CALM ==> a.Got? && a.value.success
      ensures w == CALM && !dryRun ==> (a.value.alreadyExists <==> Entries(old(book), p.invoice) > 0)
      ensures a.Got? ==> Tells(book, e.invoiceId, a.value)
    {
      if CreateApplication in w.faults || Login in w.faults { return Threw("no connection"); }
      var group := None;
      if !dryRun {
        if WriteGuard in w.faults { return Threw("write guard"); }
        var existing := FindExistingInvoiceLine(book, p.invoice, FindLine, w);
        if existing.Threw? { return Threw(existing.message); }
        if existing.value.Some? { return Got(Succeeded(e.invoiceId, false, true, existing.value, None)); }
        if FindVoucher in w.faults { return Threw("query"); }
        group := if FindVoucher in w.closed then None else FindGroup(book, GroupOf(p));
      }
      if group.None? {
        a := CreateGroupedVoucher(e, p, w);
      } else {
        a := AppendToGroupedVoucher(e, p, group.value, w);
      }
    }

    /** The try block and its catch: after an exception one more look whether the line is there. */
    method ProcessPosting(e: Event, p: Posting, w: Weather) returns (r: InvoiceResult)
      requires Valid()
      modifies this`book
      ensures VouchersOk(book) && if dryRun then book == old(book) else Effect(old(book), p, w, book)
      ensures r.dryRun == dryRun && Truthful(book, p.invoice, r)
      ensures !r.success && book != old(book) ==> !Readable(Probe, w)
      ensures w == CALM ==> r.success
      ensures w == CALM && !dryRun ==> (r.alreadyExists <==> Entries(old(book), p.invoice) > 0)
      ensures Tells(book, e.invoiceId, r)
    {
      var attempt := TryProcess(e, p, w);
      if !dryRun {
        EffectKeepsVouchers(old(book), p, w, book);
        EffectCounts(old(book), p, w, book, p.invoice);
      }
      if attempt.Got? { return attempt.value; }
      r := Failed(e.invoiceId, attempt.message);
      if !dryRun && CreateApplication !in w.faults {
        var existing := FindExistingInvoiceLine(book, p.invoice, Probe, w);
        if existing.Got? && existing.value.Some? { r := Succeeded(e.invoiceId, false, true, existing.value, None); }
      }
    }

    /** Exactly when an accepted event is entered and where, for any ledger and any failures; a reported success names
        the voucher it is in, a posted event is reported as failed only if even the last look at the ledger failed, and
        without failures it succeeds. */
    method ProcessInvoicePaid(e: Event, date: Date, w: Weather) returns (r: InvoiceResult)
      requires Valid()
      modifies this`book
      ensures Valid()
      ensures r.dryRun == dryRun && Handled(old(book), e, date, w, book, r)
      ensures WorkerComplaint(e).Some? ==> r.error == WorkerComplaint(e)
      ensures r.success && !dryRun ==> Entries(book, InvoiceOf(e)) > 0
      ensures !r.success && book != old(book) ==> !Readable(Probe, w)
      ensures book != old(book) ==>
                Booked(old(book), book, e, date) && Money(book) == Money(old(book)) + e.amountTyiyn.value
      ensures WorkerComplaint(e).None? && w == CALM ==> r.success
      ensures WorkerComplaint(e).None? && w == CALM && !dryRun ==>
                (book != old(book) <==> Entries(old(book), Trim(DotNetSpace, e.invoiceId)) == 0)
      ensures WorkerComplaint(e).None? && w == CALM && !dryRun ==>
                (r.alreadyExists <==> Entries(old(book), InvoiceOf(e)) > 0)
      ensures Tells(book, e.invoiceId, r)
    {
      var complaint := WorkerComplaint(e);
      if complaint.Some? { return Failed(e.invoiceId, complaint.value); }
      r := ProcessPosting(e, PostingOf(e, date), w);
      if book != old(book) { SavedLineBooksTheEvent(old(book), e, date, w, book); }
      if w == CALM && !dryRun { CalmCallSaves(old(book), PostingOf(e, date), book); }
      if r.success && !dryRun { TruthfulMeansEntered(book, InvoiceOf(e), r); }
    }
  }
}
