/** The 1C import: its idempotency by comment over whole runs, and what its reports of success are worth. */
module OneCImport {
  import opened Basics
  import opened PaymentTag

  datatype PaymentEvent = PaymentEvent(id: string, payload: Option<Payment>)

  /** An incoming payment order; its comment is built from the payload it was created from. */
  datatype Document = Document(deleted: bool, source: Payment, date: int)

  type Base = seq<Document>

  datatype ImportResult = Success(document: nat) | Failure(message: string)

  datatype Sending = Arrives | Rejected | Breaks

  /** What 1C finds and what fails while one event is processed. */
  datatype Conditions = Conditions(
    realization: bool, complaint: Option<string>, account: bool, written: bool, date: int, sending: Sending)

  predicate Shows(d: Document, paymentId: string) {
    !d.deleted && Matches(Comment(d.source), paymentId)
  }

  /** PayQR_НайтиДокументОплатыПоPaymentId: the latest live document whose comment matches. */
  function FindDocument(base: Base, paymentId: string): (i: Option<nat>)
    ensures i.Some? ==> i.value < |base| && Shows(base[i.value], paymentId)
    ensures i.Some? ==> forall j | 0 <= j < |base| && Shows(base[j], paymentId) :: base[j].date <= base[i.value].date
    ensures i.None? ==> forall j | 0 <= j < |base| :: !Shows(base[j], paymentId)
  {
    Latest(base, (d: Document) => Shows(d, paymentId), |base|)
  }

  function Latest(base: Base, shows: Document -> bool, n: nat): (i: Option<nat>)
    requires n <= |base|
    ensures i.Some? ==> i.value < n && shows(base[i.value])
    ensures i.Some? ==> forall j | 0 <= j < n && shows(base[j]) :: base[j].date <= base[i.value].date
    ensures i.None? ==> forall j | 0 <= j < n :: !shows(base[j])
  {
    if n == 0 then None
    else
      var earlier := Latest(base, shows, n - 1);
      if !shows(base[n - 1]) then earlier
      else if earlier.Some? && base[earlier.value].date >= base[n - 1].date then earlier
      else Some(n - 1)
  }

  /** The document was created for the payment, or the search for the payment finds it. */
  predicate Serves(d: Document, paymentId: string) {
    !d.deleted && (d.source.paymentId == paymentId || Matches(Comment(d.source), paymentId))
  }

  /** A success names a live document that serves the payment. */
  predicate Backed(base: Base, e: PaymentEvent, r: ImportResult) {
    r.Success? ==> e.payload.Some? && r.document < |base| && Serves(base[r.document], e.payload.value.paymentId)
  }

  /** Two live documents of one payment exist only if the first cannot be found by its own payment id. */
  ghost predicate OnePerPayment(base: Base) {
    forall i, j | 0 <= i < j < |base| ::
      !base[i].deleted && !base[j].deleted && base[i].source.paymentId == base[j].source.paymentId ==>
        !Matches(Comment(base[i].source), base[i].source.paymentId)
  }

  /** So a payment whose id has no bracket has at most one document. */
  lemma AtMostOneDocument(base: Base, i: nat, j: nat)
    requires OnePerPayment(base) && i < |base| && j < |base| && !base[i].deleted && !base[j].deleted
    requires base[i].source.paymentId == base[j].source.paymentId && NoClass(base[i].source.paymentId)
    ensures i == j
  {
    OwnDocumentIsFound(base[i].source);
    OwnDocumentIsFound(base[j].source);
  }

  /** An event creates a document exactly if none matches yet and nothing is wrong with it. */
  predicate Creates(base: Base, e: PaymentEvent, c: Conditions) {
    && e.payload.Some? && e.payload.value.paymentId != "" && FindDocument(base, e.payload.value.paymentId).None?
    && e.payload.value.invoiceId != "" && c.realization && c.complaint.None? && c.account && c.written
  }

  function Imported(base: Base, e: PaymentEvent, c: Conditions): Base {
    if Creates(base, e, c) then base + [Document(false, e.payload.value, c.date)] else base
  }

  /** An import creates a document exactly if the event has a payload with both ids, no live document's comment matches the
      payment id, and 1C finds the sale, has no complaint, knows the account and writes the document. */
  lemma ImportCreatesIff(base: Base, e: PaymentEvent, c: Conditions)
    ensures Imported(base, e, c) != base <==>
            && e.payload.Some? && e.payload.value.paymentId != "" && e.payload.value.invoiceId != ""
            && (forall i | 0 <= i < |base| && !base[i].deleted ::
                  !Matches(Comment(base[i].source), e.payload.value.paymentId))
            && c.realization && c.complaint.None? && c.account && c.written
    ensures Imported(base, e, c) != base ==>
              Imported(base, e, c) == base + [Document(false, e.payload.value, c.date)]
  {
    if e.payload.Some? {
      var found := FindDocument(base, e.payload.value.paymentId);
      if found.Some? { assert Shows(base[found.value], e.payload.value.paymentId); }
      forall i | 0 <= i < |base| && !base[i].deleted && found.None?
        ensures !Matches(Comment(base[i].source), e.payload.value.paymentId)
      {
        assert !Shows(base[i], e.payload.value.paymentId);
      }
    }
  }

  lemma ImportedKeepsOnePerPayment(base: Base, e: PaymentEvent, c: Conditions)
    requires OnePerPayment(base)
    ensures OnePerPayment(Imported(base, e, c))
  {
  }

  /** Delivering the same payment again creates a second document exactly if its id does not match its own comment. */
  lemma RedeliveryCreatesIffUnfindable(base: Base, e: PaymentEvent, c: Conditions)
    requires Creates(base, e, c)
    ensures Creates(Imported(base, e, c), e, c) <==> !Matches(Comment(e.payload.value), e.payload.value.paymentId)
  {
  }

  /** The event is reported as a success: a document was found, or one is created. */
  predicate Succeeds(base: Base, e: PaymentEvent, c: Conditions) {
    && e.payload.Some? && e.payload.value.paymentId != ""
    && (FindDocument(base, e.payload.value.paymentId).Some? || Creates(base, e, c))
  }

  // ----- Runs -----

  /** Imports of any events, delivered once or again, and deletions by accountants. */
  datatype Move = Process(event: PaymentEvent, conditions: Conditions) | Delete(document: nat)

  function Moved(base: Base, m: Move): Base {
    match m
    case Process(e, c) => Imported(base, e, c)
    case Delete(d) => if d < |base| then base[d := base[d].(deleted := true)] else base
  }

  function Ran(base: Base, moves: seq<Move>): Base {
    if moves == [] then base else Moved(Ran(base, moves[..|moves| - 1]), moves[|moves| - 1])
  }

  lemma RanOneMore(base: Base, moves: seq<Move>, m: Move)
    ensures Ran(base, moves + [m]) == Moved(Ran(base, moves), m)
  {
    assert (moves + [m])[..|moves|] == moves;
  }

  lemma MoveKeepsOnePerPayment(base: Base, m: Move)
    requires OnePerPayment(base)
    ensures OnePerPayment(Moved(base, m))
  {
    match m
    case Process(e, c) => ImportedKeepsOnePerPayment(base, e, c);
    case Delete(d) =>
  }

  lemma {:induction false} RunKeepsOnePerPayment(base: Base, moves: seq<Move>)
    requires OnePerPayment(base)
    ensures OnePerPayment(Ran(base, moves))
  {
    if moves != [] {
      var n := |moves| - 1;
      RunKeepsOnePerPayment(base, moves[..n]);
      MoveKeepsOnePerPayment(Ran(base, moves[..n]), moves[n]);
    }
  }

  /** At most one document: over every run of imports, repeated as often as acknowledgements are lost, and deletions,
      two live documents of one payment are the same one, unless the id has a bracket. */
  lemma AtMostOneDocumentEver(moves: seq<Move>, i: nat, j: nat)
    requires var base := Ran([], moves);
             && i < |base| && j < |base| && !base[i].deleted && !base[j].deleted
             && base[i].source.paymentId == base[j].source.paymentId && NoClass(base[i].source.paymentId)
    ensures i == j
  {
    RunKeepsOnePerPayment([], moves);
    AtMostOneDocument(Ran([], moves), i, j);
  }

  predicate Offered(moves: seq<Move>, p: Payment) {
    exists k | 0 <= k < |moves| :: moves[k].Process? && moves[k].event.payload == Some(p)
  }

  /** Every document was made from the payload of an imported event. */
  lemma {:induction false} DocumentsWereOffered(moves: seq<Move>)
    ensures forall i | 0 <= i < |Ran([], moves)| :: Offered(moves, Ran([], moves)[i].source)
  {
    if moves != [] {
      var n := |moves| - 1;
      DocumentsWereOffered(moves[..n]);
      forall i | 0 <= i < |Ran([], moves)| ensures Offered(moves, Ran([], moves)[i].source) {
        if i < |Ran([], moves[..n])| {
          var k :| 0 <= k < n && moves[..n][k].Process?
                   && moves[..n][k].event.payload == Some(Ran([], moves[..n])[i].source);
          assert moves[k] == moves[..n][k];
        } else {
          assert moves[n].event.payload == Some(Ran([], moves)[i].source);
        }
      }
    }
  }

  predicate HasOwnDocument(base: Base, paymentId: string) {
    exists i | 0 <= i < |base| :: !base[i].deleted && base[i].source.paymentId == paymentId
  }

  // ----- What a success is worth -----

  ghost predicate QuietBase(base: Base) {
    forall i | 0 <= i < |base| :: AllQuiet(base[i].source)
  }

  /** Every document found for a plain id is that payment's own exactly if no live document belongs to a payment whose
      id continues it. */
  lemma FoundIsOwnIffNoLongerId(base: Base, id: string)
    requires QuietBase(base) && OneLine(id) && PlainText(id)
    ensures (forall i | 0 <= i < |base| && Shows(base[i], id) :: base[i].source.paymentId == id)
       <==> (forall i | 0 <= i < |base| && !base[i].deleted :: !(id < base[i].source.paymentId))
  {
    forall i | 0 <= i < |base| ensures Shows(base[i], id) <==> !base[i].deleted && id <= base[i].source.paymentId {
      FoundIffPrefix(base[i].source, id);
    }
  }

  /** So, with plain ids none of which continues another, success means that the payment's own document exists. */
  lemma SuccessMeansOwnDocument(base: Base, e: PaymentEvent, r: ImportResult)
    requires QuietBase(base) && Backed(base, e, r) && r.Success?
    requires OneLine(e.payload.value.paymentId) && PlainText(e.payload.value.paymentId)
    requires forall i | 0 <= i < |base| && !base[i].deleted :: !(e.payload.value.paymentId < base[i].source.paymentId)
    ensures !base[r.document].deleted && base[r.document].source.paymentId == e.payload.value.paymentId
  {
    FoundIsOwnIffNoLongerId(base, e.payload.value.paymentId);
  }

  /** Otherwise, as long as a live document of a longer id exists, the shorter one is reported as a success and gets no
      document. */
  lemma ShorterIdIsNeverImported(base: Base, i: nat, e: PaymentEvent, c: Conditions)
    requires i < |base| && !base[i].deleted && AllQuiet(base[i].source)
    requires e.payload.Some? && e.payload.value.paymentId != "" && e.payload.value.paymentId < base[i].source.paymentId
    requires OneLine(e.payload.value.paymentId) && PlainText(e.payload.value.paymentId)
    ensures Imported(base, e, c) == base && Succeeds(base, e, c)
  {
    FoundIffPrefix(base[i].source, e.payload.value.paymentId);
    assert Shows(base[i], e.payload.value.paymentId);
  }

  /** The payment ids of a run are plain, and none continues this one. */
  ghost predicate StandsAlone(moves: seq<Move>, id: string) {
    && OneLine(id) && PlainText(id)
    && forall p | Offered(moves, p) :: AllQuiet(p) && !(id < p.paymentId)
  }

  /** In every such run an import reports success for a payment exactly if the payment's own document exists then. */
  lemma SuccessIffOwnDocument(moves: seq<Move>, e: PaymentEvent, c: Conditions)
    requires e.payload.Some? && e.payload.value.paymentId != "" && StandsAlone(moves, e.payload.value.paymentId)
    ensures var base := Ran([], moves);
            Succeeds(base, e, c) <==> HasOwnDocument(Imported(base, e, c), e.payload.value.paymentId)
  {
    var base, id := Ran([], moves), e.payload.value.paymentId;
    DocumentsWereOffered(moves);
    FoundIsOwnIffNoLongerId(base, id);
    if Creates(base, e, c) {
      var after := Imported(base, e, c);
      assert !after[|base|].deleted && after[|base|].source.paymentId == id;
    } else {
      OwnFoundIffThere(base, id);
    }
  }

  /** For a plain id that finds own documents only, finding one is having one. */
  lemma OwnFoundIffThere(base: Base, id: string)
    requires PlainText(id) && forall i | 0 <= i < |base| && Shows(base[i], id) :: base[i].source.paymentId == id
    ensures FindDocument(base, id).Some? <==> HasOwnDocument(base, id)
  {
    forall i | 0 <= i < |base| && !base[i].deleted && base[i].source.paymentId == id ensures Shows(base[i], id) {
      OwnDocumentIsFound(base[i].source);
    }
  }
}
