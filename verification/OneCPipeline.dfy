/** From callbacks to 1C documents: events delivered at least once to imports that may repeat, and deletions in between. */
module OneCPipeline {
  import opened Basics
  import opened Text
  import opened Transactions
  import opened PaymentEvents
  import opened PaymentTag
  import opened Gateway
  import opened GatewayInvariants
  import opened Winners
  import Import = OneCImport

  /** `items` are the events some import may still process, any number of times. */
  datatype Books = Books(gate: Gate, items: set<Event>, base: Import.Base)

  datatype Move =
    | GateMove(step: Step)
    | Deliver(row: nat)
    | Process(event: Event, payment: Payment, conditions: Import.Conditions)
    | Delete(document: nat)

  /** What 1C reads from the payload, trimmed. */
  predicate Reads(p: Payment, e: Event) {
    p.paymentId == Strip(e.paidTransactionId) && p.invoiceId == e.invoiceId
  }

  ghost function Moved(y: Books, m: Move): Books {
    match m
    case GateMove(s) => y.(gate := Stepped(y.gate, s))
    case Deliver(row) =>
      if row < |y.gate.oneC| then y.(items := y.items + {y.gate.oneC[row].entry.event}) else y
    case Process(e, p, c) =>
      if e in y.items && Reads(p, e)
      then y.(base := Import.Imported(y.base, Import.PaymentEvent("", Some(p)), c)) else y
    case Delete(d) =>
      if d < |y.base| then y.(base := y.base[d := y.base[d].(deleted := true)]) else y
  }

  ghost function Ran(y: Books, moves: seq<Move>): Books
    decreases |moves|
  {
    if moves == [] then y else Ran(Moved(y, moves[0]), moves[1..])
  }

  /** What the moves do: events of the queue reach the imports, an import works on one that reached it, a deletion marks the
      document and the gateway goes on by itself. */
  lemma MovesAre(y: Books, step: Step, row: nat, e: Event, p: Payment, c: Import.Conditions, d: nat)
    ensures Moved(y, GateMove(step)) == y.(gate := Stepped(y.gate, step))
    ensures row < |y.gate.oneC| ==> Moved(y, Deliver(row)) == y.(items := y.items + {y.gate.oneC[row].entry.event})
    ensures e in y.items && p.paymentId == Strip(e.paidTransactionId) && p.invoiceId == e.invoiceId ==>
              Moved(y, Process(e, p, c)) == y.(base := Import.Imported(y.base, Import.PaymentEvent("", Some(p)), c))
    ensures d < |y.base| ==> Moved(y, Delete(d)) == y.(base := y.base[d := y.base[d].(deleted := true)])
  {
  }

  predicate Gentle(m: Move) { m.GateMove? ==> !ExplicitCancel(m.step) }

  ghost predicate AllGentle(moves: seq<Move>) {
    forall i | 0 <= i < |moves| :: Gentle(moves[i])
  }

  /** The document is for the paid transaction of its invoice. */
  ghost predicate ForWinner(txs: Table, source: Payment) {
    exists id :: Holds(txs, id, source.invoiceId) && Strip(id) == source.paymentId
  }

  ghost predicate ItemsElected(y: Books) {
    forall e | e in y.items :: Holds(y.gate.txs, e.paidTransactionId, e.invoiceId)
  }

  ghost predicate DocumentsElected(y: Books) {
    forall i | 0 <= i < |y.base| :: ForWinner(y.gate.txs, y.base[i].source)
  }

  ghost predicate Settled(y: Books) {
    Elected(y.gate) && ItemsElected(y) && DocumentsElected(y) && Import.OnePerPayment(y.base)
  }

  lemma GateKeepsSettled(y: Books, s: Step)
    requires Settled(y) && !ExplicitCancel(s)
    ensures Settled(y.(gate := Stepped(y.gate, s)))
  {
    StepKeepsElected(y.gate, s);
    forall e | e in y.items ensures Holds(Stepped(y.gate, s).txs, e.paidTransactionId, e.invoiceId) {
      FanSparesWinners(y.gate, s, e.paidTransactionId, e.invoiceId);
    }
    forall i | 0 <= i < |y.base| ensures ForWinner(Stepped(y.gate, s).txs, y.base[i].source) {
      var source := y.base[i].source;
      var id :| Holds(y.gate.txs, id, source.invoiceId) && Strip(id) == source.paymentId;
      FanSparesWinners(y.gate, s, id, source.invoiceId);
    }
  }

  lemma ProcessKeepsSettled(y: Books, e: Event, p: Payment, c: Import.Conditions)
    requires Settled(y) && e in y.items && Reads(p, e)
    ensures Settled(Moved(y, Process(e, p, c)))
  {
    Import.ImportedKeepsOnePerPayment(y.base, Import.PaymentEvent("", Some(p)), c);
    assert Holds(y.gate.txs, e.paidTransactionId, p.invoiceId);
    assert ForWinner(y.gate.txs, p);
  }

  lemma MoveKeepsSettled(y: Books, m: Move)
    requires Settled(y) && Gentle(m)
    ensures Settled(Moved(y, m))
  {
    match m
    case GateMove(s) => GateKeepsSettled(y, s);
    case Deliver(row) => if row < |y.gate.oneC| { assert OneCShape(y.gate.oneC[row].entry); }
    case Process(e, p, c) => if e in y.items && Reads(p, e) { ProcessKeepsSettled(y, e, p, c); }
    case Delete(d) =>
  }

  lemma {:induction false} RunKeepsSettled(y: Books, moves: seq<Move>)
    requires Settled(y) && AllGentle(moves)
    ensures Settled(Ran(y, moves))
    decreases |moves|
  {
    if moves != [] {
      MoveKeepsSettled(y, moves[0]);
      RunKeepsSettled(Moved(y, moves[0]), moves[1..]);
    }
  }

  const START := Books(EMPTY, {}, [])

  /** On every run without an explicit cancel an invoice has at most one live document, for its paid transaction, unless
      the payment id has a bracket: although queue and import know payments only. */
  lemma OneDocumentPerInvoice(moves: seq<Move>, i: nat, j: nat)
    requires AllGentle(moves)
    requires var base := Ran(START, moves).base;
             && i < |base| && j < |base| && !base[i].deleted && !base[j].deleted
             && base[i].source.invoiceId == base[j].source.invoiceId && NoClass(base[i].source.paymentId)
    ensures i == j && ForWinner(Ran(START, moves).gate.txs, Ran(START, moves).base[i].source)
  {
    var y := Ran(START, moves);
    RunKeepsSettled(START, moves);
    var a :| Holds(y.gate.txs, a, y.base[i].source.invoiceId) && Strip(a) == y.base[i].source.paymentId;
    var b :| Holds(y.gate.txs, b, y.base[j].source.invoiceId) && Strip(b) == y.base[j].source.paymentId;
    assert a == b;
    Import.AtMostOneDocument(y.base, i, j);
  }
}
