/**
 The whole way from callbacks to accounting entries: the gateway, workers that are handed events at
 least once and may stop at any moment, answers that are lost, late or repeated, and the ledger.
 */
module Pipeline {
  import opened Basics
  import opened Text
  import opened Transactions
  import opened AmountText
  import opened VoucherXml
  import opened Ledger
  import opened PaymentEvents
  import opened TigerWorker
  import opened Gateway
  import opened GatewayInvariants
  import opened Winners
  import Q = ExportQueue
  import QueueTheorems

  /** An event in the hands of some worker, which may process it now, later, often or never. */
  datatype Item = Item(id: nat, event: Event)

  /** An event that was entered, and under which date. */
  datatype Posted = Posted(event: Event, date: Date)

  /** `answers` are the reports sent so far, each of which may reach the gateway at any time and any number of times;
      `posted` records what was added to the ledger. */
  datatype System = System(
    gate: Gate,
    items: set<Item>,
    answers: set<(nat, Q.Answer)>,
    book: Book,
    posted: seq<Posted>)

  datatype Move =
    | GateMove(step: Step)
    | Deliver(claim: Q.Op<Event>)
    | Work(item: Item, date: Date, weather: Weather, after: Book, result: InvoiceResult)
    | AnswerArrives(id: nat, answer: Q.Answer, time: int)
    | Others(after: Book)

  /** What the gateway makes of a report. */
  function AnswerOf(success: bool, reference: Option<nat>, error: Option<string>): Q.Answer {
    Q.Answer(if success then Q.Success else Q.Error,
             match reference case None => None case Some(n) => Some(WholeText(n)),
             error)
  }

  function AnswerFor(r: InvoiceResult): Q.Answer { AnswerOf(r.success, r.reference, r.error) }

  /** A report becomes an answer with the same verdict and message, its reference in digits. */
  lemma AnswerSays(success: bool, reference: Option<nat>, error: Option<string>)
    ensures var a := AnswerOf(success, reference, error);
            && a.status == (if success then Q.Success else Q.Error) && a.message == error
            && (reference.None? ==> a.reference.None?)
            && (reference.Some? ==> a.reference.Some? && WholeValue(a.reference.value) == reference.value)
  {
    if reference.Some? { WholeRoundTrip(reference.value); }
  }

  /** Claims and answers of the Tiger queue are moves of their own. */
  predicate OwnMove(s: Step) { s.TigerCall? && (s.op.Claim? || s.op.Report?) }

  ghost function Handed(q: Gateway.Queue, claim: Q.Op<Event>): set<Item>
    requires claim.Claim?
  {
    set i | i in Q.Taken(q, claim.limit, claim.clock - claim.lease, claim.now) && i < |q| :: Item(i, q[i].entry.event)
  }

  ghost function Worked(y: System, item: Item, date: Date, w: Weather, after: Book, r: InvoiceResult): System
    requires Handled(y.book, item.event, date, w, after, r)
  {
    y.(book := after,
       answers := if r.dryRun then y.answers else y.answers + {(item.id, AnswerFor(r))},
       posted := if after == y.book then y.posted else y.posted + [Posted(item.event, date)])
  }

  ghost function Moved(y: System, m: Move): System {
    match m
    case GateMove(s) => if OwnMove(s) then y else y.(gate := Stepped(y.gate, s))
    case Deliver(claim) =>
      if !claim.Claim? then y
      else y.(gate := Stepped(y.gate, TigerCall(claim)), items := y.items + Handed(y.gate.tiger, claim))
    case Work(item, date, w, after, r) =>
      if item in y.items && Handled(y.book, item.event, date, w, after, r) then Worked(y, item, date, w, after, r) else y
    case AnswerArrives(id, a, time) =>
      if (id, a) in y.answers then y.(gate := Stepped(y.gate, TigerCall(Q.Report(id, a, time)))) else y
    case Others(after) => if OthersWork(y.book, after) then y.(book := after) else y
  }

  ghost function Ran(y: System, moves: seq<Move>): System
    decreases |moves|
  {
    if moves == [] then y else Ran(Moved(y, moves[0]), moves[1..])
  }

  /** A claim hands the event of every row it takes to some worker, under the row's id. */
  lemma DeliverMove(y: System, claim: Q.Op<Event>, i: nat)
    requires claim.Claim?
    ensures Moved(y, Deliver(claim)).gate.tiger == Q.Claimed(y.gate.tiger, claim.limit, claim.clock - claim.lease, claim.now)
    ensures i < |y.gate.tiger| && i in Q.Taken(y.gate.tiger, claim.limit, claim.clock - claim.lease, claim.now) ==>
              Item(i, y.gate.tiger[i].entry.event) in Moved(y, Deliver(claim)).items
    ensures y.items <= Moved(y, Deliver(claim)).items
  {
  }

  /** An answer on its way may arrive, any number of times, and is then given to its row. */
  lemma AnswerMove(y: System, id: nat, a: Q.Answer, time: int)
    requires (id, a) in y.answers
    ensures Moved(y, AnswerArrives(id, a, time)) == y.(gate := y.gate.(tiger := Q.Answered(y.gate.tiger, id, a, time)))
  {
  }

  lemma WorkMove(y: System, item: Item, date: Date, w: Weather, after: Book, r: InvoiceResult)
    requires item in y.items && Handled(y.book, item.event, date, w, after, r)
    ensures var z := Moved(y, Work(item, date, w, after, r));
            z == y.(book := after, posted := z.posted,
                    answers := if r.dryRun then y.answers else y.answers + {(item.id, AnswerFor(r))})
  {
  }

  lemma {:induction false} RanSnoc(y: System, moves: seq<Move>, m: Move)
    ensures Ran(y, moves + [m]) == Moved(Ran(y, moves), m)
    decreases |moves|
  {
    if moves == [] {
      assert [] + [m] == [m];
      assert Ran(Moved(y, m), []) == Moved(y, m);
    } else {
      assert (moves + [m])[0] == moves[0] && (moves + [m])[1..] == moves[1..] + [m];
      RanSnoc(Moved(y, moves[0]), moves[1..], m);
    }
  }

  // ----- Rows of the Tiger queue -----

  lemma TigerRowStep(g: Gate, s: Step, i: nat)
    requires i < |g.tiger|
    ensures i < |Stepped(g, s).tiger| && Stepped(g, s).tiger[i].entry.key == g.tiger[i].entry.key
    ensures g.tiger[i].status.Success? ==> Stepped(g, s).tiger[i].status.Success?
  {
    match s
    case TigerCall(op) => if QueueCall(op) { QueueTheorems.StepKeepsRow(g.tiger, op, i); }
    case FanTiger(_, _, _) => FanTigerKeepsRow(g, s, i);
    case Rebuild(_, _, _) => RebuildKeepsRow(g, s, i);
    case _ =>
  }

  lemma FanTigerKeepsRow(g: Gate, s: Step, i: nat)
    requires i < |g.tiger| && s.FanTiger?
    ensures i < |Stepped(g, s).tiger| && Stepped(g, s).tiger[i].entry.key == g.tiger[i].entry.key
    ensures g.tiger[i].status.Success? ==> Stepped(g, s).tiger[i].status.Success?
  {
    if TigerPutBy(g, s).Some? { TigerPutKeepsRow(g, TigerPutBy(g, s).value, s.time, i); }
  }

  lemma RebuildKeepsRow(g: Gate, s: Step, i: nat)
    requires i < |g.tiger| && s.Rebuild?
    ensures i < |Stepped(g, s).tiger| && Stepped(g, s).tiger[i].entry.key == g.tiger[i].entry.key
    ensures g.tiger[i].status.Success? ==> Stepped(g, s).tiger[i].status.Success?
  {
    if TigerPutBy(g, s).Some? { TigerPutKeepsRow(g, TigerPutBy(g, s).value, s.time, i); }
  }

  lemma TigerPutKeepsRow(g: Gate, entry: Q.Entry<Event>, time: int, i: nat)
    requires i < |g.tiger|
    ensures var after := Q.TigerPut(g.tiger, entry, GatewayComplaint(entry.event), time);
            && i < |after| && after[i].entry.key == g.tiger[i].entry.key
            && (g.tiger[i].status.Success? ==> after[i].status.Success?)
  {
  }

  /** A Tiger row becomes a success only through an answer that says so. */
  lemma SuccessNeedsAnAnswer(g: Gate, s: Step, i: nat)
    requires i < |Stepped(g, s).tiger| && Stepped(g, s).tiger[i].status.Success?
    ensures i < |g.tiger|
    ensures g.tiger[i].status.Success?
            || (s.TigerCall? && s.op.Report? && s.op.id == i && s.op.answer.status.Success?)
  {
    match s
    case TigerCall(op) =>
    case FanTiger(_, _, time) =>
      if TigerPutBy(g, s).Some? { NoPutSucceeds(g.tiger, TigerPutBy(g, s).value, time, i); }
    case Rebuild(_, _, time) =>
      if TigerPutBy(g, s).Some? { NoPutSucceeds(g.tiger, TigerPutBy(g, s).value, time, i); }
    case _ =>
  }

  lemma NoPutSucceeds(q: Gateway.Queue, entry: Q.Entry<Event>, time: int, i: nat)
    ensures var after := Q.TigerPut(q, entry, GatewayComplaint(entry.event), time);
            i < |after| && after[i].status.Success? ==> i < |q| && q[i].status.Success?
  {
  }

  // ----- The invariant -----

  function PostedCounter(invoice: string): Posted -> nat {
    (d: Posted) => if Trim(DotNetSpace, d.event.invoiceId) == invoice then 1 else 0
  }

  /** The amount in the event. */
  function PostedAmount(d: Posted): nat {
    if d.event.amountTyiyn.Some? && d.event.amountTyiyn.value > 0 then d.event.amountTyiyn.value else 0
  }

  /** Every group's voucher is in order, and the ledger holds exactly what was there at the start and what was posted
      since. */
  ghost predicate Balanced(y: System, start: Book) {
    && VouchersOk(y.book)
    && (forall invoice :: Entries(y.book, invoice) == Entries(start, invoice) + SumOf(y.posted, PostedCounter(invoice)))
    && Money(y.book) == Money(start) + SumOf(y.posted, PostedAmount)
  }

  predicate Entered(y: System, id: nat) {
    id < |y.gate.tiger| && Entries(y.book, y.gate.tiger[id].entry.key) > 0
  }

  ghost predicate ItemsFit(y: System) {
    forall item | item in y.items ::
      item.id < |y.gate.tiger| && item.event.invoiceId == y.gate.tiger[item.id].entry.key
  }

  ghost predicate AnswersAreTrue(y: System) {
    forall id, a | (id, a) in y.answers && a.status.Success? :: Entered(y, id)
  }

  ghost predicate SuccessIsTrue(y: System) {
    forall i | 0 <= i < |y.gate.tiger| && y.gate.tiger[i].status.Success? :: Entered(y, i)
  }

  ghost predicate Sound(y: System, start: Book) {
    Shape(y.gate) && Balanced(y, start) && ItemsFit(y) && AnswersAreTrue(y) && SuccessIsTrue(y)
  }

  /** Entries and rows only grow in a move. */
  ghost predicate Grows(y: System, next: System) {
    forall id | Entered(y, id) :: Entered(next, id)
  }

  lemma GateGrows(y: System, s: Step)
    ensures Grows(y, y.(gate := Stepped(y.gate, s)))
  {
    forall id | Entered(y, id) ensures Entered(y.(gate := Stepped(y.gate, s)), id) { TigerRowStep(y.gate, s, id); }
  }

  /** A gateway step that is not a success answer keeps everything. */
  lemma GateKeepsSound(y: System, s: Step, start: Book)
    requires Sound(y, start)
    requires s.TigerCall? && s.op.Report? && s.op.answer.status.Success? ==> Entered(y, s.op.id)
    ensures Sound(y.(gate := Stepped(y.gate, s)), start)
  {
    var next := y.(gate := Stepped(y.gate, s));
    StepKeepsShape(y.gate, s);
    GateGrows(y, s);
    forall item | item in next.items
      ensures item.id < |next.gate.tiger| && item.event.invoiceId == next.gate.tiger[item.id].entry.key
    {
      TigerRowStep(y.gate, s, item.id);
    }
    forall i | 0 <= i < |next.gate.tiger| && next.gate.tiger[i].status.Success? ensures Entered(next, i) {
      SuccessNeedsAnAnswer(y.gate, s, i);
      assert Entered(y, i);
    }
  }

  lemma DeliverKeepsSound(y: System, claim: Q.Op<Event>, start: Book)
    requires Sound(y, start) && claim.Claim?
    ensures Sound(Moved(y, Deliver(claim)), start)
  {
    var s := TigerCall(claim);
    var next := Moved(y, Deliver(claim));
    GateKeepsSound(y, s, start);
    forall item | item in next.items
      ensures item.id < |next.gate.tiger| && item.event.invoiceId == next.gate.tiger[item.id].entry.key
    {
      if item in Handed(y.gate.tiger, claim) {
        TigerRowStep(y.gate, s, item.id);
        assert TigerShape(y.gate.tiger[item.id].entry);
      }
    }
  }

  /** The worker looks for the invoice under the very key of the row. */
  lemma ItemInvoice(y: System, item: Item)
    requires Shape(y.gate) && ItemsFit(y) && item in y.items
    ensures InvoiceOf(item.event) == item.event.invoiceId == y.gate.tiger[item.id].entry.key
  {
    assert TigerShape(y.gate.tiger[item.id].entry);
    StrippedIsTrimmedForDotNet(item.event.invoiceId);
  }

  lemma PostedCounts(posted: seq<Posted>, e: Event, date: Date, w: Weather, book: Book, after: Book, invoice: string)
    requires WorkerComplaint(e).None? && Effect(book, PostingOf(e, date), w, after) && after != book
    ensures Entries(after, invoice) - Entries(book, invoice)
         == SumOf(posted + [Posted(e, date)], PostedCounter(invoice)) - SumOf(posted, PostedCounter(invoice))
    ensures Entries(book, invoice) <= Entries(after, invoice)
    ensures Money(after) - Money(book) == SumOf(posted + [Posted(e, date)], PostedAmount) - SumOf(posted, PostedAmount)
  {
    var d := Posted(e, date);
    SumOfSnoc(posted, d, PostedCounter(invoice));
    SumOfSnoc(posted, d, PostedAmount);
    EventCounts(book, e, date, w, after, invoice);
    EventAmount(e, date);
  }

  lemma EventAmount(e: Event, date: Date)
    requires WorkerComplaint(e).None?
    ensures PostedAmount(Posted(e, date)) == e.amountTyiyn.GetOr(0)
  {
  }

  /** What a saved line counts, in terms of its event. */
  lemma EventCounts(book: Book, e: Event, date: Date, w: Weather, after: Book, invoice: string)
    requires WorkerComplaint(e).None? && Effect(book, PostingOf(e, date), w, after) && after != book
    ensures Entries(after, invoice)
         == Entries(book, invoice) + if Trim(DotNetSpace, e.invoiceId) == invoice then 1 else 0
    ensures Money(after) == Money(book) + e.amountTyiyn.GetOr(0)
  {
    EffectCounts(book, PostingOf(e, date), w, after, invoice);
    SavedLineBooksTheEvent(book, e, date, w, after);
  }

  lemma EntriesBalance(y: System, e: Event, date: Date, w: Weather, after: Book, start: Book)
    requires Balanced(y, start) && WorkerComplaint(e).None? && Effect(y.book, PostingOf(e, date), w, after)
    requires after != y.book
    ensures forall invoice ::
              Entries(after, invoice) == Entries(start, invoice) + SumOf(y.posted + [Posted(e, date)], PostedCounter(invoice))
    ensures forall invoice :: Entries(y.book, invoice) <= Entries(after, invoice)
    ensures Money(after) == Money(start) + SumOf(y.posted + [Posted(e, date)], PostedAmount)
  {
    forall invoice
      ensures Entries(after, invoice)
           == Entries(start, invoice) + SumOf(y.posted + [Posted(e, date)], PostedCounter(invoice))
      ensures Entries(y.book, invoice) <= Entries(after, invoice)
    {
      PostedCounts(y.posted, e, date, w, y.book, after, invoice);
    }
    PostedCounts(y.posted, e, date, w, y.book, after, "");
  }

  lemma WorkBalances(y: System, item: Item, date: Date, w: Weather, after: Book, r: InvoiceResult, start: Book)
    requires Balanced(y, start) && Handled(y.book, item.event, date, w, after, r)
    ensures Balanced(Worked(y, item, date, w, after, r), start)
    ensures forall invoice :: Entries(y.book, invoice) <= Entries(after, invoice)
  {
    if after != y.book {
      EffectKeepsVouchers(y.book, PostingOf(item.event, date), w, after);
      EntriesBalance(y, item.event, date, w, after, start);
    }
  }

  /** What was entered stays entered when entries only grow. */
  lemma MoreEntriesStayTrue(y: System, next: System)
    requires AnswersAreTrue(y) && SuccessIsTrue(y)
    requires next.gate == y.gate && next.answers == y.answers
    requires forall invoice :: Entries(y.book, invoice) <= Entries(next.book, invoice)
    ensures AnswersAreTrue(next) && SuccessIsTrue(next)
  {
  }

  lemma TrueAnswer(y: System, item: Item, r: InvoiceResult)
    requires Shape(y.gate) && ItemsFit(y) && item in y.items && Truthful(y.book, InvoiceOf(item.event), r) && !r.dryRun
    ensures AnswerFor(r).status.Success? ==> Entered(y, item.id)
  {
    ItemInvoice(y, item);
    if r.success { TruthfulMeansEntered(y.book, InvoiceOf(item.event), r); }
  }

  lemma WorkKeepsSound(y: System, item: Item, date: Date, w: Weather, after: Book, r: InvoiceResult, start: Book)
    requires Sound(y, start) && item in y.items && Handled(y.book, item.event, date, w, after, r)
    ensures Sound(Worked(y, item, date, w, after, r), start)
  {
    var next := Worked(y, item, date, w, after, r);
    var silent := next.(answers := y.answers);
    WorkBalances(y, item, date, w, after, r, start);
    MoreEntriesStayTrue(y, silent);
    if !r.dryRun {
      TrueAnswer(silent, item, r);
      OneMoreTrueAnswer(silent, item.id, AnswerFor(r));
    }
  }

  lemma OneMoreTrueAnswer(y: System, id: nat, a: Q.Answer)
    requires AnswersAreTrue(y) && SuccessIsTrue(y) && (a.status.Success? ==> Entered(y, id))
    ensures var next := y.(answers := y.answers + {(id, a)}); AnswersAreTrue(next) && SuccessIsTrue(next)
  {
  }

  lemma OthersKeepSound(y: System, after: Book, start: Book)
    requires Sound(y, start) && OthersWork(y.book, after)
    ensures Sound(y.(book := after), start)
  {
    OthersKeepVouchers(y.book, after);
    OthersDoNotMatter(y.book, after, "");
    forall invoice ensures Entries(after, invoice) == Entries(y.book, invoice) {
      OthersDoNotMatter(y.book, after, invoice);
    }
    MoreEntriesStayTrue(y, y.(book := after));
  }

  lemma WorkMoveKeepsSound(y: System, m: Move, start: Book)
    requires Sound(y, start) && m.Work?
    ensures Sound(Moved(y, m), start)
  {
    if m.item in y.items && Handled(y.book, m.item.event, m.date, m.weather, m.after, m.result) {
      WorkKeepsSound(y, m.item, m.date, m.weather, m.after, m.result, start);
    }
  }

  lemma MoveKeepsSound(y: System, m: Move, start: Book)
    requires Sound(y, start)
    ensures Sound(Moved(y, m), start)
  {
    match m
    case GateMove(s) => if !OwnMove(s) { GateKeepsSound(y, s, start); }
    case Deliver(claim) => if claim.Claim? { DeliverKeepsSound(y, claim, start); }
    case Work(_, _, _, _, _) => WorkMoveKeepsSound(y, m, start);
    case AnswerArrives(id, a, time) =>
      if (id, a) in y.answers { GateKeepsSound(y, TigerCall(Q.Report(id, a, time)), start); }
    case Others(after) => if OthersWork(y.book, after) { OthersKeepSound(y, after, start); }
  }

  lemma {:induction false} RunKeepsSound(y: System, moves: seq<Move>, start: Book)
    requires Sound(y, start)
    ensures Sound(Ran(y, moves), start)
    decreases |moves|
  {
    if moves != [] {
      MoveKeepsSound(y, moves[0], start);
      RunKeepsSound(Moved(y, moves[0]), moves[1..], start);
    }
  }

  function Start(gate: Gate, book: Book): System { System(gate, {}, {}, book, []) }

  /** What a run may start from: a gateway in shape, an empty one or one just upgraded, and a ledger in order that has an
      entry for every Tiger row that is a success. */
  ghost predicate CanStart(gate: Gate, book: Book) {
    Shape(gate) && BookOk(book) && SuccessIsTrue(Start(gate, book))
  }

  lemma EmptyCanStart(book: Book)
    requires BookOk(book)
    ensures CanStart(EMPTY, book) && Elected(EMPTY)
  {
  }

  // ----- Exactly once -----

  /** The move saves a line for an invoice that already has an entry. */
  ghost predicate EntersTwice(y: System, m: Move) {
    && m.Work? && m.item in y.items && Handled(y.book, m.item.event, m.date, m.weather, m.after, m.result)
    && WorkerComplaint(m.item.event).None? && !m.result.dryRun
    && EntersAgain(y.book, PostingOf(m.item.event, m.date), m.weather)
  }

  /** The move opens a voucher for a group that already has a live one. */
  ghost predicate OpensTwice(y: System, m: Move) {
    && m.Work? && m.item in y.items && Handled(y.book, m.item.event, m.date, m.weather, m.after, m.result)
    && WorkerComplaint(m.item.event).None? && !m.result.dryRun
    && OpensAgain(y.book, PostingOf(m.item.event, m.date), m.weather)
  }

  ghost predicate EverEntersTwice(y: System, moves: seq<Move>)
    decreases |moves|
  {
    moves != [] && (EntersTwice(y, moves[0]) || EverEntersTwice(Moved(y, moves[0]), moves[1..]))
  }

  ghost predicate EverOpensTwice(y: System, moves: seq<Move>)
    decreases |moves|
  {
    moves != [] && (OpensTwice(y, moves[0]) || EverOpensTwice(Moved(y, moves[0]), moves[1..]))
  }

  /** Every look for the invoice and for its group's voucher before Post gets an answer or an exception. */
  predicate LooksOpen(m: Move) { m.Work? ==> FindLine !in m.weather.closed && FindVoucher !in m.weather.closed }

  ghost predicate QueriesOpen(moves: seq<Move>) {
    forall i | 0 <= i < |moves| :: LooksOpen(moves[i])
  }

  /** One move keeps one entry per invoice and one live voucher per group, exactly if it does neither twice. */
  lemma MoveKeepsOrderIff(y: System, m: Move)
    requires VouchersOk(y.book)
    ensures OneEntryEach(Moved(y, m).book) <==> OneEntryEach(y.book) && !EntersTwice(y, m)
    ensures GroupsApart(Moved(y, m).book) <==> GroupsApart(y.book) && !OpensTwice(y, m)
  {
    match m
    case Work(item, date, w, after, r) =>
      if item in y.items && Handled(y.book, item.event, date, w, after, r)
         && WorkerComplaint(item.event).None? && !r.dryRun {
        LedgerStaysInOrderIff(y.book, PostingOf(item.event, date), w, after);
      }
    case Others(after) =>
      if OthersWork(y.book, after) {
        OthersKeepVouchers(y.book, after);
        forall invoice ensures Entries(after, invoice) == Entries(y.book, invoice) {
          OthersDoNotMatter(y.book, after, invoice);
        }
      }
    case _ =>
  }

  lemma {:induction false} RunKeepsOrderIff(y: System, moves: seq<Move>, start: Book)
    requires Sound(y, start)
    ensures OneEntryEach(Ran(y, moves).book) <==> OneEntryEach(y.book) && !EverEntersTwice(y, moves)
    ensures GroupsApart(Ran(y, moves).book) <==> GroupsApart(y.book) && !EverOpensTwice(y, moves)
    decreases |moves|
  {
    if moves != [] {
      MoveKeepsSound(y, moves[0], start);
      MoveKeepsOrderIff(y, moves[0]);
      RunKeepsOrderIff(Moved(y, moves[0]), moves[1..], start);
    }
  }

  lemma OpenLookNeverRepeats(y: System, m: Move)
    requires LooksOpen(m)
    ensures !EntersTwice(y, m) && !OpensTwice(y, m)
  {
    if EntersTwice(y, m) || OpensTwice(y, m) {
      AgainNeedsFalseAnswers(y.book, PostingOf(m.item.event, m.date), m.weather);
    }
  }

  lemma {:induction false} OpenQueriesNeverRepeat(y: System, moves: seq<Move>)
    requires QueriesOpen(moves)
    ensures !EverEntersTwice(y, moves) && !EverOpensTwice(y, moves)
    decreases |moves|
  {
    if moves != [] {
      OpenLookNeverRepeats(y, moves[0]);
      OpenQueriesNeverRepeat(Moved(y, moves[0]), moves[1..]);
    }
  }

  /** Conservation over every run, whatever callbacks, refreshes, cancels, claims, expired leases, crashes, lost, late or
      repeated answers, false answers of queries and resets it mixes: a Tiger row that is a success is entered, and
      entries and money have grown by exactly what was posted. No invoice has two entries exactly if no move saves a
      line for an invoice that has one, and no group two live vouchers exactly if no move opens a second one. */
  lemma EntriesAreConserved(gate: Gate, book: Book, moves: seq<Move>)
    requires CanStart(gate, book)
    ensures var y := Ran(Start(gate, book), moves);
            && VouchersOk(y.book)
            && (forall i | 0 <= i < |y.gate.tiger| && y.gate.tiger[i].status.Success? ::
                  Entries(y.book, y.gate.tiger[i].entry.key) > 0)
            && Money(y.book) == Money(book) + SumOf(y.posted, PostedAmount)
            && (forall invoice ::
                  Entries(y.book, invoice) == Entries(book, invoice) + SumOf(y.posted, PostedCounter(invoice)))
            && (OneEntryEach(y.book) <==> !EverEntersTwice(Start(gate, book), moves))
            && (GroupsApart(y.book) <==> !EverOpensTwice(Start(gate, book), moves))
  {
    RunKeepsSound(Start(gate, book), moves, book);
    RunKeepsOrderIff(Start(gate, book), moves, book);
    var y := Ran(Start(gate, book), moves);
    forall i | 0 <= i < |y.gate.tiger| && y.gate.tiger[i].status.Success?
      ensures Entries(y.book, y.gate.tiger[i].entry.key) > 0
    {
      assert Entered(y, i);
    }
  }

  /** Exactly once: if no look for an invoice or its group's voucher gets a false answer, the ledger stays in order, no
      invoice has more than one entry and a Tiger row that is a success has exactly one. */
  lemma ExactlyOnce(gate: Gate, book: Book, moves: seq<Move>)
    requires CanStart(gate, book) && QueriesOpen(moves)
    ensures var y := Ran(Start(gate, book), moves);
            && BookOk(y.book)
            && (forall i | 0 <= i < |y.gate.tiger| && y.gate.tiger[i].status.Success? ::
                  Entries(y.book, y.gate.tiger[i].entry.key) == 1)
  {
    EntriesAreConserved(gate, book, moves);
    OpenQueriesNeverRepeat(Start(gate, book), moves);
  }

  // ----- Without explicit cancels the entry is the winner's -----

  predicate Gentle(m: Move) { m.GateMove? ==> !ExplicitCancel(m.step) }

  ghost predicate AllGentle(moves: seq<Move>) {
    forall i | 0 <= i < |moves| :: Gentle(moves[i])
  }

  ghost predicate ItemsElected(y: System) {
    forall item | item in y.items :: Holds(y.gate.txs, item.event.paidTransactionId, item.event.invoiceId)
  }

  ghost predicate PostedElected(y: System) {
    forall k | 0 <= k < |y.posted| ::
      Holds(y.gate.txs, y.posted[k].event.paidTransactionId, Trim(DotNetSpace, y.posted[k].event.invoiceId))
  }

  ghost predicate Settled(y: System) {
    Elected(y.gate) && ItemsElected(y) && PostedElected(y)
  }

  lemma GateKeepsSettled(y: System, s: Step)
    requires Settled(y) && !ExplicitCancel(s)
    ensures Settled(y.(gate := Stepped(y.gate, s)))
  {
    StepKeepsElected(y.gate, s);
    var next := y.(gate := Stepped(y.gate, s));
    forall item | item in next.items
      ensures Holds(next.gate.txs, item.event.paidTransactionId, item.event.invoiceId)
    {
      FanSparesWinners(y.gate, s, item.event.paidTransactionId, item.event.invoiceId);
    }
    forall k | 0 <= k < |next.posted|
      ensures Holds(next.gate.txs, next.posted[k].event.paidTransactionId, Trim(DotNetSpace, next.posted[k].event.invoiceId))
    {
      FanSparesWinners(y.gate, s, y.posted[k].event.paidTransactionId, Trim(DotNetSpace, y.posted[k].event.invoiceId));
    }
  }

  lemma DeliverKeepsSettled(y: System, claim: Q.Op<Event>)
    requires Settled(y) && claim.Claim?
    ensures Settled(Moved(y, Deliver(claim)))
  {
    var s := TigerCall(claim);
    GateKeepsSettled(y, s);
    var next := Moved(y, Deliver(claim));
    assert next.gate.txs == y.gate.txs;
    forall item | item in next.items
      ensures Holds(next.gate.txs, item.event.paidTransactionId, item.event.invoiceId)
    {
      if item in Handed(y.gate.tiger, claim) { assert TigerShape(y.gate.tiger[item.id].entry); }
    }
  }

  lemma OneMorePosted(y: System, d: Posted)
    requires PostedElected(y) && Holds(y.gate.txs, d.event.paidTransactionId, Trim(DotNetSpace, d.event.invoiceId))
    ensures PostedElected(y.(posted := y.posted + [d]))
  {
  }

  lemma WorkKeepsSettled(y: System, item: Item, date: Date, w: Weather, after: Book, r: InvoiceResult)
    requires Settled(y) && ItemsFit(y) && item in y.items && Handled(y.book, item.event, date, w, after, r)
    ensures Settled(Worked(y, item, date, w, after, r))
  {
    var z := Worked(y, item, date, w, after, r);
    ItemInvoice(y, item);
    OneMorePosted(y, Posted(item.event, date));
    assert z.gate == y.gate && z.items == y.items;
    assert z.posted == y.posted || z.posted == y.posted + [Posted(item.event, date)];
  }

  lemma MoveKeepsSettled(y: System, m: Move)
    requires Settled(y) && ItemsFit(y) && Gentle(m)
    ensures Settled(Moved(y, m))
  {
    match m
    case GateMove(s) => if !OwnMove(s) { GateKeepsSettled(y, s); }
    case Deliver(claim) => if claim.Claim? { DeliverKeepsSettled(y, claim); }
    case Work(item, date, w, after, r) =>
      if item in y.items && Handled(y.book, item.event, date, w, after, r) { WorkKeepsSettled(y, item, date, w, after, r); }
    case AnswerArrives(id, a, time) =>
      if (id, a) in y.answers { GateKeepsSettled(y, TigerCall(Q.Report(id, a, time))); }
    case Others(after) =>
  }

  lemma {:induction false} RunKeepsSettled(y: System, moves: seq<Move>, start: Book)
    requires Sound(y, start) && Settled(y) && AllGentle(moves)
    ensures Settled(Ran(y, moves))
    decreases |moves|
  {
    if moves != [] {
      MoveKeepsSound(y, moves[0], start);
      MoveKeepsSettled(y, moves[0]);
      RunKeepsSettled(Moved(y, moves[0]), moves[1..], start);
    }
  }

  lemma AtMostOnePosting(y: System, start: Book)
    requires Balanced(y, start) && OneEntryEach(y.book)
    ensures forall invoice :: SumOf(y.posted, PostedCounter(invoice)) <= 1
  {
    forall invoice ensures SumOf(y.posted, PostedCounter(invoice)) <= 1 { assert Entries(y.book, invoice) <= 1; }
  }

  /** The layers together: on every run without an explicit cancel each invoice is posted for the transaction that is its
      paid one to the end of the run, the 1C queue names that same transaction, and unless a false answer makes the
      worker enter an invoice twice it is posted at most once. */
  lemma PostedOnceForTheWinner(gate: Gate, book: Book, moves: seq<Move>)
    requires CanStart(gate, book) && Elected(gate) && AllGentle(moves)
    ensures var y := Ran(Start(gate, book), moves);
            && (!EverEntersTwice(Start(gate, book), moves) ==> forall invoice :: SumOf(y.posted, PostedCounter(invoice)) <= 1)
            && PostedElected(y)
            && (forall k, i | 0 <= k < |y.posted| && 0 <= i < |y.gate.oneC| ::
                  Trim(DotNetSpace, y.posted[k].event.invoiceId) == y.gate.oneC[i].entry.invoice ==>
                    y.posted[k].event.paidTransactionId == y.gate.oneC[i].entry.event.paidTransactionId)
  {
    RunKeepsSound(Start(gate, book), moves, book);
    RunKeepsSettled(Start(gate, book), moves, book);
    EntriesAreConserved(gate, book, moves);
    var y := Ran(Start(gate, book), moves);
    if OneEntryEach(y.book) { AtMostOnePosting(y, book); }
    forall k, i | 0 <= k < |y.posted| && 0 <= i < |y.gate.oneC|
      && Trim(DotNetSpace, y.posted[k].event.invoiceId) == y.gate.oneC[i].entry.invoice
      ensures y.posted[k].event.paidTransactionId == y.gate.oneC[i].entry.event.paidTransactionId
    {
      assert Holds(y.gate.txs, y.posted[k].event.paidTransactionId, Trim(DotNetSpace, y.posted[k].event.invoiceId));
    }
  }
}
