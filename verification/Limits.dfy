/** Runs from the empty gateway that show what is not true of it. */
module Limits {
  import opened Basics
  import opened Text
  import opened Transactions
  import opened Election
  import opened PaymentEvents
  import opened Gateway
  import opened GatewayRuns
  import opened GatewayInvariants
  import opened Winners
  import opened FirstPaid
  import opened PaymentService

  // ----- A fan-out that has a sibling on its list -----

  function Snapshot(invoice: string, p: string): Incoming {
    Incoming(p, Some(UNKNOWN), Some(100), Some(invoice), None, None, map[], None, map[], None, map[])
  }

  function Row(status: string, invoice: string, p: string): Tx {
    Tx(p, Some(status), Some(100), Some(invoice), None, None, map[], None, map[], None, map[], "")
  }

  function Created(id: TxId, invoice: string, p: string): Step {
    Store(Upsert(id, Snapshot(invoice, p), true), "")
  }

  /** A callback, undisturbed in this state. */
  function Callback(g: Gate, id: TxId, status: string, p: string): Step {
    Delivery(g, p, Webhook(id, Some(status), Some(100), None, None, None), "")
  }

  function Pair(a: TxId, first: string, b: TxId, second: string, invoice: string, p: string): Table {
    map[a := Row(first, invoice, p), b := Row(second, invoice, p)]
  }

  function TwoCreated(a: TxId, b: TxId, invoice: string, p: string): Table { Pair(a, UNKNOWN, b, UNKNOWN, invoice, p) }

  function OnePaid(a: TxId, b: TxId, invoice: string, p: string): Table { Pair(a, PAID, b, UNKNOWN, invoice, p) }

  ghost function FirstSteps(a: TxId, b: TxId, invoice: string, p: string): seq<Step> {
    [ Created(a, invoice, p), Created(b, invoice, p),
      Callback(EMPTY.(txs := TwoCreated(a, b, invoice, p)), a, PAID, p) ]
  }

  /** Two transactions of an invoice are created, a is paid, and its fan-out goes as far as listing b. */
  ghost function Setup(a: TxId, b: TxId, invoice: string, p: string, x: FanInputs): seq<Step> {
    FirstSteps(a, b, invoice, p) + Opening(a, x, [b])
  }

  ghost function Listed(a: TxId, b: TxId, invoice: string, p: string, x: FanInputs): Gate {
    Run(EMPTY, Setup(a, b, invoice, p, x))
  }

  predicate Proper(a: TxId, b: TxId, invoice: string, p: string) {
    a != b && Strip(a) != "" && Stripped(invoice) && Stripped(p)
  }

  lemma CreatedRow(g: Gate, id: TxId, invoice: string, p: string)
    requires id !in g.txs && Stripped(invoice)
    ensures Stepped(g, Created(id, invoice, p)) == g.(txs := g.txs[id := Row(UNKNOWN, invoice, p)])
  {
  }

  lemma PaidIsClean()
    ensures Strip(PAID) == PAID
  {
    TrimIsTrimmed(PythonSpace, PAID);
  }

  lemma PaidRow(a: TxId, b: TxId, invoice: string, p: string)
    requires Proper(a, b, invoice, p)
    ensures var g := EMPTY.(txs := TwoCreated(a, b, invoice, p));
            Stepped(g, Callback(g, a, PAID, p)) == EMPTY.(txs := OnePaid(a, b, invoice, p))
  {
    var txs := TwoCreated(a, b, invoice, p);
    PaidIsClean();
    FirstPaidRow(a, b, invoice, p);
    assert HookedRow(txs[a], Callback(EMPTY.(txs := txs), a, PAID, p).w.hook, "") == Row(PAID, invoice, p);
  }

  lemma FirstPaidRow(a: TxId, b: TxId, invoice: string, p: string)
    requires Proper(a, b, invoice, p)
    ensures Place(TwoCreated(a, b, invoice, p), a, Row(PAID, invoice, p)) == OnePaid(a, b, invoice, p)
  {
    var txs := TwoCreated(a, b, invoice, p);
    assert !Conflicts(txs, a, Row(PAID, invoice, p));
    assert txs[a := Row(PAID, invoice, p)] == OnePaid(a, b, invoice, p);
  }

  lemma EntriesExist(id: TxId, t: Tx, r: Readings)
    requires Strip(id) != "" && t.invoice.Some? && Stripped(t.invoice.value) && Stripped(t.provider)
    ensures OneCEntryFor(id, t, r).Some? && TigerEntryFor(id, t, r).Some?
  {
    EventNames(id, t, r, t.invoice.value);
  }

  lemma FirstStepsRun(a: TxId, b: TxId, invoice: string, p: string)
    requires Proper(a, b, invoice, p)
    ensures Run(EMPTY, FirstSteps(a, b, invoice, p)) == EMPTY.(txs := OnePaid(a, b, invoice, p))
  {
    var steps := FirstSteps(a, b, invoice, p);
    CreatedRow(EMPTY, a, invoice, p);
    CreatedRow(Stepped(EMPTY, steps[0]), b, invoice, p);
    assert Stepped(Stepped(EMPTY, steps[0]), steps[1]).txs == TwoCreated(a, b, invoice, p);
    PaidRow(a, b, invoice, p);
    RunOfThree(EMPTY, steps[0], steps[1], steps[2]);
  }

  lemma FanOpens(a: TxId, b: TxId, invoice: string, p: string, x: FanInputs)
    requires Proper(a, b, invoice, p)
    ensures var g := Run(EMPTY.(txs := OnePaid(a, b, invoice, p)), Opening(a, x, [b]));
            && g.txs == OnePaid(a, b, invoice, p)
            && g.fans == map[0 := Fan(a, invoice, Row(PAID, invoice, p), Canceling([b]))]
  {
    var g := EMPTY.(txs := OnePaid(a, b, invoice, p));
    OpeningRuns(g, a, x, [b]);
    EntriesExist(a, g.txs[a], x.first);
    EntriesExist(a, g.txs[a], x.second);
    ListsB(a, b, invoice, p);
  }

  /** The state is reached: both transactions, the running fan-out with b on its list, and the usual invariants. */
  lemma ListedIsReached(a: TxId, b: TxId, invoice: string, p: string, x: FanInputs)
    requires Proper(a, b, invoice, p)
    ensures var g := Listed(a, b, invoice, p, x);
            && Elected(g) && g.txs == OnePaid(a, b, invoice, p)
            && g.fans == map[0 := Fan(a, invoice, Row(PAID, invoice, p), Canceling([b]))]
  {
    FirstStepsRun(a, b, invoice, p);
    RunAppend(EMPTY, FirstSteps(a, b, invoice, p), Opening(a, x, [b]));
    FanOpens(a, b, invoice, p, x);
    SetupIsGentle(a, b, invoice, p, x);
    RunKeepsElected(EMPTY, Setup(a, b, invoice, p, x));
  }

  lemma SetupIsGentle(a: TxId, b: TxId, invoice: string, p: string, x: FanInputs)
    ensures NoExplicitCancel(Setup(a, b, invoice, p, x)) && Elected(EMPTY)
  {
  }

  lemma ListsB(a: TxId, b: TxId, invoice: string, p: string)
    requires Proper(a, b, invoice, p)
    ensures Listing(OnePaid(a, b, invoice, p), a, invoice, [b])
  {
  }

  // ----- A later payer can end open -----

  lemma LaterPayment(g: Gate, a: TxId, b: TxId, invoice: string, p: string)
    requires Proper(a, b, invoice, p) && g.txs == OnePaid(a, b, invoice, p)
    ensures Pays(g.txs, Callback(g, b, PAID, p), invoice)
    ensures Stepped(g, Callback(g, b, PAID, p)) == g.(txs := Pair(a, PAID, b, DUPLICATE, invoice, p))
  {
    PaidIsClean();
    var row := HookedRow(g.txs[b], Callback(g, b, PAID, p).w.hook, "");
    assert Holds(g.txs, a, invoice) && Conflicts(g.txs, b, row);
    assert g.txs[b := DemotedRow(row)] == Pair(a, PAID, b, DUPLICATE, invoice, p);
  }

  lemma ListedCancel(g: Gate, a: TxId, b: TxId, invoice: string, p: string)
    requires a != b && g.txs == Pair(a, PAID, b, DUPLICATE, invoice, p)
    requires g.fans == map[0 := Fan(a, invoice, Row(PAID, invoice, p), Canceling([b]))]
    ensures Stepped(g, FanCancel(0, true, p, "")).txs == Pair(a, PAID, b, CANCELED, invoice, p)
  {
    assert g.txs[b := Row(CANCELED, invoice, p)] == Pair(a, PAID, b, CANCELED, invoice, p);
  }

  lemma FurtherCallback(g: Gate, a: TxId, b: TxId, invoice: string, p: string, status: string)
    requires Proper(a, b, invoice, p) && Stripped(status) && status !in {PAID, DUPLICATE, CANCELED}
    requires g.txs == Pair(a, PAID, b, CANCELED, invoice, p)
    ensures b in Stepped(g, Callback(g, b, status, p)).txs && !Closed(Stepped(g, Callback(g, b, status, p)).txs, b)
  {
  }

  /** "Ends as duplicate or canceled" is false of the code: from the empty gateway, for every further status. */
  lemma LaterPayerCanEndOpen(a: TxId, b: TxId, invoice: string, p: string, x: FanInputs, status: string)
    requires Proper(a, b, invoice, p) && Stripped(status) && status !in {PAID, DUPLICATE, CANCELED}
    ensures var g := Listed(a, b, invoice, p, x);
            var pay, cancel := Callback(g, b, PAID, p), FanCancel(0, true, p, "");
            var other := Callback(Stepped(Stepped(g, pay), cancel), b, status, p);
            && Pays(g.txs, pay, invoice) && Closed(Stepped(g, pay).txs, b)
            && !Closed(Run(EMPTY, Setup(a, b, invoice, p, x) + [pay, cancel, other]).txs, b)
  {
    var g := Listed(a, b, invoice, p, x);
    var pay, cancel := Callback(g, b, PAID, p), FanCancel(0, true, p, "");
    var g2 := Stepped(Stepped(g, pay), cancel);
    var other := Callback(g2, b, status, p);
    ListedIsReached(a, b, invoice, p, x);
    LaterPayment(g, a, b, invoice, p);
    ListedCancel(Stepped(g, pay), a, b, invoice, p);
    FurtherCallback(g2, a, b, invoice, p, status);
    RunOfThree(g, pay, cancel, other);
    RunAppend(EMPTY, Setup(a, b, invoice, p, x), [pay, cancel, other]);
  }

  // ----- An explicit cancel endangers the next winner -----

  lemma CancelledWinnerFreesTheSlot(g: Gate, cancel: Step, pay: Step, id: TxId, invoice: string)
    requires Shape(g) && cancel.Store? && cancel.w.Cancel? && Holds(g.txs, cancel.w.id, invoice)
    requires Pays(g.txs, pay, invoice) && pay.w.hook.id == id && id != cancel.w.id
    ensures Shape(Stepped(Stepped(g, cancel), pay)) && Holds(Stepped(Stepped(g, cancel), pay).txs, id, invoice)
  {
    var g1 := Stepped(g, cancel);
    StepKeepsShape(g, cancel);
    StepKeepsShape(g1, pay);
    SlotStep(g, cancel, cancel.w.id, invoice);
    forall other ensures !Holds(g1.txs, other, invoice) {
      assert other != cancel.w.id && Holds(g1.txs, other, invoice) ==> Holds(g.txs, other, invoice);
    }
    PaidCallbackOutcome(g1.txs, pay.w.provider, pay.w.hook, pay.w.seen, pay.now);
  }

  lemma NextWinnerIsCancelled(g: Gate, a: TxId, b: TxId, invoice: string, p: string)
    requires Proper(a, b, invoice, p) && Shape(g) && g.txs == OnePaid(a, b, invoice, p)
    requires g.fans == map[0 := Fan(a, invoice, Row(PAID, invoice, p), Canceling([b]))]
    ensures var g2 := Stepped(Stepped(g, Store(Cancel(a, p), "")), Callback(g, b, PAID, p));
            Holds(g2.txs, b, invoice) && !Holds(Stepped(g2, FanCancel(0, true, p, "")).txs, b, invoice)
  {
    PaidIsClean();
    var cancel, pay := Store(Cancel(a, p), ""), Callback(g, b, PAID, p);
    CancelledWinnerFreesTheSlot(g, cancel, pay, b, invoice);
    SlotStep(Stepped(Stepped(g, cancel), pay), FanCancel(0, true, p, ""), b, invoice);
  }

  /** Winner stability needs the absence of explicit cancels: after one, the fan-out of the cancelled winner goes on and
      cancels the transaction that has become the paid one. */
  lemma ExplicitCancelEndangersTheNextWinner(a: TxId, b: TxId, invoice: string, p: string, x: FanInputs)
    requires Proper(a, b, invoice, p)
    ensures var g := Listed(a, b, invoice, p, x);
            var cancel, pay, fan := Store(Cancel(a, p), ""), Callback(g, b, PAID, p), FanCancel(0, true, p, "");
            && Holds(Run(EMPTY, Setup(a, b, invoice, p, x) + [cancel, pay]).txs, b, invoice)
            && !Holds(Run(EMPTY, Setup(a, b, invoice, p, x) + [cancel, pay, fan]).txs, b, invoice)
  {
    var g := Listed(a, b, invoice, p, x);
    var cancel, pay, fan := Store(Cancel(a, p), ""), Callback(g, b, PAID, p), FanCancel(0, true, p, "");
    ListedIsReached(a, b, invoice, p, x);
    NextWinnerIsCancelled(g, a, b, invoice, p);
    RunAppend(EMPTY, Setup(a, b, invoice, p, x), [cancel, pay]);
    RunAppend(EMPTY, Setup(a, b, invoice, p, x), [cancel, pay, fan]);
    RunOfTwo(g, cancel, pay);
    RunOfThree(g, cancel, pay, fan);
  }
}
