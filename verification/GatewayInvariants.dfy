/** What every step of the gateway keeps. */
module GatewayInvariants {
  import opened Basics
  import opened Text
  import opened Transactions
  import opened Election
  import opened PaymentEvents
  import opened Gateway
  import Q = ExportQueue

  // ----- On every run -----

  ghost predicate TableShape(txs: Table) {
    && OnePaidPerInvoice(txs)
    && forall id | id in txs && txs[id].invoice.Some? ::
         txs[id].invoice.value != "" && Strip(txs[id].invoice.value) == txs[id].invoice.value
  }

  predicate Stripped(s: string) { s != "" && Strip(s) == s }

  /** A 1C entry is keyed by the payment in its event. */
  predicate OneCShape(entry: Q.Entry<Event>) {
    && entry.key == entry.payment == Strip(entry.event.paidTransactionId)
    && entry.invoice == entry.event.invoiceId && Stripped(entry.invoice)
  }

  /** A Tiger entry is keyed by the invoice in its event. */
  predicate TigerShape(entry: Q.Entry<Event>) {
    && entry.key == entry.invoice == entry.event.invoiceId && Stripped(entry.invoice)
    && entry.payment == Strip(entry.event.paidTransactionId)
  }

  ghost predicate OneCQueueShape(q: Queue) {
    Q.UniqueKeys(q) && forall i | 0 <= i < |q| :: OneCShape(q[i].entry)
  }

  ghost predicate TigerQueueShape(q: Queue) {
    Q.UniqueKeys(q) && forall i | 0 <= i < |q| :: TigerShape(q[i].entry)
  }

  predicate FanShape(fan: Fan) {
    fan.snapshot.invoice == Some(fan.invoice) && Stripped(fan.invoice)
  }

  ghost predicate FansShape(fans: map<nat, Fan>) {
    forall f | f in fans :: FanShape(fans[f])
  }

  /** The tiger queue only mentions transactions that have the row's invoice id. */
  ghost predicate TigerKnows(g: Gate) {
    forall i | 0 <= i < |g.tiger| ::
      Invoiced(g.txs, g.tiger[i].entry.event.paidTransactionId, g.tiger[i].entry.invoice)
  }

  predicate Invoiced(txs: Table, id: TxId, invoice: string) {
    id in txs && txs[id].invoice == Some(invoice)
  }

  ghost predicate FansKnow(g: Gate) {
    forall f | f in g.fans :: Invoiced(g.txs, g.fans[f].origin, g.fans[f].invoice)
  }

  ghost predicate Shape(g: Gate) {
    && TableShape(g.txs) && OneCQueueShape(g.oneC) && TigerQueueShape(g.tiger) && FansShape(g.fans)
    && TigerKnows(g) && FansKnow(g)
  }

  lemma WriteKeepsTableShape(txs: Table, w: Write, now: string)
    requires TableShape(txs)
    ensures TableShape(Written(txs, w, now))
    ensures forall id, invoice | Invoiced(txs, id, invoice) :: Invoiced(Written(txs, w, now), id, invoice)
  {
    WriteKeepsOnePaid(txs, w, now);
  }

  /** The event of a transaction with an invoice id names that transaction and that invoice. */
  lemma EventNames(id: TxId, t: Tx, r: Readings, invoice: string)
    requires t.invoice == Some(invoice) && Stripped(invoice)
    ensures BuildEvent(id, t, r).Some?
    ensures BuildEvent(id, t, r).value.invoiceId == invoice && BuildEvent(id, t, r).value.paidTransactionId == id
  {
  }

  lemma EntriesName(id: TxId, t: Tx, r: Readings, invoice: string)
    requires t.invoice == Some(invoice) && Stripped(invoice)
    ensures OneCEntryFor(id, t, r).Some? ==>
              var entry := OneCEntryFor(id, t, r).value;
              OneCShape(entry) && entry.event.paidTransactionId == id && entry.invoice == invoice
    ensures TigerEntryFor(id, t, r).Some? ==>
              var entry := TigerEntryFor(id, t, r).value;
              TigerShape(entry) && entry.event.paidTransactionId == id && entry.invoice == invoice
  {
  }

  // ----- Where the rows of the queues come from -----

  /** The entry this step writes into the 1C queue. */
  function OneCPutBy(g: Gate, s: Step): Option<Q.Entry<Event>> {
    if s.FanOneC? && FanAt(g, s.fan, ToOneC)
    then OneCEntryFor(g.fans[s.fan].origin, g.fans[s.fan].snapshot, s.readings) else None
  }

  /** The entry this step writes into the Tiger queue. */
  function TigerPutBy(g: Gate, s: Step): Option<Q.Entry<Event>> {
    if s.FanTiger? && FanAt(g, s.fan, ToTiger)
    then TigerEntryFor(g.fans[s.fan].origin, g.fans[s.fan].snapshot, s.readings)
    else if s.Rebuild? && s.row < |g.tiger| && !g.tiger[s.row].status.Success?
            && g.tiger[s.row].entry.event.paidTransactionId in g.txs
            && IsPaid(g.txs[g.tiger[s.row].entry.event.paidTransactionId])
    then TigerEntryFor(g.tiger[s.row].entry.event.paidTransactionId,
                       g.txs[g.tiger[s.row].entry.event.paidTransactionId], s.readings)
    else None
  }

  /** A queue after a step: every row keeps its entry, or got the one that was written. */
  ghost predicate Derived(q: Queue, after: Queue, put: Option<Q.Entry<Event>>) {
    && |q| <= |after|
    && forall i | 0 <= i < |after| ::
         (i < |q| && after[i].entry == q[i].entry) || Some(after[i].entry) == put
  }

  lemma CallKeepsEntries(q: Queue, op: Q.Op<Event>)
    requires QueueCall(op)
    ensures Derived(q, Q.Applied(q, op), None)
  {
  }

  lemma OneCPutDerives(q: Queue, entry: Q.Entry<Event>, now: int)
    ensures Derived(q, Q.OneCPut(q, entry, now), Some(entry))
    ensures Q.UniqueKeys(q) ==> Q.UniqueKeys(Q.OneCPut(q, entry, now))
  {
  }

  lemma TigerPutDerives(q: Queue, entry: Q.Entry<Event>, fault: Option<string>, now: int)
    ensures Derived(q, Q.TigerPut(q, entry, fault, now), Some(entry))
    ensures Q.UniqueKeys(q) ==> Q.UniqueKeys(Q.TigerPut(q, entry, fault, now))
  {
  }

  lemma CallKeepsKeys(q: Queue, op: Q.Op<Event>)
    requires QueueCall(op) && Q.UniqueKeys(q)
    ensures Q.UniqueKeys(Q.Applied(q, op))
  {
  }

  lemma OneCStep(g: Gate, s: Step)
    ensures Derived(g.oneC, Stepped(g, s).oneC, OneCPutBy(g, s))
    ensures Q.UniqueKeys(g.oneC) ==> Q.UniqueKeys(Stepped(g, s).oneC)
  {
    match s
    case FanOneC(fan, r, time) =>
      if OneCPutBy(g, s).Some? { OneCPutDerives(g.oneC, OneCPutBy(g, s).value, time); }
    case OneCCall(op) =>
      if QueueCall(op) {
        CallKeepsEntries(g.oneC, op);
        if Q.UniqueKeys(g.oneC) { CallKeepsKeys(g.oneC, op); }
      }
    case _ =>
  }

  lemma FanTigerStep(g: Gate, s: Step)
    requires s.FanTiger?
    ensures Derived(g.tiger, Stepped(g, s).tiger, TigerPutBy(g, s))
    ensures Q.UniqueKeys(g.tiger) ==> Q.UniqueKeys(Stepped(g, s).tiger)
  {
    if TigerPutBy(g, s).Some? {
      var entry := TigerPutBy(g, s).value;
      TigerPutDerives(g.tiger, entry, GatewayComplaint(entry.event), s.time);
    }
  }

  lemma RebuildStep(g: Gate, s: Step)
    requires s.Rebuild?
    ensures Derived(g.tiger, Stepped(g, s).tiger, TigerPutBy(g, s))
    ensures Q.UniqueKeys(g.tiger) ==> Q.UniqueKeys(Stepped(g, s).tiger)
  {
    if TigerPutBy(g, s).Some? {
      var entry := TigerPutBy(g, s).value;
      TigerPutDerives(g.tiger, entry, GatewayComplaint(entry.event), s.time);
    }
  }

  lemma TigerStep(g: Gate, s: Step)
    ensures Derived(g.tiger, Stepped(g, s).tiger, TigerPutBy(g, s))
    ensures Q.UniqueKeys(g.tiger) ==> Q.UniqueKeys(Stepped(g, s).tiger)
  {
    match s
    case FanTiger(_, _, _) => FanTigerStep(g, s);
    case Rebuild(_, _, _) => RebuildStep(g, s);
    case TigerCall(op) =>
      if QueueCall(op) {
        CallKeepsEntries(g.tiger, op);
        if Q.UniqueKeys(g.tiger) { CallKeepsKeys(g.tiger, op); }
      }
    case _ =>
  }

  predicate SameFan(a: Fan, b: Fan) {
    a.origin == b.origin && a.invoice == b.invoice && a.snapshot == b.snapshot
  }

  lemma OldFanStep(g: Gate, s: Step, f: nat)
    requires f in Stepped(g, s).fans && f in g.fans
    ensures SameFan(Stepped(g, s).fans[f], g.fans[f])
  {
    match s
    case StartFan(_, _) =>
    case FanOneC(fan, r, time) => OneCKeepsFans(g, fan, r, time, f);
    case FanTiger(fan, r, time) => TigerKeepsFans(g, fan, r, time, f);
    case FanList(_, _) =>
    case FanCancel(_, _, _, _) =>
    case _ =>
  }

  lemma OneCKeepsFans(g: Gate, fan: nat, r: Readings, time: int, f: nat)
    requires f in WithOneC(g, fan, r, time).fans && f in g.fans
    ensures SameFan(WithOneC(g, fan, r, time).fans[f], g.fans[f])
  {
  }

  lemma TigerKeepsFans(g: Gate, fan: nat, r: Readings, time: int, f: nat)
    requires f in WithTiger(g, fan, r, time).fans && f in g.fans
    ensures SameFan(WithTiger(g, fan, r, time).fans[f], g.fans[f])
  {
  }

  lemma NewFanStep(g: Gate, s: Step, f: nat)
    requires f in Stepped(g, s).fans && f !in g.fans
    ensures s.StartFan? && CanStartFan(g, s.origin)
    ensures Stepped(g, s).fans[f] == Fan(s.origin, g.txs[s.origin].invoice.value, g.txs[s.origin], ToOneC)
  {
  }

  /** A fan-out after a step is new and of a paid transaction, or the same one further on. */
  lemma FanStep(g: Gate, s: Step, f: nat)
    requires f in Stepped(g, s).fans
    ensures var fan := Stepped(g, s).fans[f];
            if f in g.fans
            then SameFan(fan, g.fans[f])
            else s.StartFan? && CanStartFan(g, s.origin)
                 && fan == Fan(s.origin, g.txs[s.origin].invoice.value, g.txs[s.origin], ToOneC)
  {
    if f in g.fans { OldFanStep(g, s, f); } else { NewFanStep(g, s, f); }
  }

  // ----- Shape is kept -----

  lemma TableStep(g: Gate, s: Step)
    requires TableShape(g.txs)
    ensures TableShape(Stepped(g, s).txs)
    ensures forall id, invoice | Invoiced(g.txs, id, invoice) :: Invoiced(Stepped(g, s).txs, id, invoice)
  {
    OnlyTableWrites(g, s);
    var w := TableWrite(g, s);
    if w.Some? { WriteKeepsTableShape(g.txs, w.value, Stamp(s)); }
  }

  /** What a step puts into the 1C queue names the transaction and invoice of its fan-out. */
  lemma OneCPutNames(g: Gate, s: Step)
    requires FansShape(g.fans) && OneCPutBy(g, s).Some?
    ensures var entry := OneCPutBy(g, s).value;
            OneCShape(entry) && entry.event.paidTransactionId == g.fans[s.fan].origin
            && entry.invoice == g.fans[s.fan].invoice
  {
  }

  /** What a step puts into the Tiger queue names a transaction and its invoice. */
  lemma TigerPutNames(g: Gate, s: Step)
    requires Shape(g) && TigerPutBy(g, s).Some?
    ensures var entry := TigerPutBy(g, s).value;
            && TigerShape(entry)
            && (if s.FanTiger?
                then entry.event.paidTransactionId == g.fans[s.fan].origin && entry.invoice == g.fans[s.fan].invoice
                else entry.event.paidTransactionId == g.tiger[s.row].entry.event.paidTransactionId
                     && entry.invoice == g.tiger[s.row].entry.invoice)
  {
  }

  lemma OneCStaysShaped(g: Gate, s: Step)
    requires Shape(g)
    ensures OneCQueueShape(Stepped(g, s).oneC)
  {
    OneCStep(g, s);
    if OneCPutBy(g, s).Some? { OneCPutNames(g, s); }
    var after := Stepped(g, s).oneC;
    forall i | 0 <= i < |after| ensures OneCShape(after[i].entry) {
      assert (i < |g.oneC| && after[i].entry == g.oneC[i].entry) || Some(after[i].entry) == OneCPutBy(g, s);
    }
  }

  lemma TigerStaysShaped(g: Gate, s: Step)
    requires Shape(g)
    ensures TigerQueueShape(Stepped(g, s).tiger) && TigerKnows(Stepped(g, s))
  {
    TigerStep(g, s);
    TableStep(g, s);
    if TigerPutBy(g, s).Some? { TigerPutNames(g, s); }
    var after := Stepped(g, s);
    forall i | 0 <= i < |after.tiger|
      ensures TigerShape(after.tiger[i].entry)
      ensures Invoiced(after.txs, after.tiger[i].entry.event.paidTransactionId, after.tiger[i].entry.invoice)
    {
      assert (i < |g.tiger| && after.tiger[i].entry == g.tiger[i].entry)
             || Some(after.tiger[i].entry) == TigerPutBy(g, s);
    }
  }

  lemma FansStayShaped(g: Gate, s: Step)
    requires Shape(g)
    ensures FansShape(Stepped(g, s).fans) && FansKnow(Stepped(g, s))
  {
    TableStep(g, s);
    forall f | f in Stepped(g, s).fans
      ensures FanShape(Stepped(g, s).fans[f])
      ensures Invoiced(Stepped(g, s).txs, Stepped(g, s).fans[f].origin, Stepped(g, s).fans[f].invoice)
    {
      FanStep(g, s, f);
    }
  }

  /** Every step of every run keeps the gateway in shape. */
  lemma StepKeepsShape(g: Gate, s: Step)
    requires Shape(g)
    ensures Shape(Stepped(g, s))
  {
    TableStep(g, s);
    OneCStaysShaped(g, s);
    TigerStaysShaped(g, s);
    FansStayShaped(g, s);
  }

  lemma {:induction false} RunKeepsShape(g: Gate, steps: seq<Step>)
    requires Shape(g)
    ensures Shape(Run(g, steps))
    decreases |steps|
  {
    if steps != [] {
      StepKeepsShape(g, steps[0]);
      RunKeepsShape(Stepped(g, steps[0]), steps[1..]);
    }
  }
}
