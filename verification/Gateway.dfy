/**
 The gateway as a state machine: the transaction table, the two export queues, and the fan-outs in
 progress. One step is one store call, so anything may happen between the calls of a fan-out.
 */
module Gateway {
  import opened Basics
  import opened Text
  import opened Transactions
  import opened PaymentEvents
  import Q = ExportQueue

  type Queue = Q.Queue<Event>

  /** Where cancel_other_invoice_transactions_if_paid stands; `rest` is the prefetched sibling list. */
  datatype Stage = ToOneC | ToTiger | ToList | Canceling(rest: seq<TxId>)

  datatype Fan = Fan(origin: TxId, invoice: string, snapshot: Tx, stage: Stage)

  datatype Gate = Gate(txs: Table, fans: map<nat, Fan>, oneC: Queue, tiger: Queue)

  datatype Step =
    | Store(w: Write, now: string)
    | StartFan(fan: nat, origin: TxId)
    | FanOneC(fan: nat, readings: Readings, time: int)
    | FanTiger(fan: nat, readings: Readings, time: int)
    | FanList(fan: nat, siblings: seq<TxId>)
    | FanCancel(fan: nat, succeeds: bool, provider: string, now: string)
    | OneCCall(op: Q.Op<Event>)
    | TigerCall(op: Q.Op<Event>)
    | Rebuild(row: nat, readings: Readings, time: int)

  /** A client or an administrator cancels a transaction. */
  predicate ExplicitCancel(s: Step) { s.Store? && s.w.Cancel? }

  // ----- The sibling list -----

  predicate AutoCancelStatus(status: Option<string>) {
    status in {Some("inited"), Some("waiting"), Some("qr_scanned"), Some(UNKNOWN)}
  }

  predicate Sibling(txs: Table, origin: TxId, invoice: string, id: TxId) {
    && id in txs && id != origin
    && txs[id].invoice == Some(invoice) && AutoCancelStatus(txs[id].status)
  }

  /** list_invoice_transactions_for_cancel: the hundred most recently updated siblings. */
  ghost predicate Listing(txs: Table, origin: TxId, invoice: string, siblings: seq<TxId>) {
    && |siblings| <= 100
    && (forall i | 0 <= i < |siblings| :: Sibling(txs, origin, invoice, siblings[i]))
    && (forall i, j | 0 <= i < j < |siblings| ::
          siblings[i] != siblings[j] && !LexLess(txs[siblings[i]].updatedAt, txs[siblings[j]].updatedAt))
    && (forall id | id in txs && Sibling(txs, origin, invoice, id) && id !in siblings ::
          |siblings| == 100 && forall i | 0 <= i < 100 :: !LexLess(txs[siblings[i]].updatedAt, txs[id].updatedAt))
  }

  // ----- Entries -----

  /** upsert_one_c_payment_export: keyed by payment; None stands for the ValueError on a blank field. */
  function OneCEntry(e: Event): Option<Q.Entry<Event>> {
    match (Clean(Some(e.paidTransactionId)), Clean(Some(e.invoiceId)), Clean(Some(e.paidProvider)))
    case (Some(payment), Some(invoice), Some(_)) => Some(Q.Entry(payment, invoice, payment, e))
    case _ => None
  }

  /** upsert_tiger_invoice_export: keyed by invoice. */
  function TigerEntry(e: Event): Option<Q.Entry<Event>> {
    match (Clean(Some(e.paidTransactionId)), Clean(Some(e.invoiceId)), Clean(Some(e.paidProvider)))
    case (Some(payment), Some(invoice), Some(_)) => Some(Q.Entry(invoice, invoice, payment, e))
    case _ => None
  }

  function OneCEntryFor(id: TxId, t: Tx, r: Readings): Option<Q.Entry<Event>> {
    match BuildEvent(id, t, r)
    case None => None
    case Some(e) => OneCEntry(e)
  }

  function TigerEntryFor(id: TxId, t: Tx, r: Readings): Option<Q.Entry<Event>> {
    match BuildEvent(id, t, r)
    case None => None
    case Some(e) => TigerEntry(e)
  }

  /** The rows are keyed by payment in the one queue and by invoice in the other. */
  lemma EntriesAre(e: Event)
    ensures OneCEntry(e).Some? <==> TigerEntry(e).Some?
    ensures TigerEntry(e).Some? <==>
            Strip(e.paidTransactionId) != "" && Strip(e.invoiceId) != "" && Strip(e.paidProvider) != ""
    ensures OneCEntry(e).Some? ==>
              OneCEntry(e).value == Q.Entry(Strip(e.paidTransactionId), Strip(e.invoiceId), Strip(e.paidTransactionId), e)
    ensures TigerEntry(e).Some? ==>
              TigerEntry(e).value == Q.Entry(Strip(e.invoiceId), Strip(e.invoiceId), Strip(e.paidTransactionId), e)
  {
  }

  // ----- Steps -----

  function CanStartFan(g: Gate, id: TxId): bool {
    && id in g.txs && IsPaid(g.txs[id])
    && g.txs[id].invoice.Some? && Strip(g.txs[id].invoice.value) != ""
  }

  function Started(g: Gate, fan: nat, id: TxId): Gate {
    if fan in g.fans || !CanStartFan(g, id) then g
    else g.(fans := g.fans[fan := Fan(id, g.txs[id].invoice.value, g.txs[id], ToOneC)])
  }

  predicate FanAt(g: Gate, fan: nat, stage: Stage) {
    fan in g.fans && g.fans[fan].stage == stage
  }

  predicate FanCancels(g: Gate, fan: nat) {
    fan in g.fans && g.fans[fan].stage.Canceling? && g.fans[fan].stage.rest != []
  }

  function Moved(g: Gate, fan: nat, stage: Stage): Gate
    requires fan in g.fans
  {
    g.(fans := g.fans[fan := g.fans[fan].(stage := stage)])
  }

  /** An exception ends the fan-out. */
  function Aborted(g: Gate, fan: nat): Gate {
    g.(fans := g.fans - {fan})
  }

  function WithOneC(g: Gate, fan: nat, r: Readings, time: int): Gate {
    if !FanAt(g, fan, ToOneC) then g
    else
      match OneCEntryFor(g.fans[fan].origin, g.fans[fan].snapshot, r)
      case None => Aborted(g, fan)
      case Some(entry) => Moved(g, fan, ToTiger).(oneC := Q.OneCPut(g.oneC, entry, time))
  }

  function WithTiger(g: Gate, fan: nat, r: Readings, time: int): Gate {
    if !FanAt(g, fan, ToTiger) then g
    else
      match TigerEntryFor(g.fans[fan].origin, g.fans[fan].snapshot, r)
      case None => Aborted(g, fan)
      case Some(entry) =>
        Moved(g, fan, ToList).(tiger := Q.TigerPut(g.tiger, entry, GatewayComplaint(entry.event), time))
  }

  ghost function Listed(g: Gate, fan: nat, siblings: seq<TxId>): Gate {
    if FanAt(g, fan, ToList) && Listing(g.txs, g.fans[fan].origin, g.fans[fan].invoice, siblings)
    then Moved(g, fan, Canceling(siblings)) else g
  }

  /** The next sibling; a provider failure is logged and the loop goes on. */
  function Canceled(g: Gate, fan: nat, succeeds: bool, provider: string, now: string): Gate {
    if !FanCancels(g, fan) then g
    else
      var rest := g.fans[fan].stage.rest;
      Moved(g, fan, Canceling(rest[1..])).(
        txs := if succeeds then StatusSet(g.txs, rest[0], CANCELED, provider, now) else g.txs)
  }

  /** The rebuild in reset_local_tiger_invoice_event; the reset itself is a queue step of its own. */
  function Rebuilt(g: Gate, row: nat, r: Readings, time: int): Gate {
    if row >= |g.tiger| || g.tiger[row].status.Success? then g
    else
      var payment := g.tiger[row].entry.event.paidTransactionId;
      if payment !in g.txs || !IsPaid(g.txs[payment]) then g
      else
        match TigerEntryFor(payment, g.txs[payment], r)
        case None => g
        case Some(entry) => g.(tiger := Q.TigerPut(g.tiger, entry, GatewayComplaint(entry.event), time))
  }

  /** The worker-side queue calls: claims, answers and resets. */
  predicate QueueCall(op: Q.Op<Event>) { op.Claim? || op.Report? || op.Restart? }

  ghost function Stepped(g: Gate, s: Step): Gate {
    match s
    case Store(w, now) => g.(txs := Written(g.txs, w, now))
    case StartFan(fan, origin) => Started(g, fan, origin)
    case FanOneC(fan, r, time) => WithOneC(g, fan, r, time)
    case FanTiger(fan, r, time) => WithTiger(g, fan, r, time)
    case FanList(fan, siblings) => Listed(g, fan, siblings)
    case FanCancel(fan, succeeds, provider, now) => Canceled(g, fan, succeeds, provider, now)
    case OneCCall(op) => if QueueCall(op) then g.(oneC := Q.Applied(g.oneC, op)) else g
    case TigerCall(op) => if QueueCall(op) then g.(tiger := Q.Applied(g.tiger, op)) else g
    case Rebuild(row, r, time) => Rebuilt(g, row, r, time)
  }

  ghost function Run(g: Gate, steps: seq<Step>): Gate
    decreases |steps|
  {
    if steps == [] then g else Run(Stepped(g, steps[0]), steps[1..])
  }

  ghost predicate NoExplicitCancel(steps: seq<Step>) {
    forall i | 0 <= i < |steps| :: !ExplicitCancel(steps[i])
  }

  /** The write a step makes to the transaction table, if any. */
  function TableWrite(g: Gate, s: Step): Option<Write> {
    match s
    case Store(w, now) => Some(w)
    case FanCancel(fan, succeeds, provider, now) =>
      if FanCancels(g, fan) && succeeds then Some(Cancel(g.fans[fan].stage.rest[0], provider)) else None
    case _ => None
  }

  function Stamp(s: Step): string {
    match s
    case Store(_, now) => now
    case FanCancel(_, _, _, now) => now
    case _ => ""
  }

  lemma OnlyTableWrites(g: Gate, s: Step)
    ensures Stepped(g, s).txs ==
            match TableWrite(g, s) case None => g.txs case Some(w) => Written(g.txs, w, Stamp(s))
  {
  }

  /** The statuses that are cancelled automatically. */
  lemma SiblingIff(txs: Table, origin: TxId, invoice: string, id: TxId)
    ensures Sibling(txs, origin, invoice, id) <==>
            && id in txs && id != origin && txs[id].invoice == Some(invoice)
            && txs[id].status in {Some("inited"), Some("waiting"), Some("qr_scanned"), Some("unknown")}
  {
  }

  /** If there are more than a hundred, those left out have not changed later than those listed. */
  lemma ListingTakesTheNewest(txs: Table, origin: TxId, invoice: string, siblings: seq<TxId>, id: TxId)
    requires Listing(txs, origin, invoice, siblings) && id !in siblings
    requires id in txs && id != origin && txs[id].invoice == Some(invoice)
    requires txs[id].status in {Some("inited"), Some("waiting"), Some("qr_scanned"), Some("unknown")}
    ensures |siblings| == 100
    ensures forall i | 0 <= i < 100 :: siblings[i] in txs && !LexLess(txs[siblings[i]].updatedAt, txs[id].updatedAt)
  {
    assert Sibling(txs, origin, invoice, id);
  }

  /** A fan-out starts for a transaction that is paid and has an invoice id that is not blank. */
  lemma CanStartFanIff(g: Gate, id: TxId)
    ensures CanStartFan(g, id) <==>
            && id in g.txs && g.txs[id].status == Some("paid")
            && g.txs[id].invoice.Some? && Strip(g.txs[id].invoice.value) != ""
  {
  }

  /** What has been paid, set aside or cancelled is never put on a list, and of the rest only this invoice's others. */
  lemma ListingSparesTheClosed(txs: Table, origin: TxId, invoice: string, siblings: seq<TxId>)
    requires Listing(txs, origin, invoice, siblings)
    ensures origin !in siblings
    ensures forall id | id in siblings ::
              && id in txs && txs[id].invoice == Some(invoice)
              && txs[id].status !in {None, Some(PAID), Some(DUPLICATE), Some(CANCELED)}
  {
  }
}
