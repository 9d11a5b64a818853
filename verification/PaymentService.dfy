/** PaymentService over the store objects: an uninterrupted call is one particular run of the gateway's machine. */
module PaymentService {
  import opened Basics
  import opened Text
  import opened Transactions
  import opened TransactionStore
  import opened QueueStore
  import opened PaymentEvents
  import opened Gateway
  import opened Election
  import Q = ExportQueue
  import QueueTheorems
  import opened GatewayRuns

  /** What the provider makes of one automatic cancel. */
  datatype CancelOutcome = CancelOutcome(succeeds: bool, provider: string, now: string)

  /** The readings and clock of one fan-out. */
  datatype FanInputs = FanInputs(
    first: Readings, firstTime: int, second: Readings, secondTime: int, outcomes: nat -> CancelOutcome)

  function CancelSteps(outcomes: nat -> CancelOutcome, n: nat): (steps: seq<Step>)
    ensures |steps| == n
  {
    seq(n, i requires 0 <= i < n => FanCancel(0, outcomes(i).succeeds, outcomes(i).provider, outcomes(i).now))
  }

  function Opening(id: TxId, x: FanInputs, siblings: seq<TxId>): seq<Step> {
    [StartFan(0, id), FanOneC(0, x.first, x.firstTime), FanTiger(0, x.second, x.secondTime), FanList(0, siblings)]
  }

  /** The steps of one fan-out, in order. */
  function FanSteps(id: TxId, x: FanInputs, siblings: seq<TxId>): seq<Step> {
    Opening(id, x, siblings) + CancelSteps(x.outcomes, |siblings|)
  }

  /** What the first four steps of a fan-out do: nothing, the queues' part, or the queues' part and the listing. */
  ghost predicate Opened(g: Gate, id: TxId, x: FanInputs, siblings: seq<TxId>, after: Gate) {
    && after.txs == g.txs
    && if !CanStartFan(g, id) then after == g
       else
         var paid := g.txs[id];
         var first, second := OneCEntryFor(id, paid, x.first), TigerEntryFor(id, paid, x.second);
         && after.oneC == (if first.None? then g.oneC else Q.OneCPut(g.oneC, first.value, x.firstTime))
         && (if first.None? || second.None? then after.tiger == g.tiger
             else
               && after.tiger == Q.TigerPut(g.tiger, second.value, GatewayComplaint(second.value.event), x.secondTime)
               && (Listing(g.txs, id, paid.invoice.value, siblings) ==>
                     after.fans == map[0 := Fan(id, paid.invoice.value, paid, Canceling(siblings))]))
  }

  lemma IdleStep(g: Gate, s: Step)
    requires g.fans == map[] && (s.FanOneC? || s.FanTiger? || s.FanList?)
    ensures Stepped(g, s) == g
  {
  }

  lemma StartStep(g: Gate, id: TxId)
    requires g.fans == map[] && CanStartFan(g, id)
    ensures Stepped(g, StartFan(0, id)) ==
            g.(fans := map[0 := Fan(id, g.txs[id].invoice.value, g.txs[id], ToOneC)])
  {
  }

  lemma OneCFanStep(g: Gate, fan: Fan, r: Readings, time: int)
    requires g.fans == map[0 := fan] && fan.stage == ToOneC
    ensures WithOneC(g, 0, r, time) ==
            match OneCEntryFor(fan.origin, fan.snapshot, r)
            case None => g.(fans := map[])
            case Some(entry) => g.(fans := map[0 := fan.(stage := ToTiger)], oneC := Q.OneCPut(g.oneC, entry, time))
  {
    assert FanAt(g, 0, ToOneC) && g.fans[0] == fan;
    assert g.fans - {0} == map[] && g.fans[0 := fan.(stage := ToTiger)] == map[0 := fan.(stage := ToTiger)];
  }

  lemma TigerFanStep(g: Gate, fan: Fan, r: Readings, time: int)
    requires g.fans == map[0 := fan] && fan.stage == ToTiger
    ensures WithTiger(g, 0, r, time) ==
            match TigerEntryFor(fan.origin, fan.snapshot, r)
            case None => g.(fans := map[])
            case Some(entry) =>
              g.(fans := map[0 := fan.(stage := ToList)],
                 tiger := Q.TigerPut(g.tiger, entry, GatewayComplaint(entry.event), time))
  {
    assert FanAt(g, 0, ToTiger) && g.fans[0] == fan;
    assert g.fans - {0} == map[] && g.fans[0 := fan.(stage := ToList)] == map[0 := fan.(stage := ToList)];
  }

  lemma ListFanStep(g: Gate, fan: Fan, siblings: seq<TxId>)
    requires g.fans == map[0 := fan] && fan.stage == ToList
    ensures Stepped(g, FanList(0, siblings)) ==
            if Listing(g.txs, fan.origin, fan.invoice, siblings)
            then g.(fans := map[0 := fan.(stage := Canceling(siblings))]) else g
  {
  }

  lemma OpeningRuns(g: Gate, id: TxId, x: FanInputs, siblings: seq<TxId>)
    requires g.fans == map[]
    ensures Opened(g, id, x, siblings, Run(g, Opening(id, x, siblings)))
  {
    var start, one, two, list :=
      StartFan(0, id), FanOneC(0, x.first, x.firstTime), FanTiger(0, x.second, x.secondTime), FanList(0, siblings);
    RunOfFour(g, start, one, two, list);
    if !CanStartFan(g, id) {
      IdleStep(g, one);
      IdleStep(g, two);
      IdleStep(g, list);
      return;
    }
    var fan := Fan(id, g.txs[id].invoice.value, g.txs[id], ToOneC);
    StartStep(g, id);
    var g1 := Stepped(g, start);
    OneCFanStep(g1, fan, x.first, x.firstTime);
    var g2 := Stepped(g1, one);
    if g2.fans == map[] {
      IdleStep(g2, two);
      IdleStep(g2, list);
      return;
    }
    TigerFanStep(g2, fan.(stage := ToTiger), x.second, x.secondTime);
    var g3 := Stepped(g2, two);
    if g3.fans == map[] {
      IdleStep(g3, list);
      return;
    }
    ListFanStep(g3, fan.(stage := ToList), siblings);
  }

  // ----- What an undisturbed fan-out achieves -----

  ghost predicate AllSucceed(outcomes: nat -> CancelOutcome, n: nat) {
    forall i | 0 <= i < n :: outcomes(i).succeeds
  }

  ghost predicate AllDifferent(ids: seq<TxId>) { forall i, j | 0 <= i < j < |ids| :: ids[i] != ids[j] }

  /** After n cancels, of the first n siblings those the provider agreed to are canceled, and every other row is as it
      was. */
  ghost predicate ClosedFirst(g: Gate, h: Gate, siblings: seq<TxId>, outcomes: nat -> CancelOutcome, n: nat)
    requires n <= |siblings|
  {
    && FanAt(h, 0, Canceling(siblings[n..])) && h.txs.Keys == g.txs.Keys
    && (forall k | 0 <= k < n ::
          && siblings[k] in h.txs && siblings[k] in g.txs
          && if outcomes(k).succeeds then h.txs[siblings[k]].status == Some("canceled")
             else h.txs[siblings[k]] == g.txs[siblings[k]])
    && (forall id | id in g.txs && id !in siblings[..n] :: h.txs[id] == g.txs[id])
  }

  lemma CancelStepsSnoc(outcomes: nat -> CancelOutcome, n: nat)
    requires n > 0
    ensures CancelSteps(outcomes, n) == CancelSteps(outcomes, n - 1) + [CancelSteps(outcomes, n)[n - 1]]
  {
  }

  lemma {:induction false} CancelsClose(g: Gate, siblings: seq<TxId>, outcomes: nat -> CancelOutcome, n: nat)
    requires FanAt(g, 0, Canceling(siblings)) && n <= |siblings| && AllDifferent(siblings)
    requires forall i | 0 <= i < |siblings| :: siblings[i] in g.txs
    ensures ClosedFirst(g, Run(g, CancelSteps(outcomes, n)), siblings, outcomes, n)
    decreases n
  {
    if n == 0 {
      assert CancelSteps(outcomes, 0) == [] && siblings[0..] == siblings;
    } else {
      var h, s := Run(g, CancelSteps(outcomes, n - 1)), CancelSteps(outcomes, n)[n - 1];
      CancelsClose(g, siblings, outcomes, n - 1);
      RunSnoc(g, CancelSteps(outcomes, n - 1), s);
      CancelStepsSnoc(outcomes, n);
      OneMoreClosed(g, h, siblings, outcomes, s, n - 1);
    }
  }

  lemma OneMoreClosed(g: Gate, h: Gate, siblings: seq<TxId>, outcomes: nat -> CancelOutcome, s: Step, n: nat)
    requires n < |siblings| && ClosedFirst(g, h, siblings, outcomes, n) && AllDifferent(siblings)
    requires s.FanCancel? && s.fan == 0 && s.succeeds == outcomes(n).succeeds
    requires siblings[n] in g.txs
    ensures ClosedFirst(g, Stepped(h, s), siblings, outcomes, n + 1)
  {
    assert siblings[n..][1..] == siblings[n + 1..] && siblings[..n + 1] == siblings[..n] + [siblings[n]];
    assert siblings[n] !in siblings[..n];
  }

  /** If no provider refuses and there are fewer than a hundred, no transaction of the invoice is left open. */
  lemma UndisturbedFanClosesAll(g: Gate, id: TxId, invoice: string, siblings: seq<TxId>,
                                outcomes: nat -> CancelOutcome)
    requires FanAt(g, 0, Canceling(siblings)) && Listing(g.txs, id, invoice, siblings) && |siblings| < 100
    requires AllSucceed(outcomes, |siblings|)
    ensures forall other :: !Sibling(Run(g, CancelSteps(outcomes, |siblings|)).txs, id, invoice, other)
  {
    var n := |siblings|;
    CancelsClose(g, siblings, outcomes, n);
    var h := Run(g, CancelSteps(outcomes, n));
    assert siblings[..n] == siblings;
    forall other ensures !Sibling(h.txs, id, invoice, other) {
      if other in siblings {
        var k :| 0 <= k < n && siblings[k] == other;
        assert h.txs[siblings[k]].status == Some(CANCELED);
      }
    }
  }

  // ----- The sibling list -----

  ghost predicate Newest(txs: Table, s: set<TxId>, m: TxId) {
    m in s && m in txs && forall i | i in s && i in txs :: !LexLess(txs[m].updatedAt, txs[i].updatedAt)
  }

  ghost predicate NewestFirst(txs: Table, ids: seq<TxId>) {
    && (forall i | 0 <= i < |ids| :: ids[i] in txs)
    && forall i, j | 0 <= i < j < |ids| :: ids[i] != ids[j] && !LexLess(txs[ids[i]].updatedAt, txs[ids[j]].updatedAt)
  }

  method FindNewest(txs: Table, s: set<TxId>) returns (m: TxId)
    requires s != {} && s <= txs.Keys
    ensures Newest(txs, s, m)
  {
    m :| m in s;
    var rest := s - {m};
    LexIrreflexive(txs[m].updatedAt);
    while rest != {}
      invariant rest <= s && m in s
      invariant forall i | i in s && i !in rest :: !LexLess(txs[m].updatedAt, txs[i].updatedAt)
      decreases rest
    {
      var x :| x in rest;
      if LexLess(txs[m].updatedAt, txs[x].updatedAt) {
        forall i | i in s && i !in rest ensures !LexLess(txs[x].updatedAt, txs[i].updatedAt) {
          if LexLess(txs[x].updatedAt, txs[i].updatedAt) {
            LexTransitive(txs[m].updatedAt, txs[x].updatedAt, txs[i].updatedAt);
          }
        }
        m := x;
      }
      LexIrreflexive(txs[m].updatedAt);
      rest := rest - {x};
    }
  }

  /** list_invoice_transactions_for_cancel: the hundred open siblings updated last, newest first. */
  method ListSiblings(txs: Table, origin: TxId, invoice: string) returns (siblings: seq<TxId>)
    ensures Listing(txs, origin, invoice, siblings)
    ensures forall id | id in txs && id != origin && txs[id].invoice == Some(invoice)
              && txs[id].status in {Some("inited"), Some("waiting"), Some("qr_scanned"), Some("unknown")} ::
              id in siblings || |siblings| == 100
  {
    var remaining := set id | id in txs && Sibling(txs, origin, invoice, id);
    siblings := [];
    while remaining != {} && |siblings| < 100
      invariant |siblings| <= 100 && NewestFirst(txs, siblings)
      invariant forall id | id in remaining :: Sibling(txs, origin, invoice, id)
      invariant forall i | 0 <= i < |siblings| :: Sibling(txs, origin, invoice, siblings[i]) && siblings[i] !in remaining
      invariant forall id | id in txs && Sibling(txs, origin, invoice, id) :: id in siblings || id in remaining
      invariant forall i, id | 0 <= i < |siblings| && id in remaining ::
                  !LexLess(txs[siblings[i]].updatedAt, txs[id].updatedAt)
      decreases 100 - |siblings|
    {
      var m := FindNewest(txs, remaining);
      siblings := siblings + [m];
      remaining := remaining - {m};
    }
  }

  /** The siblings are a listing of the table if the fan-out gets that far, and nobody otherwise. */
  ghost predicate ListedFor(g: Gate, id: TxId, x: FanInputs, siblings: seq<TxId>) {
    if CanStartFan(g, id) && OneCEntryFor(id, g.txs[id], x.first).Some? && TigerEntryFor(id, g.txs[id], x.second).Some?
    then Listing(g.txs, id, g.txs[id].invoice.value, siblings)
    else siblings == []
  }

  /** A callback that nothing comes in between of: it is matched against the row it is applied to. */
  function Delivery(g: Gate, provider: string, hook: Webhook, now: string): Step {
    Store(Hook(provider, hook, Read(g.txs, hook.id)), now)
  }

  /** The fan-out gets as far as listing: the transaction is paid and both its entries can be made. */
  predicate Fans(g: Gate, id: TxId, x: FanInputs) {
    CanStartFan(g, id) && OneCEntryFor(id, g.txs[id], x.first).Some? && TigerEntryFor(id, g.txs[id], x.second).Some?
  }

  /** Every other transaction of the invoice that was open is canceled if its provider agreed, and no other row has
      changed. */
  ghost predicate OpenOnesCancelled(before: Table, after: Table, id: TxId, siblings: seq<TxId>,
                                    outcomes: nat -> CancelOutcome)
  {
    && id in before && after.Keys == before.Keys
    && forall other | other in before ::
         if other != id && before[other].invoice == before[id].invoice
            && before[other].status in {Some("inited"), Some("waiting"), Some("qr_scanned"), Some("unknown")}
         then exists k | 0 <= k < |siblings| ::
                && siblings[k] == other
                && (outcomes(k).succeeds ==> after[other].status == Some("canceled"))
                && (!outcomes(k).succeeds ==> after[other] == before[other])
         else after[other] == before[other]
  }

  lemma FirstAllClosed(g: Gate, h: Gate, id: TxId, siblings: seq<TxId>, outcomes: nat -> CancelOutcome)
    requires CanStartFan(g, id) && Listing(g.txs, id, g.txs[id].invoice.value, siblings) && |siblings| < 100
    requires ClosedFirst(g, h, siblings, outcomes, |siblings|)
    ensures OpenOnesCancelled(g.txs, h.txs, id, siblings, outcomes)
  {
    assert siblings[..|siblings|] == siblings;
    forall other | other in g.txs
      ensures if Sibling(g.txs, id, g.txs[id].invoice.value, other)
              then exists k | 0 <= k < |siblings| ::
                     && siblings[k] == other
                     && (outcomes(k).succeeds ==> h.txs[other].status == Some("canceled"))
                     && (!outcomes(k).succeeds ==> h.txs[other] == g.txs[other])
              else h.txs[other] == g.txs[other]
    {
      if Sibling(g.txs, id, g.txs[id].invoice.value, other) {
        assert other in siblings;
        var k :| 0 <= k < |siblings| && siblings[k] == other;
        assert outcomes(k).succeeds ==> h.txs[siblings[k]].status == Some("canceled");
      }
    }
  }

  /** A whole fan-out cancels every other transaction of the invoice that is inited, waiting, scanned or unknown, unless its
      provider refuses, which does not keep it from the others, and touches no other row. */
  lemma FanOutCancelsTheOpen(g: Gate, id: TxId, x: FanInputs, siblings: seq<TxId>)
    requires g.fans == map[] && Fans(g, id, x) && ListedFor(g, id, x, siblings) && |siblings| < 100
    ensures OpenOnesCancelled(g.txs, Run(g, FanSteps(id, x, siblings)).txs, id, siblings, x.outcomes)
  {
    OpeningRuns(g, id, x, siblings);
    var h := Run(g, Opening(id, x, siblings));
    RunAppend(g, Opening(id, x, siblings), CancelSteps(x.outcomes, |siblings|));
    CancelsClose(h, siblings, x.outcomes, |siblings|);
    FirstAllClosed(h, Run(h, CancelSteps(x.outcomes, |siblings|)), id, siblings, x.outcomes);
  }

  lemma {:induction false} CancelsKeepQueues(g: Gate, outcomes: nat -> CancelOutcome, n: nat)
    ensures Run(g, CancelSteps(outcomes, n)).oneC == g.oneC && Run(g, CancelSteps(outcomes, n)).tiger == g.tiger
    decreases n
  {
    if n == 0 {
      assert CancelSteps(outcomes, 0) == [];
    } else {
      CancelsKeepQueues(g, outcomes, n - 1);
      CancelStepsSnoc(outcomes, n);
      RunSnoc(g, CancelSteps(outcomes, n - 1), CancelSteps(outcomes, n)[n - 1]);
    }
  }

  /** What a whole fan-out does to the queues: one upsert each. */
  lemma FanOutQueues(g: Gate, id: TxId, x: FanInputs, siblings: seq<TxId>)
    requires g.fans == map[] && Fans(g, id, x)
    ensures var end := Run(g, FanSteps(id, x, siblings));
            && end.oneC == Q.OneCPut(g.oneC, OneCEntryFor(id, g.txs[id], x.first).value, x.firstTime)
            && end.tiger == Q.TigerPut(g.tiger, TigerEntryFor(id, g.txs[id], x.second).value,
                 GatewayComplaint(TigerEntryFor(id, g.txs[id], x.second).value.event), x.secondTime)
  {
    OpeningRuns(g, id, x, siblings);
    RunAppend(g, Opening(id, x, siblings), CancelSteps(x.outcomes, |siblings|));
    CancelsKeepQueues(Run(g, Opening(id, x, siblings)), x.outcomes, |siblings|);
  }

  /** The queue has one row more, for the event: pending and untried if the event is valid, else failed with the
      complaint. */
  ghost predicate QueuedNew(q: Queue, after: Queue, e: Event, time: int) {
    && |after| == |q| + 1 && after[..|q|] == q
    && var row := after[|q|];
       && row.entry.event == e && row.entry.key == row.entry.invoice == Strip(e.invoiceId)
       && row.entry.payment == Strip(e.paidTransactionId)
       && row.createdAt == time && row.attempts == 0 && row.reference.None? && row.exportedAt.None?
       && row.error == GatewayComplaint(e)
       && (GatewayComplaint(e).None? ==> row.status == Q.Pending && row.lastAttempt.None?)
       && (GatewayComplaint(e).Some? ==> row.status == Q.Error && row.lastAttempt == Some(time))
  }

  predicate NewToTiger(q: Queue, invoice: string) { forall i | 0 <= i < |q| :: q[i].entry.key != Strip(invoice) }

  /** A fan-out of an invoice that is new to the Tiger queue puts it there. */
  lemma NewInvoiceIsQueued(g: Gate, id: TxId, x: FanInputs, siblings: seq<TxId>)
    requires g.fans == map[] && Fans(g, id, x)
    requires NewToTiger(g.tiger, BuildEvent(id, g.txs[id], x.second).value.invoiceId)
    ensures QueuedNew(g.tiger, Run(g, FanSteps(id, x, siblings)).tiger, BuildEvent(id, g.txs[id], x.second).value,
                      x.secondTime)
  {
    var e := BuildEvent(id, g.txs[id], x.second).value;
    FanOutQueues(g, id, x, siblings);
    EntriesAre(e);
    QueueTheorems.NewTigerRow(g.tiger, TigerEntry(e).value, GatewayComplaint(e), x.secondTime);
  }

  /** A callback of payment that is matched, for an invoice nobody has paid and Tiger has not heard of, makes its
      transaction the paid one and puts the invoice in line with the event of the updated row. */
  lemma PaidCallbackIsQueued(g: Gate, provider: string, hook: Webhook, now: string, x: FanInputs, siblings: seq<TxId>)
    requires g.fans == map[] && HookTakesEffect(g.txs, provider, hook, Read(g.txs, hook.id))
    requires Strip(hook.status.value) == "paid"
    requires g.txs[hook.id].invoice.Some? && Strip(g.txs[hook.id].invoice.value) != ""
    requires forall other | other in g.txs :: !Holds(g.txs, other, g.txs[hook.id].invoice.value)
    requires Strip(hook.id) != "" && Strip(g.txs[hook.id].provider) != ""
    requires NewToTiger(g.tiger, Strip(g.txs[hook.id].invoice.value))
    ensures var g1 := Stepped(g, Delivery(g, provider, hook, now));
            var end := Run(g, [Delivery(g, provider, hook, now)] + FanSteps(hook.id, x, siblings));
            && g1.txs[hook.id].status == Some("paid") && BuildEvent(hook.id, g1.txs[hook.id], x.second).Some?
            && QueuedNew(g.tiger, end.tiger, BuildEvent(hook.id, g1.txs[hook.id], x.second).value, x.secondTime)
  {
    var delivery := Delivery(g, provider, hook, now);
    var g1 := Stepped(g, delivery);
    PaidCallbackOutcome(g.txs, provider, hook, Read(g.txs, hook.id), now);
    FansAfterPayment(g1, hook.id, x);
    RunCons(g, delivery, FanSteps(hook.id, x, siblings));
    NewInvoiceIsQueued(g1, hook.id, x, siblings);
  }

  lemma FansAfterPayment(g: Gate, id: TxId, x: FanInputs)
    requires CanStartFan(g, id) && Strip(id) != "" && Strip(g.txs[id].provider) != ""
    ensures Fans(g, id, x)
    ensures BuildEvent(id, g.txs[id], x.second).Some?
    ensures BuildEvent(id, g.txs[id], x.second).value.invoiceId == Strip(g.txs[id].invoice.value)
  {
    StrippedIsTrimmedForDotNet(g.txs[id].invoice.value);
    TrimIsTrimmed(PythonSpace, g.txs[id].invoice.value);
    TrimIsTrimmed(PythonSpace, "");
    EventFields(id, g.txs[id], x.first);
    EventFields(id, g.txs[id], x.second);
    EntriesAre(BuildEvent(id, g.txs[id], x.first).value);
    EntriesAre(BuildEvent(id, g.txs[id], x.second).value);
  }

  /** So a valid new invoice reaches a worker: within r / limit + 1 claims, with r rows in front of it, if answers are
      prompt and nobody resets. */
  lemma QueuedInvoiceIsDelivered(q: Queue, after: Queue, e: Event, time: int, ops: seq<Q.Op<Event>>, limit: int, t: int)
    requires QueuedNew(q, after, e, time) && GatewayComplaint(e).None?
    requires QueueTheorems.CreatedBy(after, t) && QueueTheorems.ClockRuns(t, ops)
    requires QueueTheorems.PromptRun(after, ops, |q|, Strip(e.invoiceId), limit)
    requires QueueTheorems.Claims(ops) >= |QueueTheorems.InFrontOf(after, |q|)| / Q.Capped(limit) + 1
    ensures QueueTheorems.DeliveredIn(after, ops, |q|)
  {
    QueueTheorems.BoundedWait(after, ops, |q|, limit, t);
  }

  // ----- Administration -----

  /** The reset endpoint rebuilds the event of a row whose payment is still paid. */
  predicate Rebuilds(g: Gate, row: nat) {
    && row < |g.tiger| && !g.tiger[row].status.Success?
    && g.tiger[row].entry.event.paidTransactionId in g.txs
    && IsPaid(g.txs[g.tiger[row].entry.event.paidTransactionId])
  }

  /** The rebuild fails or yields an invalid event, and the endpoint stops before the reset. */
  predicate RebuildStops(g: Gate, row: nat, r: Readings) {
    && Rebuilds(g, row)
    && var payment := g.tiger[row].entry.event.paidTransactionId;
       var entry := TigerEntryFor(payment, g.txs[payment], r);
       entry.None? || GatewayComplaint(entry.value.event).Some?
  }

  function ResetSteps(g: Gate, row: nat, r: Readings, rebuildTime: int, resetTime: int): seq<Step> {
    [Rebuild(row, r, rebuildTime)] +
    if RebuildStops(g, row, r) then [] else [TigerCall(Q.Restart(row, resetTime))]
  }

  /** The rebuild writes the event of the row's payment anew if that is still paid and the event can be built. */
  lemma RebuildEffect(g: Gate, row: nat, r: Readings, time: int)
    requires row < |g.tiger| && g.tiger[row].status != Q.Success
    ensures var payment := g.tiger[row].entry.event.paidTransactionId;
            if payment in g.txs && g.txs[payment].status == Some("paid") then
              && (RebuildStops(g, row, r) <==>
                    || TigerEntryFor(payment, g.txs[payment], r).None?
                    || GatewayComplaint(TigerEntryFor(payment, g.txs[payment], r).value.event).Some?)
              && Stepped(g, Rebuild(row, r, time)) ==
                   match TigerEntryFor(payment, g.txs[payment], r)
                   case None => g
                   case Some(entry) =>
                     g.(tiger := Q.TigerPut(g.tiger, entry, GatewayComplaint(entry.event), time))
            else !RebuildStops(g, row, r) && Stepped(g, Rebuild(row, r, time)) == g
  {
  }

  /** What the reset endpoint does: the event of a row whose payment is still paid is built anew; unless that fails or the
      new event is invalid, the row is then put back in line. */
  lemma ResetEffects(g: Gate, row: nat, r: Readings, rebuildTime: int, resetTime: int)
    ensures var end, rebuilt := Run(g, ResetSteps(g, row, r, rebuildTime, resetTime)), Stepped(g, Rebuild(row, r, rebuildTime));
            if RebuildStops(g, row, r) then end == rebuilt
            else end == rebuilt.(tiger := Q.Reset(rebuilt.tiger, row, resetTime))
  {
    var rebuild, restart := Rebuild(row, r, rebuildTime), TigerCall(Q.Restart(row, resetTime));
    if RebuildStops(g, row, r) {
      RunOfOne(g, rebuild);
      assert ResetSteps(g, row, r, rebuildTime, resetTime) == [rebuild];
    } else {
      RunOfTwo(g, rebuild, restart);
      assert ResetSteps(g, row, r, rebuildTime, resetTime) == [rebuild, restart];
    }
  }

  class PaymentService {
    const store: PaymentStore
    const oneC: ExportTable<Event>
    const tiger: ExportTable<Event>

    constructor (store: PaymentStore, oneC: ExportTable<Event>, tiger: ExportTable<Event>)
      ensures this.store == store && this.oneC == oneC && this.tiger == tiger
    {
      this.store := store;
      this.oneC := oneC;
      this.tiger := tiger;
    }

    ghost predicate Now(g: Gate)
      reads store, oneC, tiger
    {
      g.txs == store.transactions && g.oneC == oneC.rows && g.tiger == tiger.rows
    }

    ghost function Before(): Gate
      reads store, oneC, tiger
    {
      Gate(store.transactions, map[], oneC.rows, tiger.rows)
    }

    /** The three stores of one paid transaction's fan-out; false stands for an exception. */
    method Enqueue(id: TxId, paid: Tx, x: FanInputs) returns (ok: bool)
      requires oneC != tiger
      modifies oneC, tiger
      ensures OneCEntryFor(id, paid, x.first).None? ==> !ok && oneC.rows == old(oneC.rows)
      ensures OneCEntryFor(id, paid, x.first).Some? ==>
                oneC.rows == Q.OneCPut(old(oneC.rows), OneCEntryFor(id, paid, x.first).value, x.firstTime)
      ensures ok <==> OneCEntryFor(id, paid, x.first).Some? && TigerEntryFor(id, paid, x.second).Some?
      ensures tiger.rows == if !ok then old(tiger.rows) else
                Q.TigerPut(old(tiger.rows), TigerEntryFor(id, paid, x.second).value,
                           GatewayComplaint(TigerEntryFor(id, paid, x.second).value.event), x.secondTime)
    {
      var oneCEntry := OneCEntryFor(id, paid, x.first);
      if oneCEntry.None? { return false; }
      oneC.UpsertOneCPaymentExport(oneCEntry.value, x.firstTime);
      var entry := TigerEntryFor(id, paid, x.second);
      if entry.None? { return false; }
      tiger.UpsertTigerInvoiceExport(entry.value, GatewayComplaint(entry.value.event), x.secondTime);
      ok := true;
    }

    /** cancel_transaction: the provider first, the row only if the provider agreed. */
    method CancelTransaction(id: TxId, outcome: CancelOutcome)
      modifies store
      ensures store.transactions ==
              if outcome.succeeds then StatusSet(old(store.transactions), id, CANCELED, outcome.provider, outcome.now)
              else old(store.transactions)
      ensures store.webhookEvents == old(store.webhookEvents)
    {
      if outcome.succeeds {
        var done := store.UpdateTransactionStatus(id, CANCELED, outcome.provider, outcome.now);
      }
    }

    /** cancel_other_invoice_transactions_if_paid, undisturbed: exactly the steps of one fan-out, over a listing of the
        table as it was. */
    method CancelOtherInvoiceTransactionsIfPaid(id: TxId, x: FanInputs) returns (siblings: seq<TxId>)
      requires oneC != tiger
      modifies store, oneC, tiger
      ensures Now(Run(old(Before()), FanSteps(id, x, siblings)))
      ensures ListedFor(old(Before()), id, x, siblings)
      ensures Fans(old(Before()), id, x) && |siblings| < 100 ==>
                OpenOnesCancelled(old(store.transactions), store.transactions, id, siblings, x.outcomes)
    {
      ghost var g0 := Before();
      siblings := [];
      if id in store.transactions && IsPaid(store.transactions[id]) && store.transactions[id].invoice.Some?
         && Strip(store.transactions[id].invoice.value) != "" {
        var paid := store.transactions[id];
        var ok := Enqueue(id, paid, x);
        if ok {
          siblings := ListSiblings(store.transactions, id, paid.invoice.value);
          OpeningRuns(g0, id, x, siblings);
          CancelAll(g0, id, x, siblings);
          if |siblings| < 100 { FanOutCancelsTheOpen(g0, id, x, siblings); }
          return;
        }
      }
      OpeningRuns(g0, id, x, []);
      assert FanSteps(id, x, []) == Opening(id, x, []);
    }

    /** The loop over the siblings; a refusal by the provider does not stop it. */
    method CancelAll(ghost g0: Gate, id: TxId, x: FanInputs, siblings: seq<TxId>)
      requires oneC != tiger
      requires var g := Run(g0, Opening(id, x, siblings));
               Now(g) && FanAt(g, 0, Canceling(siblings))
      modifies store
      ensures Now(Run(g0, FanSteps(id, x, siblings)))
    {
      ghost var steps := Opening(id, x, siblings);
      var i := 0;
      assert siblings[0..] == siblings && steps + CancelSteps(x.outcomes, 0) == steps;
      while i < |siblings|
        invariant i <= |siblings|
        invariant steps == Opening(id, x, siblings) + CancelSteps(x.outcomes, i)
        invariant Now(Run(g0, steps)) && FanAt(Run(g0, steps), 0, Canceling(siblings[i..]))
      {
        ghost var s := FanCancel(0, x.outcomes(i).succeeds, x.outcomes(i).provider, x.outcomes(i).now);
        RunSnoc(g0, steps, s);
        assert CancelSteps(x.outcomes, i + 1) == CancelSteps(x.outcomes, i) + [s];
        assert siblings[i..][1..] == siblings[i + 1..];
        CancelTransaction(siblings[i], x.outcomes(i));
        steps := steps + [s];
        i := i + 1;
      }
    }

    /** save_webhook, undisturbed: the callback, then the fan-out if its transaction is paid. */
    method SaveWebhook(provider: string, hook: Webhook, now: string, x: FanInputs)
      returns (duplicate: bool, siblings: seq<TxId>)
      requires oneC != tiger
      modifies store, oneC, tiger
      ensures Now(Run(old(Before()), [Delivery(old(Before()), provider, hook, now)] + FanSteps(hook.id, x, siblings)))
      ensures ListedFor(Stepped(old(Before()), Delivery(old(Before()), provider, hook, now)), hook.id, x, siblings)
    {
      ghost var g0 := Before();
      duplicate := store.SaveWebhook(provider, hook, now);
      assert Before() == Stepped(g0, Delivery(g0, provider, hook, now));
      siblings := CancelOtherInvoiceTransactionsIfPaid(hook.id, x);
      RunCons(g0, Delivery(g0, provider, hook, now), FanSteps(hook.id, x, siblings));
    }

    /** get_transaction: the provider's snapshot, then the fan-out if the transaction is paid. */
    method GetTransaction(id: TxId, response: Incoming, now: string, x: FanInputs) returns (siblings: seq<TxId>)
      requires oneC != tiger
      modifies store, oneC, tiger
      ensures Now(Run(old(Before()), [Store(Upsert(id, response, false), now)] + FanSteps(id, x, siblings)))
      ensures ListedFor(Stepped(old(Before()), Store(Upsert(id, response, false), now)), id, x, siblings)
    {
      ghost var g0 := Before();
      var outcome := store.UpsertTransaction(id, response, false, now);
      assert Before() == Stepped(g0, Store(Upsert(id, response, false), now));
      siblings := CancelOtherInvoiceTransactionsIfPaid(id, x);
      RunCons(g0, Store(Upsert(id, response, false), now), FanSteps(id, x, siblings));
    }

    /** The rebuild of the reset endpoint; true if the endpoint stops there. */
    method RebuildTigerInvoiceEvent(row: nat, r: Readings, time: int) returns (stops: bool)
      requires oneC != tiger
      modifies tiger
      ensures Before() == Stepped(old(Before()), Rebuild(row, r, time))
      ensures stops <==> RebuildStops(old(Before()), row, r)
    {
      stops := false;
      if row < |tiger.rows| && !tiger.rows[row].status.Success? {
        var payment := tiger.rows[row].entry.event.paidTransactionId;
        if payment in store.transactions && IsPaid(store.transactions[payment]) {
          var entry := TigerEntryFor(payment, store.transactions[payment], r);
          if entry.None? { return true; }
          var fault := GatewayComplaint(entry.value.event);
          tiger.UpsertTigerInvoiceExport(entry.value, fault, time);
          stops := fault.Some?;
        }
      }
    }

    /** reset_local_tiger_invoice_event: an event that has become invalid is refreshed but not put back in line. */
    method ResetTigerInvoiceEvent(row: nat, r: Readings, rebuildTime: int, resetTime: int) returns (accepted: bool)
      requires oneC != tiger
      modifies tiger
      ensures Now(Run(old(Before()), ResetSteps(old(Before()), row, r, rebuildTime, resetTime)))
      ensures accepted ==> row < |tiger.rows| && tiger.rows[row].status.Pending?
      ensures accepted <==>
              && !RebuildStops(old(Before()), row, r)
              && Q.CanReset(Stepped(old(Before()), Rebuild(row, r, rebuildTime)).tiger, row)
    {
      ghost var g0 := Before();
      ghost var rebuild, restart := Rebuild(row, r, rebuildTime), TigerCall(Q.Restart(row, resetTime));
      var stops := RebuildTigerInvoiceEvent(row, r, rebuildTime);
      if stops {
        RunOfOne(g0, rebuild);
        assert ResetSteps(g0, row, r, rebuildTime, resetTime) == [rebuild];
        return false;
      }
      RunOfTwo(g0, rebuild, restart);
      assert ResetSteps(g0, row, r, rebuildTime, resetTime) == [rebuild, restart];
      accepted := tiger.ResetExport(row, resetTime);
    }
  }
}
