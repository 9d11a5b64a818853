/** The paid transaction of an invoice over whole runs, and what the two queues hold of it. */
module Winners {
  import opened Basics
  import opened Transactions
  import opened Election
  import opened PaymentEvents
  import opened Gateway
  import opened GatewayInvariants
  import Q = ExportQueue

  /** The origin is still the paid transaction, and everything left to cancel is another one of its invoice. */
  ghost predicate Leads(txs: Table, fan: Fan) {
    && Holds(txs, fan.origin, fan.invoice)
    && (fan.stage.Canceling? ==>
          forall k | 0 <= k < |fan.stage.rest| ::
            Invoiced(txs, fan.stage.rest[k], fan.invoice) && fan.stage.rest[k] != fan.origin)
  }

  ghost predicate FansLead(g: Gate) {
    forall f | f in g.fans :: Leads(g.txs, g.fans[f])
  }

  /** A step loses a paid transaction its slot only by cancelling it. */
  lemma SlotStep(g: Gate, s: Step, id: TxId, invoice: string)
    requires TableShape(g.txs) && Holds(g.txs, id, invoice)
    ensures !Holds(Stepped(g, s).txs, id, invoice) <==>
            TableWrite(g, s).Some? && TableWrite(g, s).value.Cancel? && TableWrite(g, s).value.id == id
  {
    OnlyTableWrites(g, s);
    var w := TableWrite(g, s);
    if w.Some? { SlotIsLostExactlyByItsCancel(g.txs, w.value, Stamp(s), id, invoice); }
  }

  /** No fan-out ever cancels a paid transaction, however its calls are interleaved with other steps. */
  lemma FanSparesWinners(g: Gate, s: Step, id: TxId, invoice: string)
    requires Shape(g) && FansLead(g) && Holds(g.txs, id, invoice) && !ExplicitCancel(s)
    ensures Holds(Stepped(g, s).txs, id, invoice)
  {
    SlotStep(g, s, id, invoice);
    if s.FanCancel? && FanCancels(g, s.fan) {
      var fan := g.fans[s.fan];
      assert Leads(g.txs, fan) && Invoiced(g.txs, fan.stage.rest[0], fan.invoice);
      assert fan.stage.rest[0] == id ==> Holds(g.txs, id, fan.invoice) && Holds(g.txs, fan.origin, fan.invoice);
    }
  }

  /** How the sibling list of a fan-out can change in one step. */
  lemma RestStep(g: Gate, s: Step, f: nat)
    requires f in Stepped(g, s).fans && Stepped(g, s).fans[f].stage.Canceling?
    ensures f in g.fans
    ensures var rest := Stepped(g, s).fans[f].stage.rest;
            || g.fans[f].stage == Canceling(rest)
            || (g.fans[f].stage.Canceling? && g.fans[f].stage.rest != [] && rest == g.fans[f].stage.rest[1..])
            || Listing(g.txs, g.fans[f].origin, g.fans[f].invoice, rest)
  {
    FanStep(g, s, f);
  }

  lemma LeadStep(g: Gate, s: Step, f: nat)
    requires Shape(g) && FansLead(g) && !ExplicitCancel(s) && f in Stepped(g, s).fans
    ensures Leads(Stepped(g, s).txs, Stepped(g, s).fans[f])
  {
    var fan := Stepped(g, s).fans[f];
    FanStep(g, s, f);
    TableStep(g, s);
    if f in g.fans {
      assert Leads(g.txs, g.fans[f]);
    } else {
      assert Holds(g.txs, fan.origin, fan.invoice);
    }
    FanSparesWinners(g, s, fan.origin, fan.invoice);
    if fan.stage.Canceling? {
      RestStep(g, s, f);
      forall k | 0 <= k < |fan.stage.rest|
        ensures Invoiced(g.txs, fan.stage.rest[k], fan.invoice) && fan.stage.rest[k] != fan.origin
      {
      }
    }
  }

  lemma StepKeepsLead(g: Gate, s: Step)
    requires Shape(g) && FansLead(g) && !ExplicitCancel(s)
    ensures FansLead(Stepped(g, s))
  {
    forall f | f in Stepped(g, s).fans ensures Leads(Stepped(g, s).txs, Stepped(g, s).fans[f]) {
      LeadStep(g, s, f);
    }
  }

  /** Winner stability: as long as nobody cancels explicitly, a paid transaction of an invoice stays paid. */
  lemma {:induction false} WinnerIsStable(g: Gate, steps: seq<Step>, id: TxId, invoice: string)
    requires Shape(g) && FansLead(g) && NoExplicitCancel(steps)
    requires Holds(g.txs, id, invoice)
    ensures Shape(Run(g, steps)) && FansLead(Run(g, steps)) && Holds(Run(g, steps).txs, id, invoice)
    decreases |steps|
  {
    if steps != [] {
      StepKeepsShape(g, steps[0]);
      StepKeepsLead(g, steps[0]);
      FanSparesWinners(g, steps[0], id, invoice);
      WinnerIsStable(Stepped(g, steps[0]), steps[1..], id, invoice);
    }
  }

  // ----- The queues -----

  /** The entry names the paid transaction of its invoice. */
  predicate Names(txs: Table, entry: Q.Entry<Event>) { Holds(txs, entry.event.paidTransactionId, entry.invoice) }

  /** Every row names the paid transaction of its invoice, or it is as it was at the start and did not do so then. */
  ghost predicate QueueSettled(startTxs: Table, start: Queue, txs: Table, q: Queue) {
    forall i | 0 <= i < |q| ::
      Names(txs, q[i].entry) || (i < |start| && q[i].entry == start[i].entry && !Names(startTxs, start[i].entry))
  }

  /** The invariant of runs without explicit cancels, from any start. */
  ghost predicate Settled(start: Gate, g: Gate) {
    && Shape(g) && FansLead(g)
    && QueueSettled(start.txs, start.oneC, g.txs, g.oneC) && QueueSettled(start.txs, start.tiger, g.txs, g.tiger)
  }

  lemma QueueStaysSettled(start: Gate, startQueue: Queue, g: Gate, s: Step, q: Queue, after: Queue,
                          put: Option<Q.Entry<Event>>)
    requires Settled(start, g) && !ExplicitCancel(s)
    requires QueueSettled(start.txs, startQueue, g.txs, q) && Derived(q, after, put)
    requires put.Some? ==> Names(g.txs, put.value)
    ensures QueueSettled(start.txs, startQueue, Stepped(g, s).txs, after)
  {
    forall i | 0 <= i < |after|
      ensures || Names(Stepped(g, s).txs, after[i].entry)
              || (i < |startQueue| && after[i].entry == startQueue[i].entry && !Names(start.txs, startQueue[i].entry))
    {
      var entry := after[i].entry;
      assert (i < |q| && entry == q[i].entry) || Some(entry) == put;
      if Names(g.txs, entry) { FanSparesWinners(g, s, entry.event.paidTransactionId, entry.invoice); }
    }
  }

  /** Whatever a step writes into a queue names the paid transaction of its invoice. */
  lemma PutsName(g: Gate, s: Step)
    requires Shape(g) && FansLead(g)
    ensures OneCPutBy(g, s).Some? ==> Names(g.txs, OneCPutBy(g, s).value)
    ensures TigerPutBy(g, s).Some? ==> Names(g.txs, TigerPutBy(g, s).value)
  {
    if OneCPutBy(g, s).Some? {
      OneCPutNames(g, s);
      assert Leads(g.txs, g.fans[s.fan]);
    }
    if TigerPutBy(g, s).Some? {
      TigerPutNames(g, s);
      if s.FanTiger? { assert Leads(g.txs, g.fans[s.fan]); }
    }
  }

  lemma StepKeepsSettled(start: Gate, g: Gate, s: Step)
    requires Settled(start, g) && !ExplicitCancel(s)
    ensures Settled(start, Stepped(g, s))
  {
    StepKeepsShape(g, s);
    StepKeepsLead(g, s);
    PutsName(g, s);
    OneCStep(g, s);
    QueueStaysSettled(start, start.oneC, g, s, g.oneC, Stepped(g, s).oneC, OneCPutBy(g, s));
    TigerStep(g, s);
    QueueStaysSettled(start, start.tiger, g, s, g.tiger, Stepped(g, s).tiger, TigerPutBy(g, s));
  }

  lemma {:induction false} RunKeepsSettled(start: Gate, g: Gate, steps: seq<Step>)
    requires Settled(start, g) && NoExplicitCancel(steps)
    ensures Settled(start, Run(g, steps))
    decreases |steps|
  {
    if steps != [] {
      StepKeepsSettled(start, g, steps[0]);
      RunKeepsSettled(start, Stepped(g, steps[0]), steps[1..]);
    }
  }

  // ----- Runs from an empty database -----

  const EMPTY := Gate(map[], map[], [], [])

  ghost predicate OneCElected(g: Gate) {
    forall i | 0 <= i < |g.oneC| :: Names(g.txs, g.oneC[i].entry)
  }

  ghost predicate TigerElected(g: Gate) {
    forall i | 0 <= i < |g.tiger| :: Names(g.txs, g.tiger[i].entry)
  }

  /** The invariant of such runs without explicit cancels. */
  ghost predicate Elected(g: Gate) {
    Shape(g) && FansLead(g) && OneCElected(g) && TigerElected(g)
  }

  lemma StepKeepsElected(g: Gate, s: Step)
    requires Elected(g) && !ExplicitCancel(s)
    ensures Elected(Stepped(g, s))
  {
    StepKeepsSettled(EMPTY, g, s);
  }

  lemma {:induction false} RunKeepsElected(g: Gate, steps: seq<Step>)
    requires Elected(g) && NoExplicitCancel(steps)
    ensures Elected(Run(g, steps))
    decreases |steps|
  {
    if steps != [] {
      StepKeepsElected(g, steps[0]);
      RunKeepsElected(Stepped(g, steps[0]), steps[1..]);
    }
  }

  /** Of the 1C rows that name the paid transaction each invoice has at most one, although that queue is keyed by
      payment. */
  lemma OneNamingRowEach(g: Gate)
    requires Shape(g)
    ensures forall i, j | 0 <= i < |g.oneC| && 0 <= j < |g.oneC|
              && Names(g.txs, g.oneC[i].entry) && Names(g.txs, g.oneC[j].entry) ::
              g.oneC[i].entry.invoice == g.oneC[j].entry.invoice ==> i == j
  {
    forall i, j | 0 <= i < |g.oneC| && 0 <= j < |g.oneC|
      && Names(g.txs, g.oneC[i].entry) && Names(g.txs, g.oneC[j].entry)
      && g.oneC[i].entry.invoice == g.oneC[j].entry.invoice
      ensures i == j
    {
      assert OneCShape(g.oneC[i].entry) && OneCShape(g.oneC[j].entry);
      assert g.oneC[i].entry.key == g.oneC[j].entry.key;
    }
  }

  /** Queue agreement over every run without an explicit cancel: each invoice has at most one row in the 1C queue,
      although that queue is keyed by payment, and its Tiger row names the same transaction, the paid one. */
  lemma QueuesAgree(steps: seq<Step>)
    requires NoExplicitCancel(steps)
    ensures var g := Run(EMPTY, steps);
            && (forall i, j | 0 <= i < |g.oneC| && 0 <= j < |g.oneC| ::
                  g.oneC[i].entry.invoice == g.oneC[j].entry.invoice ==> i == j)
            && (forall i, j | 0 <= i < |g.oneC| && 0 <= j < |g.tiger| ::
                  g.oneC[i].entry.invoice == g.tiger[j].entry.invoice ==>
                    g.oneC[i].entry.event.paidTransactionId == g.tiger[j].entry.event.paidTransactionId)
            && OneCElected(g) && TigerElected(g)
  {
    var g := Run(EMPTY, steps);
    RunKeepsElected(EMPTY, steps);
    OneNamingRowEach(g);
  }
}
