/** Runs that begin with a legacy database: start-up puts its paid rows in order, and the winners it chose stay. */
module LegacyRuns {
  import opened Transactions
  import opened Deduplication
  import opened Gateway
  import opened GatewayInvariants
  import opened Winners
  import Q = ExportQueue

  function StatusText(s: Q.Status): string {
    match s
    case Pending => "pending"
    case Processing => "processing"
    case Success => "success"
    case Error => "error"
    case Skipped => "skipped"
  }

  /** What the deduplication reads of the Tiger queue: the payment of each invoice. */
  ghost function TigerPayments(q: Queue): map<string, TxId>
    requires TigerQueueShape(q)
  {
    map i | 0 <= i < |q| :: q[i].entry.key := q[i].entry.payment
  }

  /** And of the 1C queue: invoice and status of each payment. */
  ghost function OneCRows(q: Queue): map<TxId, OneCRow>
    requires OneCQueueShape(q)
  {
    map i | 0 <= i < |q| :: q[i].entry.key := OneCRow(q[i].entry.invoice, StatusText(q[i].status))
  }

  /** A database from before the index: several rows of an invoice may be paid. */
  ghost predicate LegacyShape(g: Gate) {
    && g.fans == map[]
    && (forall id | id in g.txs && g.txs[id].invoice.Some? :: Stripped(g.txs[id].invoice.value))
    && OneCQueueShape(g.oneC) && TigerQueueShape(g.tiger) && TigerKnows(g)
    && (forall i | 0 <= i < |g.oneC| :: g.oneC[i].entry.payment == g.oneC[i].entry.event.paidTransactionId)
    && (forall i | 0 <= i < |g.tiger| :: g.tiger[i].entry.payment == g.tiger[i].entry.event.paidTransactionId)
  }

  ghost predicate Wins(g: Gate, invoice: string, id: TxId)
    requires LegacyShape(g)
  {
    IsWinner(g.txs, TigerPayments(g.tiger), OneCRows(g.oneC), invoice, id)
  }

  /** The database after start-up. */
  ghost function Upgraded(g: Gate): Gate
    requires LegacyShape(g)
  {
    g.(txs := Deduplicated(g.txs, TigerPayments(g.tiger), OneCRows(g.oneC)))
  }

  /** The deduplication reads Tiger's payment of each invoice. */
  lemma TigerReadAsStored(g: Gate, i: nat)
    requires LegacyShape(g) && i < |g.tiger|
    ensures var entry := g.tiger[i].entry;
            entry.invoice in TigerPayments(g.tiger) && TigerPayments(g.tiger)[entry.invoice] == entry.payment
  {
    assert TigerShape(g.tiger[i].entry);
  }

  /** And 1C's invoice and status of each payment. */
  lemma OneCReadAsStored(g: Gate, i: nat)
    requires LegacyShape(g) && i < |g.oneC|
    ensures var entry := g.oneC[i].entry;
            && entry.payment in OneCRows(g.oneC)
            && OneCRows(g.oneC)[entry.payment] == OneCRow(entry.invoice, StatusText(g.oneC[i].status))
  {
    assert OneCShape(g.oneC[i].entry);
  }

  lemma StatusTexts()
    ensures StatusText(Q.Success) == "success" && StatusText(Q.Error) == "error" && StatusText(Q.Skipped) == "skipped"
    ensures StatusText(Q.Pending) == "pending" && StatusText(Q.Processing) == "processing"
  {
  }

  lemma UpgradedTable(g: Gate)
    requires LegacyShape(g)
    ensures TableShape(Upgraded(g).txs)
    ensures forall id, invoice | Invoiced(g.txs, id, invoice) :: Invoiced(Upgraded(g).txs, id, invoice)
  {
    DeduplicationIsCorrect(g.txs, TigerPayments(g.tiger), OneCRows(g.oneC));
  }

  lemma UpgradedIsSettled(g: Gate)
    requires LegacyShape(g)
    ensures Settled(Upgraded(g), Upgraded(g))
  {
    UpgradedTable(g);
  }

  lemma HoldsAfterUpgradeIffWinner(g: Gate, invoice: string, id: TxId)
    requires LegacyShape(g)
    ensures Holds(Upgraded(g).txs, id, invoice) <==> Wins(g, invoice, id)
  {
    DeduplicatedGroup(g.txs, TigerPayments(g.tiger), OneCRows(g.oneC), invoice, id);
  }

  /** The paid payment that Tiger was told about wins. */
  lemma PaidTigerRowWins(g: Gate, i: nat)
    requires LegacyShape(g) && i < |g.tiger| && Names(g.txs, g.tiger[i].entry)
    ensures Wins(g, g.tiger[i].entry.invoice, g.tiger[i].entry.payment)
  {
    assert TigerShape(g.tiger[i].entry);
    assert g.tiger[i].entry.key in TigerPayments(g.tiger);
    assert g.tiger[i].entry.payment in Group(g.txs, g.tiger[i].entry.invoice);
  }

  /** On every run without an explicit cancel the winners of the deduplication stay the paid transactions. */
  lemma LegacyWinnersStay(g: Gate, steps: seq<Step>, invoice: string, id: TxId)
    requires LegacyShape(g) && NoExplicitCancel(steps) && Wins(g, invoice, id)
    ensures Holds(Run(Upgraded(g), steps).txs, id, invoice)
  {
    UpgradedIsSettled(g);
    HoldsAfterUpgradeIffWinner(g, invoice, id);
    WinnerIsStable(Upgraded(g), steps, id, invoice);
  }

  /** And every row of the queues names the paid transaction of its invoice, except for old rows that stay as they were:
      in the Tiger queue those whose payment was not paid at the time, in the 1C queue those whose payment did not win.
      Of the other 1C rows each invoice has at most one. */
  lemma LegacyQueuesAgree(g: Gate, steps: seq<Step>)
    requires LegacyShape(g) && NoExplicitCancel(steps)
    ensures var end := Run(Upgraded(g), steps);
            && (forall i | 0 <= i < |end.tiger| ::
                  || Names(end.txs, end.tiger[i].entry)
                  || (i < |g.tiger| && end.tiger[i].entry == g.tiger[i].entry && !Names(g.txs, g.tiger[i].entry)))
            && (forall i | 0 <= i < |end.oneC| ::
                  || Names(end.txs, end.oneC[i].entry)
                  || (i < |g.oneC| && end.oneC[i].entry == g.oneC[i].entry
                      && !Wins(g, g.oneC[i].entry.invoice, g.oneC[i].entry.payment)))
            && (forall i, j | 0 <= i < |end.oneC| && 0 <= j < |end.oneC|
                  && Names(end.txs, end.oneC[i].entry) && Names(end.txs, end.oneC[j].entry) ::
                  end.oneC[i].entry.invoice == end.oneC[j].entry.invoice ==> i == j)
  {
    var start := Upgraded(g);
    UpgradedIsSettled(g);
    RunKeepsSettled(start, start, steps);
    var end := Run(start, steps);
    forall i | 0 <= i < |g.tiger| && Names(g.txs, g.tiger[i].entry) ensures Names(start.txs, g.tiger[i].entry) {
      PaidTigerRowWins(g, i);
      HoldsAfterUpgradeIffWinner(g, g.tiger[i].entry.invoice, g.tiger[i].entry.payment);
    }
    forall i | 0 <= i < |g.oneC| && Wins(g, g.oneC[i].entry.invoice, g.oneC[i].entry.payment)
      ensures Names(start.txs, g.oneC[i].entry)
    {
      HoldsAfterUpgradeIffWinner(g, g.oneC[i].entry.invoice, g.oneC[i].entry.payment);
    }
    OneNamingRowEach(end);
  }
}
