/** Who wins an invoice: the first that pays, and what becomes of the others. */
module FirstPaid {
  import opened Basics
  import opened Text
  import opened Transactions
  import opened Election
  import opened Gateway
  import opened GatewayInvariants
  import opened Winners

  ghost predicate Unpaid(txs: Table, invoice: string) {
    forall id :: !Holds(txs, id, invoice)
  }

  // ----- Every run without explicit cancels -----

  /** A callback for a transaction of the invoice, matched by provider and amount when its row was read. */
  predicate Calls(txs: Table, s: Step, invoice: string) {
    && s.Store? && s.w.Hook? && Invoiced(txs, s.w.hook.id, invoice)
    && s.w.seen.Some? && HookMatches(s.w.seen.value, s.w.provider, s.w.hook)
  }

  predicate Pays(txs: Table, s: Step, invoice: string) {
    Calls(txs, s, invoice) && Clean(s.w.hook.status) == Some(PAID)
  }

  /** A refresh that finds a transaction of the invoice paid, or tells which invoice a paid one belongs to. */
  predicate RefreshPays(txs: Table, s: Step, invoice: string) {
    && s.Store? && s.w.Upsert?
    && var v := s.w.incoming;
       if s.w.id !in txs then v.status == Some(PAID) && IncomingInvoice(v) == Some(invoice)
       else
         var was := txs[s.w.id];
         && (IsPaid(was) || (v.status == Some(PAID) && was.status != Some(DUPLICATE)))
         && (if HasInvoice(was) then was.invoice else Either(IncomingInvoice(v), was.invoice)) == Some(invoice)
  }

  /** The transaction of the first step that pays the invoice. */
  ghost function FirstDecider(g: Gate, steps: seq<Step>, invoice: string): Option<TxId>
    decreases |steps|
  {
    if steps == [] then None
    else if Pays(g.txs, steps[0], invoice) then Some(steps[0].w.hook.id)
    else if RefreshPays(g.txs, steps[0], invoice) then Some(steps[0].w.id)
    else FirstDecider(Stepped(g, steps[0]), steps[1..], invoice)
  }

  /** While nobody has paid, a step decides the invoice exactly if it is such a callback or refresh. */
  lemma DecidingStep(g: Gate, s: Step, invoice: string)
    requires Unpaid(g.txs, invoice) && invoice != "" && !ExplicitCancel(s)
    ensures if Pays(g.txs, s, invoice) then Holds(Stepped(g, s).txs, s.w.hook.id, invoice)
            else if RefreshPays(g.txs, s, invoice) then Holds(Stepped(g, s).txs, s.w.id, invoice)
            else Unpaid(Stepped(g, s).txs, invoice)
  {
    OnlyTableWrites(g, s);
    var after, w := Stepped(g, s).txs, TableWrite(g, s);
    if Pays(g.txs, s, invoice) {
      assert !Conflicts(g.txs, s.w.hook.id, HookedRow(g.txs[s.w.hook.id], s.w.hook, s.now));
    } else if w.Some? && !RefreshPays(g.txs, s, invoice) {
      forall id ensures !Holds(after, id, invoice) { UndecidingWrite(g.txs, w.value, Stamp(s), id, invoice); }
    }
  }

  /** Any other write leaves an unpaid invoice unpaid. */
  lemma UndecidingWrite(txs: Table, w: Write, now: string, id: TxId, invoice: string)
    requires Unpaid(txs, invoice) && !Pays(txs, Store(w, now), invoice) && !RefreshPays(txs, Store(w, now), invoice)
    ensures !Holds(Written(txs, w, now), id, invoice)
  {
    assert !Holds(txs, id, invoice);
    if Holds(Written(txs, w, now), id, invoice) && !w.Merge? { SlotIsTakenOnlyByPayment(txs, w, now, id, invoice); }
  }

  /** First paid wins, refreshes included: without an explicit cancel the paid transaction of the invoice at the end of
      the run is the one that the first paying step was about; without such a step there is none. */
  lemma {:induction false} FirstDeciderWins(g: Gate, steps: seq<Step>, invoice: string)
    requires Shape(g) && FansLead(g) && NoExplicitCancel(steps) && invoice != "" && Unpaid(g.txs, invoice)
    ensures forall id :: Holds(Run(g, steps).txs, id, invoice) <==> FirstDecider(g, steps, invoice) == Some(id)
    decreases |steps|
  {
    if steps != [] {
      var s, next := steps[0], Stepped(g, steps[0]);
      DecidingStep(g, s, invoice);
      StepKeepsShape(g, s);
      StepKeepsLead(g, s);
      if Pays(g.txs, s, invoice) {
        WinnerIsStable(next, steps[1..], s.w.hook.id, invoice);
      } else if RefreshPays(g.txs, s, invoice) {
        WinnerIsStable(next, steps[1..], s.w.id, invoice);
      } else {
        FirstDeciderWins(next, steps[1..], invoice);
      }
    }
  }

  // ----- Callbacks and automatic cancels only: the winner is read off the callbacks -----

  /** Steps of fan-outs, queues, callbacks and metadata merges. */
  predicate CallbackStep(s: Step) {
    s.Store? ==> s.w.Hook? || s.w.Merge?
  }

  ghost predicate CallbacksOnly(steps: seq<Step>) {
    forall i | 0 <= i < |steps| :: CallbackStep(steps[i])
  }

  ghost predicate KnownAmounts(txs: Table, invoice: string) {
    forall id | Invoiced(txs, id, invoice) :: txs[id].amount.Some?
  }

  /** Every callback is matched against its row as it was at some earlier point of the run. */
  ghost predicate ReadInRun(g: Gate, steps: seq<Step>) {
    forall k | 0 <= k < |steps| && steps[k].Store? && steps[k].w.Hook? ::
      exists j | 0 <= j <= k :: steps[k].w.seen == Read(Run(g, steps[..j]).txs, steps[k].w.hook.id)
  }

  /** The callback reports payment and matches the row of its transaction in this table. */
  predicate PaysByTable(txs: Table, s: Step, invoice: string) {
    && s.Store? && s.w.Hook? && Invoiced(txs, s.w.hook.id, invoice)
    && HookMatches(txs[s.w.hook.id], s.w.provider, s.w.hook) && Clean(s.w.hook.status) == Some(PAID)
  }

  /** The transaction of the first of the steps from i on that pays by the table. */
  function FirstPayer(txs: Table, steps: seq<Step>, i: nat, invoice: string): Option<TxId>
    requires i <= |steps|
    decreases |steps| - i
  {
    if i == |steps| then None
    else if PaysByTable(txs, steps[i], invoice) then Some(steps[i].w.hook.id)
    else FirstPayer(txs, steps, i + 1, invoice)
  }

  /** Callbacks and automatic cancels leave alone what matching looks at. */
  ghost predicate SameTerms(txs: Table, after: Table, invoice: string) {
    forall id ::
      && (Invoiced(txs, id, invoice) <==> Invoiced(after, id, invoice))
      && (Invoiced(txs, id, invoice) ==>
            txs[id].provider == after[id].provider && txs[id].amount == after[id].amount)
  }

  lemma TermsStay(g: Gate, s: Step, invoice: string)
    requires Shape(g) && FansLead(g) && CallbackStep(s) && KnownAmounts(g.txs, invoice)
    ensures SameTerms(g.txs, Stepped(g, s).txs, invoice)
  {
    OnlyTableWrites(g, s);
    var w := TableWrite(g, s);
    if s.FanCancel? && w.Some? {
      assert Leads(g.txs, g.fans[s.fan]) && Invoiced(g.txs, w.value.id, g.fans[s.fan].invoice);
      CancelKeepsTerms(g.txs, w.value.id, w.value.provider, s.now, invoice);
    } else if w.Some? {
      CallbackKeepsTerms(g.txs, w.value, s.now, invoice);
    }
  }

  lemma CancelKeepsTerms(txs: Table, id: TxId, provider: string, now: string, invoice: string)
    requires id in txs
    ensures SameTerms(txs, StatusSet(txs, id, CANCELED, provider, now), invoice)
  {
  }

  lemma CallbackKeepsTerms(txs: Table, w: Write, now: string, invoice: string)
    requires (w.Hook? || w.Merge?) && KnownAmounts(txs, invoice)
    ensures SameTerms(txs, Written(txs, w, now), invoice)
  {
  }

  lemma {:induction false} TermsStayThroughout(g: Gate, steps: seq<Step>, invoice: string)
    requires Shape(g) && FansLead(g) && CallbacksOnly(steps) && KnownAmounts(g.txs, invoice)
    ensures SameTerms(g.txs, Run(g, steps).txs, invoice)
    decreases |steps|
  {
    if steps != [] {
      var next := Stepped(g, steps[0]);
      TermsStay(g, steps[0], invoice);
      StepKeepsShape(g, steps[0]);
      StepKeepsLead(g, steps[0]);
      assert KnownAmounts(next.txs, invoice);
      TermsStayThroughout(next, steps[1..], invoice);
    }
  }

  /** So a callback pays by the row it was matched against exactly if it pays by the table at the start. */
  lemma ReadIsTable(g: Gate, steps: seq<Step>, k: nat, invoice: string)
    requires Shape(g) && FansLead(g) && CallbacksOnly(steps) && KnownAmounts(g.txs, invoice) && ReadInRun(g, steps)
    requires k < |steps|
    ensures Pays(g.txs, steps[k], invoice) <==> PaysByTable(g.txs, steps[k], invoice)
  {
    var s := steps[k];
    if s.Store? && s.w.Hook? && Invoiced(g.txs, s.w.hook.id, invoice) {
      var j :| 0 <= j <= k && s.w.seen == Read(Run(g, steps[..j]).txs, s.w.hook.id);
      TermsStayThroughout(g, steps[..j], invoice);
      assert Invoiced(Run(g, steps[..j]).txs, s.w.hook.id, invoice);
    }
  }

  /** From i on, the first step to pay by the table decides. */
  lemma {:induction false} FirstPayerDecides(start: Table, g: Gate, steps: seq<Step>, i: nat, invoice: string)
    requires i <= |steps| && CallbacksOnly(steps) && SameInvoice(start, g.txs, invoice)
    requires Shape(g) && FansLead(g)
    requires forall k | 0 <= k < |steps| :: Pays(start, steps[k], invoice) <==> PaysByTable(start, steps[k], invoice)
    ensures FirstDecider(g, steps[i..], invoice) == FirstPayer(start, steps, i, invoice)
    decreases |steps| - i
  {
    if i < |steps| {
      var s := steps[i];
      assert steps[i..][0] == s && steps[i..][1..] == steps[i + 1..];
      assert Pays(g.txs, s, invoice) <==> Pays(start, s, invoice) by { assert SameInvoice(start, g.txs, invoice); }
      StepKeepsShape(g, s);
      StepKeepsLead(g, s);
      SameInvoiceStays(g, s, invoice);
      FirstPayerDecides(start, Stepped(g, s), steps, i + 1, invoice);
    }
  }

  ghost predicate SameInvoice(txs: Table, after: Table, invoice: string) {
    forall id :: Invoiced(txs, id, invoice) <==> Invoiced(after, id, invoice)
  }

  lemma SameInvoiceStays(g: Gate, s: Step, invoice: string)
    requires Shape(g) && FansLead(g) && CallbackStep(s)
    ensures SameInvoice(g.txs, Stepped(g, s).txs, invoice)
  {
    OnlyTableWrites(g, s);
    var w := TableWrite(g, s);
    if s.FanCancel? && w.Some? {
      assert Leads(g.txs, g.fans[s.fan]) && Invoiced(g.txs, w.value.id, g.fans[s.fan].invoice);
    }
  }

  /** For any run of callbacks and automatic cancels with known amounts, the paid transaction of an invoice at the end is
      the one whose matching paid callback came first; without such a callback there is none. */
  lemma FirstPaidWins(g: Gate, steps: seq<Step>, invoice: string)
    requires Shape(g) && FansLead(g) && CallbacksOnly(steps) && ReadInRun(g, steps) && invoice != ""
    requires KnownAmounts(g.txs, invoice) && Unpaid(g.txs, invoice)
    ensures forall id :: Holds(Run(g, steps).txs, id, invoice) <==> FirstPayer(g.txs, steps, 0, invoice) == Some(id)
  {
    forall k | 0 <= k < |steps|
      ensures Pays(g.txs, steps[k], invoice) <==> PaysByTable(g.txs, steps[k], invoice)
    {
      ReadIsTable(g, steps, k, invoice);
    }
    FirstPayerDecides(g.txs, g, steps, 0, invoice);
    assert steps[0..] == steps;
    FirstDeciderWins(g, steps, invoice);
  }

  // ----- The others -----

  predicate Closed(txs: Table, id: TxId) {
    id in txs && (txs[id].status == Some(DUPLICATE) || txs[id].status == Some(CANCELED))
  }

  /** A callback with a status that is not final reaches a cancelled transaction, whose status is not protected. */
  predicate Reopens(g: Gate, s: Step, id: TxId, invoice: string) {
    && Calls(g.txs, s, invoice) && s.w.hook.id == id && g.txs[id].status == Some(CANCELED)
    && Clean(s.w.hook.status).Some?
    && Clean(s.w.hook.status).value !in {PAID, DUPLICATE, CANCELED}
  }

  /** A second payer is put aside as a duplicate. */
  lemma LaterPayerIsDuplicate(g: Gate, s: Step, winner: TxId, invoice: string)
    requires Shape(g) && Holds(g.txs, winner, invoice) && Pays(g.txs, s, invoice) && s.w.hook.id != winner
    ensures Stepped(g, s).txs[s.w.hook.id].status == Some(DUPLICATE)
  {
  }

  /** A callback or an automatic cancel that closes a transaction of a decided invoice. */
  predicate Closes(g: Gate, s: Step, id: TxId, invoice: string) {
    || (s.FanCancel? && FanCancels(g, s.fan) && s.succeeds && g.fans[s.fan].stage.rest[0] == id)
    || (Calls(g.txs, s, invoice) && s.w.hook.id == id && Clean(s.w.hook.status).Some?
        && Clean(s.w.hook.status).value in {PAID, DUPLICATE, CANCELED})
  }

  /** A callback for a transaction that cannot be the paid one. */
  lemma LoserCallback(g: Gate, s: Step, winner: TxId, id: TxId, invoice: string)
    requires TableShape(g.txs) && s.Store? && s.w.Hook? && s.w.hook.id == id
    requires Holds(g.txs, winner, invoice) && id != winner && Invoiced(g.txs, id, invoice)
    ensures var after := Stepped(g, s).txs[id].status;
            if !Calls(g.txs, s, invoice) || Clean(s.w.hook.status).None? then after == g.txs[id].status
            else if Clean(s.w.hook.status) == Some(PAID) then after == Some(DUPLICATE)
            else if g.txs[id].status == Some(DUPLICATE) then after == Some(DUPLICATE)
            else after == Clean(s.w.hook.status)
  {
    assert !Holds(g.txs, id, invoice);
    assert !IsPaid(g.txs[id]);
    if Pays(g.txs, s, invoice) { PaidCallbackOutcome(g.txs, s.w.provider, s.w.hook, s.w.seen, s.now); }
  }

  /** Once the invoice is decided, its other transactions are opened and closed by exactly these steps. */
  lemma LoserStep(g: Gate, s: Step, winner: TxId, id: TxId, invoice: string)
    requires Shape(g) && CallbackStep(s)
    requires Holds(g.txs, winner, invoice) && id != winner && Invoiced(g.txs, id, invoice)
    ensures Closed(Stepped(g, s).txs, id) <==>
            Closes(g, s, id, invoice) || (Closed(g.txs, id) && !Reopens(g, s, id, invoice))
  {
    OnlyTableWrites(g, s);
    var w := TableWrite(g, s);
    if s.Store? && s.w.Hook? && s.w.hook.id == id {
      LoserCallback(g, s, winner, id, invoice);
    } else if w.Some? && Target(w.value) != id {
      WriteFrame(g.txs, w.value, Stamp(s), id);
    }
  }

  /** Whether the last step that opened or closed the transaction closed it. */
  ghost predicate LastWordCloses(g: Gate, steps: seq<Step>, id: TxId, invoice: string, closed: bool)
    decreases |steps|
  {
    if steps == [] then closed
    else LastWordCloses(Stepped(g, steps[0]), steps[1..], id, invoice,
                        Closes(g, steps[0], id, invoice) || (closed && !Reopens(g, steps[0], id, invoice)))
  }

  /** Every transaction of a decided invoice but the winner ends as duplicate or canceled exactly if the last callback
      or automatic cancel that counted for it closed it. */
  lemma {:induction false} LosersEnd(g: Gate, steps: seq<Step>, winner: TxId, id: TxId, invoice: string)
    requires Shape(g) && FansLead(g) && CallbacksOnly(steps)
    requires Holds(g.txs, winner, invoice) && id != winner && Invoiced(g.txs, id, invoice)
    ensures Closed(Run(g, steps).txs, id) <==> LastWordCloses(g, steps, id, invoice, Closed(g.txs, id))
    decreases |steps|
  {
    if steps != [] {
      var s, next := steps[0], Stepped(g, steps[0]);
      LoserStep(g, s, winner, id, invoice);
      StepKeepsShape(g, s);
      StepKeepsLead(g, s);
      FanSparesWinners(g, s, winner, invoice);
      TableStep(g, s);
      LosersEnd(next, steps[1..], winner, id, invoice);
    }
  }

  /** A later payer is closed, and stays so to the end if no callback reopens it. */
  lemma {:induction false} UnreopenedStaysClosed(g: Gate, steps: seq<Step>, winner: TxId, id: TxId, invoice: string)
    requires Shape(g) && FansLead(g) && CallbacksOnly(steps)
    requires Holds(g.txs, winner, invoice) && id != winner && Invoiced(g.txs, id, invoice) && Closed(g.txs, id)
    requires NeverReopens(g, steps, id, invoice)
    ensures Closed(Run(g, steps).txs, id)
    decreases |steps|
  {
    if steps != [] {
      var s, next := steps[0], Stepped(g, steps[0]);
      LoserStep(g, s, winner, id, invoice);
      StepKeepsShape(g, s);
      StepKeepsLead(g, s);
      FanSparesWinners(g, s, winner, invoice);
      TableStep(g, s);
      UnreopenedStaysClosed(next, steps[1..], winner, id, invoice);
    }
  }

  ghost predicate NeverReopens(g: Gate, steps: seq<Step>, id: TxId, invoice: string)
    decreases |steps|
  {
    steps == [] ||
    (!Reopens(g, steps[0], id, invoice) && NeverReopens(Stepped(g, steps[0]), steps[1..], id, invoice))
  }
}
