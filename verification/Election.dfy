/** How one store write can and cannot move the paid row of an invoice. */
module Election {
  import opened Basics
  import opened Text
  import opened Transactions

  lemma PlaceKeepsOnePaid(table: Table, id: TxId, row: Tx)
    requires OnePaidPerInvoice(table)
    ensures OnePaidPerInvoice(Place(table, id, row))
  {
    var after := Place(table, id, row);
    forall a, b, invoice | Holds(after, a, invoice) && Holds(after, b, invoice)
      ensures a == b
    {
      assert a != id ==> Holds(table, a, invoice);
      assert b != id ==> Holds(table, b, invoice);
    }
  }

  /** Every transaction writer preserves the index invariant, so the database never has to refuse. */
  lemma WriteKeepsOnePaid(table: Table, w: Write, now: string)
    requires OnePaidPerInvoice(table)
    ensures OnePaidPerInvoice(Written(table, w, now))
  {
    var after := Written(table, w, now);
    match w
    case Upsert(id, v, updateMetadata) =>
      PlaceKeepsOnePaid(table, id,
                        if id in table then MergedRow(table[id], v, updateMetadata, now) else InsertedRow(v, now));
    case Hook(provider, hook, seen) =>
      if HookTakesEffect(table, provider, hook, seen) {
        PlaceKeepsOnePaid(table, hook.id, HookedRow(table[hook.id], hook, now));
      }
    case Cancel(id, provider) =>
      if id in table {
        PlaceKeepsOnePaid(table, id, table[id].(status := Some(CANCELED), updatedAt := now));
      } else {
        assert forall a, invoice :: Holds(after, a, invoice) ==> Holds(table, a, invoice);
      }
    case Merge(id, metadata) =>
      assert forall a, invoice :: Holds(after, a, invoice) ==> Holds(table, a, invoice);
  }

  /** A write touches its own row only; no row ever disappears and an invoice id, once set, stays. */
  lemma WriteFrame(table: Table, w: Write, now: string, id: TxId)
    requires id in table
    ensures id in Written(table, w, now)
    ensures id != Target(w) ==> Written(table, w, now)[id] == table[id]
    ensures HasInvoice(table[id]) ==> Written(table, w, now)[id].invoice == table[id].invoice
  {
  }

  /** The only write that takes the paid slot away from a row is a cancel of that very row. */
  lemma SlotIsLostExactlyByItsCancel(table: Table, w: Write, now: string, id: TxId, invoice: string)
    requires OnePaidPerInvoice(table) && Holds(table, id, invoice)
    ensures Holds(Written(table, w, now), id, invoice) <==> !(w.Cancel? && w.id == id)
  {
  }

  /** Which writes can newly occupy a slot: an upsert or a callback of that row that says `paid`. */
  lemma SlotIsTakenOnlyByPayment(table: Table, w: Write, now: string, id: TxId, invoice: string)
    requires Holds(Written(table, w, now), id, invoice) && !Holds(table, id, invoice)
    ensures id == Target(w) && (w.Upsert? || w.Hook?)
    ensures forall other | other != id :: !Holds(table, other, invoice)
    ensures w.Hook? ==> Clean(w.hook.status) == Some(PAID) && w.seen.Some? && HookMatches(w.seen.value, w.provider, w.hook)
    ensures w.Upsert? ==> (id in table ==> table[id].status != Some(DUPLICATE))
  {
  }

  /** A callback that reports payment ends as `paid` exactly when no other row holds the invoice. */
  lemma PaidCallbackOutcome(table: Table, provider: string, hook: Webhook, seen: Option<Tx>, now: string)
    requires HookTakesEffect(table, provider, hook, seen) && Clean(hook.status) == Some(PAID)
    ensures var row := Hooked(table, provider, hook, seen, now)[hook.id];
            if HasInvoice(table[hook.id])
               && exists other | other in table :: other != hook.id && Holds(table, other, table[hook.id].invoice.value)
            then row.status == Some(DUPLICATE)
            else row.status == Some(PAID)
  {
  }

  /** A paid row without an invoice id is demoted exactly when an upsert gives it one that is taken. */
  lemma UninvoicedPaymentDemotion(table: Table, w: Write, now: string, id: TxId)
    requires id in table && IsPaid(table[id]) && !HasInvoice(table[id])
    ensures Written(table, w, now)[id].status == Some(DUPLICATE)
       <==> && w.Upsert? && w.id == id && IncomingInvoice(w.incoming).Some?
            && exists other | other in table :: other != id && Holds(table, other, IncomingInvoice(w.incoming).value)
  {
  }

  /** Placing the same row again, or the row that was placed, changes nothing. */
  lemma PlacedTwice(table: Table, id: TxId, row: Tx)
    ensures Place(Place(table, id, row), id, row) == Place(table, id, row)
    ensures Place(Place(table, id, row), id, Place(table, id, row)[id]) == Place(table, id, row)
  {
    var once := Place(table, id, row);
    forall other, invoice | other != id ensures Holds(once, other, invoice) <==> Holds(table, other, invoice) { }
    assert Conflicts(once, id, row) <==> Conflicts(table, id, row);
  }

  /** An undisturbed delivery: matched against the row it is applied to. */
  function Delivered(table: Table, provider: string, hook: Webhook, now: string): Table {
    Hooked(table, provider, hook, Read(table, hook.id), now)
  }

  /** Providers repeat callbacks: delivering the same one twice changes nothing more. */
  lemma RedeliveryIsIdempotent(table: Table, provider: string, hook: Webhook, now: string)
    requires OnePaidPerInvoice(table)
    ensures Delivered(Delivered(table, provider, hook, now), provider, hook, now) == Delivered(table, provider, hook, now)
  {
    if HookTakesEffect(table, provider, hook, Read(table, hook.id)) {
      var row := HookedRow(table[hook.id], hook, now);
      PlacedTwice(table, hook.id, row);
      assert HookedRow(Delivered(table, provider, hook, now)[hook.id], hook, now) == row;
    }
  }

  predicate Known<T(==)>(was: Option<T>, now: Option<T>) { was.Some? ==> now == was }

  /** A callback only fills gaps: it never changes a known amount or creation time, the invoice, the provider or the
      metadata; only status, payment time and the provider's payment id follow it. */
  lemma CallbackFillsGaps(table: Table, provider: string, hook: Webhook, seen: Option<Tx>, now: string, id: TxId)
    requires id in table
    ensures var was, row := table[id], Hooked(table, provider, hook, seen, now)[id];
            && Known(was.amount, row.amount) && Known(was.createdAt, row.createdAt)
            && row.invoice == was.invoice && row.provider == was.provider
            && row.metadata == was.metadata && row.rawMetadata == was.rawMetadata && row.details == was.details
            && (was.paidAt.Some? ==> row.paidAt.Some?)
            && (forall key | key in was.raw && key != "provider_payment_id" ::
                  key in row.raw && row.raw[key] == was.raw[key])
            && (was.amount.None? && row.amount.Some? ==> id == hook.id && row.amount == hook.amount)
  {
  }

  /** Which callbacks take effect: the transaction was there with the same provider, or none, and the same amount, or
      none unless the callback says paid without one; and a settled row only takes another confirmation. */
  lemma CallbackTakesEffectIff(table: Table, provider: string, hook: Webhook, seen: Option<Tx>)
    ensures HookTakesEffect(table, provider, hook, seen) <==>
            && seen.Some? && hook.id in table && hook.status.Some? && Strip(hook.status.value) != ""
            && (Strip(seen.value.provider) == "" || Strip(seen.value.provider) == provider)
            && (seen.value.amount.Some? ==> hook.amount == seen.value.amount)
            && (seen.value.amount.None? && Strip(hook.status.value) == "paid" ==> hook.amount.Some?)
            && (table[hook.id].status in {Some("paid"), Some("duplicate")} ==> Strip(hook.status.value) == "paid")
  {
  }

  /** What such a callback leaves in its row: the status and the payment time it reports, an amount and a creation time
      that were unknown, and the provider's payment id. */
  lemma CallbackRecords(table: Table, provider: string, hook: Webhook, seen: Option<Tx>, now: string)
    requires HookTakesEffect(table, provider, hook, seen)
    ensures var was, row := table[hook.id], Hooked(table, provider, hook, seen, now)[hook.id];
            && Records(was, row, hook)
            && row.rawOdengi == was.rawOdengi && row.updatedAt == now
  {
  }

  /** What a refresh leaves in the row: every column the snapshot fills takes its value, but for a settled status and an
      invoice id that is there. */
  lemma RefreshRecords(table: Table, id: TxId, v: Incoming, updateMetadata: bool, now: string)
    requires id in table
    ensures var was, row := table[id], Upserted(table, id, v, updateMetadata, now)[id];
            var reported := if was.status in {Some("paid"), Some("duplicate")} || v.status.None? then was.status else v.status;
            && (row.status == reported || (reported == Some("paid") && row.status == Some("duplicate")))
            && row.provider == v.provider
            && row.amount == (if v.amount.Some? then v.amount else was.amount)
            && row.createdAt == (if v.createdAt.Some? then v.createdAt else was.createdAt)
            && row.paidAt == (if v.paidAt.Some? then v.paidAt else was.paidAt)
            && (was.invoice.Some? && was.invoice.value != "" ==> row.invoice == was.invoice)
            && (was.invoice.GetOr("") == "" && IncomingInvoice(v).Some? ==> row.invoice == IncomingInvoice(v))
            && (forall key | key in v.details :: key in row.details && row.details[key] == v.details[key])
            && (forall key | key in was.details && key !in v.details ::
                  key in row.details && row.details[key] == was.details[key])
            && row.raw == v.raw && row.rawMetadata == v.rawMetadata && row.rawOdengi == v.rawOdengi
            && row.updatedAt == now
  {
  }

  /** And in the metadata, if it may be updated at all. */
  lemma RefreshRecordsMetadata(table: Table, id: TxId, v: Incoming, now: string)
    requires id in table && v.metadata.Some?
    ensures Upserted(table, id, v, false, now)[id].metadata == table[id].metadata
    ensures var metadata := Upserted(table, id, v, true, now)[id].metadata;
            && metadata.Some?
            && (forall key | key in v.metadata.value ::
                  key in metadata.value && metadata.value[key] == v.metadata.value[key])
            && (table[id].metadata.Some? ==> forall key | key in table[id].metadata.value && key !in v.metadata.value ::
                  key in metadata.value && metadata.value[key] == table[id].metadata.value[key])
  {
  }

  /** A transaction not yet known gets a row with just what the snapshot says; only a status of paid may give way. */
  lemma FirstSnapshotRecords(table: Table, id: TxId, v: Incoming, updateMetadata: bool, now: string)
    requires id !in table
    ensures var row := Upserted(table, id, v, updateMetadata, now)[id];
            && (row.status == v.status || (v.status == Some("paid") && row.status == Some("duplicate")))
            && row.provider == v.provider && row.amount == v.amount && row.createdAt == v.createdAt
            && row.paidAt == v.paidAt && row.invoice == IncomingInvoice(v) && row.details == v.details
            && row.metadata == v.metadata && row.raw == v.raw && row.updatedAt == now
  {
  }

  /** A cancel sets the status and nothing else, and leaves a bare row for an unknown transaction. */
  lemma CancelRecords(table: Table, id: TxId, provider: string, now: string)
    ensures var row := Written(table, Cancel(id, provider), now)[id];
            && row.status == Some("canceled") && row.updatedAt == now
            && (id in table ==> row == table[id].(status := row.status, updatedAt := now))
            && (id !in table ==>
                  && row.provider == provider && row.invoice.None? && row.amount.None? && row.metadata.None?
                  && row.raw == map["id" := id, "status" := "canceled"])
  {
  }

  /** Merged metadata is found in both places, and the rest of the row is as it was. */
  lemma MergeRecords(table: Table, id: TxId, metadata: Fields, now: string)
    requires id in table && metadata != map[]
    ensures var was, row := table[id], Written(table, Merge(id, metadata), now)[id];
            && row == was.(metadata := row.metadata, rawMetadata := row.rawMetadata, updatedAt := now)
            && row.metadata.Some? && row.rawMetadata.Some?
            && (forall key | key in metadata ::
                  && key in row.metadata.value && row.metadata.value[key] == metadata[key]
                  && key in row.rawMetadata.value && row.rawMetadata.value[key] == metadata[key])
            && (was.metadata.Some? ==> forall key | key in was.metadata.value && key !in metadata ::
                  key in row.metadata.value && row.metadata.value[key] == was.metadata.value[key])
            && (was.rawMetadata.Some? ==> forall key | key in was.rawMetadata.value && key !in metadata ::
                  key in row.rawMetadata.value && row.rawMetadata.value[key] == was.rawMetadata.value[key])
  {
  }

  /** Holding an invoice is being paid under its id. */
  lemma HoldsIff(table: Table, id: TxId, invoice: string)
    ensures Holds(table, id, invoice) <==>
            id in table && table[id].status == Some("paid") && table[id].invoice == Some(invoice) && invoice != ""
  {
  }

  predicate Filled(m: Fields, key: string) { key in m && Strip(m[key]) != "" }

  /** Where an invoice id comes from: the argument, else the first of four metadata keys that is filled. */
  lemma IncomingInvoiceIs(v: Incoming)
    ensures v.invoice.Some? && Strip(v.invoice.value) != "" ==> IncomingInvoice(v) == Some(Strip(v.invoice.value))
    ensures v.invoice.None? || Strip(v.invoice.value) == "" ==>
              var m := v.metadata.GetOr(map[]);
              IncomingInvoice(v) ==
                if Filled(m, "invoice_id") then Some(Strip(m["invoice_id"]))
                else if Filled(m, "external_invoice_id") then Some(Strip(m["external_invoice_id"]))
                else if Filled(m, "onec_invoice_id") then Some(Strip(m["onec_invoice_id"]))
                else if Filled(m, "invoice_uid") then Some(Strip(m["invoice_uid"]))
                else None
  {
    var m := v.metadata.GetOr(map[]);
    FirstCleanStep(m, "invoice_id", ["external_invoice_id", "onec_invoice_id", "invoice_uid"]);
    FirstCleanStep(m, "external_invoice_id", ["onec_invoice_id", "invoice_uid"]);
    FirstCleanStep(m, "onec_invoice_id", ["invoice_uid"]);
    FirstCleanStep(m, "invoice_uid", []);
    assert ["invoice_uid"] + [] == ["invoice_uid"];
  }

  lemma FirstCleanStep(m: Fields, key: string, keys: seq<string>)
    ensures FirstClean(m, [key] + keys) == if Filled(m, key) then Some(Strip(m[key])) else FirstClean(m, keys)
  {
    assert ([key] + keys)[1..] == keys;
  }

  /** A refresh never forgets a column: what was known is still known, and metadata is only added to. The raw payload
      is not kept but replaced, with it a payment id that a callback had written there. */
  lemma RefreshNeverForgets(table: Table, id: TxId, v: Incoming, updateMetadata: bool, now: string)
    requires id in table
    ensures var was, row := table[id], Upserted(table, id, v, updateMetadata, now)[id];
            && (was.status.Some? ==> row.status.Some?)
            && (was.amount.Some? ==> row.amount.Some?) && (was.createdAt.Some? ==> row.createdAt.Some?)
            && (was.paidAt.Some? ==> row.paidAt.Some?)
            && (HasInvoice(was) ==> row.invoice == was.invoice)
            && was.details.Keys <= row.details.Keys
            && (was.metadata.Some? ==> row.metadata.Some? && was.metadata.value.Keys <= row.metadata.value.Keys)
            && (!updateMetadata ==> row.metadata == was.metadata)
            && (was.status == Some(DUPLICATE) ==> row.status == was.status)
            && row.raw == v.raw && row.rawMetadata == v.rawMetadata
  {
    RefreshForgetsNoColumn(table, id, v, updateMetadata, now);
    RefreshKeepsKeys(table, id, v, updateMetadata, now);
  }

  lemma RefreshForgetsNoColumn(table: Table, id: TxId, v: Incoming, updateMetadata: bool, now: string)
    requires id in table
    ensures var was, row := table[id], Upserted(table, id, v, updateMetadata, now)[id];
            && (was.status.Some? ==> row.status.Some?)
            && (was.amount.Some? ==> row.amount.Some?) && (was.createdAt.Some? ==> row.createdAt.Some?)
            && (was.paidAt.Some? ==> row.paidAt.Some?)
            && (HasInvoice(was) ==> row.invoice == was.invoice)
            && (was.status == Some(DUPLICATE) ==> row.status == was.status)
            && row.raw == v.raw && row.rawMetadata == v.rawMetadata
  {
  }

  lemma RefreshKeepsKeys(table: Table, id: TxId, v: Incoming, updateMetadata: bool, now: string)
    requires id in table
    ensures var was, row := table[id], Upserted(table, id, v, updateMetadata, now)[id];
            && was.details.Keys <= row.details.Keys
            && (was.metadata.Some? ==> row.metadata.Some? && was.metadata.value.Keys <= row.metadata.value.Keys)
            && (!updateMetadata ==> row.metadata == was.metadata)
  {
  }

  /** A callback for a row not seen, from another provider, with another amount, or reporting an unknown amount as paid
      changes nothing; nor does one without a status, or a late one on a settled row that does not report payment. */
  lemma MismatchedCallbackIsIgnored(table: Table, provider: string, hook: Webhook, seen: Option<Tx>, now: string)
    requires hook.id in table
    requires || seen.None?
             || (Strip(seen.value.provider) != "" && Strip(seen.value.provider) != provider)
             || (seen.value.amount.Some? && hook.amount != seen.value.amount)
             || (seen.value.amount.None? && hook.amount.None? && Clean(hook.status) == Some(PAID))
             || Clean(hook.status).None?
             || ((IsPaid(table[hook.id]) || table[hook.id].status == Some(DUPLICATE)) && Clean(hook.status) != Some(PAID))
    ensures Hooked(table, provider, hook, seen, now) == table
  {
  }

  lemma AddedTwice(a: Fields, b: Fields)
    ensures (a + b) + b == a + b && b + b == b
  {
  }

  /** Merging a snapshot into the row it has just made changes nothing more. */
  lemma MergeIsIdempotent(row: Tx, v: Incoming, updateMetadata: bool, now: string)
    ensures MergedRow(MergedRow(row, v, updateMetadata, now), v, updateMetadata, now)
         == MergedRow(row, v, updateMetadata, now)
    ensures MergedRow(InsertedRow(v, now), v, updateMetadata, now) == InsertedRow(v, now)
    ensures MergedRow(DemotedRow(row), v, updateMetadata, now).status == Some(DUPLICATE)
  {
    AddedTwice(row.details, v.details);
    AddedTwice(row.metadata.GetOr(map[]), v.metadata.GetOr(map[]));
  }

  lemma DemotedMerge(row: Tx, v: Incoming, updateMetadata: bool, now: string)
    ensures var same := row.(status := Some(PAID));
            MergedRow(same, v, updateMetadata, now) == same ==>
              MergedRow(DemotedRow(row), v, updateMetadata, now) == DemotedRow(row)
  {
  }

  /** Reading the same snapshot twice is reading it once, for new and for known transactions. */
  lemma RefreshIsIdempotent(table: Table, id: TxId, v: Incoming, updateMetadata: bool, now: string)
    ensures Upserted(Upserted(table, id, v, updateMetadata, now), id, v, updateMetadata, now)
         == Upserted(table, id, v, updateMetadata, now)
  {
    var once := Upserted(table, id, v, updateMetadata, now);
    var first := if id in table then MergedRow(table[id], v, updateMetadata, now) else InsertedRow(v, now);
    if id in table {
      MergeIsIdempotent(table[id], v, updateMetadata, now);
    } else {
      MergeIsIdempotent(first, v, updateMetadata, now);
    }
    assert MergedRow(first, v, updateMetadata, now) == first;
    if Conflicts(table, id, first) { DemotedMerge(first, v, updateMetadata, now); }
    assert MergedRow(once[id], v, updateMetadata, now) == once[id];
    PlacedTwice(table, id, first);
  }

}
