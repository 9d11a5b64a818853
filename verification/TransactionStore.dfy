/** PaymentStore as the object it is: rows are replaced in place, and the database refuses a write
    that breaks the partial unique index by raising IntegrityError inside a savepoint. */
module TransactionStore {
  import opened Basics
  import opened Text
  import opened Transactions

  datatype Outcome = Done | IntegrityError

  class PaymentStore {
    var transactions: Table
    var webhookEvents: set<(string, Webhook)>

    constructor ()
      ensures transactions == map[] && webhookEvents == {}
    {
      transactions := map[];
      webhookEvents := {};
    }

    /** One INSERT or UPDATE under a savepoint: rolled back when it would break the index. */
    method Execute(id: TxId, row: Tx) returns (outcome: Outcome)
      modifies this`transactions
      ensures old(OnePaidPerInvoice(transactions)) ==>
                (outcome.Done? <==> OnePaidPerInvoice(old(transactions)[id := row]))
      ensures outcome.IntegrityError? <==> old(Conflicts(transactions, id, row))
      ensures transactions == if outcome.Done? then old(transactions)[id := row] else old(transactions)
    {
      if OnePaidPerInvoice(transactions) { ConflictIffIndexBreaks(transactions, id, row); }
      if Conflicts(transactions, id, row) {
        outcome := IntegrityError;
      } else {
        transactions := transactions[id := row];
        outcome := Done;
      }
    }

    /** _update_transaction_with_paid_fallback: neither the re-raise nor the second write can fail. */
    method UpdateWithPaidFallback(id: TxId, row: Tx) returns (outcome: Outcome)
      modifies this`transactions
      ensures outcome.Done?
      ensures transactions == Place(old(transactions), id, row)
    {
      outcome := Execute(id, row);
      if outcome.IntegrityError? {
        if !Indexed(row) {
          return IntegrityError;
        }
        outcome := Execute(id, DemotedRow(row));
      }
    }

    method UpsertTransaction(id: TxId, v: Incoming, updateMetadata: bool, now: string) returns (outcome: Outcome)
      modifies this`transactions
      ensures outcome.Done?
      ensures transactions == Upserted(old(transactions), id, v, updateMetadata, now)
    {
      if id !in transactions {
        var values := InsertedRow(v, now);
        outcome := Execute(id, values);
        if outcome.IntegrityError? && id !in transactions {
          if Indexed(values) {
            outcome := Execute(id, DemotedRow(values));
          }
        }
        return;
      }
      var existing := transactions[id];
      var merged := existing.(
        provider := v.provider,
        status := if v.status.Some? then v.status else existing.status,
        amount := Either(v.amount, existing.amount),
        invoice := Either(IncomingInvoice(v), existing.invoice),
        createdAt := Either(v.createdAt, existing.createdAt),
        paidAt := Either(v.paidAt, existing.paidAt),
        details := existing.details + v.details);
      if HasInvoice(existing) {
        merged := merged.(invoice := existing.invoice);
      }
      if v.metadata.Some? && updateMetadata {
        merged := merged.(metadata := Some(existing.metadata.GetOr(map[]) + v.metadata.value));
      }
      if (existing.status == Some(PAID) || existing.status == Some(DUPLICATE)) && merged.status != existing.status {
        merged := merged.(status := existing.status);
      }
      merged := merged.(raw := v.raw, rawMetadata := v.rawMetadata, rawOdengi := v.rawOdengi, updatedAt := now);
      outcome := UpdateWithPaidFallback(id, merged);
    }

    /** save_webhook, undisturbed: every callback is recorded, also a repeated one, and only a matching one is applied. */
    method SaveWebhook(provider: string, hook: Webhook, now: string) returns (duplicate: bool)
      modifies this
      ensures duplicate <==> (provider, hook) in old(webhookEvents)
      ensures webhookEvents == old(webhookEvents) + {(provider, hook)}
      ensures transactions == Hooked(old(transactions), provider, hook, Read(old(transactions), hook.id), now)
      ensures HookTakesEffect(old(transactions), provider, hook, Read(old(transactions), hook.id)) ==>
                hook.id in transactions && Records(old(transactions)[hook.id], transactions[hook.id], hook)
    {
      duplicate := (provider, hook) in webhookEvents;
      webhookEvents := webhookEvents + {(provider, hook)};
      var existing := Read(transactions, hook.id);
      if existing.Some? && HookMatches(existing.value, provider, hook) {
        UpdateFromWebhook(hook, now);
      }
    }

    method UpdateFromWebhook(hook: Webhook, now: string)
      modifies this`transactions
      ensures transactions ==
              if hook.id in old(transactions) && HookApplies(old(transactions)[hook.id], hook)
              then Place(old(transactions), hook.id, HookedRow(old(transactions)[hook.id], hook, now))
              else old(transactions)
      ensures hook.id in old(transactions) && HookApplies(old(transactions)[hook.id], hook) ==>
                hook.id in transactions && Records(old(transactions)[hook.id], transactions[hook.id], hook)
    {
      var status := Clean(hook.status);
      if hook.id !in transactions || status.None? { return; }
      var row := transactions[hook.id];
      if (row.status == Some(PAID) || row.status == Some(DUPLICATE)) && status != Some(PAID) { return; }
      var values := row.(status := status, updatedAt := now);
      if row.amount.None? && hook.amount.Some? { values := values.(amount := hook.amount); }
      if row.createdAt.None? && hook.createdAt.Some? { values := values.(createdAt := hook.createdAt); }
      if hook.paidAt.Some? { values := values.(paidAt := hook.paidAt); }
      if hook.transId.Some? {
        values := values.(raw := row.raw["provider_payment_id" := hook.transId.value]);
      }
      PlacedRowRecords(transactions, hook, now);
      assert values == HookedRow(row, hook, now);
      var outcome := UpdateWithPaidFallback(hook.id, values);
    }

    method UpdateTransactionStatus(id: TxId, status: string, provider: string, now: string) returns (outcome: Outcome)
      modifies this`transactions
      ensures outcome.Done?
      ensures transactions == StatusSet(old(transactions), id, status, provider, now)
    {
      if id !in transactions {
        outcome := Execute(id, BareRow(id, provider, status, now));
        return;
      }
      outcome := UpdateWithPaidFallback(id, transactions[id].(status := Some(status), updatedAt := now));
    }

    method MergeTransactionMetadata(id: TxId, metadata: Fields, now: string) returns (row: Option<Tx>)
      modifies this`transactions
      ensures transactions == MetadataMerged(old(transactions), id, metadata, now)
      ensures row == if id in transactions then Some(transactions[id]) else None
    {
      if id !in transactions { return None; }
      if metadata == map[] { return Some(transactions[id]); }
      var merged := transactions[id].metadata.GetOr(map[]);
      merged := merged + metadata;
      var rawMerged := transactions[id].rawMetadata.GetOr(map[]);
      rawMerged := rawMerged + metadata;
      transactions := transactions[id :=
        transactions[id].(metadata := Some(merged), rawMetadata := Some(rawMerged), updatedAt := now)];
      row := Some(transactions[id]);
    }
  }
}
