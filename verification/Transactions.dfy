/**
 The `transactions` table of src/payment_gateway/store.py on values: what each store method
 makes of the table. A table is a map, because rows are only ever addressed by primary key.
 */
module Transactions {
  import opened Basics
  import opened Text

  type TxId = string
  type Fields = map<string, string>

  const PAID := "paid"
  const DUPLICATE := "duplicate"
  const CANCELED := "canceled"
  const UNKNOWN := "unknown"

  /** `details` holds the columns that are only ever copied: type, branch, cashier, token and link; `rawMetadata` is the
      object under "metadata" in the raw payload, if it has one, and `rawOdengi` what is under "odengi_payload". */
  datatype Tx = Tx(
    provider: string,
    status: Option<string>,
    amount: Option<int>,
    invoice: Option<string>,
    createdAt: Option<string>,
    paidAt: Option<string>,
    details: Fields,
    metadata: Option<Fields>,
    raw: Fields,
    rawMetadata: Option<Fields>,
    rawOdengi: Fields,
    updatedAt: string)

  type Table = map<TxId, Tx>

  /** The named arguments of upsert_transaction. */
  datatype Incoming = Incoming(
    provider: string,
    status: Option<string>,
    amount: Option<int>,
    invoice: Option<string>,
    createdAt: Option<string>,
    paidAt: Option<string>,
    details: Fields,
    metadata: Option<Fields>,
    raw: Fields,
    rawMetadata: Option<Fields>,
    rawOdengi: Fields)

  /** A provider callback, its amount already read as an integer where that is possible. */
  datatype Webhook = Webhook(
    id: TxId,
    status: Option<string>,
    amount: Option<int>,
    createdAt: Option<string>,
    paidAt: Option<string>,
    transId: Option<string>)

  // ----- The partial unique index uq_transactions_paid_invoice -----

  predicate HasInvoice(t: Tx) {
    t.invoice.Some? && t.invoice.value != ""
  }

  predicate IsPaid(t: Tx) {
    t.status == Some(PAID)
  }

  /** The rows the index covers. */
  predicate Indexed(t: Tx) {
    IsPaid(t) && HasInvoice(t)
  }

  predicate Holds(table: Table, id: TxId, invoice: string) {
    id in table && Indexed(table[id]) && table[id].invoice == Some(invoice)
  }

  /** Writing `row` under `id` would raise IntegrityError. */
  predicate Conflicts(table: Table, id: TxId, row: Tx) {
    Indexed(row) && exists other | other in table :: other != id && Holds(table, other, row.invoice.value)
  }

  /** The index invariant: at most one paid row per non-empty invoice id. */
  ghost predicate OnePaidPerInvoice(table: Table) {
    forall a, b, invoice :: Holds(table, a, invoice) && Holds(table, b, invoice) ==> a == b
  }

  /** The check for another holder refuses exactly the writes after which two rows would hold an invoice. */
  lemma ConflictIffIndexBreaks(table: Table, id: TxId, row: Tx)
    requires OnePaidPerInvoice(table)
    ensures Conflicts(table, id, row) <==> !OnePaidPerInvoice(table[id := row])
  {
    var after := table[id := row];
    if Conflicts(table, id, row) {
      var other :| other in table && other != id && Holds(table, other, row.invoice.value);
      assert Holds(after, other, row.invoice.value) && Holds(after, id, row.invoice.value);
    } else {
      forall a, b, invoice | Holds(after, a, invoice) && Holds(after, b, invoice) ensures a == b {
        assert a != id ==> Holds(table, a, invoice);
        assert b != id ==> Holds(table, b, invoice);
      }
    }
  }

  // ----- Row arithmetic -----

  function Either<T>(first: Option<T>, second: Option<T>): Option<T> {
    if first.Some? then first else second
  }

  function ExtractInvoice(metadata: Option<Fields>): (invoice: Option<string>)
    ensures invoice.Some? ==> invoice.value != "" && Strip(invoice.value) == invoice.value
  {
    match metadata
    case None => None
    case Some(m) =>
      FirstClean(m, ["invoice_id", "external_invoice_id", "onec_invoice_id", "invoice_uid"])
  }

  function FirstClean(m: Fields, keys: seq<string>): (value: Option<string>)
    ensures value.Some? ==> value.value != "" && Strip(value.value) == value.value
  {
    if keys == [] then None
    else if keys[0] in m && Clean(Some(m[keys[0]])).Some? then Clean(Some(m[keys[0]]))
    else FirstClean(m, keys[1..])
  }

  /** An invoice id that enters the table is stripped and not empty. */
  function IncomingInvoice(v: Incoming): (invoice: Option<string>)
    ensures invoice.Some? ==> invoice.value != "" && Strip(invoice.value) == invoice.value
  {
    Either(Clean(v.invoice), ExtractInvoice(v.metadata))
  }

  function InsertedRow(v: Incoming, now: string): Tx {
    Tx(v.provider, v.status, v.amount, IncomingInvoice(v), v.createdAt, v.paidAt,
       v.details, v.metadata, v.raw, v.rawMetadata, v.rawOdengi, now)
  }

  /** A later snapshot of a transaction merged into its row; a settled status and an invoice id stay. */
  function MergedRow(was: Tx, v: Incoming, updateMetadata: bool, now: string): Tx {
    Tx(v.provider,
       MergedStatus(was.status, v.status),
       Either(v.amount, was.amount),
       if HasInvoice(was) then was.invoice else Either(IncomingInvoice(v), was.invoice),
       Either(v.createdAt, was.createdAt),
       Either(v.paidAt, was.paidAt),
       was.details + v.details,
       if updateMetadata && v.metadata.Some? then Some(was.metadata.GetOr(map[]) + v.metadata.value)
       else was.metadata,
       v.raw,
       v.rawMetadata,
       v.rawOdengi,
       now)
  }

  function MergedStatus(was: Option<string>, next: Option<string>): Option<string> {
    if was == Some(PAID) || was == Some(DUPLICATE) then was else Either(next, was)
  }

  predicate HookMatches(row: Tx, provider: string, hook: Webhook) {
    && (Strip(row.provider) == "" || Strip(row.provider) == provider)
    && (if row.amount.Some? then hook.amount == row.amount
        else Clean(hook.status) == Some(PAID) ==> hook.amount.Some?)
  }

  /** Settled rows ignore everything but another confirmation of payment. */
  predicate HookApplies(row: Tx, hook: Webhook) {
    && Clean(hook.status).Some?
    && (row.status == Some(PAID) || row.status == Some(DUPLICATE) ==> Clean(hook.status) == Some(PAID))
  }

  function HookedRow(row: Tx, hook: Webhook, now: string): Tx {
    row.(status := Clean(hook.status),
         amount := Either(row.amount, hook.amount),
         createdAt := Either(row.createdAt, hook.createdAt),
         paidAt := Either(hook.paidAt, row.paidAt),
         raw := if hook.transId.Some? then row.raw["provider_payment_id" := hook.transId.value] else row.raw,
         updatedAt := now)
  }

  /** The row has the status and the payment time the callback reports, an amount and a creation time if it had none, and
      the provider's payment id; a status of paid may have given way to duplicate. */
  predicate Records(was: Tx, row: Tx, hook: Webhook) {
    && hook.status.Some?
    && (row.status == Some(Strip(hook.status.value))
        || (Strip(hook.status.value) == "paid" && row.status == Some("duplicate")))
    && row.paidAt == (if hook.paidAt.Some? then hook.paidAt else was.paidAt)
    && row.amount == (if was.amount.Some? then was.amount else hook.amount)
    && row.createdAt == (if was.createdAt.Some? then was.createdAt else hook.createdAt)
    && row.raw == (if hook.transId.Some? then was.raw["provider_payment_id" := hook.transId.value] else was.raw)
  }

  function DemotedRow(row: Tx): Tx {
    row.(status := Some(DUPLICATE))
  }

  // ----- What the store methods make of the table -----

  /** A write that falls back to `duplicate` when the paid slot of the invoice is taken. */
  function Place(table: Table, id: TxId, row: Tx): Table {
    table[id := if Conflicts(table, id, row) then DemotedRow(row) else row]
  }

  lemma PlacedRowRecords(table: Table, hook: Webhook, now: string)
    requires hook.id in table && HookApplies(table[hook.id], hook)
    ensures var after := Place(table, hook.id, HookedRow(table[hook.id], hook, now));
            hook.id in after && Records(table[hook.id], after[hook.id], hook)
  {
  }

  function Upserted(table: Table, id: TxId, v: Incoming, updateMetadata: bool, now: string): Table {
    Place(table, id,
          if id in table then MergedRow(table[id], v, updateMetadata, now) else InsertedRow(v, now))
  }

  function Read(table: Table, id: TxId): Option<Tx> {
    if id in table then Some(table[id]) else None
  }

  /** A callback is matched against the row as an earlier transaction `seen` it, and applied to the row as it is. */
  predicate HookTakesEffect(table: Table, provider: string, hook: Webhook, seen: Option<Tx>) {
    && seen.Some? && HookMatches(seen.value, provider, hook)
    && hook.id in table && HookApplies(table[hook.id], hook)
  }

  function Hooked(table: Table, provider: string, hook: Webhook, seen: Option<Tx>, now: string): Table {
    if HookTakesEffect(table, provider, hook, seen)
    then Place(table, hook.id, HookedRow(table[hook.id], hook, now))
    else table
  }

  function BareRow(id: TxId, provider: string, status: string, now: string): Tx {
    Tx(provider, Some(status), None, None, None, None, map[], None, map["id" := id, "status" := status], None, map[],
       now)
  }

  function StatusSet(table: Table, id: TxId, status: string, provider: string, now: string): Table {
    if id in table then Place(table, id, table[id].(status := Some(status), updatedAt := now))
    else table[id := BareRow(id, provider, status, now)]
  }

  /** Metadata is added to the row's own and to the copy in its raw payload. */
  function MetadataMerged(table: Table, id: TxId, metadata: Fields, now: string): Table {
    if id !in table || metadata == map[] then table
    else
      var row := table[id];
      table[id := row.(metadata := Some(row.metadata.GetOr(map[]) + metadata),
                       rawMetadata := Some(row.rawMetadata.GetOr(map[]) + metadata),
                       updatedAt := now)]
  }

  /** One write of any store method. */
  datatype Write =
    | Upsert(id: TxId, incoming: Incoming, updateMetadata: bool)
    | Hook(provider: string, hook: Webhook, seen: Option<Tx>)
    | Cancel(id: TxId, provider: string)
    | Merge(id: TxId, metadata: Fields)

  function Written(table: Table, w: Write, now: string): Table {
    match w
    case Upsert(id, v, updateMetadata) => Upserted(table, id, v, updateMetadata, now)
    case Hook(provider, hook, seen) => Hooked(table, provider, hook, seen, now)
    case Cancel(id, provider) => StatusSet(table, id, CANCELED, provider, now)
    case Merge(id, metadata) => MetadataMerged(table, id, metadata, now)
  }

  function Target(w: Write): TxId {
    match w
    case Upsert(id, _, _) => id
    case Hook(_, hook, _) => hook.id
    case Cancel(id, _) => id
    case Merge(id, _) => id
  }
}
