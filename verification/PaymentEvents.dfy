/**
 The export events built from a paid row, and the two validations they meet: the gateway's before
 the Tiger queue and the worker's before the ledger.
 */
module PaymentEvents {
  import opened Basics
  import opened Text
  import opened Transactions
  import Amounts

  /** `amount` is the decimal the worker reads, `paidAt` the parsed instant; 0 is DateTimeOffset's default. */
  datatype Event = Event(
    invoiceId: string,
    invoiceNumber: Option<string>,
    paidTransactionId: TxId,
    paidProvider: string,
    providerPaymentId: string,
    bankAccount: Option<string>,
    paidAt: Option<int>,
    amountTyiyn: Option<int>,
    amount: Option<real>,
    currency: string,
    clientCode: Option<string>)

  /** The date parser, and what the float division and its way over the wire make of an amount. */
  datatype Readings = Readings(date: string -> Option<int>, amount: int -> real)

  function Get(m: Fields, key: string): Option<string> {
    if key in m then Some(m[key]) else None
  }

  /** The value under the first key, or the one under the second if that is missing or empty. */
  function GetEither(m: Fields, a: string, b: string): Option<string> {
    if a in m && m[a] != "" then Some(m[a]) else Get(m, b)
  }

  function Truthy(s: Option<string>): bool {
    s.Some? && s.value != ""
  }

  /** transaction.get("external_invoice_id") or metadata.get("invoice_id"), stripped; None stands for the ValueError. */
  function EventInvoice(t: Tx): Option<string> {
    Clean(if HasInvoice(t) then t.invoice else Get(t.metadata.GetOr(map[]), "invoice_id"))
  }

  function ProviderPaymentId(id: TxId, raw: Fields): string {
    if Truthy(Get(raw, "provider_payment_id")) then raw["provider_payment_id"]
    else if Truthy(Get(raw, "provider_transaction_id")) then raw["provider_transaction_id"]
    else if Truthy(Get(raw, "invoice_id")) then raw["invoice_id"]
    else if Truthy(Get(raw, "id")) then raw["id"]
    else id
  }

  function Currency(metadata: Fields, raw: Fields): string {
    if Truthy(Get(metadata, "currency")) then metadata["currency"]
    else if Truthy(Get(raw, "currency")) then raw["currency"]
    else "KGS"
  }

  /** The first of the texts that reads as a date. */
  function FirstDate(date: string -> Option<int>, texts: seq<Option<string>>): Option<int> {
    if texts == [] then None
    else if texts[0].Some? && date(texts[0].value).Some? then date(texts[0].value)
    else FirstDate(date, texts[1..])
  }

  /** _payment_paid_at */
  function PaymentTime(t: Tx, date: string -> Option<int>): Option<int> {
    FirstDate(date, [t.paidAt, Get(t.raw, "paid_at"), Get(t.rawOdengi, "date_pay"), Get(t.rawOdengi, "mktime"),
                     Some(t.updatedAt)])
  }

  /** build_tiger_invoice_event */
  function BuildEvent(id: TxId, t: Tx, r: Readings): (event: Option<Event>)
    ensures event.Some? ==>
              && event.value.invoiceId != "" && Strip(event.value.invoiceId) == event.value.invoiceId
              && event.value.paidTransactionId == id
  {
    var metadata := t.metadata.GetOr(map[]);
    match EventInvoice(t)
    case None => None
    case Some(invoice) =>
      Some(Event(
        invoice,
        Get(metadata, "invoice_number"),
        id,
        if t.provider == "" then "unknown" else t.provider,
        ProviderPaymentId(id, t.raw),
        Get(metadata, "tiger_bank_account_code"),
        PaymentTime(t, r.date),
        t.amount,
        if t.amount.None? then None else Some(r.amount(t.amount.value)),
        Currency(metadata, t.raw),
        GetEither(metadata, "client_code", "payer_code")))
  }

  /** After a refresh the event carries the payment id of the refresh, whatever a callback had written before. */
  lemma RefreshDecidesThePaymentId(table: Table, id: TxId, v: Incoming, updateMetadata: bool, now: string, r: Readings)
    ensures var event := BuildEvent(id, Upserted(table, id, v, updateMetadata, now)[id], r);
            event.Some? ==> event.value.providerPaymentId == ProviderPaymentId(id, v.raw)
  {
  }

  /** Which metadata and payload keys make the event, in the order in which they are looked at. */
  lemma EventFields(id: TxId, t: Tx, r: Readings)
    requires BuildEvent(id, t, r).Some?
    ensures var e, m := BuildEvent(id, t, r).value, t.metadata.GetOr(map[]);
            && (if t.invoice.Some? && t.invoice.value != "" then e.invoiceId == Strip(t.invoice.value)
                else "invoice_id" in m && e.invoiceId == Strip(m["invoice_id"]))
            && e.invoiceNumber == (if "invoice_number" in m then Some(m["invoice_number"]) else None)
            && e.paidTransactionId == id
            && e.paidProvider == (if t.provider != "" then t.provider else "unknown")
            && e.bankAccount ==
                 (if "tiger_bank_account_code" in m then Some(m["tiger_bank_account_code"]) else None)
            && e.clientCode ==
                 (if "client_code" in m && m["client_code"] != "" then Some(m["client_code"])
                  else if "payer_code" in m then Some(m["payer_code"]) else None)
            && e.amountTyiyn == t.amount
            && e.amount == (if t.amount.Some? then Some(r.amount(t.amount.value)) else None)
            && e.currency ==
                 (if "currency" in m && m["currency"] != "" then m["currency"]
                  else if "currency" in t.raw && t.raw["currency"] != "" then t.raw["currency"]
                  else "KGS")
  {
  }

  /** An event can be built unless neither the row nor its metadata gives an invoice id. */
  lemma EventIffInvoice(id: TxId, t: Tx, r: Readings)
    ensures BuildEvent(id, t, r).None? <==>
            if t.invoice.Some? && t.invoice.value != "" then Strip(t.invoice.value) == ""
            else
              var m := t.metadata.GetOr(map[]); "invoice_id" !in m || Strip(m["invoice_id"]) == ""
  {
  }

  /** Whose payment id the event carries: the first of four payload keys that is filled, else the transaction's own. */
  lemma EventPaymentId(id: TxId, t: Tx, r: Readings)
    requires BuildEvent(id, t, r).Some?
    ensures BuildEvent(id, t, r).value.providerPaymentId ==
            if "provider_payment_id" in t.raw && t.raw["provider_payment_id"] != "" then t.raw["provider_payment_id"]
            else if "provider_transaction_id" in t.raw && t.raw["provider_transaction_id"] != ""
            then t.raw["provider_transaction_id"]
            else if "invoice_id" in t.raw && t.raw["invoice_id"] != "" then t.raw["invoice_id"]
            else if "id" in t.raw && t.raw["id"] != "" then t.raw["id"]
            else id
  {
  }

  /** When the event says it was paid: at the row's payment time if that can be read, else at the payload's, else at one of
      the two times in O!Dengi's part of it, else at the row's last change. */
  lemma EventTime(id: TxId, t: Tx, r: Readings)
    requires BuildEvent(id, t, r).Some?
    ensures var e := BuildEvent(id, t, r).value;
            e.paidAt ==
              if Reads(r, t.paidAt) then r.date(t.paidAt.value)
              else if "paid_at" in t.raw && r.date(t.raw["paid_at"]).Some? then r.date(t.raw["paid_at"])
              else if "date_pay" in t.rawOdengi && r.date(t.rawOdengi["date_pay"]).Some?
              then r.date(t.rawOdengi["date_pay"])
              else if "mktime" in t.rawOdengi && r.date(t.rawOdengi["mktime"]).Some? then r.date(t.rawOdengi["mktime"])
              else r.date(t.updatedAt)
  {
    var a, b, c, d, e :=
      t.paidAt, Get(t.raw, "paid_at"), Get(t.rawOdengi, "date_pay"), Get(t.rawOdengi, "mktime"), Some(t.updatedAt);
    FirstDateStep(r.date, a, [b, c, d, e]);
    FirstDateStep(r.date, b, [c, d, e]);
    FirstDateStep(r.date, c, [d, e]);
    FirstDateStep(r.date, d, [e]);
    FirstDateStep(r.date, e, []);
    assert [a] + [b, c, d, e] == [a, b, c, d, e] && [b] + [c, d, e] == [b, c, d, e];
    assert [c] + [d, e] == [c, d, e] && [d] + [e] == [d, e] && [e] + [] == [e];
  }

  predicate Reads(r: Readings, text: Option<string>) { text.Some? && r.date(text.value).Some? }

  lemma FirstDateStep(date: string -> Option<int>, text: Option<string>, texts: seq<Option<string>>)
    ensures FirstDate(date, [text] + texts) ==
            if text.Some? && date(text.value).Some? then date(text.value) else FirstDate(date, texts)
  {
    assert ([text] + texts)[1..] == texts;
  }

  /** A callback that takes effect and names a payment and its time puts both into the event built next. */
  lemma CallbackReachesTheEvent(table: Table, provider: string, hook: Webhook, seen: Option<Tx>, now: string,
                                r: Readings)
    requires HookTakesEffect(table, provider, hook, seen)
    requires BuildEvent(hook.id, Hooked(table, provider, hook, seen, now)[hook.id], r).Some?
    ensures var e := BuildEvent(hook.id, Hooked(table, provider, hook, seen, now)[hook.id], r).value;
            && (hook.transId.Some? && hook.transId.value != "" ==> e.providerPaymentId == hook.transId.value)
            && (hook.paidAt.Some? && r.date(hook.paidAt.value).Some? ==> e.paidAt == r.date(hook.paidAt.value))
            && (table[hook.id].amount.Some? ==> e.amountTyiyn == table[hook.id].amount)
            && (table[hook.id].amount.None? ==> e.amountTyiyn == hook.amount)
  {
    var row := Hooked(table, provider, hook, seen, now)[hook.id];
    EventTime(hook.id, row, r);
    EventPaymentId(hook.id, row, r);
    EventFields(hook.id, row, r);
  }

  // ----- The gateway's validation -----

  predicate Present(s: Option<string>) {
    s.Some? && Strip(s.value) != ""
  }

  /** str.upper() takes two characters to 'S', the second being the long s. */
  function PythonUpperChar(c: char): char {
    if c == '\U{17F}' then 'S' else UpperChar(c)
  }

  predicate PythonUppersTo(s: string, target: string) {
    |s| == |target| && forall i | 0 <= i < |s| :: PythonUpperChar(s[i]) == target[i]
  }

  /** validate_tiger_invoice_event: the first complaint, if any. */
  function GatewayComplaint(e: Event): Option<string> {
    if Strip(e.invoiceId) == "" then Some("invoiceId is required.")
    else if Strip(e.paidTransactionId) == "" then Some("paidTransactionId is required.")
    else if e.paidAt.None? then Some("paidAt is required.")
    else if e.amountTyiyn.None? then Some("amountTyiyn is required.")
    else if !Present(e.bankAccount) then Some("targetBankAccountCode must contain the Tiger BANKACC.CODE.")
    else if !Present(e.clientCode) then Some("clientCode is required.")
    else if e.amountTyiyn.value <= 0 then Some("amountTyiyn must be a positive integer.")
    else if !PythonUppersTo(e.currency, "KGS") then Some("Only KGS bank vouchers are currently supported.")
    else None
  }

  // ----- The worker's validation -----

  predicate NullOrWhiteSpace(s: Option<string>) {
    s.None? || Blank(DotNetSpace, s.value)
  }

  /** string.Equals(a, b, OrdinalIgnoreCase), which leaves the long s alone. */
  predicate OrdinalIgnoreCaseEquals(a: string, b: string) {
    Upper(a) == Upper(b)
  }

  /** ValidateInvoice on the deserialized event; missing numbers arrive as zero. */
  function WorkerComplaint(e: Event): Option<string> {
    var tyiyn, amount := e.amountTyiyn.GetOr(0), e.amount.GetOr(0.0);
    if NullOrWhiteSpace(Some(e.invoiceId)) then Some("invoiceId is required.")
    else if NullOrWhiteSpace(Some(e.paidTransactionId)) then Some("paidTransactionId is required.")
    else if e.paidAt.GetOr(0) == 0 then Some("paidAt is required.")
    else if tyiyn <= 0 then Some("amountTyiyn must be greater than zero.")
    else if amount <= 0.0 then Some("amount must be greater than zero.")
    else if amount != tyiyn as real / 100.0 then Some("amount must equal amountTyiyn / 100.")
    else if !OrdinalIgnoreCaseEquals(e.currency, "KGS") then Some("Only KGS bank vouchers are currently supported.")
    else if NullOrWhiteSpace(e.clientCode) then Some("clientCode is required.")
    else if NullOrWhiteSpace(e.bankAccount) then Some("targetBankAccountCode must contain the Tiger BANKACC.CODE.")
    else None
  }

  predicate FilledFor(space: char -> bool, s: Option<string>) {
    s.Some? && exists i | 0 <= i < |s.value| :: !space(s.value[i])
  }

  lemma PresentIff(s: Option<string>)
    ensures Present(s) <==> FilledFor(PythonSpace, s)
  {
    if s.Some? { TrimIsTrimmed(PythonSpace, s.value); }
  }

  lemma StripsIff(s: string)
    ensures Strip(s) != "" <==> FilledFor(PythonSpace, Some(s))
  {
    TrimIsTrimmed(PythonSpace, s);
  }

  /** Som in any spelling, as the gateway sees it. */
  predicate IsSom(s: string, last: string) { |s| == 3 && s[0] in "kK" && s[1] in "gG" && s[2] in last }

  lemma PythonSom(s: string)
    ensures PythonUppersTo(s, "KGS") <==> IsSom(s, "sS\U{17F}")
  {
  }

  lemma DotNetSom(s: string)
    ensures OrdinalIgnoreCaseEquals(s, "KGS") <==> IsSom(s, "sS")
  {
    var u := Upper(s);
    assert u == "KGS" <==> |u| == 3 && u[0] == 'K' && u[1] == 'G' && u[2] == 'S';
    assert Upper("KGS") == "KGS" by {
      assert Upper("KGS")[0] == 'K' && Upper("KGS")[1] == 'G' && Upper("KGS")[2] == 'S';
    }
  }

  /** What the gateway accepts: every required text filled, a payment time, a positive amount, and som. */
  lemma GatewayAcceptsIff(e: Event)
    ensures GatewayComplaint(e).None? <==>
            && FilledFor(PythonSpace, Some(e.invoiceId)) && FilledFor(PythonSpace, Some(e.paidTransactionId))
            && FilledFor(PythonSpace, e.bankAccount) && FilledFor(PythonSpace, e.clientCode)
            && e.paidAt.Some? && e.amountTyiyn.Some? && e.amountTyiyn.value > 0 && IsSom(e.currency, "sS\U{17F}")
  {
    StripsIff(e.invoiceId);
    StripsIff(e.paidTransactionId);
    PresentIff(e.bankAccount);
    PresentIff(e.clientCode);
    PythonSom(e.currency);
  }

  lemma NotBlankIff(s: Option<string>)
    ensures NullOrWhiteSpace(s) <==> !FilledFor(DotNetSpace, s)
  {
  }

  /** What the worker accepts. */
  lemma WorkerAcceptsIff(e: Event)
    ensures WorkerComplaint(e).None? <==>
            && FilledFor(DotNetSpace, Some(e.invoiceId)) && FilledFor(DotNetSpace, Some(e.paidTransactionId))
            && FilledFor(DotNetSpace, e.bankAccount) && FilledFor(DotNetSpace, e.clientCode)
            && e.paidAt.Some? && e.paidAt.value != 0
            && e.amountTyiyn.Some? && e.amountTyiyn.value > 0
            && e.amount == Some(e.amountTyiyn.value as real / 100.0) && IsSom(e.currency, "sS")
  {
    NotBlankIff(Some(e.invoiceId));
    NotBlankIff(Some(e.paidTransactionId));
    NotBlankIff(e.bankAccount);
    NotBlankIff(e.clientCode);
    DotNetSom(e.currency);
  }

  // ----- Acceptance by the gateway refines acceptance by the worker -----

  /** Text that Python does not find blank is not blank for .NET either. */
  lemma PresentIsNotBlank(s: string)
    requires Strip(s) != ""
    ensures !Blank(DotNetSpace, s)
  {
    TrimIsTrimmed(PythonSpace, s);
    var i :| 0 <= i < |s| && !PythonSpace(s[i]);
    assert !DotNetSpace(s[i]);
  }

  lemma CurrencySpellings(s: string)
    requires PythonUppersTo(s, "KGS")
    ensures OrdinalIgnoreCaseEquals(s, "KGS") <==> '\U{17F}' !in s
  {
  }

  lemma RequiredTextsAreFilled(e: Event)
    requires GatewayComplaint(e).None?
    ensures !NullOrWhiteSpace(Some(e.invoiceId)) && !NullOrWhiteSpace(Some(e.paidTransactionId))
    ensures !NullOrWhiteSpace(e.clientCode) && !NullOrWhiteSpace(e.bankAccount)
  {
    PresentIsNotBlank(e.invoiceId);
    PresentIsNotBlank(e.paidTransactionId);
    PresentIsNotBlank(e.clientCode.value);
    PresentIsNotBlank(e.bankAccount.value);
  }

  /** An event the gateway accepts is accepted by the worker exactly if the amount arrived intact,
      the payment is not dated at the zero instant and the currency is not spelt with a long s. */
  lemma AcceptanceIffIntact(e: Event)
    requires GatewayComplaint(e).None?
    ensures WorkerComplaint(e).None?
       <==> && e.amount == Some(e.amountTyiyn.value as real / 100.0)
            && e.paidAt.value != 0
            && '\U{17F}' !in e.currency
  {
    RequiredTextsAreFilled(e);
    GatewayNumbers(e);
    CurrencySpellings(e.currency);
  }

  lemma GatewayNumbers(e: Event)
    requires GatewayComplaint(e).None?
    ensures e.paidAt.Some? && e.amountTyiyn.Some? && e.amountTyiyn.value > 0
    ensures e.amountTyiyn.value as real / 100.0 > 0.0 && PythonUppersTo(e.currency, "KGS")
  {
  }

  /** The whole chain for a paid row: division, shortest printing, exact reading, both validations. */
  lemma GatewayAcceptanceRefinesWorker(id: TxId, t: Tx, r: Readings, round: real -> real, p: nat, q: int)
    requires Amounts.IsRounding(round)
    requires t.amount.Some? && 0 < t.amount.value <= Amounts.LAST_SAFE_AMOUNT
    requires Amounts.IsShortest(round, round(t.amount.value as real / 100.0), p, q)
    requires r.amount(t.amount.value) == Amounts.Decimal(p, q)
    requires BuildEvent(id, t, r).Some?
    ensures var e := BuildEvent(id, t, r).value;
            GatewayComplaint(e).None? ==>
              (WorkerComplaint(e).None? <==> e.paidAt.value != 0 && '\U{17F}' !in e.currency)
  {
    Amounts.AmountSurvivesTheWire(round, t.amount.value, p, q);
    IntactAcceptance(BuildEvent(id, t, r).value);
  }

  lemma IntactAcceptance(e: Event)
    requires e.amountTyiyn.Some? && e.amount == Some(e.amountTyiyn.value as real / 100.0)
    ensures GatewayComplaint(e).None? ==>
              (WorkerComplaint(e).None? <==> e.paidAt.value != 0 && '\U{17F}' !in e.currency)
  {
    if GatewayComplaint(e).None? { AcceptanceIffIntact(e); }
  }

  function Sample(paidAt: int, currency: string): Event {
    Event("X", None, "X", "X", "X", Some("X"), Some(paidAt), Some(100), Some(1.0), currency, Some("X"))
  }

  /** Both exceptions are real: a long s in the currency, and a payment dated at the zero instant. */
  lemma AcceptedThenRefused()
    ensures GatewayComplaint(Sample(1, "KG\U{17F}")).None? && WorkerComplaint(Sample(1, "KG\U{17F}")).Some?
    ensures GatewayComplaint(Sample(0, "KGS")).None? && WorkerComplaint(Sample(0, "KGS")).Some?
  {
  }
}
