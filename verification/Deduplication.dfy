/**
 The start-up deduplication of legacy data, written twice in the source: in the store and in the
 Alembic migration. It establishes the invariant on which the partial unique index depends.
 Rows are read in whatever order the database returns them.
 */
module Deduplication {
  import opened Basics
  import opened Text
  import opened Transactions

  /** A row of one_c_payment_exports as far as the choice looks at it, keyed by its unique payment id. */
  datatype OneCRow = OneCRow(invoice: string, status: string)

  datatype Candidate = Candidate(priority: nat, payment: TxId)

  // ----- The rule -----

  function Group(table: Table, invoice: string): set<TxId> {
    set id | id in table && Holds(table, id, invoice)
  }

  function Priority(status: string): nat {
    if status == "success" then 0
    else if status == "processing" || status == "pending" then 1
    else if status == "error" then 2
    else 3
  }

  function Candidates(oneC: map<TxId, OneCRow>, invoice: string): set<Candidate> {
    set p | p in oneC && oneC[p].invoice == invoice :: Candidate(Priority(oneC[p].status), p)
  }

  predicate CandidateLess(a: Candidate, b: Candidate) {
    a.priority < b.priority || (a.priority == b.priority && LexLess(a.payment, b.payment))
  }

  /** The first time known of a payment: when it was paid, else created, else last changed. */
  function TimeKey(t: Tx): string {
    if t.paidAt.Some? && t.paidAt.value != "" then t.paidAt.value
    else if t.createdAt.Some? && t.createdAt.value != "" then t.createdAt.value
    else t.updatedAt
  }

  predicate Earlier(table: Table, a: TxId, b: TxId)
    requires a in table && b in table
  {
    || LexLess(TimeKey(table[a]), TimeKey(table[b]))
    || (TimeKey(table[a]) == TimeKey(table[b]) && LexLess(a, b))
  }

  /** A payment of this invoice that 1C already knows about. */
  predicate Known(table: Table, oneC: map<TxId, OneCRow>, invoice: string, c: Candidate) {
    c in Candidates(oneC, invoice) && c.payment in Group(table, invoice)
  }

  /** The payment that stays: the one Tiger was told about, else the one 1C is furthest with, else the earliest. */
  ghost predicate IsWinner(table: Table, tiger: map<string, TxId>, oneC: map<TxId, OneCRow>, invoice: string,
                           id: TxId) {
    var group := Group(table, invoice);
    && id in group
    && (if invoice in tiger && tiger[invoice] in group then
          id == tiger[invoice]
        else if exists c :: Known(table, oneC, invoice, c) then
          exists c :: Known(table, oneC, invoice, c) && c.payment == id
                      && forall d | Known(table, oneC, invoice, d) :: d == c || CandidateLess(c, d)
        else
          forall other | other in group :: other == id || Earlier(table, id, other))
  }

  ghost predicate Survives(table: Table, tiger: map<string, TxId>, oneC: map<TxId, OneCRow>, id: TxId)
    requires id in table
  {
    Indexed(table[id]) ==> IsWinner(table, tiger, oneC, table[id].invoice.value, id)
  }

  ghost function Deduplicated(table: Table, tiger: map<string, TxId>, oneC: map<TxId, OneCRow>): Table {
    map id | id in table :: if Survives(table, tiger, oneC, id) then table[id] else DemotedRow(table[id])
  }

  // ----- What the rule achieves -----

  lemma CandidateOrder(a: Candidate, b: Candidate, c: Candidate)
    ensures !(CandidateLess(a, b) && CandidateLess(b, a))
    ensures a == b || CandidateLess(a, b) || CandidateLess(b, a)
    ensures CandidateLess(a, b) && CandidateLess(b, c) ==> CandidateLess(a, c)
  {
    LexTrichotomy(a.payment, b.payment);
    if LexLess(a.payment, b.payment) && LexLess(b.payment, c.payment) {
      LexTransitive(a.payment, b.payment, c.payment);
    }
  }

  lemma EarlierOrder(table: Table, a: TxId, b: TxId, c: TxId)
    requires a in table && b in table && c in table
    ensures !(Earlier(table, a, b) && Earlier(table, b, a))
    ensures a == b || Earlier(table, a, b) || Earlier(table, b, a)
    ensures Earlier(table, a, b) && Earlier(table, b, c) ==> Earlier(table, a, c)
  {
    var x, y, z := TimeKey(table[a]), TimeKey(table[b]), TimeKey(table[c]);
    LexTrichotomy(a, b);
    LexTrichotomy(x, y);
    if LexLess(a, b) && LexLess(b, c) { LexTransitive(a, b, c); }
    if LexLess(x, y) && LexLess(y, z) { LexTransitive(x, y, z); }
  }

  lemma WinnerIsUnique(table: Table, tiger: map<string, TxId>, oneC: map<TxId, OneCRow>,
                       invoice: string, a: TxId, b: TxId)
    requires IsWinner(table, tiger, oneC, invoice, a) && IsWinner(table, tiger, oneC, invoice, b)
    ensures a == b
  {
    var group := Group(table, invoice);
    if invoice in tiger && tiger[invoice] in group {
    } else if exists c :: Known(table, oneC, invoice, c) {
      var c :| Known(table, oneC, invoice, c) && c.payment == a
               && forall d | Known(table, oneC, invoice, d) :: d == c || CandidateLess(c, d);
      var d :| Known(table, oneC, invoice, d) && d.payment == b
               && forall e | Known(table, oneC, invoice, e) :: e == d || CandidateLess(d, e);
      CandidateOrder(c, d, d);
    } else {
      EarlierOrder(table, a, b, b);
    }
  }

  lemma {:induction false} LeastCandidate(s: set<Candidate>) returns (c: Candidate)
    requires s != {}
    ensures c in s && forall d | d in s :: d == c || CandidateLess(c, d)
  {
    var x :| x in s;
    c := x;
    if s != {x} {
      var y := LeastCandidate(s - {x});
      CandidateOrder(x, y, y);
      if CandidateLess(y, x) { c := y; }
      forall d | d in s ensures d == c || CandidateLess(c, d) {
        if d != x { CandidateOrder(x, y, d); }
      }
    }
  }

  lemma {:induction false} EarliestRow(table: Table, s: set<TxId>) returns (id: TxId)
    requires s != {} && s <= table.Keys
    ensures id in s && forall other | other in s :: other == id || Earlier(table, id, other)
  {
    var x :| x in s;
    id := x;
    if s != {x} {
      var y := EarliestRow(table, s - {x});
      EarlierOrder(table, x, y, y);
      if Earlier(table, y, x) { id := y; }
      forall other | other in s ensures other == id || Earlier(table, id, other) {
        if other != x { EarlierOrder(table, x, y, other); }
      }
    }
  }

  /** Every invoice with a paid row has a winner: no payment is lost. */
  lemma WinnerExists(table: Table, tiger: map<string, TxId>, oneC: map<TxId, OneCRow>, invoice: string)
    returns (id: TxId)
    requires Group(table, invoice) != {}
    ensures IsWinner(table, tiger, oneC, invoice, id)
  {
    var group := Group(table, invoice);
    var known := set c | c in Candidates(oneC, invoice) && Known(table, oneC, invoice, c);
    if invoice in tiger && tiger[invoice] in group {
      id := tiger[invoice];
    } else if c :| Known(table, oneC, invoice, c) {
      assert c in known;
      var least := LeastCandidate(known);
      id := least.payment;
    } else {
      id := EarliestRow(table, group);
    }
  }

  lemma DeduplicatedGroup(table: Table, tiger: map<string, TxId>, oneC: map<TxId, OneCRow>, invoice: string, id: TxId)
    ensures Holds(Deduplicated(table, tiger, oneC), id, invoice)
       <==> IsWinner(table, tiger, oneC, invoice, id)
  {
  }

  /** Afterwards every invoice that had a paid row has exactly one, the winner, and nothing else changed. */
  lemma DeduplicationIsCorrect(table: Table, tiger: map<string, TxId>, oneC: map<TxId, OneCRow>)
    ensures var after := Deduplicated(table, tiger, oneC);
            && OnePaidPerInvoice(after)
            && (forall invoice :: Group(table, invoice) != {} ==>
                  exists id :: IsWinner(table, tiger, oneC, invoice, id) && Group(after, invoice) == {id})
            && after.Keys == table.Keys
            && (forall id | id in table :: after[id] == table[id] || (Indexed(table[id]) && after[id] == DemotedRow(table[id])))
  {
    var after := Deduplicated(table, tiger, oneC);
    forall a, b, invoice | Holds(after, a, invoice) && Holds(after, b, invoice) ensures a == b {
      DeduplicatedGroup(table, tiger, oneC, invoice, a);
      DeduplicatedGroup(table, tiger, oneC, invoice, b);
      WinnerIsUnique(table, tiger, oneC, invoice, a, b);
    }
    forall invoice | Group(table, invoice) != {}
      ensures exists id :: IsWinner(table, tiger, oneC, invoice, id) && Group(after, invoice) == {id}
    {
      var id := WinnerExists(table, tiger, oneC, invoice);
      forall other ensures other in Group(after, invoice) <==> other == id {
        DeduplicatedGroup(table, tiger, oneC, invoice, other);
        if other in Group(after, invoice) { WinnerIsUnique(table, tiger, oneC, invoice, id, other); }
      }
      assert Group(after, invoice) == {id};
    }
  }

  /** On a table that already keeps the invariant it changes nothing, so running it again is harmless. */
  lemma DeduplicationFixpoint(table: Table, tiger: map<string, TxId>, oneC: map<TxId, OneCRow>)
    requires OnePaidPerInvoice(table)
    ensures Deduplicated(table, tiger, oneC) == table
  {
    forall id | id in table ensures Survives(table, tiger, oneC, id) {
      if Indexed(table[id]) {
        var invoice := table[id].invoice.value;
        assert Holds(table, id, invoice) && id in Group(table, invoice);
        var winner := WinnerExists(table, tiger, oneC, invoice);
        assert Holds(table, winner, invoice);
      }
    }
  }

  lemma DeduplicationIsIdempotent(table: Table, tiger: map<string, TxId>, oneC: map<TxId, OneCRow>)
    ensures var after := Deduplicated(table, tiger, oneC); Deduplicated(after, tiger, oneC) == after
  {
    DeduplicationIsCorrect(table, tiger, oneC);
    DeduplicationFixpoint(Deduplicated(table, tiger, oneC), tiger, oneC);
  }

  // ----- The rule in the database's own terms -----

  /** The payment is one of several that are recorded as paid for the invoice. */
  predicate PaidFor(table: Table, invoice: string, id: TxId) {
    id in table && table[id].status == Some("paid") && table[id].invoice == Some(invoice) && invoice != ""
  }

  predicate InOneC(oneC: map<TxId, OneCRow>, invoice: string, id: TxId) { id in oneC && oneC[id].invoice == invoice }

  /** How far 1C is: booked, in line or at work, failed, or anything else. */
  predicate SameProgress(a: string, b: string) {
    || a == b
    || (a in {"processing", "pending"} && b in {"processing", "pending"})
    || (a !in {"success", "processing", "pending", "error"} && b !in {"success", "processing", "pending", "error"})
  }

  /** The rule prefers a payment that 1C has booked to one it has in line or at work, that to one that failed there, and
      that to any other it knows. */
  predicate Further(a: string, b: string) {
    || (a == "success" && b != "success")
    || (a in {"processing", "pending"} && b !in {"success", "processing", "pending"})
    || (a == "error" && b !in {"success", "processing", "pending", "error"})
  }

  predicate TimeIs(t: Tx, time: string) {
    time == if t.paidAt.GetOr("") != "" then t.paidAt.value
            else if t.createdAt.GetOr("") != "" then t.createdAt.value
            else t.updatedAt
  }

  ghost predicate Sooner(a: Tx, b: Tx) { exists x, y :: TimeIs(a, x) && TimeIs(b, y) && LexLess(x, y) }

  ghost predicate SameTime(a: Tx, b: Tx) { exists x :: TimeIs(a, x) && TimeIs(b, x) }

  lemma HoldsIfPaidFor(table: Table, invoice: string, id: TxId)
    ensures PaidFor(table, invoice, id) <==> Holds(table, id, invoice)
    ensures PaidFor(table, invoice, id) <==> id in Group(table, invoice)
  {
  }

  lemma FurtherIsLess(oneC: map<TxId, OneCRow>, a: TxId, b: TxId)
    requires a in oneC && b in oneC
    ensures CandidateLess(Candidate(Priority(oneC[a].status), a), Candidate(Priority(oneC[b].status), b)) <==>
            || Further(oneC[a].status, oneC[b].status)
            || (SameProgress(oneC[a].status, oneC[b].status) && LexLess(a, b))
  {
  }

  /** The survivor, if Tiger was told of a payment that is paid: that one. */
  lemma SurvivorIsTigers(table: Table, tiger: map<string, TxId>, oneC: map<TxId, OneCRow>, invoice: string, id: TxId)
    requires PaidFor(Deduplicated(table, tiger, oneC), invoice, id)
    requires invoice in tiger && PaidFor(table, invoice, tiger[invoice])
    ensures id == tiger[invoice]
  {
    HoldsIfPaidFor(Deduplicated(table, tiger, oneC), invoice, id);
    HoldsIfPaidFor(table, invoice, tiger[invoice]);
    DeduplicatedGroup(table, tiger, oneC, invoice, id);
  }

  /** Otherwise, if 1C knows some of the paid payments: the one it is furthest with, the least id among equals. */
  lemma SurvivorIsFurthestInOneC(table: Table, tiger: map<string, TxId>, oneC: map<TxId, OneCRow>, invoice: string,
                                 id: TxId, other: TxId)
    requires PaidFor(Deduplicated(table, tiger, oneC), invoice, id)
    requires !(invoice in tiger && PaidFor(table, invoice, tiger[invoice]))
    requires PaidFor(table, invoice, other) && InOneC(oneC, invoice, other)
    ensures InOneC(oneC, invoice, id)
    ensures || id == other || Further(oneC[id].status, oneC[other].status)
            || (SameProgress(oneC[id].status, oneC[other].status) && LexLess(id, other))
  {
    HoldsIfPaidFor(Deduplicated(table, tiger, oneC), invoice, id);
    HoldsIfPaidFor(table, invoice, other);
    if invoice in tiger { HoldsIfPaidFor(table, invoice, tiger[invoice]); }
    DeduplicatedGroup(table, tiger, oneC, invoice, id);
    var d := Candidate(Priority(oneC[other].status), other);
    assert Known(table, oneC, invoice, d);
    var c :| Known(table, oneC, invoice, c) && c.payment == id
             && forall e | Known(table, oneC, invoice, e) :: e == c || CandidateLess(c, e);
    assert c == Candidate(Priority(oneC[id].status), id);
    if c != d { FurtherIsLess(oneC, id, other); }
  }

  /** Otherwise the one paid first, the least id among equals. */
  lemma SurvivorIsEarliest(table: Table, tiger: map<string, TxId>, oneC: map<TxId, OneCRow>, invoice: string,
                           id: TxId, other: TxId)
    requires PaidFor(Deduplicated(table, tiger, oneC), invoice, id) && PaidFor(table, invoice, other) && other != id
    requires !(invoice in tiger && PaidFor(table, invoice, tiger[invoice]))
    requires forall p :: PaidFor(table, invoice, p) ==> !InOneC(oneC, invoice, p)
    ensures id in table && (Sooner(table[id], table[other]) || (SameTime(table[id], table[other]) && LexLess(id, other)))
  {
    HoldsIfPaidFor(Deduplicated(table, tiger, oneC), invoice, id);
    HoldsIfPaidFor(table, invoice, other);
    if invoice in tiger { HoldsIfPaidFor(table, invoice, tiger[invoice]); }
    DeduplicatedGroup(table, tiger, oneC, invoice, id);
    forall c ensures !Known(table, oneC, invoice, c) { HoldsIfPaidFor(table, invoice, c.payment); }
    assert Earlier(table, id, other);
    assert TimeIs(table[id], TimeKey(table[id])) && TimeIs(table[other], TimeKey(table[other]));
  }
}
