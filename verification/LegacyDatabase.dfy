/**
 The two implementations of the deduplication as they loop over the rows of a legacy database.
 A query without a usable order is an arbitrary choice, so what is proved holds for every row order.
 */
module LegacyDatabase {
  import opened Basics
  import opened Transactions
  import opened Deduplication

  // ----- sorted(candidates) -----

  function InsertSorted(c: Candidate, s: seq<Candidate>): seq<Candidate> {
    if s == [] || CandidateLess(c, s[0]) then [c] + s else [s[0]] + InsertSorted(c, s[1..])
  }

  function Sorted(s: seq<Candidate>): seq<Candidate> {
    if s == [] then [] else InsertSorted(s[0], Sorted(s[1..]))
  }

  ghost predicate Ascending(s: seq<Candidate>) {
    forall i, j | 0 <= i < j < |s| :: s[i] == s[j] || CandidateLess(s[i], s[j])
  }

  lemma {:induction false} InsertSortedKeepsOrder(c: Candidate, s: seq<Candidate>)
    requires Ascending(s)
    ensures Ascending(InsertSorted(c, s))
    ensures forall x :: x in InsertSorted(c, s) <==> x == c || x in s
  {
    if s == [] || CandidateLess(c, s[0]) {
      forall j | 0 <= j < |s| ensures CandidateLess(c, s[j]) {
        CandidateOrder(c, s[0], s[j]);
      }
    } else {
      assert s == [s[0]] + s[1..];
      InsertSortedKeepsOrder(c, s[1..]);
      CandidateOrder(s[0], c, c);
      var rest := InsertSorted(c, s[1..]);
      forall j | 0 <= j < |rest| ensures s[0] == rest[j] || CandidateLess(s[0], rest[j]) {
        assert rest[j] in rest;
        if rest[j] != c {
          var k :| 0 <= k < |s[1..]| && s[1..][k] == rest[j];
          assert s[k + 1] == rest[j];
        }
      }
    }
  }

  lemma {:induction false} SortedIsSorted(s: seq<Candidate>)
    ensures Ascending(Sorted(s))
    ensures forall x :: x in Sorted(s) <==> x in s
  {
    if s != [] {
      assert s == [s[0]] + s[1..];
      SortedIsSorted(s[1..]);
      InsertSortedKeepsOrder(s[0], Sorted(s[1..]));
    }
  }

  // ----- Grouping -----

  ghost predicate Lists(rows: seq<TxId>, s: set<TxId>) {
    && (forall id :: id in rows <==> id in s)
    && (forall i, j | 0 <= i < j < |rows| :: rows[i] != rows[j])
  }

  /** A dictionary of lists holding, for each key, the rows seen so far under that key. */
  ghost predicate Grouped(table: Table, seen: set<TxId>, lists: map<string, seq<TxId>>) {
    && (forall id | id in seen :: id in table && Indexed(table[id]) && table[id].invoice.value in lists)
    && (forall invoice | invoice in lists ::
          lists[invoice] != [] && Lists(lists[invoice], SeenOf(table, seen, invoice)))
  }

  ghost predicate Listed(oneC: map<TxId, OneCRow>, seen: set<TxId>, lists: map<string, seq<Candidate>>) {
    && seen <= oneC.Keys
    && (forall p | p in seen :: oneC[p].invoice in lists)
    && (forall invoice, c | invoice in lists ::
          c in lists[invoice] <==>
          c.payment in seen && oneC[c.payment].invoice == invoice && c.priority == Priority(oneC[c.payment].status))
  }

  function SeenOf(table: Table, seen: set<TxId>, invoice: string): set<TxId> {
    set id | id in seen && Holds(table, id, invoice)
  }

  lemma GroupedAdd(table: Table, seen: set<TxId>, lists: map<string, seq<TxId>>, id: TxId)
    requires Grouped(table, seen, lists) && id in table && Indexed(table[id]) && id !in seen
    ensures var invoice := table[id].invoice.value;
            var list := if invoice in lists then lists[invoice] else [];
            Grouped(table, seen + {id}, lists[invoice := list + [id]])
  {
    var mine := table[id].invoice.value;
    var list := if mine in lists then lists[mine] else [];
    var after := lists[mine := list + [id]];
    assert Lists(list, SeenOf(table, seen, mine)) by {
      if mine !in lists { assert SeenOf(table, seen, mine) == {}; }
    }
    forall invoice | invoice in after
      ensures Lists(after[invoice], SeenOf(table, seen + {id}, invoice))
    {
      if invoice == mine {
        assert SeenOf(table, seen + {id}, mine) == SeenOf(table, seen, mine) + {id};
        assert forall j | 0 <= j < |list| :: list[j] in list;
      } else {
        assert SeenOf(table, seen + {id}, invoice) == SeenOf(table, seen, invoice);
      }
    }
  }

  /** Once a winner is chosen, the rows of the group that survive are just that one. */
  lemma OnlyTheWinnerSurvives(table: Table, tiger: map<string, TxId>, oneC: map<TxId, OneCRow>,
                              invoice: string, winner: TxId, id: TxId)
    requires IsWinner(table, tiger, oneC, invoice, winner) && Holds(table, id, invoice)
    ensures Survives(table, tiger, oneC, id) <==> id == winner
  {
    if Survives(table, tiger, oneC, id) { WinnerIsUnique(table, tiger, oneC, invoice, id, winner); }
  }

  lemma SoleRowSurvives(table: Table, tiger: map<string, TxId>, oneC: map<TxId, OneCRow>, invoice: string, id: TxId)
    requires Group(table, invoice) == {id}
    ensures Survives(table, tiger, oneC, id)
  {
  }

  /** The invoices in `done` are finished, the others untouched. */
  ghost function PartlyDeduplicated(table: Table, tiger: map<string, TxId>, oneC: map<TxId, OneCRow>,
                                    done: set<string>): Table {
    map id | id in table ::
      if Indexed(table[id]) && table[id].invoice.value in done && !Survives(table, tiger, oneC, id)
      then DemotedRow(table[id]) else table[id]
  }

  function DemotedSet(table: Table, ids: set<TxId>): Table {
    map id | id in table :: if id in ids && IsPaid(table[id]) then DemotedRow(table[id]) else table[id]
  }

  /** The rows of the group that have to go. */
  ghost predicate AreLosers(table: Table, tiger: map<string, TxId>, oneC: map<TxId, OneCRow>, invoice: string,
                            ids: set<TxId>) {
    forall id :: id in ids <==> Holds(table, id, invoice) && !Survives(table, tiger, oneC, id)
  }

  lemma LosersOfChoice(table: Table, tiger: map<string, TxId>, oneC: map<TxId, OneCRow>,
                       invoice: string, rows: seq<TxId>, winner: TxId)
    requires Lists(rows, Group(table, invoice)) && IsWinner(table, tiger, oneC, invoice, winner)
    ensures AreLosers(table, tiger, oneC, invoice, (set id | id in rows) - {winner})
  {
    forall id
      ensures id in (set id | id in rows) - {winner} <==> Holds(table, id, invoice) && !Survives(table, tiger, oneC, id)
    {
      assert id in rows <==> id in Group(table, invoice);
      if Holds(table, id, invoice) { OnlyTheWinnerSurvives(table, tiger, oneC, invoice, winner, id); }
    }
  }

  lemma NoLosersOfOne(table: Table, tiger: map<string, TxId>, oneC: map<TxId, OneCRow>, invoice: string,
                      rows: seq<TxId>)
    requires |rows| == 1 && Lists(rows, Group(table, invoice))
    ensures AreLosers(table, tiger, oneC, invoice, {})
  {
    var id := rows[0];
    forall other ensures other in Group(table, invoice) <==> other == id {
      assert other in rows <==> other in Group(table, invoice);
    }
    assert Group(table, invoice) == {id};
    SoleRowSurvives(table, tiger, oneC, invoice, id);
    forall other | Holds(table, other, invoice) ensures other == id { assert other in Group(table, invoice); }
  }

  /** Demoting the losers of one more invoice. */
  lemma OneMoreInvoice(table: Table, tiger: map<string, TxId>, oneC: map<TxId, OneCRow>,
                       done: set<string>, invoice: string, losers: set<TxId>)
    requires AreLosers(table, tiger, oneC, invoice, losers)
    ensures DemotedSet(PartlyDeduplicated(table, tiger, oneC, done), losers)
         == PartlyDeduplicated(table, tiger, oneC, done + {invoice})
  {
  }

  lemma NothingDoneYet(table: Table, tiger: map<string, TxId>, oneC: map<TxId, OneCRow>)
    ensures PartlyDeduplicated(table, tiger, oneC, {}) == table
  {
  }

  lemma AllInvoicesDone(table: Table, tiger: map<string, TxId>, oneC: map<TxId, OneCRow>, done: set<string>)
    requires forall invoice :: invoice in done <==> Group(table, invoice) != {}
    ensures PartlyDeduplicated(table, tiger, oneC, done) == Deduplicated(table, tiger, oneC)
  {
    var partly, after := PartlyDeduplicated(table, tiger, oneC, done), Deduplicated(table, tiger, oneC);
    forall id | id in table ensures partly[id] == after[id] {
      if Indexed(table[id]) { assert id in Group(table, table[id].invoice.value); }
    }
  }

  lemma DeduplicatedIsOnePaid(table: Table, tiger: map<string, TxId>, oneC: map<TxId, OneCRow>)
    ensures OnePaidPerInvoice(Deduplicated(table, tiger, oneC))
  {
    DeduplicationIsCorrect(table, tiger, oneC);
  }

  /** Every invoice with paid rows and the list of them. */
  ghost predicate PaidLists(table: Table, lists: map<string, seq<TxId>>) {
    && (forall invoice :: invoice in lists <==> Group(table, invoice) != {})
    && (forall invoice | invoice in lists :: Lists(lists[invoice], Group(table, invoice)))
  }

  ghost predicate CandidateLists(oneC: map<TxId, OneCRow>, lists: map<string, seq<Candidate>>) {
    forall invoice, c :: (invoice in lists && c in lists[invoice]) <==> c in Candidates(oneC, invoice)
  }

  class Database {
    var transactions: Table
    const tiger: map<string, TxId>
    const oneC: map<TxId, OneCRow>

    constructor (transactions: Table, tiger: map<string, TxId>, oneC: map<TxId, OneCRow>)
      ensures this.transactions == transactions && this.tiger == tiger && this.oneC == oneC
    {
      this.transactions := transactions;
      this.tiger := tiger;
      this.oneC := oneC;
    }

    /** Lists the paid rows by invoice, in one pass over them. */
    method GroupPaid() returns (lists: map<string, seq<TxId>>)
      ensures PaidLists(transactions, lists)
    {
      var rest := set id | id in transactions && Indexed(transactions[id]);
      ghost var all := rest;
      lists := map[];
      while rest != {}
        invariant rest <= all
        invariant Grouped(transactions, all - rest, lists)
      {
        var id :| id in rest;
        var invoice := transactions[id].invoice.value;
        GroupedAdd(transactions, all - rest, lists, id);
        lists := lists[invoice := (if invoice in lists then lists[invoice] else []) + [id]];
        assert all - (rest - {id}) == (all - rest) + {id};
        rest := rest - {id};
      }
      forall invoice ensures SeenOf(transactions, all - rest, invoice) == Group(transactions, invoice) {
      }
      forall invoice | Group(transactions, invoice) != {} ensures invoice in lists {
        var id :| id in Group(transactions, invoice);
      }
      forall invoice | invoice in lists ensures Group(transactions, invoice) != {} {
        assert lists[invoice][0] in lists[invoice];
      }
    }

    method ListCandidates() returns (lists: map<string, seq<Candidate>>)
      ensures CandidateLists(oneC, lists)
    {
      var rest := oneC.Keys;
      lists := map[];
      while rest != {}
        invariant rest <= oneC.Keys
        invariant Listed(oneC, oneC.Keys - rest, lists)
      {
        var p :| p in rest;
        var invoice := oneC[p].invoice;
        lists := lists[invoice := (if invoice in lists then lists[invoice] else [])
                                  + [Candidate(Priority(oneC[p].status), p)]];
        assert oneC.Keys - (rest - {p}) == (oneC.Keys - rest) + {p};
        rest := rest - {p};
      }
      assert oneC.Keys - rest == oneC.Keys;
      forall invoice, c
        ensures (invoice in lists && c in lists[invoice]) <==> c in Candidates(oneC, invoice)
      {
        assert c == Candidate(c.priority, c.payment);
        if c in Candidates(oneC, invoice) {
          assert c.payment in oneC && oneC[c.payment].invoice in lists;
        }
      }
    }

    /** The three-stage choice of the row that stays, among rows as they were read at the start. */
    method ChooseWinner(paid: Table, invoice: string, rows: seq<TxId>,
                        candidates: seq<Candidate>) returns (winner: TxId)
      requires rows != [] && Lists(rows, Group(paid, invoice))
      requires forall c :: c in candidates <==> c in Candidates(oneC, invoice)
      ensures IsWinner(paid, tiger, oneC, invoice, winner)
    {
      if invoice in tiger && tiger[invoice] in rows {
        return tiger[invoice];
      }
      var sorted := Sorted(candidates);
      SortedIsSorted(candidates);
      var i := 0;
      while i < |sorted|
        invariant i <= |sorted|
        invariant forall j | 0 <= j < i :: sorted[j].payment !in rows
      {
        if sorted[i].payment in rows {
          assert sorted[i] in sorted && Known(paid, oneC, invoice, sorted[i]);
          forall d | Known(paid, oneC, invoice, d) ensures d == sorted[i] || CandidateLess(sorted[i], d) {
            assert d in sorted;
          }
          return sorted[i].payment;
        }
        i := i + 1;
      }
      forall c | c in Candidates(oneC, invoice) ensures c.payment !in rows {
        assert c in sorted;
      }
      winner := MinByTime(paid, rows);
    }

    /** The earliest row, by time and then by id. */
    method MinByTime(paid: Table, rows: seq<TxId>) returns (winner: TxId)
      requires rows != [] && forall id | id in rows :: id in paid
      ensures winner in rows
      ensures forall id | id in rows :: id == winner || Earlier(paid, winner, id)
    {
      winner := rows[0];
      var i := 1;
      while i < |rows|
        invariant 1 <= i <= |rows| && winner in rows
        invariant forall j | 0 <= j < i :: rows[j] == winner || Earlier(paid, winner, rows[j])
      {
        EarlierOrder(paid, rows[i], winner, winner);
        if Earlier(paid, rows[i], winner) {
          forall j | 0 <= j < i ensures Earlier(paid, rows[i], rows[j]) {
            EarlierOrder(paid, rows[i], winner, rows[j]);
          }
          winner := rows[i];
        }
        i := i + 1;
      }
    }

    /** The winner and the losers of one invoice; a group of one is skipped. */
    method ChooseLosers(paid: Table, invoice: string, rows: seq<TxId>, candidates: seq<Candidate>)
      returns (losers: set<TxId>)
      requires rows != [] && Lists(rows, Group(paid, invoice))
      requires forall c :: c in candidates <==> c in Candidates(oneC, invoice)
      ensures AreLosers(paid, tiger, oneC, invoice, losers)
    {
      if |rows| < 2 {
        NoLosersOfOne(paid, tiger, oneC, invoice, rows);
        return {};
      }
      var winner := ChooseWinner(paid, invoice, rows, candidates);
      losers := (set id | id in rows) - {winner};
      LosersOfChoice(paid, tiger, oneC, invoice, rows, winner);
    }

    /** One update demotes all the given rows that are paid. */
    method DemoteAll(ids: set<TxId>)
      modifies this`transactions
      ensures transactions == DemotedSet(old(transactions), ids)
    {
      transactions := map id | id in transactions ::
        if id in ids && IsPaid(transactions[id]) then transactions[id].(status := Some(DUPLICATE)) else transactions[id];
    }

    method DeduplicateInvoice(paid: Table, invoice: string, paidByInvoice: map<string, seq<TxId>>,
                              candidates: map<string, seq<Candidate>>, ghost done: set<string>)
      requires PaidLists(paid, paidByInvoice) && CandidateLists(oneC, candidates) && invoice in paidByInvoice
      requires transactions == PartlyDeduplicated(paid, tiger, oneC, done)
      modifies this`transactions
      ensures transactions == PartlyDeduplicated(paid, tiger, oneC, done + {invoice})
    {
      var losers := ChooseLosers(paid, invoice, paidByInvoice[invoice],
                                 if invoice in candidates then candidates[invoice] else []);
      DemoteAll(losers);
      OneMoreInvoice(paid, tiger, oneC, done, invoice, losers);
    }

    /** PaymentStore._deduplicate_paid_invoice_transactions: one update per invoice. */
    method Deduplicate()
      modifies this`transactions
      ensures transactions == Deduplicated(old(transactions), tiger, oneC)
    {
      var paid := transactions;
      var paidByInvoice := GroupPaid();
      var candidates := ListCandidates();
      var rest := paidByInvoice.Keys;
      ghost var done: set<string> := {};
      NothingDoneYet(paid, tiger, oneC);
      while rest != {}
        invariant rest <= paidByInvoice.Keys && done == paidByInvoice.Keys - rest
        invariant transactions == PartlyDeduplicated(paid, tiger, oneC, done)
      {
        var invoice :| invoice in rest;
        assert done + {invoice} == paidByInvoice.Keys - (rest - {invoice});
        DeduplicateInvoice(paid, invoice, paidByInvoice, candidates, done);
        rest := rest - {invoice};
        done := paidByInvoice.Keys - rest;
      }
      AllInvoicesDone(paid, tiger, oneC, done);
    }

    method UpgradeInvoice(paid: Table, invoice: string, paidByInvoice: map<string, seq<TxId>>,
                          candidates: map<string, seq<Candidate>>, ghost done: set<string>)
      requires PaidLists(paid, paidByInvoice) && CandidateLists(oneC, candidates) && invoice in paidByInvoice
      requires transactions == PartlyDeduplicated(paid, tiger, oneC, done)
      modifies this`transactions
      ensures transactions == PartlyDeduplicated(paid, tiger, oneC, done + {invoice})
    {
      var losers := ChooseLosers(paid, invoice, paidByInvoice[invoice],
                                 if invoice in candidates then candidates[invoice] else []);
      DemoteEach(losers);
      OneMoreInvoice(paid, tiger, oneC, done, invoice, losers);
    }

    /** upgrade() of revision 20260716_0008: one update per losing row. */
    method Upgrade()
      modifies this`transactions
      ensures transactions == Deduplicated(old(transactions), tiger, oneC)
      ensures OnePaidPerInvoice(transactions)
    {
      var paid := transactions;
      var paidByInvoice := GroupPaid();
      var candidates := ListCandidates();
      var rest := paidByInvoice.Keys;
      ghost var done: set<string> := {};
      NothingDoneYet(paid, tiger, oneC);
      while rest != {}
        invariant rest <= paidByInvoice.Keys && done == paidByInvoice.Keys - rest
        invariant transactions == PartlyDeduplicated(paid, tiger, oneC, done)
      {
        var invoice :| invoice in rest;
        assert done + {invoice} == paidByInvoice.Keys - (rest - {invoice});
        UpgradeInvoice(paid, invoice, paidByInvoice, candidates, done);
        rest := rest - {invoice};
        done := paidByInvoice.Keys - rest;
      }
      AllInvoicesDone(paid, tiger, oneC, done);
      DeduplicatedIsOnePaid(paid, tiger, oneC);
    }

    /** One update for each of the given rows that is paid. */
    method DemoteEach(ids: set<TxId>)
      modifies this`transactions
      ensures transactions == DemotedSet(old(transactions), ids)
    {
      var rest := ids;
      while rest != {}
        invariant rest <= ids
        invariant transactions == DemotedSet(old(transactions), ids - rest)
      {
        var id :| id in rest;
        if id in transactions && IsPaid(transactions[id]) {
          transactions := transactions[id := transactions[id].(status := Some(DUPLICATE))];
        }
        rest := rest - {id};
      }
    }
  }

  /** Both implementations leave the same table, for every legacy database and every order of its rows. */
  method BothAgree(table: Table, tiger: map<string, TxId>, oneC: map<TxId, OneCRow>)
    returns (byStore: Table, byMigration: Table)
    ensures byStore == byMigration == Deduplicated(table, tiger, oneC)
  {
    var a := new Database(table, tiger, oneC);
    a.Deduplicate();
    var b := new Database(table, tiger, oneC);
    b.Upgrade();
    byStore, byMigration := a.transactions, b.transactions;
  }
}
