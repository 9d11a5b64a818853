/**
 The two export tables, tiger_invoice_exports and one_c_payment_exports, as one leased queue.
 A row's id is its position: ids are handed out in insertion order and rows are never deleted.
 Instants are integers; module IsoTime shows that the stored texts order the same way.
 */
module ExportQueue {
  import opened Basics

  datatype Status = Pending | Processing | Success | Error | Skipped

  /** What an upsert writes: the Tiger queue is keyed by invoice, the 1C queue by payment. */
  datatype Entry<E> = Entry(key: string, invoice: string, payment: string, event: E)

  datatype Row<E> = Row(
    entry: Entry<E>,
    status: Status,
    attempts: nat,
    lastAttempt: Option<int>,
    createdAt: int,
    exportedAt: Option<int>,
    reference: Option<string>,
    error: Option<string>,
    updatedAt: int)

  type Queue<E> = seq<Row<E>>

  ghost predicate UniqueKeys<E>(q: Queue<E>) {
    forall i, j | 0 <= i < j < |q| :: q[i].entry.key != q[j].entry.key
  }

  /** The position of the row with this key, or the length of the table. */
  function Lookup<E>(q: Queue<E>, key: string): (i: nat)
    ensures i <= |q|
    ensures i < |q| ==> q[i].entry.key == key
    ensures forall j | 0 <= j < i :: q[j].entry.key != key
  {
    LookupFrom(q, key, 0)
  }

  function LookupFrom<E>(q: Queue<E>, key: string, start: nat): (i: nat)
    requires start <= |q|
    ensures start <= i <= |q|
    ensures i < |q| ==> q[i].entry.key == key
    ensures forall j | start <= j < i :: q[j].entry.key != key
    decreases |q| - start
  {
    if start == |q| || q[start].entry.key == key then start else LookupFrom(q, key, start + 1)
  }

  // ----- Upserts -----

  function FreshRow<E>(entry: Entry<E>, now: int): Row<E> {
    Row(entry, Pending, 0, None, now, None, None, None, now)
  }

  /** upsert_tiger_invoice_export: `fault` is the validation error with which a row may start. */
  function TigerPut<E>(q: Queue<E>, entry: Entry<E>, fault: Option<string>, now: int): Queue<E> {
    var i := Lookup(q, entry.key);
    if i == |q| then
      q + [if fault.Some? then FreshRow(entry, now).(status := Error, error := fault, lastAttempt := Some(now))
           else FreshRow(entry, now)]
    else if q[i].status.Success? || q[i].entry.payment != entry.payment then q
    else q[i := Refreshed(q[i], entry, fault, now)]
  }

  function Refreshed<E>(row: Row<E>, entry: Entry<E>, fault: Option<string>, now: int): Row<E> {
    var r := row.(entry := entry, updatedAt := now);
    if fault.None? then r
    else if row.status.Pending? then r.(status := Error, error := fault, lastAttempt := Some(now))
    else if row.status.Error? then r.(error := fault)
    else r
  }

  /** upsert_one_c_payment_export */
  function OneCPut<E>(q: Queue<E>, entry: Entry<E>, now: int): Queue<E> {
    var i := Lookup(q, entry.key);
    if i == |q| then q + [FreshRow(entry, now)]
    else if q[i].status.Success? then q
    else q[i := q[i].(entry := entry, updatedAt := now)]
  }

  // ----- Claim -----

  predicate Stale<E>(row: Row<E>, staleBefore: int) {
    row.status.Processing? && (row.lastAttempt.None? || row.lastAttempt.value < staleBefore)
  }

  function ReleasedRow<E>(row: Row<E>, staleBefore: int, now: int): Row<E> {
    if Stale(row, staleBefore) then row.(status := Pending, updatedAt := now) else row
  }

  function Released<E>(q: Queue<E>, staleBefore: int, now: int): (r: Queue<E>)
    ensures |r| == |q|
    ensures forall i | 0 <= i < |q| :: r[i] == ReleasedRow(q[i], staleBefore, now)
  {
    seq(|q|, i requires 0 <= i < |q| => ReleasedRow(q[i], staleBefore, now))
  }

  predicate IsPending<E>(q: Queue<E>, i: nat) {
    i < |q| && q[i].status.Pending?
  }

  function PendingIds<E>(q: Queue<E>): set<nat> {
    set i: nat | i < |q| && IsPending(q, i)
  }

  /** The order of the line: by creation time, then by id. */
  predicate Before<E>(q: Queue<E>, i: nat, j: nat) {
    i < |q| && j < |q| && (q[i].createdAt < q[j].createdAt || (q[i].createdAt == q[j].createdAt && i < j))
  }

  /** The members of s in front of row i. */
  function Ahead<E>(q: Queue<E>, s: set<nat>, i: nat): set<nat> {
    set j | j in s && Before(q, j, i)
  }

  /** LIMIT n: the members of s with fewer than n others in front. */
  function Head<E>(q: Queue<E>, s: set<nat>, n: nat): set<nat> {
    set i | i in s && |Ahead(q, s, i)| < n
  }

  ghost predicate IsOldest<E>(q: Queue<E>, s: set<nat>, m: nat) {
    m in s && m < |q| && forall i | i in s :: i == m || Before(q, m, i)
  }

  ghost predicate Within<E>(q: Queue<E>, s: set<nat>) {
    forall i | i in s :: i < |q|
  }

  /** Taking the oldest row first and then the head of the rest takes the head of the whole. */
  lemma OldestThenRest<E>(q: Queue<E>, s: set<nat>, m: nat, n: nat)
    requires n > 0 && IsOldest(q, s, m) && Within(q, s)
    ensures Head(q, s, n) == {m} + Head(q, s - {m}, n - 1)
    ensures m !in Head(q, s - {m}, n - 1)
  {
    assert Ahead(q, s, m) == {};
    forall i | i in s && i != m
      ensures i in Head(q, s, n) <==> i in Head(q, s - {m}, n - 1)
    {
      assert Ahead(q, s, i) == Ahead(q, s - {m}, i) + {m};
      assert m !in Ahead(q, s - {m}, i);
    }
  }

  lemma {:induction false} OldestExists<E>(q: Queue<E>, s: set<nat>)
    requires s != {} && Within(q, s)
    ensures exists m :: IsOldest(q, s, m)
  {
    var x :| x in s;
    if s == {x} {
      assert IsOldest(q, s, x);
    } else {
      OldestExists(q, s - {x});
      var m :| IsOldest(q, s - {x}, m);
      var oldest := if Before(q, m, x) then m else x;
      forall i | i in s ensures i == oldest || Before(q, oldest, i) {
        assert i == x || i == m || (i in s - {x} && Before(q, m, i));
      }
      assert IsOldest(q, s, oldest);
    }
  }

  lemma {:induction false} SubsetSize<T>(a: set<T>, b: set<T>)
    requires a <= b
    ensures |a| <= |b|
  {
    if a != {} {
      var x :| x in a;
      SubsetSize(a - {x}, b - {x});
    }
  }

  /** Everyone left behind is younger than everyone taken. */
  lemma HeadIsOlder<E>(q: Queue<E>, s: set<nat>, n: nat, i: nat, j: nat)
    requires Within(q, s) && i in Head(q, s, n) && j in s && j !in Head(q, s, n)
    ensures Before(q, i, j)
  {
    if !Before(q, i, j) {
      assert Ahead(q, s, j) <= Ahead(q, s, i);
      SubsetSize(Ahead(q, s, j), Ahead(q, s, i));
    }
  }

  lemma HeadStep<E>(q: Queue<E>, s: set<nat>, n: nat) returns (m: nat)
    requires Within(q, s) && s != {} && n > 0
    ensures m in s && |Head(q, s, n)| == 1 + |Head(q, s - {m}, n - 1)|
  {
    OldestExists(q, s);
    m :| IsOldest(q, s, m);
    OldestThenRest(q, s, m, n);
    var rest := Head(q, s - {m}, n - 1);
    assert |{m} + rest| == 1 + |rest|;
  }

  /** The head of the line has min(n, available) members. */
  lemma {:induction false} HeadSize<E>(q: Queue<E>, s: set<nat>, n: nat)
    requires Within(q, s)
    ensures |Head(q, s, n)| == if n <= |s| then n else |s|
    decreases n
  {
    if n == 0 || s == {} {
      assert Head(q, s, n) == {};
    } else {
      var m := HeadStep(q, s, n);
      HeadSize(q, s - {m}, n - 1);
    }
  }

  /** The first n of the line: min(n, available) rows, oldest first. */
  lemma HeadIsFifo<E>(q: Queue<E>, s: set<nat>, n: nat)
    requires Within(q, s)
    ensures |Head(q, s, n)| == if n <= |s| then n else |s|
    ensures forall i, j | i in Head(q, s, n) && j in s && j !in Head(q, s, n) :: Before(q, i, j)
  {
    HeadSize(q, s, n);
    forall i, j | i in Head(q, s, n) && j in s && j !in Head(q, s, n) ensures Before(q, i, j) {
      HeadIsOlder(q, s, n, i, j);
    }
  }

  function Capped(limit: int): (n: nat)
    ensures 1 <= n <= 100
    ensures limit <= 1 ==> n == 1
    ensures 1 <= limit <= 100 ==> n == limit
    ensures limit >= 100 ==> n == 100
  {
    if limit < 1 then 1 else if limit > 100 then 100 else limit
  }

  /** The rows a claim hands out. */
  function Taken<E>(q: Queue<E>, limit: int, staleBefore: int, now: int): set<nat> {
    var r := Released(q, staleBefore, now);
    Head(r, PendingIds(r), Capped(limit))
  }

  function LeasedRow<E>(row: Row<E>, now: int): Row<E> {
    row.(status := Processing, lastAttempt := Some(now), updatedAt := now)
  }

  /** claim_*: expired leases return to the line, then the head of the line is leased. */
  function Claimed<E>(q: Queue<E>, limit: int, staleBefore: int, now: int): (c: Queue<E>)
    ensures |c| == |q|
    ensures forall i | 0 <= i < |q| :: c[i] == ClaimedRow(q, Taken(q, limit, staleBefore, now), i, staleBefore, now)
  {
    var taken := Taken(q, limit, staleBefore, now);
    seq(|q|, i requires 0 <= i < |q| => ClaimedRow(q, taken, i, staleBefore, now))
  }

  function ClaimedRow<E>(q: Queue<E>, taken: set<nat>, i: nat, staleBefore: int, now: int): Row<E>
    requires i < |q|
  {
    if i in taken then LeasedRow(q[i], now) else ReleasedRow(q[i], staleBefore, now)
  }

  // ----- Results and resets -----

  predicate Open(s: Status) { s.Pending? || s.Processing? }

  predicate Resettable(s: Status) { s.Error? || s.Skipped? }

  /** A worker's answer; `reference` is the voucher or document it created. */
  datatype Answer = Answer(status: Status, reference: Option<string>, message: Option<string>)

  function AnsweredRow<E>(row: Row<E>, a: Answer, now: int): Row<E> {
    row.(status := a.status,
         attempts := if a.status.Success? || a.status.Error? then row.attempts + 1 else row.attempts,
         lastAttempt := Some(now),
         exportedAt := if a.status.Success? then Some(now) else row.exportedAt,
         reference := if a.reference.Some? then a.reference else row.reference,
         error := if a.message.Some? || a.status.Error? then a.message
                  else if a.status.Success? then None else row.error,
         updatedAt := now)
  }

  predicate Accepts<E>(q: Queue<E>, id: nat, a: Answer) {
    id < |q| && Open(q[id].status) && !a.status.Pending?
  }

  /** update_*_export_result: leases carry no token, so any open row takes the answer. */
  function Answered<E>(q: Queue<E>, id: nat, a: Answer, now: int): Queue<E> {
    if Accepts(q, id, a) then q[id := AnsweredRow(q[id], a, now)] else q
  }

  predicate CanReset<E>(q: Queue<E>, id: nat) {
    id < |q| && Resettable(q[id].status)
  }

  function ResetRow<E>(row: Row<E>, now: int): Row<E> {
    row.(status := Pending, reference := None, error := None, exportedAt := None, updatedAt := now)
  }

  function Reset<E>(q: Queue<E>, id: nat, now: int): Queue<E> {
    if CanReset(q, id) then q[id := ResetRow(q[id], now)] else q
  }

  // ----- Runs -----

  datatype Op<E> =
    | PutTiger(entry: Entry<E>, fault: Option<string>, now: int)
    | PutOneC(entry: Entry<E>, now: int)
    | Claim(limit: int, lease: int, now: int, clock: int)
    | Report(id: nat, answer: Answer, now: int)
    | Restart(id: nat, now: int)

  /** A claim reads the clock twice: `now` stamps the rows, the later `clock` dates expired leases. */
  function Applied<E>(q: Queue<E>, op: Op<E>): Queue<E> {
    match op
    case PutTiger(entry, fault, now) => TigerPut(q, entry, fault, now)
    case PutOneC(entry, now) => OneCPut(q, entry, now)
    case Claim(limit, lease, now, clock) => Claimed(q, limit, clock - lease, now)
    case Report(id, a, now) => Answered(q, id, a, now)
    case Restart(id, now) => Reset(q, id, now)
  }

  function Run<E>(q: Queue<E>, ops: seq<Op<E>>): Queue<E>
    decreases |ops|
  {
    if ops == [] then q else Run(Applied(q, ops[0]), ops[1..])
  }

  /** This step hands row `id` to a worker. */
  predicate Delivers<E>(q: Queue<E>, op: Op<E>, id: nat) {
    op.Claim? && id in Taken(q, op.limit, op.clock - op.lease, op.now)
  }
}
