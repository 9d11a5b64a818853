/** What the leased queue guarantees over whole runs. */
module QueueTheorems {
  import opened Basics
  import opened ExportQueue

  // ----- The clock -----

  function Start<E>(op: Op<E>): int { op.now }

  function End<E>(op: Op<E>): int { if op.Claim? then op.clock else op.now }

  /** Every reading of the clock is at least as late as the one before; t is the last one before ops. */
  ghost predicate ClockRuns<E>(t: int, ops: seq<Op<E>>)
    decreases |ops|
  {
    ops == [] || (t <= Start(ops[0]) <= End(ops[0]) && ClockRuns(End(ops[0]), ops[1..]))
  }

  ghost function LastReading<E>(t: int, ops: seq<Op<E>>): int
    decreases |ops|
  {
    if ops == [] then t else LastReading(End(ops[0]), ops[1..])
  }

  // ----- What one step does to one row -----

  /** A delivered row was pending, or processing under an expired lease. */
  lemma DeliveredWasDue<E>(q: Queue<E>, op: Op<E>, id: nat)
    requires Delivers(q, op, id)
    ensures id < |q|
    ensures q[id].status.Pending? || Stale(q[id], op.clock - op.lease)
    ensures Applied(q, op)[id] == LeasedRow(q[id], op.now)
  {
  }

  lemma StepKeepsRow<E>(q: Queue<E>, op: Op<E>, id: nat)
    requires id < |q|
    ensures id < |Applied(q, op)|
    ensures Applied(q, op)[id].entry.key == q[id].entry.key
    ensures Applied(q, op)[id].createdAt == q[id].createdAt
    ensures q[id].status.Success? ==> Applied(q, op)[id] == q[id]
    ensures !op.PutOneC? ==> Applied(q, op)[id].entry.payment == q[id].entry.payment
  {
  }

  /** Keys stay unique: an upsert only appends a key it has not found. */
  lemma StepKeepsKeysUnique<E>(q: Queue<E>, op: Op<E>)
    requires UniqueKeys(q)
    ensures UniqueKeys(Applied(q, op))
  {
  }

  // ----- The ledger of a row over a whole run -----

  /** Answers of this run that row `id` took as a final success or error. */
  ghost function Counted<E>(q: Queue<E>, ops: seq<Op<E>>, id: nat): nat
    decreases |ops|
  {
    if ops == [] then 0
    else
      (if ops[0].Report? && ops[0].id == id && Accepts(q, id, ops[0].answer)
          && (ops[0].answer.status.Success? || ops[0].answer.status.Error?) then 1 else 0)
      + Counted(Applied(q, ops[0]), ops[1..], id)
  }

  lemma StepCounts<E>(q: Queue<E>, op: Op<E>, id: nat)
    requires id < |q|
    ensures id < |Applied(q, op)|
    ensures Applied(q, op)[id].attempts == q[id].attempts + Counted(q, [op], id)
  {
  }

  /** No row disappears, its key and age are fixed, success is final, and attempts are exactly the counted answers. */
  lemma {:induction false} RunLedger<E>(q: Queue<E>, ops: seq<Op<E>>, id: nat)
    requires id < |q|
    ensures id < |Run(q, ops)|
    ensures Run(q, ops)[id].entry.key == q[id].entry.key
    ensures Run(q, ops)[id].createdAt == q[id].createdAt
    ensures q[id].status.Success? ==> Run(q, ops)[id] == q[id]
    ensures Run(q, ops)[id].attempts == q[id].attempts + Counted(q, ops, id)
    ensures (forall op | op in ops :: !op.PutOneC?) ==> Run(q, ops)[id].entry.payment == q[id].entry.payment
    decreases |ops|
  {
    if ops != [] {
      StepKeepsRow(q, ops[0], id);
      StepCounts(q, ops[0], id);
      assert Counted(Applied(q, ops[0]), [ops[0]][1..], id) == 0;
      RunLedger(Applied(q, ops[0]), ops[1..], id);
    }
  }

  lemma {:induction false} RunKeepsKeysUnique<E>(q: Queue<E>, ops: seq<Op<E>>)
    requires UniqueKeys(q)
    ensures UniqueKeys(Run(q, ops))
    decreases |ops|
  {
    if ops != [] {
      StepKeepsKeysUnique(q, ops[0]);
      RunKeepsKeysUnique(Applied(q, ops[0]), ops[1..]);
    }
  }

  // ----- FIFO -----

  /** Pending rows and rows whose lease has expired. */
  function DueIds<E>(q: Queue<E>, staleBefore: int): set<nat> {
    set i: nat | i < |q| && (IsPending(q, i) || Stale(q[i], staleBefore))
  }

  /** A claim hands out the first min(limit, available) due rows in (created_at, id) order. */
  lemma ClaimIsFifo<E>(q: Queue<E>, limit: int, staleBefore: int, now: int)
    ensures var due, taken := DueIds(q, staleBefore), Taken(q, limit, staleBefore, now);
            && taken <= due
            && |taken| == (if Capped(limit) <= |due| then Capped(limit) else |due|)
            && (forall i, j | i in taken && j in due && j !in taken :: Before(q, i, j))
  {
    var r := Released(q, staleBefore, now);
    HeadIsFifo(r, PendingIds(r), Capped(limit));
    assert PendingIds(r) == DueIds(q, staleBefore) by {
      forall i: nat ensures i in PendingIds(r) <==> i in DueIds(q, staleBefore) {
        assert i < |q| ==> r[i] == ReleasedRow(q[i], staleBefore, now);
      }
    }
    forall i: nat, j: nat ensures Before(r, i, j) <==> Before(q, i, j) {
    }
  }

  // ----- Exclusive lease -----

  ghost predicate Fails<E>(q: Queue<E>, op: Op<E>, id: nat) {
    op.Report? && op.id == id && Accepts(q, id, op.answer) && Resettable(op.answer.status)
  }

  ghost predicate Restarts<E>(q: Queue<E>, op: Op<E>, id: nat) {
    op.Restart? && op.id == id && CanReset(q, id)
  }

  /** Somewhere in the run the row is reset. */
  ghost predicate RestartedIn<E>(q: Queue<E>, ops: seq<Op<E>>, id: nat)
    decreases |ops|
  {
    ops != [] && (Restarts(q, ops[0], id) || RestartedIn(Applied(q, ops[0]), ops[1..], id))
  }

  /** Somewhere in the run the row takes an answer of failure and is reset later. */
  ghost predicate FailedThenRestarted<E>(q: Queue<E>, ops: seq<Op<E>>, id: nat)
    decreases |ops|
  {
    && ops != []
    && (|| (Fails(q, ops[0], id) && RestartedIn(Applied(q, ops[0]), ops[1..], id))
        || FailedThenRestarted(Applied(q, ops[0]), ops[1..], id))
  }

  ghost predicate LeasedSince<E>(q: Queue<E>, id: nat, t: int) {
    id < |q| && q[id].status.Processing? && q[id].lastAttempt.Some? && t <= q[id].lastAttempt.value
  }

  ghost predicate AllClaimsLease<E>(ops: seq<Op<E>>, lease: int) {
    forall op | op in ops :: op.Claim? ==> op.lease == lease
  }

  /** From a live lease, a step keeps it, closes the row, or comes after its expiry. */
  lemma StepFromLease<E>(q: Queue<E>, op: Op<E>, id: nat, t: int, lease: int)
    requires LeasedSince(q, id, t)
    requires t <= Start(op) <= End(op)
    requires op.Claim? ==> op.lease == lease
    ensures var after := Applied(q, op);
            && id < |after|
            && (|| LeasedSince(after, id, t)
                || after[id].status.Success?
                || (Resettable(after[id].status) && Fails(q, op, id))
                || End(op) > t + lease)
  {
  }

  lemma StepFromFailure<E>(q: Queue<E>, op: Op<E>, id: nat)
    requires id < |q| && Resettable(q[id].status)
    ensures id < |Applied(q, op)|
    ensures Restarts(q, op, id) || Resettable(Applied(q, op)[id].status)
  {
  }

  lemma {:induction false} FailureHolds<E>(q: Queue<E>, ops: seq<Op<E>>, id: nat)
    requires id < |q| && Resettable(q[id].status)
    ensures RestartedIn(q, ops, id) || (id < |Run(q, ops)| && Resettable(Run(q, ops)[id].status))
    decreases |ops|
  {
    if ops != [] {
      StepFromFailure(q, ops[0], id);
      if !Restarts(q, ops[0], id) { FailureHolds(Applied(q, ops[0]), ops[1..], id); }
    }
  }

  lemma {:induction false} ReadingsGrow<E>(t: int, ops: seq<Op<E>>)
    requires ClockRuns(t, ops)
    ensures t <= LastReading(t, ops)
    decreases |ops|
  {
    if ops != [] { ReadingsGrow(End(ops[0]), ops[1..]); }
  }

  lemma {:induction false} LeaseHolds<E>(q: Queue<E>, ops: seq<Op<E>>, id: nat, t: int, clock: int, lease: int)
    requires LeasedSince(q, id, t) && t <= clock && ClockRuns(clock, ops) && AllClaimsLease(ops, lease)
    ensures || FailedThenRestarted(q, ops, id)
            || LastReading(clock, ops) > t + lease
            || LeasedSince(Run(q, ops), id, t)
            || (id < |Run(q, ops)| && !Open(Run(q, ops)[id].status))
    decreases |ops|
  {
    if ops == [] { return; }
    var after := Applied(q, ops[0]);
    assert ops[0] in ops;
    StepFromLease(q, ops[0], id, t, lease);
    ReadingsGrow(End(ops[0]), ops[1..]);
    if LeasedSince(after, id, t) {
      LeaseHolds(after, ops[1..], id, t, End(ops[0]), lease);
    } else if after[id].status.Success? {
      RunLedger(after, ops[1..], id);
    } else if Fails(q, ops[0], id) {
      FailureHolds(after, ops[1..], id);
    }
  }

  /** Two claims that hand out the same row are more than a lease apart, or a failure and a reset lie between them. */
  lemma ExclusiveLease<E>(q: Queue<E>, first: Op<E>, between: seq<Op<E>>, second: Op<E>, id: nat, lease: int)
    requires Delivers(q, first, id) && Delivers(Run(Applied(q, first), between), second, id)
    requires ClockRuns(first.now, [first] + between + [second])
    requires AllClaimsLease([first] + between + [second], lease)
    ensures second.clock - first.now > lease || FailedThenRestarted(Applied(q, first), between, id)
  {
    var held := Applied(q, first);
    DeliveredWasDue(q, first, id);
    SplitClock(first, between, second);
    assert AllClaimsLease(between, lease) by {
      forall op | op in between ensures op.Claim? ==> op.lease == lease {
        assert op in [first] + between + [second];
      }
    }
    assert second in [first] + between + [second];
    LeaseHolds(held, between, id, first.now, first.clock, lease);
    DeliveredWasDue(Run(held, between), second, id);
  }

  lemma SplitClock<E>(first: Op<E>, between: seq<Op<E>>, second: Op<E>)
    requires first.Claim? && second.Claim? && ClockRuns(first.now, [first] + between + [second])
    ensures first.now <= first.clock && ClockRuns(first.clock, between)
    ensures LastReading(first.clock, between) <= second.now <= second.clock
  {
    assert ([first] + between + [second])[1..] == between + [second];
    SplitLast(first.clock, between, second);
  }

  lemma {:induction false} SplitLast<E>(t: int, ops: seq<Op<E>>, last: Op<E>)
    requires ClockRuns(t, ops + [last])
    ensures ClockRuns(t, ops)
    ensures LastReading(t, ops) <= Start(last) <= End(last)
    decreases |ops|
  {
    if ops != [] {
      assert (ops + [last])[1..] == ops[1..] + [last];
      SplitLast(End(ops[0]), ops[1..], last);
    }
  }

  // ----- Bounded wait -----

  /** The pending rows in front of row e. */
  function InFrontOf<E>(q: Queue<E>, e: nat): set<nat> {
    Ahead(q, PendingIds(q), e)
  }

  ghost predicate NoneProcessing<E>(q: Queue<E>) {
    forall i | 0 <= i < |q| :: !q[i].status.Processing?
  }

  /** The row itself is neither answered by a late worker nor put in error by an upsert. */
  predicate Spares<E>(op: Op<E>, e: nat, key: string) {
    && (op.Report? ==> op.id != e)
    && (op.PutTiger? && op.entry.key == key ==> op.fault.None?)
  }

  /** Every delivered row is answered before the next claim, claims all use one limit, nothing is reset,
      and the waiting row e is left in line. */
  ghost predicate PromptRun<E>(q: Queue<E>, ops: seq<Op<E>>, e: nat, key: string, limit: int)
    decreases |ops|
  {
    ops == [] || (
      && !ops[0].Restart?
      && (ops[0].Claim? ==> NoneProcessing(q) && ops[0].limit == limit)
      && Spares(ops[0], e, key)
      && PromptRun(Applied(q, ops[0]), ops[1..], e, key, limit))
  }

  function Claims<E>(ops: seq<Op<E>>): nat {
    if ops == [] then 0 else (if ops[0].Claim? then 1 else 0) + Claims(ops[1..])
  }

  ghost predicate DeliveredIn<E>(q: Queue<E>, ops: seq<Op<E>>, e: nat)
    decreases |ops|
  {
    ops != [] && (Delivers(q, ops[0], e) || DeliveredIn(Applied(q, ops[0]), ops[1..], e))
  }

  ghost predicate CreatedBy<E>(q: Queue<E>, t: int) {
    forall i | 0 <= i < |q| :: q[i].createdAt <= t
  }

  lemma StepKeepsCreatedBy<E>(q: Queue<E>, op: Op<E>, t: int)
    requires CreatedBy(q, t) && t <= Start(op) <= End(op)
    ensures CreatedBy(Applied(q, op), End(op))
  {
  }

  /** New arrivals queue behind. */
  lemma NobodyPushesIn<E>(q: Queue<E>, op: Op<E>, e: nat, t: int)
    requires !op.Restart? && !op.Claim? && CreatedBy(q, t) && t <= Start(op) <= End(op)
    requires e < |q| && q[e].status.Pending?
    requires Spares(op, e, q[e].entry.key)
    ensures e < |Applied(q, op)| && Applied(q, op)[e].status.Pending?
    ensures Applied(q, op)[e].entry.key == q[e].entry.key
    ensures InFrontOf(Applied(q, op), e) <= InFrontOf(q, e)
  {
  }

  /** A claim that passes a row over shortens the line in front of it by the whole limit. */
  lemma ClaimAdvances<E>(q: Queue<E>, op: Op<E>, e: nat)
    requires op.Claim? && NoneProcessing(q) && e < |q| && q[e].status.Pending? && !Delivers(q, op, e)
    ensures e < |Applied(q, op)| && Applied(q, op)[e] == q[e]
    ensures |InFrontOf(Applied(q, op), e)| + Capped(op.limit) <= |InFrontOf(q, e)|
  {
    var after := Applied(q, op);
    assert Released(q, op.clock - op.lease, op.now) == q;
    var taken := Head(q, PendingIds(q), Capped(op.limit));
    HeadIsFifo(q, PendingIds(q), Capped(op.limit));
    assert e in PendingIds(q) && taken <= PendingIds(q) - {e};
    SubsetSize(taken, PendingIds(q) - {e});
    assert taken <= InFrontOf(q, e);
    forall i | i in InFrontOf(after, e) ensures i in InFrontOf(q, e) - taken {
      assert after[i].status.Pending?;
    }
    SubsetSize(InFrontOf(after, e), InFrontOf(q, e) - taken);
  }

  /** One step of the wait: the row stays in line and the line in front of it never grows. */
  lemma WaitStep<E>(q: Queue<E>, op: Op<E>, e: nat, t: int)
    requires e < |q| && q[e].status.Pending? && CreatedBy(q, t) && t <= Start(op) <= End(op)
    requires !op.Restart? && (op.Claim? ==> NoneProcessing(q)) && Spares(op, e, q[e].entry.key)
    requires !Delivers(q, op, e)
    ensures var after := Applied(q, op);
            && e < |after| && after[e].status.Pending? && after[e].entry.key == q[e].entry.key
            && CreatedBy(after, End(op))
            && |InFrontOf(after, e)| + (if op.Claim? then Capped(op.limit) else 0) <= |InFrontOf(q, e)|
  {
    StepKeepsCreatedBy(q, op, t);
    if op.Claim? {
      ClaimAdvances(q, op, e);
    } else {
      NobodyPushesIn(q, op, e, t);
      SubsetSize(InFrontOf(Applied(q, op), e), InFrontOf(q, e));
    }
  }

  lemma {:induction false} WaitIsShort<E>(q: Queue<E>, ops: seq<Op<E>>, e: nat, limit: int, t: int)
    requires e < |q| && q[e].status.Pending? && CreatedBy(q, t) && ClockRuns(t, ops)
    requires PromptRun(q, ops, e, q[e].entry.key, limit)
    requires Product(Claims(ops), Capped(limit)) > |InFrontOf(q, e)|
    ensures DeliveredIn(q, ops, e)
    decreases |ops|
  {
    if ops == [] || Delivers(q, ops[0], e) { return; }
    WaitStep(q, ops[0], e, t);
    assert Claims(ops) == (if ops[0].Claim? then 1 else 0) + Claims(ops[1..]);
    WaitIsShort(Applied(q, ops[0]), ops[1..], e, limit, End(ops[0]));
  }

  /** With r rows ahead, r / limit + 1 claims reach the row, whatever arrives meanwhile. */
  lemma BoundedWait<E>(q: Queue<E>, ops: seq<Op<E>>, e: nat, limit: int, t: int)
    requires e < |q| && q[e].status.Pending? && CreatedBy(q, t) && ClockRuns(t, ops)
    requires PromptRun(q, ops, e, q[e].entry.key, limit)
    requires Claims(ops) >= |InFrontOf(q, e)| / Capped(limit) + 1
    ensures DeliveredIn(q, ops, e)
  {
    QuotientCovers(Claims(ops), Capped(limit), |InFrontOf(q, e)|);
    WaitIsShort(q, ops, e, limit, t);
  }

  function Product(claims: nat, limit: nat): nat {
    if claims == 0 then 0 else limit + Product(claims - 1, limit)
  }

  lemma {:induction false} ProductIsTimes(claims: nat, limit: nat)
    ensures Product(claims, limit) == claims * limit
  {
    if claims > 0 {
      ProductIsTimes(claims - 1, limit);
      assert claims * limit == (claims - 1) * limit + limit;
    }
  }

  lemma QuotientCovers(claims: nat, limit: nat, r: nat)
    requires limit > 0 && claims >= r / limit + 1
    ensures Product(claims, limit) > r
  {
    ProductGrows(r / limit + 1, claims, limit);
    ProductIsTimes(r / limit, limit);
    DivideAndRest(r, limit);
  }

  lemma {:induction false} ProductGrows(few: nat, many: nat, limit: nat)
    requires few <= many
    ensures Product(few, limit) <= Product(many, limit)
  {
    if few < many { ProductGrows(few, many - 1, limit); }
  }

  lemma DivideAndRest(r: nat, limit: nat)
    requires limit > 0
    ensures r / limit * limit <= r < r / limit * limit + limit
  {
  }

  // ----- What a row's columns say together -----

  /** A row has an export time exactly if it is a success, and an attempt time unless it waits. */
  predicate Consistent<E>(row: Row<E>) {
    && (row.exportedAt.Some? <==> row.status.Success?)
    && (row.status.Success? ==> row.attempts > 0)
    && (!row.status.Pending? ==> row.lastAttempt.Some?)
  }

  ghost predicate AllConsistent<E>(q: Queue<E>) {
    forall i | 0 <= i < |q| :: Consistent(q[i])
  }

  lemma StepKeepsConsistent<E>(q: Queue<E>, op: Op<E>)
    requires AllConsistent(q)
    ensures AllConsistent(Applied(q, op))
  {
  }

  /** On every run, so the test for a missing attempt time in a claim never decides. */
  lemma {:induction false} RunKeepsConsistent<E>(q: Queue<E>, ops: seq<Op<E>>)
    requires AllConsistent(q)
    ensures AllConsistent(Run(q, ops))
    decreases |ops|
  {
    if ops != [] {
      StepKeepsConsistent(q, ops[0]);
      RunKeepsConsistent(Applied(q, ops[0]), ops[1..]);
    }
  }

  // ----- What each operation writes -----

  /** A key that is new gets one row at the end of the table: pending and untried, or failed at once with the fault. */
  lemma NewTigerRow<E>(q: Queue<E>, entry: Entry<E>, fault: Option<string>, now: int)
    requires forall i | 0 <= i < |q| :: q[i].entry.key != entry.key
    ensures fault.None? ==>
              TigerPut(q, entry, fault, now) == q + [Row(entry, Pending, 0, None, now, None, None, None, now)]
    ensures fault.Some? ==>
              TigerPut(q, entry, fault, now) == q + [Row(entry, Error, 0, Some(now), now, None, None, fault, now)]
  {
  }

  lemma NewOneCRow<E>(q: Queue<E>, entry: Entry<E>, now: int)
    requires forall i | 0 <= i < |q| :: q[i].entry.key != entry.key
    ensures OneCPut(q, entry, now) == q + [Row(entry, Pending, 0, None, now, None, None, None, now)]
  {
  }

  /** A key that is there: a finished row and another payment's row stay; any other takes the new entry, and a fault is
      noted on a row that waits or has failed, and moves the waiting one out of the line. */
  lemma KnownTigerRow<E>(q: Queue<E>, entry: Entry<E>, fault: Option<string>, now: int, i: nat)
    requires UniqueKeys(q) && i < |q| && q[i].entry.key == entry.key
    ensures TigerPut(q, entry, fault, now) ==
              if q[i].status.Success? || q[i].entry.payment != entry.payment then q
              else
                var row := q[i].(entry := entry, updatedAt := now);
                q[i := if fault.Some? && row.status.Pending? then
                         row.(status := Error, error := fault, lastAttempt := Some(now))
                       else if fault.Some? && row.status.Error? then row.(error := fault) else row]
  {
    LookupIs(q, entry.key, i);
  }

  lemma KnownOneCRow<E>(q: Queue<E>, entry: Entry<E>, now: int, i: nat)
    requires UniqueKeys(q) && i < |q| && q[i].entry.key == entry.key
    ensures OneCPut(q, entry, now) ==
              if q[i].status.Success? then q else q[i := q[i].(entry := entry, updatedAt := now)]
  {
    LookupIs(q, entry.key, i);
  }

  lemma LookupIs<E>(q: Queue<E>, key: string, i: nat)
    requires UniqueKeys(q) && i < |q| && q[i].entry.key == key
    ensures Lookup(q, key) == i
  {
  }

  /** A row is due if it waits, or is with a worker that has not answered since before the lease began. */
  lemma DueIff<E>(q: Queue<E>, staleBefore: int, i: nat)
    ensures i in DueIds(q, staleBefore) <==>
            i < |q| && (q[i].status == Pending
                        || (q[i].status == Processing
                            && (q[i].lastAttempt.None? || q[i].lastAttempt.value < staleBefore)))
  {
  }

  /** A claim marks what it hands out, returns to the line what else is due, and touches nothing else. */
  lemma ClaimWrites<E>(q: Queue<E>, limit: int, staleBefore: int, now: int, i: nat)
    requires i < |q|
    ensures var after := Claimed(q, limit, staleBefore, now);
            && |after| == |q|
            && after[i] ==
                 if i in Taken(q, limit, staleBefore, now)
                 then q[i].(status := Processing, lastAttempt := Some(now), updatedAt := now)
                 else if q[i].status == Processing && i in DueIds(q, staleBefore)
                 then q[i].(status := Pending, updatedAt := now)
                 else q[i]
  {
  }

  /** An answer is taken by a row that waits or is with a worker. Final answers count, a success is dated, a reference and
      a message are kept, and a success without a message clears the error, a failure replaces it. */
  lemma AnswerWrites<E>(q: Queue<E>, id: nat, a: Answer, now: int)
    ensures Accepts(q, id, a) <==> id < |q| && q[id].status in {Pending, Processing} && a.status != Pending
    ensures !Accepts(q, id, a) ==> Answered(q, id, a, now) == q
    ensures Accepts(q, id, a) ==>
              var was, row := q[id], Answered(q, id, a, now)[id];
              && Answered(q, id, a, now) == q[id := row]
              && row.entry == was.entry && row.createdAt == was.createdAt
              && row.status == a.status && row.lastAttempt == Some(now) && row.updatedAt == now
              && row.attempts == was.attempts + (if a.status in {Success, Error} then 1 else 0)
              && row.exportedAt == (if a.status == Success then Some(now) else was.exportedAt)
              && row.reference == (if a.reference.Some? then a.reference else was.reference)
              && (a.message.Some? ==> row.error == a.message)
              && (a.message.None? && a.status in {Success, Error} ==> row.error.None?)
              && (a.message.None? && a.status !in {Success, Error} ==> row.error == was.error)
  {
  }

  /** A reset takes a failed or skipped row and leaves it as one that waits, with its attempts. */
  lemma ResetWrites<E>(q: Queue<E>, id: nat, now: int)
    ensures CanReset(q, id) <==> id < |q| && q[id].status in {Error, Skipped}
    ensures Reset(q, id, now) ==
              if CanReset(q, id)
              then q[id := Row(q[id].entry, Pending, q[id].attempts, q[id].lastAttempt, q[id].createdAt, None, None, None, now)]
              else q
  {
  }

  /** An upsert moves a row only from pending to error, and only for an invalid event. */
  lemma UpsertMovesOnlyInvalid<E>(q: Queue<E>, entry: Entry<E>, fault: Option<string>, now: int, i: nat)
    requires i < |q|
    ensures TigerPut(q, entry, fault, now)[i].status == q[i].status
            || (q[i].status.Pending? && fault.Some? && TigerPut(q, entry, fault, now)[i].status.Error?)
    ensures q[i].entry.key == entry.key && UniqueKeys(q) && q[i].status.Pending? && q[i].entry.payment == entry.payment ==>
              (TigerPut(q, entry, fault, now)[i].status.Pending? <==> fault.None?)
    ensures OneCPut(q, entry, now)[i].status == q[i].status
  {
  }

  /** An upsert of the same payment refreshes the event of every row that is not finished, whoever holds it; a finished
      row and another payment's row keep theirs. */
  lemma UpsertRefreshes<E>(q: Queue<E>, entry: Entry<E>, fault: Option<string>, now: int, i: nat)
    requires UniqueKeys(q) && i < |q| && q[i].entry.key == entry.key
    ensures var row := TigerPut(q, entry, fault, now)[i];
            if q[i].status.Success? || q[i].entry.payment != entry.payment then row == q[i]
            else row.entry == entry && row.lastAttempt.Some? == (q[i].lastAttempt.Some? || row.status != q[i].status)
    ensures var row := OneCPut(q, entry, now)[i];
            if q[i].status.Success? then row == q[i] else row.entry == entry && row.lastAttempt == q[i].lastAttempt
  {
  }

  /** A reset undoes a failure: but for the counted attempt and the times, the row is as it was before it was tried. */
  lemma ResetUndoesFailure<E>(q: Queue<E>, id: nat, a: Answer, answered: int, reset: int)
    requires Accepts(q, id, a) && Resettable(a.status) && Consistent(q[id])
    requires q[id].status.Pending? && q[id].reference.None? && q[id].error.None?
    ensures var after := Reset(Answered(q, id, a, answered), id, reset);
            && |after| == |q| && (forall i | 0 <= i < |q| && i != id :: after[i] == q[i])
            && after[id] == q[id].(attempts := after[id].attempts, lastAttempt := Some(answered), updatedAt := reset)
            && after[id].attempts == q[id].attempts + if a.status.Error? then 1 else 0
  {
  }
}
