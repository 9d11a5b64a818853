/** An export table as the object whose rows the store updates in place. */
module QueueStore {
  import opened Basics
  import opened ExportQueue

  ghost predicate InLine<E>(q: Queue<E>, ids: seq<nat>) {
    forall a, b | 0 <= a < b < |ids| :: Before(q, ids[a], ids[b])
  }

  function Elements(ids: seq<nat>): set<nat> {
    set i | i in ids
  }

  function WithLeases<E>(q: Queue<E>, ids: set<nat>, now: int): (r: Queue<E>)
    ensures |r| == |q|
    ensures forall i | 0 <= i < |q| :: r[i] == if i in ids then LeasedRow(q[i], now) else q[i]
  {
    seq(|q|, i requires 0 <= i < |q| => if i in ids then LeasedRow(q[i], now) else q[i])
  }

  /** Releasing and then leasing the head of the line is the claim. */
  lemma ReleaseThenLease<E>(q: Queue<E>, limit: int, staleBefore: int, now: int)
    ensures WithLeases(Released(q, staleBefore, now), Taken(q, limit, staleBefore, now), now)
         == Claimed(q, limit, staleBefore, now)
  {
  }

  class ExportTable<E> {
    var rows: Queue<E>

    constructor ()
      ensures rows == []
    {
      rows := [];
    }

    method FindByKey(key: string) returns (i: nat)
      ensures i == Lookup(rows, key)
    {
      i := 0;
      while i < |rows| && rows[i].entry.key != key
        invariant i <= |rows|
        invariant Lookup(rows, key) == LookupFrom(rows, key, i)
      {
        i := i + 1;
      }
    }

    method UpsertTigerInvoiceExport(entry: Entry<E>, fault: Option<string>, now: int)
      modifies this
      ensures rows == TigerPut(old(rows), entry, fault, now)
      ensures (forall i | 0 <= i < |old(rows)| :: old(rows)[i].entry.key != entry.key) ==>
                rows == old(rows) + [if fault.None? then Row(entry, Pending, 0, None, now, None, None, None, now)
                                     else Row(entry, Error, 0, Some(now), now, None, None, fault, now)]
    {
      var i := FindByKey(entry.key);
      if i == |rows| {
        var row := FreshRow(entry, now);
        if fault.Some? {
          row := row.(status := Error, error := fault, lastAttempt := Some(now));
        }
        rows := rows + [row];
        return;
      }
      if rows[i].status.Success? { return; }
      if rows[i].entry.payment != entry.payment { return; }
      var values := rows[i].(entry := entry, updatedAt := now);
      if fault.Some? && rows[i].status.Pending? {
        values := values.(status := Error, error := fault, lastAttempt := Some(now));
      } else if fault.Some? && rows[i].status.Error? {
        values := values.(error := fault);
      }
      rows := rows[i := values];
    }

    method UpsertOneCPaymentExport(entry: Entry<E>, now: int)
      modifies this
      ensures rows == OneCPut(old(rows), entry, now)
      ensures (forall i | 0 <= i < |old(rows)| :: old(rows)[i].entry.key != entry.key) ==>
                rows == old(rows) + [Row(entry, Pending, 0, None, now, None, None, None, now)]
    {
      var i := FindByKey(entry.key);
      if i == |rows| {
        rows := rows + [FreshRow(entry, now)];
      } else if !rows[i].status.Success? {
        rows := rows[i := rows[i].(entry := entry, updatedAt := now)];
      }
    }

    /** UPDATE ... SET status = 'pending' for the expired leases */
    method ReleaseExpired(staleBefore: int, now: int)
      modifies this
      ensures rows == Released(old(rows), staleBefore, now)
    {
      var i := 0;
      while i < |rows|
        invariant i <= |rows| == |old(rows)|
        invariant forall j | 0 <= j < i :: rows[j] == ReleasedRow(old(rows)[j], staleBefore, now)
        invariant forall j | i <= j < |rows| :: rows[j] == old(rows)[j]
      {
        if Stale(rows[i], staleBefore) {
          rows := rows[i := rows[i].(status := Pending, updatedAt := now)];
        }
        i := i + 1;
      }
    }

    method FindOldest(s: set<nat>) returns (m: nat)
      requires s != {} && forall i | i in s :: i < |rows|
      ensures IsOldest(rows, s, m)
    {
      m :| m in s;
      var i: nat := 0;
      while i < |rows|
        invariant i <= |rows|
        invariant m in s
        invariant forall j: nat | j < i && j in s :: j == m || Before(rows, m, j)
      {
        if i in s && Before(rows, i, m) { m := i; }
        i := i + 1;
      }
    }

    /** The ids of at most `cap` pending rows, the oldest first. */
    method SelectPending(cap: nat) returns (ids: seq<nat>)
      ensures Elements(ids) == Head(rows, PendingIds(rows), cap)
      ensures InLine(rows, ids)
      ensures forall i | i in Elements(ids) :: i < |rows|
    {
      var remaining := PendingIds(rows);
      ids := [];
      ghost var head := Head(rows, remaining, cap);
      while |ids| < cap && remaining != {}
        invariant |ids| <= cap && remaining <= PendingIds(rows)
        invariant InLine(rows, ids)
        invariant forall a, j | 0 <= a < |ids| && j in remaining :: Before(rows, ids[a], j)
        invariant Elements(ids) + Head(rows, remaining, cap - |ids|) == head
        decreases cap - |ids|
      {
        var m := FindOldest(remaining);
        OldestThenRest(rows, remaining, m, cap - |ids|);
        assert Elements(ids + [m]) == Elements(ids) + {m};
        ids := ids + [m];
        remaining := remaining - {m};
      }
      assert Head(rows, remaining, cap - |ids|) == {};
    }

    /** The claim: release, select the head of the line, lease it, and hand it out oldest first. */
    method Claim(limit: int, lease: int, now: int, clock: int) returns (claimed: seq<nat>)
      modifies this
      ensures rows == Claimed(old(rows), limit, clock - lease, now)
      ensures Elements(claimed) == Taken(old(rows), limit, clock - lease, now)
      ensures InLine(Released(old(rows), clock - lease, now), claimed)
    {
      ghost var q := rows;
      ReleaseExpired(clock - lease, now);
      ghost var released := rows;
      claimed := SelectPending(Capped(limit));
      assert Elements(claimed) == Taken(q, limit, clock - lease, now);
      LeaseAll(claimed, now);
      assert rows == WithLeases(released, Taken(q, limit, clock - lease, now), now);
      ReleaseThenLease(q, limit, clock - lease, now);
    }

    method LeaseAll(ids: seq<nat>, now: int)
      requires forall i | i in Elements(ids) :: i < |rows|
      modifies this
      ensures rows == WithLeases(old(rows), Elements(ids), now)
    {
      var k := 0;
      while k < |ids|
        invariant k <= |ids| && |rows| == |old(rows)|
        invariant rows == WithLeases(old(rows), Elements(ids[..k]), now)
      {
        assert ids[k] in Elements(ids);
        assert ids[..k + 1] == ids[..k] + [ids[k]];
        assert Elements(ids[..k + 1]) == Elements(ids[..k]) + {ids[k]};
        rows := rows[ids[k] := rows[ids[k]].(status := Processing, lastAttempt := Some(now), updatedAt := now)];
        k := k + 1;
      }
      assert ids[..k] == ids;
    }

    /** update_*_export_result; false stands for the missing row or the closed one. */
    method UpdateResult(id: nat, answer: Answer, now: int) returns (accepted: bool)
      modifies this
      ensures accepted <==> Accepts(old(rows), id, answer)
      ensures rows == Answered(old(rows), id, answer, now)
    {
      if id >= |rows| || !Open(rows[id].status) || answer.status.Pending? { return false; }
      var row := rows[id].(status := answer.status, updatedAt := now, lastAttempt := Some(now));
      if answer.status.Success? || answer.status.Error? { row := row.(attempts := row.attempts + 1); }
      if answer.status.Success? { row := row.(exportedAt := Some(now), error := None); }
      if answer.reference.Some? { row := row.(reference := answer.reference); }
      if answer.message.Some? || answer.status.Error? { row := row.(error := answer.message); }
      rows := rows[id := row];
      accepted := true;
    }

    method ResetExport(id: nat, now: int) returns (accepted: bool)
      modifies this
      ensures accepted <==> CanReset(old(rows), id)
      ensures rows == Reset(old(rows), id, now)
    {
      if id >= |rows| || !Resettable(rows[id].status) { return false; }
      rows := rows[id := ResetRow(rows[id], now)];
      accepted := true;
    }
  }
}
