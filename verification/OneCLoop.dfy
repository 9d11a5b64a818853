/** The 1C import loop: what it is offered, what it has done when it ends, and why it ends. */
module OneCLoop {
  import opened Basics
  import opened OneCImport

  lemma BackedStays(base: Base, after: Base, e: PaymentEvent, r: ImportResult)
    requires base <= after && Backed(base, e, r)
    ensures Backed(after, e, r)
  {
  }

  datatype Handled = Handled(event: PaymentEvent, result: ImportResult)

  ghost predicate AllBacked(base: Base, log: seq<Handled>) {
    forall k | 0 <= k < |log| :: Backed(base, log[k].event, log[k].result)
  }

  /** Documents are only added, and never a findable second one. */
  ghost predicate Kept(base: Base, after: Base) {
    base <= after && (OnePerPayment(base) ==> OnePerPayment(after))
  }

  lemma KeptOn(base: Base, between: Base, after: Base)
    requires Kept(base, between) && Kept(between, after)
    ensures Kept(base, after)
  {
  }

  lemma ImportKeeps(base: Base, e: PaymentEvent, c: Conditions)
    ensures Kept(base, Imported(base, e, c))
  {
  }

  // ----- What one import is offered -----

  /** The answers of the queue: one batch after another, None for a failed request. */
  type Fetch = nat -> Option<seq<PaymentEvent>>

  /** The id is offered by one of the first n events. */
  predicate OfferedBefore(events: seq<PaymentEvent>, n: nat, id: string)
    requires n <= |events|
  {
    exists k | 0 <= k < n :: events[k].id == id
  }

  predicate HasId(events: seq<PaymentEvent>, id: string) {
    OfferedBefore(events, |events|, id)
  }

  /** The first n batches, one after the other. */
  function Batches(fetch: Fetch, n: nat): seq<PaymentEvent> {
    if n == 0 then [] else Batches(fetch, n - 1) + fetch(n - 1).GetOr([])
  }

  /** The events with an id, each where it is offered first. */
  function FirstOffers(events: seq<PaymentEvent>): seq<PaymentEvent> {
    FirstOffersTo(events, |events|)
  }

  function FirstOffersTo(events: seq<PaymentEvent>, n: nat): seq<PaymentEvent>
    requires n <= |events|
  {
    if n == 0 then []
    else if events[n - 1].id == "" || OfferedBefore(events, n - 1, events[n - 1].id) then FirstOffersTo(events, n - 1)
    else FirstOffersTo(events, n - 1) + [events[n - 1]]
  }

  lemma {:induction false} SameStartSameOffers(events: seq<PaymentEvent>, more: seq<PaymentEvent>, n: nat)
    requires n <= |events| && events <= more
    ensures FirstOffersTo(events, n) == FirstOffersTo(more, n)
    ensures forall id :: OfferedBefore(events, n, id) <==> OfferedBefore(more, n, id)
  {
    assert forall k | 0 <= k < n :: more[k] == events[k];
    if n > 0 { SameStartSameOffers(events, more, n - 1); }
  }

  lemma OneMoreOffer(events: seq<PaymentEvent>, e: PaymentEvent)
    ensures FirstOffers(events + [e]) ==
            if e.id == "" || HasId(events, e.id) then FirstOffers(events) else FirstOffers(events) + [e]
    ensures forall id :: HasId(events + [e], id) <==> HasId(events, id) || id == e.id
  {
    var more := events + [e];
    SameStartSameOffers(events, more, |events|);
    assert more[|events|] == e;
    forall id ensures HasId(more, id) <==> HasId(events, id) || id == e.id {
      assert OfferedBefore(events, |events|, id) <==> OfferedBefore(more, |events|, id);
    }
  }

  lemma {:induction false} OffersGrow(events: seq<PaymentEvent>, n: nat, m: nat)
    requires n <= m <= |events|
    ensures FirstOffersTo(events, n) <= FirstOffersTo(events, m)
  {
    if n < m { OffersGrow(events, n, m - 1); }
  }

  lemma LaterOffersAddOn(events: seq<PaymentEvent>, more: seq<PaymentEvent>)
    ensures FirstOffers(events) <= FirstOffers(events + more)
  {
    SameStartSameOffers(events, events + more, |events|);
    OffersGrow(events + more, |events|, |events + more|);
  }

  /** The queue offers finitely many ids. */
  ghost predicate OffersOnly(fetch: Fetch, ids: set<string>) {
    forall m, k | fetch(m).Some? && 0 <= k < |fetch(m).value| :: fetch(m).value[k].id == "" || fetch(m).value[k].id in ids
  }

  lemma {:induction false} BatchesWithin(fetch: Fetch, ids: set<string>, n: nat)
    requires OffersOnly(fetch, ids)
    ensures forall id | HasId(Batches(fetch, n), id) :: id == "" || id in ids
  {
    if n > 0 {
      BatchesWithin(fetch, ids, n - 1);
      var earlier: seq<PaymentEvent>, last: seq<PaymentEvent> := Batches(fetch, n - 1), fetch(n - 1).GetOr([]);
      forall id | HasId(earlier + last, id) ensures id == "" || id in ids {
        var k :| 0 <= k < |earlier + last| && (earlier + last)[k].id == id;
        if k < |earlier| { assert earlier[k].id == id; } else { assert last[k - |earlier|].id == id; }
      }
    }
  }

  /** A batch brings new ids exactly if it brings first offers. */
  lemma SameIdsSameCount(fetch: Fetch, n: nat, before: set<string>, after: set<string>)
    requires Seen(before, Batches(fetch, n)) && Seen(after, Batches(fetch, n + 1))
    ensures before <= after && (before != after <==> BroughtNew(fetch, n + 1))
  {
    var events, more := Batches(fetch, n), fetch(n).GetOr([]);
    NewIdsAreNewOffers(events, more, before, after);
  }

  lemma NewIdsAreNewOffers(events: seq<PaymentEvent>, more: seq<PaymentEvent>, before: set<string>,
                           after: set<string>)
    requires Seen(before, events) && Seen(after, events + more)
    ensures before <= after
    ensures before == after <==> FirstOffers(events + more) == FirstOffers(events)
  {
    var all := events + more;
    SameStartSameOffers(events, all, |events|);
    forall id | id in before ensures id in after {
      var k :| 0 <= k < |events| && events[k].id == id;
      assert all[k].id == id;
    }
    OffersStopIffIdsDo(all, |events|, |all|);
    assert FirstOffers(all) == FirstOffers(events) <==>
           (forall id | id != "" && HasId(all, id) :: OfferedBefore(all, |events|, id));
    assert forall id :: OfferedBefore(all, |events|, id) <==> HasId(events, id);
    assert before == after <==> forall id | id in after :: id in before;
  }

  /** No first offer in a stretch of events exactly if no new id in it. */
  lemma {:induction false} OffersStopIffIdsDo(events: seq<PaymentEvent>, n: nat, m: nat)
    requires n <= m <= |events|
    ensures FirstOffersTo(events, m) == FirstOffersTo(events, n) <==>
            (forall id | id != "" && OfferedBefore(events, m, id) :: OfferedBefore(events, n, id))
  {
    if n < m {
      OffersStopIffIdsDo(events, n, m - 1);
      OffersGrow(events, n, m - 1);
      var last := events[m - 1].id;
      assert OfferedBefore(events, m, last);
      assert forall id :: OfferedBefore(events, m, id) <==> OfferedBefore(events, m - 1, id) || id == last;
    }
  }

  /** The loop stops at batch n: there is none, it is empty, or the one before offered nothing new. */
  predicate Exhausted(fetch: Fetch, n: nat) {
    || fetch(n).GetOr([]) == []
    || (n > 0 && FirstOffers(Batches(fetch, n)) == FirstOffers(Batches(fetch, n - 1)))
  }

  /** No batch before the n-th stops the loop. */
  predicate Ongoing(fetch: Fetch, n: nat) {
    n == 0 || (Ongoing(fetch, n - 1) && !Exhausted(fetch, n - 1))
  }

  /** The last batch was not offered in vain. */
  predicate BroughtNew(fetch: Fetch, n: nat) {
    n > 0 ==> FirstOffers(Batches(fetch, n)) != FirstOffers(Batches(fetch, n - 1))
  }

  lemma OnceMore(fetch: Fetch, n: nat)
    requires Ongoing(fetch, n) && BroughtNew(fetch, n) && fetch(n).GetOr([]) != []
    ensures !Exhausted(fetch, n) && Ongoing(fetch, n + 1)
  {
  }

  /** Exactly the ids offered so far. */
  ghost predicate Seen(processed: set<string>, events: seq<PaymentEvent>) {
    forall id :: id in processed <==> id != "" && HasId(events, id)
  }

  // ----- What one import has done -----

  function EventsOf(log: seq<Handled>): (events: seq<PaymentEvent>)
    ensures |events| == |log|
  {
    seq(|log|, k requires 0 <= k < |log| => log[k].event)
  }

  function MovesOf(log: seq<Handled>, conditions: string -> Conditions): (moves: seq<Move>)
    ensures |moves| == |log|
  {
    seq(|log|, k requires 0 <= k < |log| => Process(log[k].event, conditions(log[k].event.id)))
  }

  predicate BrokeOff(h: Handled, conditions: string -> Conditions) {
    conditions(h.event.id).sending.Breaks?
  }

  ghost predicate NoneBrokeOff(log: seq<Handled>, conditions: string -> Conditions) {
    forall k | 0 <= k < |log| :: !BrokeOff(log[k], conditions)
  }

  /** Sending the last result, and only that, broke off the import. */
  ghost predicate LastBrokeOff(log: seq<Handled>, conditions: string -> Conditions) {
    log != [] && BrokeOff(log[|log| - 1], conditions) && NoneBrokeOff(log[..|log| - 1], conditions)
  }

  /** One event handled: what it makes of the base and the result it deserves. */
  ghost predicate Handles(base: Base, h: Handled, c: Conditions, after: Base) {
    && after == Imported(base, h.event, c) && Backed(after, h.event, h.result)
    && (h.result.Success? <==> Succeeds(base, h.event, c))
  }

  /** The log, event by event, leads from one base to the other. */
  ghost predicate Follows(start: Base, base: Base, log: seq<Handled>, conditions: string -> Conditions)
    decreases |log|
  {
    if log == [] then base == start
    else
      var h := log[|log| - 1];
      exists before ::
        Follows(start, before, log[..|log| - 1], conditions) && Handles(before, h, conditions(h.event.id), base)
  }

  lemma OneMoreFollows(start: Base, before: Base, log: seq<Handled>, conditions: string -> Conditions, h: Handled,
                       base: Base)
    requires Follows(start, before, log, conditions) && Handles(before, h, conditions(h.event.id), base)
    ensures Follows(start, base, log + [h], conditions)
  {
    var more := log + [h];
    assert more[..|more| - 1] == log && more[|more| - 1] == h;
  }

  /** The base is that of the run the log describes, and every result is the one its event deserved. */
  ghost predicate Accounts(start: Base, base: Base, log: seq<Handled>, conditions: string -> Conditions) {
    && base == Ran(start, MovesOf(log, conditions))
    && forall k | 0 <= k < |log| ::
         log[k].result.Success? <==>
         Succeeds(Ran(start, MovesOf(log[..k], conditions)), log[k].event, conditions(log[k].event.id))
  }

  lemma LastStep(start: Base, base: Base, log: seq<Handled>, conditions: string -> Conditions)
    returns (before: Base)
    requires Follows(start, base, log, conditions) && log != []
    ensures Follows(start, before, log[..|log| - 1], conditions)
    ensures Handles(before, log[|log| - 1], conditions(log[|log| - 1].event.id), base)
  {
    before :| Follows(start, before, log[..|log| - 1], conditions)
              && Handles(before, log[|log| - 1], conditions(log[|log| - 1].event.id), base);
  }

  lemma {:induction false} FollowingIsARun(start: Base, base: Base, log: seq<Handled>,
                                           conditions: string -> Conditions)
    requires Follows(start, base, log, conditions)
    ensures base == Ran(start, MovesOf(log, conditions))
    decreases |log|
  {
    if log != [] {
      var n := |log| - 1;
      var before := LastStep(start, base, log, conditions);
      FollowingIsARun(start, before, log[..n], conditions);
      var moves, last := MovesOf(log[..n], conditions), Process(log[n].event, conditions(log[n].event.id));
      assert MovesOf(log, conditions) == moves + [last];
      RanOneMore(start, moves, last);
    }
  }

  lemma {:induction false} FollowingIsJust(start: Base, base: Base, log: seq<Handled>,
                                           conditions: string -> Conditions, k: nat)
    requires Follows(start, base, log, conditions) && k < |log|
    ensures log[k].result.Success? <==>
            Succeeds(Ran(start, MovesOf(log[..k], conditions)), log[k].event, conditions(log[k].event.id))
    decreases |log|
  {
    var n := |log| - 1;
    var before := LastStep(start, base, log, conditions);
    if k == n {
      FollowingIsARun(start, before, log[..n], conditions);
    } else {
      FollowingIsJust(start, before, log[..n], conditions, k);
      assert log[..n][..k] == log[..k] && log[..n][k] == log[k];
    }
  }

  lemma FollowingAccounts(start: Base, base: Base, log: seq<Handled>, conditions: string -> Conditions)
    requires Follows(start, base, log, conditions)
    ensures Accounts(start, base, log, conditions)
  {
    FollowingIsARun(start, base, log, conditions);
    forall k | 0 <= k < |log|
      ensures log[k].result.Success? <==>
              Succeeds(Ran(start, MovesOf(log[..k], conditions)), log[k].event, conditions(log[k].event.id))
    {
      FollowingIsJust(start, base, log, conditions, k);
    }
  }

  lemma {:induction false} FollowingIsBacked(start: Base, base: Base, log: seq<Handled>,
                                             conditions: string -> Conditions)
    requires Follows(start, base, log, conditions)
    ensures AllBacked(base, log) && Kept(start, base)
    decreases |log|
  {
    if log != [] {
      var n := |log| - 1;
      var before := LastStep(start, base, log, conditions);
      FollowingIsBacked(start, before, log[..n], conditions);
      ImportKeeps(before, log[n].event, conditions(log[n].event.id));
      KeptOn(start, before, base);
      forall k | 0 <= k < n ensures Backed(base, log[k].event, log[k].result) {
        assert log[..n][k] == log[k];
        BackedStays(before, base, log[k].event, log[k].result);
      }
    }
  }

  predicate Differ(events: seq<PaymentEvent>) {
    forall j, k | 0 <= j < k < |events| :: events[j].id != events[k].id
  }

  lemma {:induction false} RanSplit(base: Base, first: seq<Move>, second: seq<Move>)
    ensures Ran(Ran(base, first), second) == Ran(base, first + second)
  {
    if second == [] {
      assert first + second == first;
    } else {
      var n := |second| - 1;
      RanSplit(base, first, second[..n]);
      assert second[..n] + [second[n]] == second;
      assert (first + second[..n]) + [second[n]] == first + second;
      RanOneMore(base, first + second[..n], second[n]);
    }
  }

  /** With ids that stand alone, whatever was imported and deleted before, a logged result is a success exactly if the
      payment has its own document right after it. */
  lemma LoggedSuccessIffOwnDocument(earlier: seq<Move>, base: Base, log: seq<Handled>,
                                    conditions: string -> Conditions, k: nat)
    requires Accounts(Ran([], earlier), base, log, conditions) && k < |log|
    requires log[k].event.payload.Some? && log[k].event.payload.value.paymentId != ""
    requires StandsAlone(earlier + MovesOf(log[..k], conditions), log[k].event.payload.value.paymentId)
    ensures log[k].result.Success? <==>
            HasOwnDocument(Ran([], earlier + MovesOf(log[..k + 1], conditions)), log[k].event.payload.value.paymentId)
  {
    var e, c := log[k].event, conditions(log[k].event.id);
    var moves := earlier + MovesOf(log[..k], conditions);
    RanSplit([], earlier, MovesOf(log[..k], conditions));
    OneFurtherInTheLog(earlier, log, conditions, k);
    SuccessIffOwnAfter(moves, e, c);
  }

  lemma OneFurtherInTheLog(earlier: seq<Move>, log: seq<Handled>, conditions: string -> Conditions, k: nat)
    requires k < |log|
    ensures earlier + MovesOf(log[..k + 1], conditions)
         == earlier + MovesOf(log[..k], conditions) + [Process(log[k].event, conditions(log[k].event.id))]
  {
    var next := Process(log[k].event, conditions(log[k].event.id));
    assert MovesOf(log[..k + 1], conditions) == MovesOf(log[..k], conditions) + [next];
  }

  lemma SuccessIffOwnAfter(moves: seq<Move>, e: PaymentEvent, c: Conditions)
    requires e.payload.Some? && e.payload.value.paymentId != "" && StandsAlone(moves, e.payload.value.paymentId)
    ensures Succeeds(Ran([], moves), e, c) <==>
            HasOwnDocument(Ran([], moves + [Process(e, c)]), e.payload.value.paymentId)
  {
    SuccessIffOwnDocument(moves, e, c);
    RanOneMore([], moves, Process(e, c));
  }

  /** First offers have different ids, the ids offered. */
  lemma {:induction false} FirstOffersDiffer(events: seq<PaymentEvent>, n: nat)
    requires n <= |events|
    ensures Differ(FirstOffersTo(events, n))
    ensures forall id :: HasId(FirstOffersTo(events, n), id) <==> id != "" && OfferedBefore(events, n, id)
  {
    if n > 0 {
      FirstOffersDiffer(events, n - 1);
      var first, e := FirstOffersTo(events, n - 1), events[n - 1];
      OneMoreOffer(first, e);
      assert HasId(first, e.id) <==> e.id != "" && OfferedBefore(events, n - 1, e.id);
      forall id ensures OfferedBefore(events, n, id) <==> OfferedBefore(events, n - 1, id) || id == e.id { }
    }
  }

  /** All events so far are handled, each id at its first offer, and nothing has broken off. */
  ghost predicate Complete(log: seq<Handled>, processed: set<string>, conditions: string -> Conditions,
                           events: seq<PaymentEvent>) {
    Seen(processed, events) && EventsOf(log) == FirstOffers(events) && NoneBrokeOff(log, conditions)
  }

  /** The last result broke off, somewhere in these events but after the earlier ones. */
  ghost predicate CutShort(log: seq<Handled>, conditions: string -> Conditions, earlier: seq<PaymentEvent>,
                           events: seq<PaymentEvent>) {
    && LastBrokeOff(log, conditions)
    && |FirstOffers(earlier)| < |log| && EventsOf(log) <= FirstOffers(events)
  }

  /** A batch adds ids, from a finite stock, exactly if it was not offered in vain. */
  lemma BatchProgress(fetch: Fetch, ids: set<string>, n: nat, before: set<string>, after: set<string>)
    requires OffersOnly(fetch, ids) && Seen(before, Batches(fetch, n)) && Seen(after, Batches(fetch, n + 1))
    ensures before <= after <= ids && (before != after <==> BroughtNew(fetch, n + 1))
  {
    BatchesWithin(fetch, ids, n + 1);
    SameIdsSameCount(fetch, n, before, after);
  }

  /** How the import ends, and that it does not end before. */
  ghost predicate Ended(log: seq<Handled>, conditions: string -> Conditions, fetch: Fetch, rounds: nat) {
    && Ongoing(fetch, rounds)
    && if Exhausted(fetch, rounds) then
         NoneBrokeOff(log, conditions) && EventsOf(log) == FirstOffers(Batches(fetch, rounds))
       else CutShort(log, conditions, Batches(fetch, rounds), Batches(fetch, rounds + 1))
  }

  /** The import is not over: all batches so far are handled, and the last brought new ids. */
  ghost predicate GoesOn(log: seq<Handled>, processed: set<string>, conditions: string -> Conditions, fetch: Fetch,
                         n: nat) {
    Complete(log, processed, conditions, Batches(fetch, n)) && Ongoing(fetch, n) && BroughtNew(fetch, n)
  }

  lemma EndsBefore(log: seq<Handled>, processed: set<string>, conditions: string -> Conditions, fetch: Fetch, n: nat)
    requires Ongoing(fetch, n) && fetch(n).GetOr([]) == [] && Complete(log, processed, conditions, Batches(fetch, n))
    ensures Ended(log, conditions, fetch, n)
  {
  }

  lemma {:induction false} NoEmptyBatchBefore(fetch: Fetch, n: nat, m: nat)
    requires Ongoing(fetch, n) && m < n
    ensures fetch(m).GetOr([]) != []
  {
    if m < n - 1 { NoEmptyBatchBefore(fetch, n - 1, m); }
  }

  /** What the end of an import means if sending never broke it off: the next batch is missing or empty, or the last one
      had no id that was not offered before; no earlier batch was empty; and exactly the ids offered are in the log. */
  lemma EndMeans(log: seq<Handled>, conditions: string -> Conditions, fetch: Fetch, n: nat)
    requires Ended(log, conditions, fetch, n)
    requires forall k | 0 <= k < |log| :: !conditions(log[k].event.id).sending.Breaks?
    ensures fetch(n).None? || fetch(n).value == []
            || (n > 0 && forall id | id != "" && HasId(Batches(fetch, n), id) :: HasId(Batches(fetch, n - 1), id))
    ensures forall m | 0 <= m < n :: fetch(m).Some? && fetch(m).value != []
    ensures forall id | id != "" ::
              HasId(Batches(fetch, n), id) <==> exists k | 0 <= k < |log| :: log[k].event.id == id
  {
    var all := Batches(fetch, n);
    assert !LastBrokeOff(log, conditions);
    forall m | 0 <= m < n ensures fetch(m).Some? && fetch(m).value != [] { NoEmptyBatchBefore(fetch, n, m); }
    FirstOffersDiffer(all, |all|);
    forall id | id != "" ensures HasId(all, id) <==> exists k | 0 <= k < |log| :: log[k].event.id == id {
      assert HasId(EventsOf(log), id) <==> HasId(all, id);
      assert forall k | 0 <= k < |log| :: EventsOf(log)[k] == log[k].event;
    }
    if fetch(n).GetOr([]) != [] {
      var before := Batches(fetch, n - 1);
      FirstOffersDiffer(before, |before|);
    }
  }

  lemma EndsWithin(log: seq<Handled>, conditions: string -> Conditions, fetch: Fetch, n: nat)
    requires Ongoing(fetch, n) && !Exhausted(fetch, n)
    requires CutShort(log, conditions, Batches(fetch, n), Batches(fetch, n + 1))
    ensures Ended(log, conditions, fetch, n)
  {
  }

  lemma EndsAfter(log: seq<Handled>, processed: set<string>, conditions: string -> Conditions, fetch: Fetch, n: nat)
    requires Ongoing(fetch, n + 1) && !BroughtNew(fetch, n + 1)
    requires Complete(log, processed, conditions, Batches(fetch, n + 1))
    ensures Ended(log, conditions, fetch, n + 1)
  {
  }

  lemma AfterBatch(fetch: Fetch, n: nat, ids: set<string>, done: set<string>, log: seq<Handled>,
                   processed: set<string>, conditions: string -> Conditions, over: bool)
    requires OffersOnly(fetch, ids) && Ongoing(fetch, n) && BroughtNew(fetch, n) && fetch(n).GetOr([]) != []
    requires Seen(done, Batches(fetch, n))
    requires if over then CutShort(log, conditions, Batches(fetch, n), Batches(fetch, n + 1))
             else Complete(log, processed, conditions, Batches(fetch, n + 1))
    ensures if over then Ended(log, conditions, fetch, n)
            else if processed == done then Ended(log, conditions, fetch, n + 1)
            else GoesOn(log, processed, conditions, fetch, n + 1) && done < processed <= ids
  {
    OnceMore(fetch, n);
    if over {
      EndsWithin(log, conditions, fetch, n);
    } else {
      BatchProgress(fetch, ids, n, done, processed);
      if processed == done { EndsAfter(log, processed, conditions, fetch, n); }
    }
  }

  lemma EndedDiffers(log: seq<Handled>, conditions: string -> Conditions, fetch: Fetch, rounds: nat)
    requires Ended(log, conditions, fetch, rounds)
    ensures Differ(EventsOf(log))
  {
    var n := if Exhausted(fetch, rounds) then rounds else rounds + 1;
    FirstOffersDiffer(Batches(fetch, n), |Batches(fetch, n)|);
  }

  lemma NothingNew(log: seq<Handled>, processed: set<string>, conditions: string -> Conditions,
                   events: seq<PaymentEvent>, e: PaymentEvent)
    requires Complete(log, processed, conditions, events) && (e.id == "" || e.id in processed)
    ensures Complete(log, processed, conditions, events + [e])
  {
    OneMoreOffer(events, e);
  }

  lemma OneMoreDone(log: seq<Handled>, processed: set<string>, conditions: string -> Conditions,
                    events: seq<PaymentEvent>, h: Handled)
    requires Complete(log, processed, conditions, events) && h.event.id != "" && h.event.id !in processed
    ensures if BrokeOff(h, conditions) then CutShort(log + [h], conditions, events, events + [h.event])
            else Complete(log + [h], processed + {h.event.id}, conditions, events + [h.event])
  {
    OneMoreOffer(events, h.event);
    OneMoreEntry(log, h, conditions);
  }

  lemma OneMoreEntry(log: seq<Handled>, h: Handled, conditions: string -> Conditions)
    requires NoneBrokeOff(log, conditions)
    ensures EventsOf(log + [h]) == EventsOf(log) + [h.event]
    ensures if BrokeOff(h, conditions) then LastBrokeOff(log + [h], conditions) else NoneBrokeOff(log + [h], conditions)
  {
    assert (log + [h])[..|log|] == log;
  }

  lemma CutShortInMore(log: seq<Handled>, conditions: string -> Conditions, before: seq<PaymentEvent>,
                       batch: seq<PaymentEvent>, i: nat)
    requires i < |batch| && CutShort(log, conditions, before + batch[..i], before + batch[..i + 1])
    ensures CutShort(log, conditions, before, before + batch)
  {
    LaterOffersAddOn(before, batch[..i]);
    LaterOffersAddOn(before + batch[..i + 1], batch[i + 1..]);
    assert before + batch[..i + 1] + batch[i + 1..] == before + batch;
  }

  lemma OneFurther(before: seq<PaymentEvent>, batch: seq<PaymentEvent>, i: nat)
    requires i < |batch|
    ensures before + batch[..i] + [batch[i]] == before + batch[..i + 1]
  {
  }

  lemma WholeBatch(before: seq<PaymentEvent>, batch: seq<PaymentEvent>)
    ensures before + batch[..0] == before && before + batch[..|batch|] == before + batch
  {
  }

  class PaymentImport {
    var base: Base

    constructor (base: Base)
      ensures this.base == base
    {
      this.base := base;
    }

    /** PayQR_ОбработатьСобытиеОплаты */
    method ProcessPaymentEvent(e: PaymentEvent, c: Conditions) returns (r: ImportResult)
      modifies this
      ensures base == Imported(old(base), e, c) && Backed(base, e, r)
      ensures r.Success? <==> Succeeds(old(base), e, c)
      ensures Creates(old(base), e, c) ==> r == Success(|old(base)|)
    {
      if e.payload.None? { return Failure("no event_payload"); }
      var p := e.payload.value;
      if p.paymentId == "" { return Failure("no paymentId"); }
      var existing := FindDocument(base, p.paymentId);
      if existing.Some? { return Success(existing.value); }
      if p.invoiceId == "" { return Failure("no invoiceId"); }
      if !c.realization { return Failure("no sale for invoiceId"); }
      if c.complaint.Some? { return Failure(c.complaint.value); }
      if !c.account { return Failure("no account for paymentCode"); }
      if !c.written { return Failure("document not written"); }
      base := base + [Document(false, p, c.date)];
      r := Success(|base| - 1);
    }

    /** An event and the entry it leaves in the log. */
    method HandleEvent(e: PaymentEvent, conditions: string -> Conditions, ghost start: Base, ghost log: seq<Handled>)
      returns (h: Handled)
      requires Follows(start, base, log, conditions)
      modifies this
      ensures h.event == e && Follows(start, base, log + [h], conditions)
    {
      ghost var before := base;
      var result := ProcessPaymentEvent(e, conditions(e.id));
      h := Handled(e, result);
      OneMoreFollows(start, before, log, conditions, h, base);
    }

    /** One batch, after the events `before` it; `over` says that sending a result broke off the import. */
    method ProcessBatch(batch: seq<PaymentEvent>, done: set<string>, log0: seq<Handled>,
                        conditions: string -> Conditions, ghost before: seq<PaymentEvent>, ghost start: Base)
      returns (processed: set<string>, log: seq<Handled>, over: bool)
      requires Follows(start, base, log0, conditions) && Complete(log0, done, conditions, before)
      modifies this
      ensures Follows(start, base, log, conditions) && done <= processed
      ensures if over then CutShort(log, conditions, before, before + batch)
              else Complete(log, processed, conditions, before + batch)
    {
      processed, log, over := done, log0, false;
      WholeBatch(before, batch);
      for i := 0 to |batch|
        invariant Follows(start, base, log, conditions) && done <= processed
        invariant Complete(log, processed, conditions, before + batch[..i])
      {
        var e := batch[i];
        OneFurther(before, batch, i);
        if e.id == "" || e.id in processed {
          NothingNew(log, processed, conditions, before + batch[..i], e);
        } else {
          var h := HandleEvent(e, conditions, start, log);
          OneMoreDone(log, processed, conditions, before + batch[..i], h);
          processed := processed + {e.id};
          log := log + [h];
          if conditions(e.id).sending.Breaks? {
            CutShortInMore(log, conditions, before, batch, i);
            over := true;
            return;
          }
        }
      }
    }

    /** A batch that is there: the import is broken off in it, over after it, or goes on. */
    method ImportBatch(fetch: Fetch, n: nat, ids: set<string>, done: set<string>, log0: seq<Handled>,
                       conditions: string -> Conditions, ghost start: Base)
      returns (log: seq<Handled>, processed: set<string>, rounds: nat, stop: bool)
      requires OffersOnly(fetch, ids) && Follows(start, base, log0, conditions)
      requires GoesOn(log0, done, conditions, fetch, n) && fetch(n).GetOr([]) != []
      modifies this
      ensures Follows(start, base, log, conditions)
      ensures if stop then Ended(log, conditions, fetch, rounds)
              else GoesOn(log, processed, conditions, fetch, rounds) && done < processed <= ids
    {
      processed, log, stop := ProcessBatch(fetch(n).value, done, log0, conditions, Batches(fetch, n), start);
      AfterBatch(fetch, n, ids, done, log, processed, conditions, stop);
      rounds := if stop then n else n + 1;
      stop := stop || processed == done;
    }

    /** One round of the loop. */
    method ImportRound(fetch: Fetch, n: nat, ids: set<string>, done: set<string>, log0: seq<Handled>,
                       conditions: string -> Conditions, ghost start: Base)
      returns (log: seq<Handled>, processed: set<string>, rounds: nat, stop: bool)
      requires OffersOnly(fetch, ids) && Follows(start, base, log0, conditions)
      requires GoesOn(log0, done, conditions, fetch, n)
      modifies this
      ensures Follows(start, base, log, conditions)
      ensures if stop then Ended(log, conditions, fetch, rounds)
              else GoesOn(log, processed, conditions, fetch, rounds) && done < processed <= ids
    {
      var events := fetch(n);
      if events.None? || events.value == [] {
        log, processed, rounds, stop := log0, done, n, true;
        EndsBefore(log, processed, conditions, fetch, n);
      } else {
        log, processed, rounds, stop := ImportBatch(fetch, n, ids, done, log0, conditions, start);
      }
    }

    /** PayQR_ЗагрузитьУспешныеОплаты terminates if the queue offers finitely many ids. Unless sending a result breaks
        it off, it goes on to the first batch that is missing, empty, or follows one without new ids, and has then
        handled every id offered, each once and in the order of first offers; the base and the results are those of
        that run. */
    method ImportSuccessfulPayments(fetch: Fetch, ids: set<string>, conditions: string -> Conditions)
      returns (log: seq<Handled>, rounds: nat)
      requires OffersOnly(fetch, ids)
      modifies this
      ensures Accounts(old(base), base, log, conditions) && Ended(log, conditions, fetch, rounds)
      ensures AllBacked(base, log) && Kept(old(base), base) && Differ(EventsOf(log))
    {
      log, rounds := [], 0;
      var processed, stop := {}, false;
      while !stop
        invariant Follows(old(base), base, log, conditions)
        invariant if stop then Ended(log, conditions, fetch, rounds)
                  else GoesOn(log, processed, conditions, fetch, rounds)
        decreases !stop, ids - processed
      {
        log, processed, rounds, stop :=
          ImportRound(fetch, rounds, ids, processed, log, conditions, old(base));
      }
      FollowingAccounts(old(base), base, log, conditions);
      FollowingIsBacked(old(base), base, log, conditions);
      EndedDiffers(log, conditions, fetch, rounds);
    }
  }
}
