/** PaymentGatewayPoller: one cycle over the claimed events, where a failed report ends the cycle. A cycle is a sequence
    of Work moves of the pipeline, and the reports it sends are the answers on their way. */
module Poller {
  import opened Basics
  import opened Text
  import opened VoucherXml
  import opened Ledger
  import opened PaymentEvents
  import opened TigerWorker
  import opened Pipeline
  import Q = ExportQueue

  datatype QueueItem = QueueItem(id: nat, payload: Option<Event>, status: string)

  datatype Report = Report(id: nat, success: bool, reference: Option<nat>, error: Option<string>)

  /** What goes wrong while one item is handled; a failing report may still have arrived. */
  datatype Conditions = Conditions(weather: Weather, reportFails: bool)

  /** The turn of one item: the ledger before and after, the worker's result and the report, if there are any. */
  datatype Turn = Turn(item: QueueItem, weather: Weather, date: Date, before: Book, after: Book,
                       result: Option<InvoiceResult>, report: Option<Report>)

  predicate Skipped(item: QueueItem) {
    item.payload.None? || !OrdinalIgnoreCaseEquals(item.status, "processing")
  }

  function ItemOf(item: QueueItem): Item
    requires !Skipped(item)
  {
    Item(item.id, item.payload.value)
  }

  function ReportOf(item: QueueItem, r: InvoiceResult): Report { Report(item.id, r.success, r.reference, r.error) }

  /** What is known of a turn: an item that is skipped leaves no trace, a dry run is not acknowledged, and any other call
      of the worker is reported. */
  ghost predicate TurnIs(t: Turn, dry: bool) {
    if Skipped(t.item) then t.result.None? && t.report.None? && t.after == t.before
    else
      && t.result.Some?
      && Handled(t.before, t.item.payload.value, t.date, t.weather, t.after, t.result.value)
      && t.result.value.dryRun == dry
      && (t.weather == CALM ==> (t.result.value.success <==> WorkerComplaint(t.item.payload.value).None?))
      && t.report == if dry then None else Some(ReportOf(t.item, t.result.value))
  }

  ghost function Known(dry: bool): Turn -> bool { (t: Turn) => TurnIs(t, dry) }

  ghost predicate All(turns: seq<Turn>, known: Turn -> bool) {
    forall k | 0 <= k < |turns| :: known(turns[k])
  }

  lemma AllSnoc(turns: seq<Turn>, t: Turn, known: Turn -> bool)
    requires All(turns, known) && known(t)
    ensures All(turns + [t], known)
  {
  }

  /** The ledger before the turn. */
  function BookAt(start: Book, turns: seq<Turn>, k: nat): Book
    requires k <= |turns|
  {
    if k == 0 then start else turns[k - 1].after
  }

  /** The turn begins with the ledger the one before left, and belongs to the item at its place. */
  ghost predicate InPlace(items: seq<QueueItem>, conditions: seq<Conditions>, start: Book, turns: seq<Turn>, k: nat)
    requires k < |turns| <= |items| == |conditions|
  {
    turns[k].before == BookAt(start, turns, k) && turns[k].item == items[k] && turns[k].weather == conditions[k].weather
  }

  ghost predicate Linked(items: seq<QueueItem>, conditions: seq<Conditions>, start: Book, turns: seq<Turn>)
    requires |turns| <= |items| == |conditions|
  {
    forall k | 0 <= k < |turns| :: InPlace(items, conditions, start, turns, k)
  }

  lemma LinkedSnoc(items: seq<QueueItem>, conditions: seq<Conditions>, start: Book, turns: seq<Turn>, t: Turn)
    requires |turns| < |items| == |conditions| && Linked(items, conditions, start, turns)
    requires t.before == BookAt(start, turns, |turns|)
    requires t.item == items[|turns|] && t.weather == conditions[|turns|].weather
    ensures Linked(items, conditions, start, turns + [t])
  {
    var longer := turns + [t];
    forall k | 0 <= k < |longer| ensures InPlace(items, conditions, start, longer, k) {
      assert BookAt(start, longer, k) == BookAt(start, turns, k);
      if k < |turns| { assert InPlace(items, conditions, start, turns, k); }
    }
  }

  /** The report of the item is sent and fails. */
  predicate ReportFails(item: QueueItem, c: Conditions, dry: bool) { !Skipped(item) && c.reportFails && !dry }

  ghost function Failing(items: seq<QueueItem>, conditions: seq<Conditions>, dry: bool): nat -> bool {
    (k: nat) => k < |items| && k < |conditions| && ReportFails(items[k], conditions[k], dry)
  }

  /** No report of the first n items has failed. */
  ghost predicate NoFailure(n: nat, failing: nat -> bool) { forall k | 0 <= k < n :: !failing(k) }

  /** A cycle over the items: their turns in order, until they are used up or a report fails. */
  ghost predicate IsCycleBy(items: seq<QueueItem>, conditions: seq<Conditions>, known: Turn -> bool,
                            failing: nat -> bool,
                            start: Book, turns: seq<Turn>, after: Book)
  {
    && |turns| <= |items| == |conditions|
    && All(turns, known) && Linked(items, conditions, start, turns) && after == BookAt(start, turns, |turns|)
    && (|turns| < |items| ==> |turns| > 0 && failing(|turns| - 1))
    && NoFailure(if |turns| == 0 then 0 else |turns| - 1, failing)
  }

  ghost predicate IsCycle(items: seq<QueueItem>, conditions: seq<Conditions>, dry: bool, start: Book, turns: seq<Turn>,
                          after: Book)
  {
    IsCycleBy(items, conditions, Known(dry), Failing(items, conditions, dry), start, turns, after)
  }

  ghost predicate UnderWay(items: seq<QueueItem>, conditions: seq<Conditions>, known: Turn -> bool,
                           failing: nat -> bool,
                           start: Book, turns: seq<Turn>, book: Book)
  {
    && |turns| <= |items| == |conditions|
    && All(turns, known) && Linked(items, conditions, start, turns) && book == BookAt(start, turns, |turns|)
    && NoFailure(|turns|, failing)
  }

  ghost function Going(items: seq<QueueItem>, conditions: seq<Conditions>, known: Turn -> bool, failing: nat -> bool,
                       start: Book)
    : (seq<Turn>, Book) -> bool
  {
    (turns: seq<Turn>, book: Book) => UnderWay(items, conditions, known, failing, start, turns, book)
  }

  ghost function Over(items: seq<QueueItem>, conditions: seq<Conditions>, known: Turn -> bool, failing: nat -> bool,
                      start: Book)
    : (seq<Turn>, Book) -> bool
  {
    (turns: seq<Turn>, book: Book) => IsCycleBy(items, conditions, known, failing, start, turns, book)
  }

  /** The turn is that of the next item. */
  ghost predicate Next(items: seq<QueueItem>, conditions: seq<Conditions>, n: nat, book: Book, t: Turn)
    requires n < |items| == |conditions|
  {
    t.item == items[n] && t.weather == conditions[n].weather && t.before == book
  }

  lemma CycleStarts(items: seq<QueueItem>, conditions: seq<Conditions>, known: Turn -> bool, failing: nat -> bool,
                    start: Book)
    requires |items| == |conditions|
    ensures Going(items, conditions, known, failing, start)([], start)
  {
  }

  lemma OneMoreUnderWay(items: seq<QueueItem>, conditions: seq<Conditions>, known: Turn -> bool, failing: nat -> bool,
                        start: Book,
                        turns: seq<Turn>, book: Book, t: Turn)
    requires UnderWay(items, conditions, known, failing, start, turns, book) && |turns| < |items|
    requires known(t) && Next(items, conditions, |turns|, book, t)
    ensures All(turns + [t], known) && Linked(items, conditions, start, turns + [t])
    ensures t.after == BookAt(start, turns + [t], |turns| + 1)
  {
    LinkedSnoc(items, conditions, start, turns, t);
    AllSnoc(turns, t, known);
  }

  lemma CycleGoesOn(items: seq<QueueItem>, conditions: seq<Conditions>, known: Turn -> bool, failing: nat -> bool,
                    start: Book,
                    turns: seq<Turn>, book: Book, t: Turn)
    requires Going(items, conditions, known, failing, start)(turns, book) && |turns| < |items| == |conditions|
    requires known(t) && Next(items, conditions, |turns|, book, t)
    requires !failing(|turns|)
    ensures Going(items, conditions, known, failing, start)(turns + [t], t.after)
  {
    UnderWayGoesOn(items, conditions, known, failing, start, turns, book, t);
  }

  lemma UnderWayGoesOn(items: seq<QueueItem>, conditions: seq<Conditions>, known: Turn -> bool, failing: nat -> bool,
                       start: Book,
                       turns: seq<Turn>, book: Book, t: Turn)
    requires UnderWay(items, conditions, known, failing, start, turns, book) && |turns| < |items|
    requires known(t) && Next(items, conditions, |turns|, book, t)
    requires !failing(|turns|)
    ensures UnderWay(items, conditions, known, failing, start, turns + [t], t.after)
  {
    OneMoreUnderWay(items, conditions, known, failing, start, turns, book, t);
  }

  lemma CycleFails(items: seq<QueueItem>, conditions: seq<Conditions>, known: Turn -> bool, failing: nat -> bool,
                   start: Book,
                   turns: seq<Turn>, book: Book, t: Turn)
    requires Going(items, conditions, known, failing, start)(turns, book) && |turns| < |items| == |conditions|
    requires known(t) && Next(items, conditions, |turns|, book, t)
    requires failing(|turns|)
    ensures Over(items, conditions, known, failing, start)(turns + [t], t.after)
  {
    UnderWayFails(items, conditions, known, failing, start, turns, book, t);
  }

  lemma UnderWayFails(items: seq<QueueItem>, conditions: seq<Conditions>, known: Turn -> bool, failing: nat -> bool,
                      start: Book,
                      turns: seq<Turn>, book: Book, t: Turn)
    requires UnderWay(items, conditions, known, failing, start, turns, book) && |turns| < |items|
    requires known(t) && Next(items, conditions, |turns|, book, t)
    requires failing(|turns|)
    ensures IsCycleBy(items, conditions, known, failing, start, turns + [t], t.after)
  {
    OneMoreUnderWay(items, conditions, known, failing, start, turns, book, t);
  }

  /** The reports are those of the turns. */
  ghost predicate AreReports(reports: seq<Option<Report>>, turns: seq<Turn>) {
    |reports| == |turns| && forall k | 0 <= k < |turns| :: reports[k] == turns[k].report
  }

  lemma OneMoreReport(reports: seq<Option<Report>>, turns: seq<Turn>, t: Turn)
    requires AreReports(reports, turns)
    ensures AreReports(reports + [t.report], turns + [t])
  {
  }

  lemma CycleEnds(items: seq<QueueItem>, conditions: seq<Conditions>, known: Turn -> bool, failing: nat -> bool,
                  start: Book,
                  turns: seq<Turn>, book: Book)
    requires Going(items, conditions, known, failing, start)(turns, book) && |turns| == |items|
    ensures Over(items, conditions, known, failing, start)(turns, book)
  {
  }

  lemma SkippedTurn(t: Turn, dry: bool)
    requires Skipped(t.item) && t.result.None? && t.report.None? && t.after == t.before
    ensures Known(dry)(t)
  {
  }

  lemma HandledTurn(t: Turn, dry: bool, r: InvoiceResult)
    requires !Skipped(t.item) && t.result == Some(r) && r.dryRun == dry
    requires Handled(t.before, t.item.payload.value, t.date, t.weather, t.after, r)
    requires t.weather == CALM ==> (r.success <==> WorkerComplaint(t.item.payload.value).None?)
    requires t.report == if dry then None else Some(ReportOf(t.item, r))
    ensures Known(dry)(t)
  {
  }

  /** In every cycle an item with a payload that is marked as processing goes to the worker, whatever the spelling, and an
      item without a payload or with another mark does not. */
  lemma ProcessingItemsAreHandled(items: seq<QueueItem>, conditions: seq<Conditions>, dry: bool, start: Book,
                                  turns: seq<Turn>, after: Book, k: nat)
    requires IsCycle(items, conditions, dry, start, turns, after) && k < |turns|
    ensures items[k].payload.Some? && (items[k].status == "processing" || items[k].status == "PROCESSING") ==>
              && turns[k].result.Some?
              && Handled(turns[k].before, items[k].payload.value, turns[k].date, turns[k].weather, turns[k].after,
                         turns[k].result.value)
    ensures items[k].payload.None? || items[k].status == "pending" || items[k].status == "success" ==>
              turns[k].result.None? && turns[k].after == turns[k].before
  {
    assert Known(dry)(turns[k]) && InPlace(items, conditions, start, turns, k);
    assert TurnIs(turns[k], dry);
    if items[k].payload.None? || items[k].status == "pending" || items[k].status == "success" {
      assert |"pending"| == |"success"| == 7 && |"processing"| == 10;
      OtherMarksAreSkipped(items[k]);
    } else if items[k].status == "processing" || items[k].status == "PROCESSING" {
      ProcessingIsNotSkipped(items[k]);
    }
  }

  lemma ProcessingIsNotSkipped(item: QueueItem)
    requires item.payload.Some? && (item.status == "processing" || item.status == "PROCESSING")
    ensures !Skipped(item)
  {
    SpellingsAreAlike();
  }

  lemma OtherMarksAreSkipped(item: QueueItem)
    requires item.payload.None? || |item.status| != |"processing"|
    ensures Skipped(item)
  {
    assert |Upper(item.status)| == |item.status| && |Upper("processing")| == |"processing"|;
  }

  lemma SpellingsAreAlike()
    ensures Upper("PROCESSING") == Upper("processing")
  {
  }

  /** A cycle ends at the first report that fails. */
  lemma EarlierReportsArrived(items: seq<QueueItem>, conditions: seq<Conditions>, dry: bool, start: Book,
                              turns: seq<Turn>, after: Book, k: nat)
    requires IsCycle(items, conditions, dry, start, turns, after) && k + 1 < |turns|
    ensures turns[k].report.None? || !conditions[k].reportFails
  {
    FailsIff(items, conditions, dry, start, turns, k);
    assert !Failing(items, conditions, dry)(k);
  }

  /** And at no other: if some items are left, the report of the last turn, k, failed. */
  lemma CycleStopsAtFailure(items: seq<QueueItem>, conditions: seq<Conditions>, dry: bool, start: Book,
                            turns: seq<Turn>, after: Book, k: int)
    requires IsCycle(items, conditions, dry, start, turns, after) && k + 1 == |turns| < |items|
    ensures k >= 0 && turns[k].report.Some? && conditions[k].reportFails
  {
    FailsIff(items, conditions, dry, start, turns, k);
    assert Failing(items, conditions, dry)(k);
  }

  lemma FailsIff(items: seq<QueueItem>, conditions: seq<Conditions>, dry: bool, start: Book, turns: seq<Turn>, k: nat)
    requires k < |turns| <= |items| == |conditions|
    requires All(turns, Known(dry)) && Linked(items, conditions, start, turns)
    ensures Failing(items, conditions, dry)(k) <==> turns[k].report.Some? && conditions[k].reportFails
  {
    assert Known(dry)(turns[k]) && InPlace(items, conditions, start, turns, k);
    ReportedIff(turns[k], dry);
  }

  lemma ReportedIff(t: Turn, dry: bool)
    requires Known(dry)(t)
    ensures t.report.Some? <==> !Skipped(t.item) && !dry
  {
    assert TurnIs(t, dry);
  }

  // ----- A cycle is a run -----

  function AsAnswer(report: Report): (nat, Q.Answer) {
    (report.id, AnswerOf(report.success, report.reference, report.error))
  }

  /** The answers that the reports of the first n turns amount to. */
  function AsAnswers(turns: seq<Turn>, n: nat): set<(nat, Q.Answer)>
    requires n <= |turns|
  {
    set k | 0 <= k < n && turns[k].report.Some? :: AsAnswer(turns[k].report.value)
  }

  predicate Called(t: Turn) { t.result.Some? && !Skipped(t.item) }

  function AsMove(t: Turn): Move
    requires Called(t)
  {
    Work(ItemOf(t.item), t.date, t.weather, t.after, t.result.value)
  }

  /** The turns in which the worker was called, as moves of the pipeline. */
  function Moves(turns: seq<Turn>, n: nat): seq<Move>
    requires n <= |turns|
  {
    if n == 0 then []
    else if Called(turns[n - 1]) then Moves(turns, n - 1) + [AsMove(turns[n - 1])]
    else Moves(turns, n - 1)
  }

  ghost function AfterTurn(z: System, t: Turn): System {
    if Called(t) then Moved(z, AsMove(t)) else z
  }

  ghost function Folded<S, T>(f: (S, T) -> S, start: S, items: seq<T>, n: nat): S
    requires n <= |items|
  {
    if n == 0 then start else f(Folded(f, start, items, n - 1), items[n - 1])
  }

  lemma {:induction false} FoldKeeps<S(!new), T>(f: (S, T) -> S, start: S, items: seq<T>, n: nat, kept: (S,
                                                 nat) -> bool)
    requires n <= |items| && kept(start, 0)
    requires forall z, k: nat | k < |items| && kept(z, k) :: kept(f(z, items[k]), k + 1)
    ensures kept(Folded(f, start, items, n), n)
    decreases n
  {
    if n > 0 { FoldKeeps(f, start, items, n - 1, kept); }
  }

  ghost function RanTurns(y: System, turns: seq<Turn>, n: nat): System
    requires n <= |turns|
  {
    Folded(AfterTurn, y, turns, n)
  }

  lemma {:induction false} RanTurnsIsRan(y: System, turns: seq<Turn>, n: nat)
    requires n <= |turns|
    ensures RanTurns(y, turns, n) == Ran(y, Moves(turns, n))
    decreases n
  {
    if n > 0 {
      RanTurnsIsRan(y, turns, n - 1);
      if Called(turns[n - 1]) { RanSnoc(y, Moves(turns, n - 1), AsMove(turns[n - 1])); }
    }
  }

  /** The book and the answers on their way have changed, and nothing else but the record of postings. */
  ghost predicate Became(y: System, z: System, book: Book, answers: set<(nat, Q.Answer)>) {
    z == y.(book := book, answers := y.answers + answers, posted := z.posted)
  }

  lemma OneMoreCall(y: System, z: System, answers: set<(nat, Q.Answer)>, t: Turn, dry: bool)
    requires Became(y, z, t.before, answers) && TurnIs(t, dry) && Called(t) && ItemOf(t.item) in y.items
    ensures Became(y, Moved(z, AsMove(t)), t.after,
                   answers + if t.report.None? then {} else {AsAnswer(t.report.value)})
  {
    WorkMove(z, ItemOf(t.item), t.date, t.weather, t.after, t.result.value);
  }

  lemma OneMoreAnswer(turns: seq<Turn>, n: nat)
    requires n < |turns|
    ensures AsAnswers(turns, n + 1) ==
            AsAnswers(turns, n) + if turns[n].report.None? then {} else {AsAnswer(turns[n].report.value)}
  {
  }

  ghost predicate Led(y: System, turns: seq<Turn>, z: System, n: nat) {
    n <= |turns| && Became(y, z, BookAt(y.book, turns, n), AsAnswers(turns, n))
  }

  ghost predicate CanRun(y: System, items: seq<QueueItem>, conditions: seq<Conditions>, dry: bool, turns: seq<Turn>) {
    && |turns| <= |items| == |conditions|
    && All(turns, Known(dry)) && Linked(items, conditions, y.book, turns)
    && forall k | 0 <= k < |items| && !Skipped(items[k]) :: ItemOf(items[k]) in y.items
  }

  lemma OneMoreTurn(y: System, z: System, answers: set<(nat, Q.Answer)>, t: Turn, dry: bool)
    requires Became(y, z, t.before, answers) && Known(dry)(t) && (!Skipped(t.item) ==> ItemOf(t.item) in y.items)
    ensures Became(y, AfterTurn(z, t), t.after,
                   answers + if t.report.None? then {} else {AsAnswer(t.report.value)})
  {
    assert TurnIs(t, dry);
    if Called(t) { OneMoreCall(y, z, answers, t, dry); }
  }

  lemma NextTurn(y: System, z: System, dry: bool, turns: seq<Turn>, n: nat)
    requires n < |turns| && Known(dry)(turns[n]) && turns[n].before == BookAt(y.book, turns, n)
    requires !Skipped(turns[n].item) ==> ItemOf(turns[n].item) in y.items
    requires Led(y, turns, z, n)
    ensures Led(y, turns, AfterTurn(z, turns[n]), n + 1)
  {
    OneMoreAnswer(turns, n);
    OneMoreTurn(y, z, AsAnswers(turns, n), turns[n], dry);
  }

  ghost function LedBy(y: System, turns: seq<Turn>): (System, nat) -> bool {
    (z: System, n: nat) => Led(y, turns, z, n)
  }

  lemma NextTurnBy(y: System, z: System, dry: bool, turns: seq<Turn>, n: nat)
    requires n < |turns| && Known(dry)(turns[n]) && turns[n].before == BookAt(y.book, turns, n)
    requires !Skipped(turns[n].item) ==> ItemOf(turns[n].item) in y.items
    requires LedBy(y, turns)(z, n)
    ensures LedBy(y, turns)(AfterTurn(z, turns[n]), n + 1)
  {
    NextTurn(y, z, dry, turns, n);
  }

  lemma EveryTurnLeads(y: System, items: seq<QueueItem>, conditions: seq<Conditions>, dry: bool, turns: seq<Turn>)
    requires CanRun(y, items, conditions, dry, turns)
    ensures forall z, k: nat | k < |turns| && LedBy(y, turns)(z, k) :: LedBy(y, turns)(AfterTurn(z, turns[k]), k + 1)
  {
    forall z, k: nat | k < |turns| && LedBy(y, turns)(z, k) ensures LedBy(y, turns)(AfterTurn(z, turns[k]), k + 1) {
      assert InPlace(items, conditions, y.book, turns, k);
      NextTurnBy(y, z, dry, turns, k);
    }
  }

  lemma TurnsLead(y: System, items: seq<QueueItem>, conditions: seq<Conditions>, dry: bool, turns: seq<Turn>)
    requires CanRun(y, items, conditions, dry, turns)
    ensures Led(y, turns, RanTurns(y, turns, |turns|), |turns|)
  {
    EveryTurnLeads(y, items, conditions, dry, turns);
    assert LedBy(y, turns)(y, 0);
    FoldKeeps(AfterTurn, y, turns, |turns|, LedBy(y, turns));
  }

  /** From any system that has the events in hand, a cycle is a run of Work moves: the ledger and the answers on their
      way, which are its reports, are all that changes, but for the record of postings. */
  lemma CycleIsARun(y: System, items: seq<QueueItem>, conditions: seq<Conditions>, dry: bool, turns: seq<Turn>,
                    after: Book)
    requires IsCycle(items, conditions, dry, y.book, turns, after)
    requires forall k | 0 <= k < |items| && !Skipped(items[k]) :: ItemOf(items[k]) in y.items
    ensures Became(y, Ran(y, Moves(turns, |turns|)), after, AsAnswers(turns, |turns|))
  {
    TurnsLead(y, items, conditions, dry, turns);
    RanTurnsIsRan(y, turns, |turns|);
  }

  // ----- What the reports are worth -----

  /** Entries of a voucher only ever grow while the worker runs. */
  ghost predicate Kept(book: Book, after: Book) {
    && |book| <= |after|
    && forall ref, invoice | 0 <= ref < |book| :: EntriesIn(book[ref], invoice) <= EntriesIn(after[ref], invoice)
  }

  lemma EffectKeeps(book: Book, p: Posting, w: Weather, after: Book)
    requires Effect(book, p, w, after)
    ensures Kept(book, after)
  {
  }

  lemma TurnKeeps(t: Turn, dry: bool)
    requires Known(dry)(t)
    ensures Kept(t.before, t.after)
  {
    if t.after != t.before { EffectKeeps(t.before, PostingOf(t.item.payload.value, t.date), t.weather, t.after); }
  }

  /** If the turn's result claims success, this ledger has the invoice's entry in the live voucher the result names. */
  ghost predicate TrueIn(book: Book, t: Turn) {
    Skipped(t.item) || (t.result.Some? && Truthful(book, InvoiceOf(t.item.payload.value), t.result.value))
  }

  lemma TrueAtFirst(t: Turn, dry: bool)
    requires Known(dry)(t)
    ensures TrueIn(t.after, t)
  {
  }

  lemma TruthLasts(book: Book, after: Book, t: Turn)
    requires TrueIn(book, t) && Kept(book, after)
    ensures TrueIn(after, t)
  {
    if !Skipped(t.item) && t.result.value.success && !t.result.value.dryRun {
      var invoice, ref := InvoiceOf(t.item.payload.value), t.result.value.reference.value;
      assert EntriesIn(book[ref], invoice) <= EntriesIn(after[ref], invoice);
    }
  }

  ghost function TruthOf(t: Turn): Book -> bool { (book: Book) => TrueIn(book, t) }

  function BooksOf(start: Book, turns: seq<Turn>): nat -> Book {
    (k: nat) => if k <= |turns| then BookAt(start, turns, k) else start
  }

  lemma {:induction false} Persists<B(!new)>(books: nat -> B, from: nat, n: nat, holds: B -> bool)
    requires from <= n && holds(books(from))
    requires forall k | from <= k < n && holds(books(k)) :: holds(books(k + 1))
    ensures holds(books(n))
    decreases n
  {
    if from < n { Persists(books, from, n - 1, holds); }
  }

  lemma OneMoreTurnKeepsTruth(start: Book, turns: seq<Turn>, k: nat, t: Turn)
    requires k < |turns| && Kept(turns[k].before, turns[k].after) && turns[k].before == BookAt(start, turns, k)
    requires TruthOf(t)(BooksOf(start, turns)(k))
    ensures TruthOf(t)(BooksOf(start, turns)(k + 1))
  {
    assert BooksOf(start, turns)(k) == turns[k].before && BooksOf(start, turns)(k + 1) == turns[k].after;
    TruthGoesOn(turns[k].before, turns[k].after, t);
  }

  lemma TruthGoesOn(book: Book, after: Book, t: Turn)
    requires TruthOf(t)(book) && Kept(book, after)
    ensures TruthOf(t)(after)
  {
    TruthLasts(book, after, t);
  }

  lemma StaysTrue(items: seq<QueueItem>, conditions: seq<Conditions>, dry: bool, start: Book, turns: seq<Turn>, k: nat)
    requires k < |turns| <= |items| == |conditions|
    requires All(turns, Known(dry)) && Linked(items, conditions, start, turns)
    ensures TruthOf(turns[k])(BooksOf(start, turns)(|turns|))
  {
    TrueAtFirst(turns[k], dry);
    assert TruthOf(turns[k])(BooksOf(start, turns)(k + 1));
    forall m | k + 1 <= m < |turns| && TruthOf(turns[k])(BooksOf(start, turns)(m))
      ensures TruthOf(turns[k])(BooksOf(start, turns)(m + 1))
    {
      assert InPlace(items, conditions, start, turns, m);
      TurnKeeps(turns[m], dry);
      OneMoreTurnKeepsTruth(start, turns, m, turns[k]);
    }
    Persists(BooksOf(start, turns), k + 1, |turns|, TruthOf(turns[k]));
  }

  lemma {:induction false} DryLeavesTheBook(items: seq<QueueItem>, conditions: seq<Conditions>, start: Book,
                                            turns: seq<Turn>, n: nat)
    requires n <= |turns| <= |items| == |conditions|
    requires All(turns, Known(true)) && Linked(items, conditions, start, turns)
    ensures BookAt(start, turns, n) == start
    decreases n
  {
    if n > 0 {
      DryLeavesTheBook(items, conditions, start, turns, n - 1);
      assert Known(true)(turns[n - 1]) && InPlace(items, conditions, start, turns, n - 1);
    }
  }

  /** When the cycle is over every success it reported is still true, and a dry run has reported nothing and left the
      ledger alone. */
  lemma ReportsAreTrue(items: seq<QueueItem>, conditions: seq<Conditions>, dry: bool, start: Book, turns: seq<Turn>,
                       after: Book)
    requires IsCycle(items, conditions, dry, start, turns, after)
    ensures forall k | 0 <= k < |turns| :: TrueIn(after, turns[k])
    ensures dry ==> after == start && forall k | 0 <= k < |turns| :: turns[k].report.None?
  {
    forall k | 0 <= k < |turns| ensures TrueIn(after, turns[k]) {
      StaysTrue(items, conditions, dry, start, turns, k);
    }
    if dry {
      DryLeavesTheBook(items, conditions, start, turns, |turns|);
      forall k | 0 <= k < |turns| ensures turns[k].report.None? { assert Known(true)(turns[k]); }
    }
  }

  /** Nothing goes wrong. */
  ghost predicate Smooth(items: seq<QueueItem>, conditions: seq<Conditions>)
    requires |items| == |conditions|
  {
    forall i | 0 <= i < |items| :: conditions[i] == Conditions(CALM, false) && !Skipped(items[i])
  }

  predicate Verdict(report: Option<Report>, item: QueueItem) {
    && report.Some? && item.payload.Some? && report.value.id == item.id
    && (report.value.success <==> WorkerComplaint(item.payload.value).None?)
  }

  /** Without failures every item is answered, with success exactly for the acceptable events. */
  lemma SmoothCycleAnswersAll(items: seq<QueueItem>, conditions: seq<Conditions>, start: Book, turns: seq<Turn>,
                              after: Book)
    requires IsCycle(items, conditions, false, start, turns, after) && Smooth(items, conditions)
    ensures |turns| == |items| && forall i | 0 <= i < |items| :: Verdict(turns[i].report, items[i])
  {
    forall i | 0 <= i < |turns| ensures Verdict(turns[i].report, items[i]) {
      assert InPlace(items, conditions, start, turns, i);
      CalmVerdict(turns[i]);
    }
  }

  lemma CalmVerdict(t: Turn)
    requires Known(false)(t) && t.weather == CALM && !Skipped(t.item)
    ensures Verdict(t.report, t.item)
  {
    assert TurnIs(t, false);
  }

  class PaymentGatewayPoller {
    const logo: LogoObjectsClient
    const dateOf: Event -> Date

    constructor (logo: LogoObjectsClient, dateOf: Event -> Date)
      ensures this.logo == logo && this.dateOf == dateOf
    {
      this.logo := logo;
      this.dateOf := dateOf;
    }

    /** The items have their turns until they are used up or a report fails. */
    method Cycle(items: seq<QueueItem>, conditions: seq<Conditions>)
      returns (reports: seq<Option<Report>>, ghost turns: seq<Turn>)
      requires logo.Valid() && |conditions| == |items|
      modifies logo`book
      ensures logo.Valid()
      ensures IsCycle(items, conditions, logo.dryRun, old(logo.book), turns, logo.book)
      ensures AreReports(reports, turns)
    {
      reports, turns := TakeTurns(items, conditions, Known(logo.dryRun), Failing(items, conditions, logo.dryRun));
    }

    /** The loop of the cycle, whatever is known of a turn. */
    method TakeTurns(items: seq<QueueItem>, conditions: seq<Conditions>, ghost known: Turn -> bool,
                     ghost failing: nat -> bool)
      returns (reports: seq<Option<Report>>, ghost turns: seq<Turn>)
      requires logo.Valid() && |conditions| == |items| && forall t | Known(logo.dryRun)(t) :: known(t)
      requires failing == Failing(items, conditions, logo.dryRun)
      modifies logo`book
      ensures logo.Valid()
      ensures Over(items, conditions, known, failing, old(logo.book))(turns, logo.book)
      ensures AreReports(reports, turns)
    {
      reports, turns := [], [];
      CycleStarts(items, conditions, known, failing, logo.book);
      while |reports| < |items|
        invariant logo.Valid() && |turns| <= |items|
        invariant Going(items, conditions, known, failing, old(logo.book))(turns, logo.book)
        invariant AreReports(reports, turns)
        decreases |items| - |reports|
      {
        var item, c := items[|reports|], conditions[|reports|];
        ghost var before := logo.book;
        ghost var t;
        var report;
        report, t := TakeTurn(item, c.weather);
        OneMoreReport(reports, turns, t);
        reports := reports + [report];
        assert failing(|turns|) <==> report.Some? && c.reportFails;
        if report.Some? && c.reportFails {
          CycleFails(items, conditions, known, failing, old(logo.book), turns, before, t);
          turns := turns + [t];
          return;
        }
        CycleGoesOn(items, conditions, known, failing, old(logo.book), turns, before, t);
        turns := turns + [t];
      }
      CycleEnds(items, conditions, known, failing, old(logo.book), turns, logo.book);
    }

    /** The report to send for one item; none for an item to be skipped and for a dry run. */
    method TakeTurn(item: QueueItem, w: Weather) returns (report: Option<Report>, ghost t: Turn)
      requires logo.Valid()
      modifies logo`book
      ensures logo.Valid()
      ensures t.item == item && t.weather == w && t.before == old(logo.book) && t.after == logo.book
      ensures Known(logo.dryRun)(t) && report == t.report
      ensures report.Some? <==> !Skipped(item) && !logo.dryRun
    {
      report := None;
      if Skipped(item) {
        t := Turn(item, w, Date(1, 1, 1), logo.book, logo.book, None, None);
        SkippedTurn(t, logo.dryRun);
        return;
      }
      var e := item.payload.value;
      ghost var before := logo.book;
      var result := logo.ProcessInvoicePaid(e, dateOf(e), w);
      if !result.dryRun { report := Some(ReportOf(item, result)); }
      t := Turn(item, w, dateOf(e), before, logo.book, Some(result), report);
      HandledTurn(t, logo.dryRun, result);
    }
  }
}
