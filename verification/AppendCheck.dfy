/** The safety check of the append trial: what one matching snapshot says about the stored lines. */
module AppendCheck {
  import opened Basics

  datatype StoredLine = StoredLine(amount: nat, marker: string)

  /** A row of the snapshot query: a voucher without lines comes as one row without a line. */
  datatype SnapshotRow = SnapshotRow(reference: nat, line: Option<StoredLine>)

  datatype Snapshot = Snapshot(lineCount: nat, lineSum: nat, markers: seq<string>)

  /** The snapshot of one voucher, from the rows that mention it. */
  function SnapshotOf(rows: seq<SnapshotRow>, reference: nat): Snapshot {
    if rows == [] then Snapshot(0, 0, [])
    else
      var n := |rows| - 1;
      var s := SnapshotOf(rows[..n], reference);
      if rows[n].reference != reference || rows[n].line.None? then s
      else
        var l := rows[n].line.value;
        Snapshot(s.lineCount + 1, s.lineSum + l.amount, s.markers + [l.marker])
  }

  /** One more row adds its line's amount and marker to its own voucher's snapshot, and nothing to another's. */
  lemma SnapshotGrows(rows: seq<SnapshotRow>, row: SnapshotRow, reference: nat)
    ensures SnapshotOf([], reference) == Snapshot(0, 0, [])
    ensures var was, now := SnapshotOf(rows, reference), SnapshotOf(rows + [row], reference);
            if row.reference == reference && row.line.Some?
            then now == Snapshot(was.lineCount + 1, was.lineSum + row.line.value.amount,
                                 was.markers + [row.line.value.marker])
            else now == was
  {
    assert (rows + [row])[..|rows|] == rows;
  }

  lemma {:induction false} CountIsLength(rows: seq<SnapshotRow>, reference: nat)
    ensures SnapshotOf(rows, reference).lineCount == |SnapshotOf(rows, reference).markers|
  {
    if rows != [] { CountIsLength(rows[..|rows| - 1], reference); }
  }

  /** ListVoucherSnapshotsByGroupMarker: one snapshot for each voucher that has a row. */
  method ListVoucherSnapshots(rows: seq<SnapshotRow>) returns (snapshots: map<nat, Snapshot>)
    ensures forall ref :: ref in snapshots <==> exists k | 0 <= k < |rows| :: rows[k].reference == ref
    ensures forall ref | ref in snapshots ::
              snapshots[ref] == SnapshotOf(rows, ref) && snapshots[ref].lineCount == |snapshots[ref].markers|
  {
    snapshots := map[];
    var i := 0;
    while i < |rows|
      invariant i <= |rows|
      invariant forall ref :: ref in snapshots <==> exists k | 0 <= k < i :: rows[k].reference == ref
      invariant forall ref :: SnapshotOf(rows[..i], ref) == if ref in snapshots then snapshots[ref] else Snapshot(0, 0, [])
    {
      var ref := rows[i].reference;
      assert rows[..i + 1][..i] == rows[..i];
      if ref !in snapshots { snapshots := snapshots[ref := Snapshot(0, 0, [])]; }
      if rows[i].line.Some? {
        var s, l := snapshots[ref], rows[i].line.value;
        snapshots := snapshots[ref := Snapshot(s.lineCount + 1, s.lineSum + l.amount, s.markers + [l.marker])];
      }
      i := i + 1;
    }
    assert rows[..i] == rows;
    forall ref | ref in snapshots ensures snapshots[ref].lineCount == |snapshots[ref].markers| {
      CountIsLength(rows, ref);
    }
  }

  predicate EachOnce(stored: seq<string>, expected: seq<string>) {
    forall i | 0 <= i < |expected| :: multiset(stored)[expected[i]] == 1
  }

  /** The verdict of BuildAppendDebugResult */
  predicate IsSafe(snapshots: seq<Snapshot>, expected: seq<string>, amount: nat) {
    && |snapshots| == 1
    && snapshots[0].lineCount == |expected|
    && snapshots[0].lineSum == amount * |expected|
    && EachOnce(snapshots[0].markers, expected)
  }

  ghost predicate Different(s: seq<string>) {
    forall i, j | 0 <= i < j < |s| :: s[i] != s[j]
  }

  lemma {:induction false} DifferentCounts(s: seq<string>, x: string)
    requires Different(s)
    ensures multiset(s)[x] == if x in s then 1 else 0
  {
    if s != [] {
      var n := |s| - 1;
      assert s == s[..n] + [s[n]];
      DifferentCounts(s[..n], x);
    }
  }

  /** For different markers the check accepts exactly the permutations. */
  lemma EachOnceIffPermutation(stored: seq<string>, expected: seq<string>)
    requires Different(expected)
    ensures |stored| == |expected| && EachOnce(stored, expected) <==> multiset(stored) == multiset(expected)
  {
    forall x ensures multiset(expected)[x] == if x in expected then 1 else 0 { DifferentCounts(expected, x); }
    if |stored| == |expected| && EachOnce(stored, expected) {
      var extra := multiset(stored) - multiset(expected);
      assert multiset(expected) <= multiset(stored);
      assert multiset(stored) == multiset(expected) + extra;
      assert |extra| == 0;
    }
    if multiset(stored) == multiset(expected) {
      assert |multiset(stored)| == |stored| && |multiset(expected)| == |expected|;
    }
  }

  /** A safe verdict on a real snapshot: exactly the expected lines are stored, and their amounts add up. */
  lemma SafeMeansAllAndOnly(rows: seq<SnapshotRow>, reference: nat, expected: seq<string>, amount: nat)
    requires Different(expected)
    ensures IsSafe([SnapshotOf(rows, reference)], expected, amount) <==>
            && multiset(SnapshotOf(rows, reference).markers) == multiset(expected)
            && SnapshotOf(rows, reference).lineSum == amount * |expected|
  {
    CountIsLength(rows, reference);
    EachOnceIffPermutation(SnapshotOf(rows, reference).markers, expected);
    if multiset(SnapshotOf(rows, reference).markers) == multiset(expected) {
      assert |multiset(expected)| == |expected|;
    }
  }

  /** The expected markers with every repetition replaced by another marker. */
  function Replaced(s: seq<string>, other: string): (r: seq<string>)
    ensures |r| == |s|
  {
    if s == [] then []
    else
      var n := |s| - 1;
      Replaced(s[..n], other) + [if s[n] in s[..n] then other else s[n]]
  }

  lemma {:induction false} ReplacedCounts(s: seq<string>, other: string, x: string)
    requires x != other
    ensures multiset(Replaced(s, other))[x] == if x in s then 1 else 0
  {
    if s != [] {
      var n := |s| - 1;
      assert s == s[..n] + [s[n]];
      ReplacedCounts(s[..n], other, x);
    }
  }

  /** With a marker expected twice the check refuses every permutation, and accepts a voucher in which any unexpected
      marker stands in place of the repetitions. */
  lemma RepeatedExpectationIsMisjudged(expected: seq<string>, i: nat, j: nat, other: string)
    requires i < j < |expected| && expected[i] == expected[j]
    ensures forall stored | multiset(stored) == multiset(expected) :: !EachOnce(stored, expected)
    ensures other !in expected ==>
              EachOnce(Replaced(expected, other), expected) && multiset(Replaced(expected, other)) != multiset(expected)
  {
    TwiceCounts(expected, i, j);
    if other !in expected {
      forall k | 0 <= k < |expected| ensures multiset(Replaced(expected, other))[expected[k]] == 1 {
        ReplacedCounts(expected, other, expected[k]);
      }
    }
  }

  lemma TwiceCounts(s: seq<string>, i: nat, j: nat)
    requires i < j < |s| && s[i] == s[j]
    ensures multiset(s)[s[i]] >= 2
  {
    assert s == s[..j] + s[j..];
    assert s[i] in multiset(s[..j]) && s[i] in multiset(s[j..]) by {
      assert s[..j][i] == s[i] && s[j..][0] == s[i];
    }
  }
}
