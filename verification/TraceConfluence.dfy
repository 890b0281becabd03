/**
 Pages may arrive at the end or in front, in any mix. They build the grouping of the slice they cover,
 but for start times, whenever every record finds its call behind it; and they build exactly that
 grouping in every mix if and only if, besides, no record of a turn is older than the turn's first.
 */
module TraceConfluence {
  import opened TraceRecords
  import opened TraceStoreCore
  import opened TraceStarts
  import opened Wrappers

  // ----- what one page does, record by record -----

  lemma {:induction false} WithRecordsConcat(turns: seq<Turn>, a: seq<Record>, b: seq<Record>, calls: CallIndex)
    ensures WithRecords(turns, a + b, calls) == WithRecords(WithRecords(turns, a, calls), b, calls)
  {
    if b == [] {
      assert a + b == a;
    } else {
      var n := |b| - 1;
      assert (a + b)[..|a + b| - 1] == a + b[..n];
      WithRecordsConcat(turns, a, b[..n], calls);
    }
  }

  lemma {:induction false} WithRecordsSameLabels(turns: seq<Turn>, records: seq<Record>, c1: CallIndex, c2: CallIndex)
    requires forall r :: r in records ==> ResolvedCall(r, c1) == ResolvedCall(r, c2)
    ensures WithRecords(turns, records, c1) == WithRecords(turns, records, c2)
  {
    if records != [] {
      WithRecordsSameLabels(turns, records[..|records| - 1], c1, c2);
    }
  }

  /** How many records refer to a tool call. */
  function References(records: seq<Record>, id: string): nat {
    if records == [] then 0
    else References(records[1..], id) + (if RefersTo(records[0], id) then 1 else 0)
  }

  lemma {:induction false} ReferencesConcat(a: seq<Record>, b: seq<Record>, id: string)
    ensures References(a + b, id) == References(a, id) + References(b, id)
  {
    if a == [] {
      assert a + b == b;
    } else {
      assert (a + b)[1..] == a[1..] + b;
      ReferencesConcat(a[1..], b, id);
    }
  }

  lemma {:induction false} ReferencesPositive(records: seq<Record>, id: string)
    ensures References(records, id) > 0 <==> exists r :: r in records && RefersTo(r, id)
  {
    if records != [] {
      ReferencesPositive(records[1..], id);
      if References(records[1..], id) > 0 {
        var r :| r in records[1..] && RefersTo(r, id);
        assert r in records;
      }
      if r :| r in records && RefersTo(r, id) {
        assert r == records[0] || r in records[1..];
      }
    }
  }

  /** Retaining a page's unresolved ids adds, for each missing call, the rows that refer to it. */
  lemma {:induction false} RetainRecordsExact(counts: Counts, records: seq<Record>, calls: CallIndex, id: string)
    ensures CountOf(RetainRecords(counts, records, calls), id)
         == CountOf(counts, id) + (if id in calls then 0 else References(records, id))
    ensures id in RetainRecords(counts, records, calls) <==>
              id in counts || (id !in calls && References(records, id) > 0)
  {
    if records != [] {
      var n := |records| - 1;
      RetainRecordsExact(counts, records[..n], calls, id);
      ReferencesConcat(records[..n], [records[n]], id);
      assert records[..n] + [records[n]] == records;
    }
  }

  /** The counts hold exactly the rows that refer to each missing call. */
  ghost predicate ExactCounts(counts: Counts, records: seq<Record>) {
    forall id ::
      && (id in counts <==> id !in CallsOf(records) && References(records, id) > 0)
      && (id in counts ==> counts[id] == References(records, id))
  }

  lemma {:induction false} ExactCountsUnique(c1: Counts, c2: Counts, records: seq<Record>)
    requires ExactCounts(c1, records) && ExactCounts(c2, records)
    ensures c1 == c2
  {
    assert c1.Keys == c2.Keys;
  }

  lemma {:induction false} GroupedCounts(records: seq<Record>)
    ensures Grouped(records).calls == CallsOf(records)
    ensures ExactCounts(Grouped(records).unresolved, records)
  {
    assert EMPTY.calls + CallsOf(records) == CallsOf(records);
    var counts := Grouped(records).unresolved;
    forall id
      ensures id in counts <==> id !in CallsOf(records) && References(records, id) > 0
      ensures id in counts ==> counts[id] == References(records, id)
    {
      RetainRecordsExact(map[], records, CallsOf(records), id);
    }
  }

  // ----- a page at the end -----

  /** The calls of a later page change no label of the records before it that look none of them up. */
  lemma {:induction false} LaterCallsKeepLabels(a: seq<Record>, b: seq<Record>)
    requires LooksBack(a, b)
    ensures forall r :: r in a ==> ResolvedCall(r, CallsOf(a)) == ResolvedCall(r, CallsOf(a) + CallsOf(b))
  {
    forall r | r in a
      ensures ResolvedCall(r, CallsOf(a)) == ResolvedCall(r, CallsOf(a) + CallsOf(b))
    {
      if r.body.ToolResult? || (r.body.Expansion? && r.body.toolUseId != "") {
        assert LooksUp(r, r.body.toolUseId);
      }
    }
  }

  lemma {:induction false} NoneCountedAhead(a: seq<Record>, b: seq<Record>)
    requires LooksBack(a, b)
    ensures forall id :: References(a, id) > 0 ==> id !in CallsOf(b)
  {
    forall id
      ensures References(a, id) > 0 ==> id !in CallsOf(b)
    {
      ReferencesPositive(a, id);
    }
  }

  lemma {:induction false} AppendCounts(a: seq<Record>, b: seq<Record>)
    requires LooksBack(a, b)
    ensures ExactCounts(Appended(Grouped(a), b).unresolved, a + b)
  {
    GroupedCounts(a);
    CallsOfConcat(a, b);
    NoneCountedAhead(a, b);
    var counts := Appended(Grouped(a), b).unresolved;
    forall id
      ensures id in counts <==> id !in CallsOf(a + b) && References(a + b, id) > 0
      ensures id in counts ==> counts[id] == References(a + b, id)
    {
      ReferencesConcat(a, b, id);
      RetainRecordsExact(Grouped(a).unresolved, b, CallsOf(a) + CallsOf(b), id);
    }
  }

  /** Appending a page to the grouping of what precedes it is grouping both at once, as long as nothing
      before the page looks up one of its calls. */
  lemma {:induction false} AppendIsGrouping(a: seq<Record>, b: seq<Record>)
    requires LooksBack(a, b)
    ensures Appended(Grouped(a), b) == Grouped(a + b)
  {
    GroupedCounts(a);
    GroupedCounts(a + b);
    CallsOfConcat(a, b);
    var calls := CallsOf(a) + CallsOf(b);
    LaterCallsKeepLabels(a, b);
    WithRecordsSameLabels([], a, CallsOf(a), calls);
    WithRecordsConcat([], a, b, calls);
    AppendCounts(a, b);
    ExactCountsUnique(Appended(Grouped(a), b).unresolved, Grouped(a + b).unresolved, a + b);
  }

  // ----- a page in front -----

  lemma {:induction false} RelabelJoined(earlier: seq<Turn>, resident: seq<Turn>, ids: set<string>, calls: CallIndex)
    ensures RelabelledTurns(JoinedTurns(earlier, resident), ids, calls)
         == JoinedTurns(RelabelledTurns(earlier, ids, calls), RelabelledTurns(resident, ids, calls))
  {
    if SplitsBoundaryTurn(earlier, resident) {
      var a, b := earlier[|earlier| - 1].rows, resident[0].rows;
      assert RelabelledRows(a + b, ids, calls) == RelabelledRows(a, ids, calls) + RelabelledRows(b, ids, calls);
    }
  }

  /** Relabelling after adding a row is adding the relabelled row. */
  lemma {:induction false} RelabelWithRecord(turns: seq<Turn>, row: Row, ids: set<string>, calls: CallIndex)
    ensures RelabelledTurns(WithRecord(turns, row), ids, calls)
         == WithRecord(RelabelledTurns(turns, ids, calls), RelabelledRow(row, ids, calls))
  {
    var relabelled := RelabelledRow(row, ids, calls);
    if StartsTurn(row.record) {
      assert relabelled == row;
      assert RelabelledRows([], ids, calls) == [];
    } else if turns == [] {
      var turn := WithRow(NewTurn(None, row.record.ts), row);
      assert turn.rows == [row];
      assert WithRow(NewTurn(None, row.record.ts), relabelled).rows == [relabelled];
      assert RelabelledRows([row], ids, calls) == [relabelled];
      assert RelabelledTurns([turn], ids, calls) == [WithRow(NewTurn(None, row.record.ts), relabelled)];
    } else {
      var rows := turns[|turns| - 1].rows;
      assert RelabelledRows(rows + [row], ids, calls) == RelabelledRows(rows, ids, calls) + [relabelled];
    }
  }

  /** Relabelling the turns of a page turns their labels into those of the larger index. */
  lemma {:induction false} RelabelWithRecords(records: seq<Record>, c1: CallIndex, c2: CallIndex, ids: set<string>)
    requires forall r :: r in records ==> RelabelledRow(RowOf(r, c1), ids, c2) == RowOf(r, c2)
    ensures RelabelledTurns(WithRecords([], records, c1), ids, c2) == WithRecords([], records, c2)
  {
    if records != [] {
      var n := |records| - 1;
      RelabelWithRecords(records[..n], c1, c2, ids);
      RelabelWithRecord(WithRecords([], records[..n], c1), RowOf(records[n], c1), ids, c2);
    }
  }

  lemma {:induction false} PrependCounts(a: seq<Record>, b: seq<Record>)
    requires LooksBack(a, b)
    ensures ExactCounts(Prepended(Grouped(b), a).unresolved, a + b)
  {
    GroupedCounts(a);
    GroupedCounts(b);
    CallsOfConcat(a, b);
    NoneCountedAhead(a, b);
    forall id
      ensures References(a + b, id) == References(a, id) + References(b, id)
    {
      ReferencesConcat(a, b, id);
    }
  }

  lemma {:induction false} PrependLabels(a: seq<Record>, b: seq<Record>, ids: set<string>)
    requires Separable(a, b)
    requires ids == NewlyResolved(Grouped(b), Grouped(a))
    ensures forall r :: r in a ==> RelabelledRow(RowOf(r, CallsOf(a)), ids, CallsOf(a + b)) == RowOf(r, CallsOf(a + b))
    ensures forall r :: r in b ==> RelabelledRow(RowOf(r, CallsOf(b)), ids, CallsOf(a + b)) == RowOf(r, CallsOf(a + b))
  {
    GroupedCounts(a);
    GroupedCounts(b);
    CallsOfConcat(a, b);
    LaterCallsKeepLabels(a, b);
    forall r | r in b
      ensures RelabelledRow(RowOf(r, CallsOf(b)), ids, CallsOf(a + b)) == RowOf(r, CallsOf(a + b))
    {
      var id := ReferencedToolUseId(r);
      if id.Some? && id.value in CallsOf(a) {
        ReferencesPositive(b, id.value);
        assert id.value in CallsOf(b) || id.value in ids;
      }
    }
  }

  /** After a prepend the turns are those of the two pages joined, with the labels of both. */
  lemma {:induction false} PrependJoins(a: seq<Record>, b: seq<Record>)
    requires Separable(a, b)
    ensures
      var calls := CallsOf(a + b);
      && Prepended(Grouped(b), a).calls == calls
      && Prepended(Grouped(b), a).turns == JoinedTurns(WithRecords([], a, calls), WithRecords([], b, calls))
  {
    GroupedCounts(a);
    GroupedCounts(b);
    CallsOfConcat(a, b);
    var calls := CallsOf(a + b);
    var ids := NewlyResolved(Grouped(b), Grouped(a));
    PrependLabels(a, b, ids);
    RelabelWithRecords(a, CallsOf(a), calls, ids);
    RelabelWithRecords(b, CallsOf(b), calls, ids);
    RelabelJoined(Grouped(a).turns, Grouped(b).turns, ids, calls);
  }

  /** Two groupings that agree in all but start times. */
  ghost predicate SameView(v: View, g: View) {
    SameButStarts(v.turns, g.turns) && v.calls == g.calls && v.unresolved == g.unresolved
  }

  /** Prepending a page to the grouping of what follows it is grouping both at once, but for start
      times, as long as neither looks up a call it should not. */
  lemma {:induction false} PrependIsGroupingButStarts(a: seq<Record>, b: seq<Record>)
    requires Separable(a, b)
    ensures SameView(Prepended(Grouped(b), a), Grouped(a + b))
  {
    GroupedCounts(a + b);
    var calls := CallsOf(a + b);
    PrependJoins(a, b);
    WithRecordsConcat([], a, b, calls);
    NewTurnsAreWhole(a, calls);
    JoinIsGrouping(WithRecords([], a, calls), b, calls);
    PrependCounts(a, b);
    ExactCountsUnique(Prepended(Grouped(b), a).unresolved, Grouped(a + b).unresolved, a + b);
  }

  /** The boundary between two pages cuts no turn, or cuts one that starts no later than its second
      part. */
  predicate StartsMeet(a: seq<Record>, b: seq<Record>) {
    a == [] || b == [] || StartsTurn(b[0]) || LastStart(a) <= b[0].ts
  }

  /** And it is grouping both at once, start times included, if and only if the clocks meet. */
  lemma {:induction false} PrependIsGrouping(a: seq<Record>, b: seq<Record>)
    requires Separable(a, b)
    ensures Prepended(Grouped(b), a) == Grouped(a + b) <==> StartsMeet(a, b)
  {
    GroupedCounts(a + b);
    var calls := CallsOf(a + b);
    PrependJoins(a, b);
    PrependIsGroupingButStarts(a, b);
    WithRecordsConcat([], a, b, calls);
    if !StartsMeet(a, b) {
      JoinMovesStart(a, b, calls);
    } else {
      JoinMeets(a, b, calls);
    }
  }

  lemma {:induction false} JoinMeets(a: seq<Record>, b: seq<Record>, calls: CallIndex)
    requires StartsMeet(a, b)
    ensures
      var earlier := WithRecords([], a, calls);
      JoinedTurns(earlier, WithRecords([], b, calls)) == WithRecords(earlier, b, calls)
  {
    NewTurnsAreWhole(a, calls);
    if a != [] && b != [] && StartsTurn(b[0]) {
      TurnStartsAnyway(WithRecords([], a, calls), b, calls);
    } else {
      if a != [] {
        LastTurnStarts(a, calls);
      }
      RecordsAfterTurns(WithRecords([], a, calls), b, calls);
    }
  }

  /** Records that begin with the start of a turn leave the turns before them alone. */
  lemma {:induction false} TurnStartsAnyway(earlier: seq<Turn>, records: seq<Record>, calls: CallIndex)
    requires records != [] && StartsTurn(records[0])
    ensures JoinedTurns(earlier, WithRecords([], records, calls)) == WithRecords(earlier, records, calls)
  {
    FirstTurnStarts(records, calls);
    var n := |records| - 1;
    if n > 0 {
      TurnStartsAnyway(earlier, records[..n], calls);
      FirstTurnStarts(records[..n], calls);
    } else {
      assert records[..n] == [];
    }
  }

  // ----- any mix of pages -----

  datatype Page = AtEnd(records: seq<Record>) | InFront(records: seq<Record>)

  /** The slice of the log that a run of contiguous pages ends up covering. */
  function Covered(pages: seq<Page>): seq<Record> {
    if pages == [] then []
    else
      var before := Covered(pages[..|pages| - 1]);
      match pages[|pages| - 1]
      case AtEnd(records) => before + records
      case InFront(records) => records + before
  }

  function Assembled(pages: seq<Page>): View {
    if pages == [] then EMPTY
    else
      var before := Assembled(pages[..|pages| - 1]);
      match pages[|pages| - 1]
      case AtEnd(records) => Appended(before, records)
      case InFront(records) => Prepended(before, records)
  }

  /** The grouping of some records but for start times, each of which is that of a record of its turn
      and no later than the turn's first. */
  ghost predicate IsGroupingOf(v: View, records: seq<Record>) {
    SameView(v, Grouped(records)) && StartsFit(v.turns)
  }

  lemma {:induction false} GroupedIsGrouping(records: seq<Record>)
    ensures IsGroupingOf(Grouped(records), records)
  {
    GroupedStartsFit(records, EMPTY.calls + CallsOf(records));
  }

  lemma {:induction false} AppendKeepsGrouping(v: View, a: seq<Record>, b: seq<Record>)
    requires IsGroupingOf(v, a) && LooksBack(a, b)
    ensures IsGroupingOf(Appended(v, b), a + b)
  {
    AppendIsGrouping(a, b);
    AppendKeepsSame(v.turns, Grouped(a).turns, b, v.calls + CallsOf(b));
    AppendKeepsStarts(v.turns, b, v.calls + CallsOf(b));
  }

  lemma {:induction false} PrependKeepsGrouping(v: View, a: seq<Record>, b: seq<Record>)
    requires IsGroupingOf(v, b) && Separable(a, b)
    ensures IsGroupingOf(Prepended(v, a), a + b)
  {
    PrependIsGroupingButStarts(a, b);
    var earlier, ids := Grouped(a), NewlyResolved(v, Grouped(a));
    GroupedIsGrouping(a);
    JoinKeepsSame(earlier.turns, earlier.turns, v.turns, Grouped(b).turns);
    RelabelKeepsSame(JoinedTurns(earlier.turns, v.turns), JoinedTurns(earlier.turns, Grouped(b).turns), ids,
                     earlier.calls + v.calls);
    JoinKeepsStarts(earlier.turns, v.turns);
    RelabelKeepsStarts(JoinedTurns(earlier.turns, v.turns), ids, earlier.calls + v.calls);
  }

  /** Whatever the clock says: heads, rows, labels, metrics, index and counts are as if the covered slice
      had arrived in one page, and every start time is within its turn. */
  lemma {:induction false} PagesGroup(pages: seq<Page>)
    requires Resolvable(Covered(pages))
    ensures IsGroupingOf(Assembled(pages), Covered(pages))
  {
    if pages != [] {
      var front := pages[..|pages| - 1];
      match pages[|pages| - 1]
      case AtEnd(records) =>
        ResolvableParts(Covered(front), records);
        PagesGroup(front);
        AppendKeepsGrouping(Assembled(front), Covered(front), records);
      case InFront(records) =>
        ResolvableParts(records, Covered(front));
        PagesGroup(front);
        PrependKeepsGrouping(Assembled(front), records, Covered(front));
    }
  }
}
