/**
 The grouping object: the operations of the trace window done in place, each tied to the function
 that says what it leaves behind.
 */
module TraceGroupings {
  import opened TraceRecords
  import opened TraceStoreCore
  import opened Wrappers

  lemma {:induction false} RelabelNothing(turns: seq<Turn>, calls: CallIndex)
    ensures RelabelledTurns(turns, {}, calls) == turns
  {
    forall i | 0 <= i < |turns|
      ensures RelabelledTurns(turns, {}, calls)[i] == turns[i]
    {
      assert RelabelledRows(turns[i].rows, {}, calls) == turns[i].rows;
    }
  }

  lemma {:induction false} PrefixStep<T>(s: seq<T>, i: nat)
    requires i < |s|
    ensures s[..i + 1] == s[..i] + [s[i]]
    ensures s[..i + 1][..|s[..i + 1]| - 1] == s[..i] && s[..i + 1][i] == s[i]
  {
  }

  class TraceGrouping {
    var turns: seq<Turn>
    var toolCallByUseId: CallIndex
    var unresolvedToolUseCounts: Counts

    function Value(): View
      reads this
    {
      View(turns, toolCallByUseId, unresolvedToolUseCounts)
    }

    constructor ()
      ensures Value() == EMPTY
    {
      turns, toolCallByUseId, unresolvedToolUseCounts := [], map[], map[];
    }

    method IndexToolCalls(records: seq<Record>)
      modifies this`toolCallByUseId
      ensures toolCallByUseId == old(toolCallByUseId) + CallsOf(records)
    {
      var i := 0;
      assert toolCallByUseId == old(toolCallByUseId) + CallsOf(records[..0]);
      while i < |records|
        invariant 0 <= i <= |records|
        invariant toolCallByUseId == old(toolCallByUseId) + CallsOf(records[..i])
      {
        PrefixStep(records, i);
        if records[i].body.ToolCall? {
          toolCallByUseId := toolCallByUseId[records[i].body.toolUseId := records[i]];
        }
        i := i + 1;
      }
      assert records[..i] == records;
    }

    /** Puts one row where it belongs, and into the delta that is open for its turn. */
    method AppendRow(row: Row, appends: seq<TurnAppend>) returns (extended: seq<TurnAppend>)
      modifies this`turns
      ensures turns == WithRecord(old(turns), row)
      ensures extended == WithDelta(appends, old(turns), row)
    {
      extended := appends;
      if StartsTurn(row.record) {
        turns := turns + [NewTurn(Some(row), row.record.ts)];
        extended := extended + [TurnAppend(|turns| - 1, true, Some(row), [])];
        return;
      }
      assert [] + [row] == [row];
      if turns == [] {
        turns := [NewTurn(None, row.record.ts)];
        extended := extended + [TurnAppend(0, true, None, [])];
      }
      var turnIndex := |turns| - 1;
      turns := turns[turnIndex := WithRow(turns[turnIndex], row)];
      if extended != [] && extended[|extended| - 1].turnIndex == turnIndex {
        var open := extended[|extended| - 1];
        extended := extended[|extended| - 1 := open.(rows := open.rows + [row])];
        return;
      }
      extended := extended + [TurnAppend(turnIndex, false, None, [row])];
    }

    method AppendTraceRecords(records: seq<Record>) returns (appends: seq<TurnAppend>)
      modifies this
      ensures Value() == Appended(old(Value()), records)
      ensures appends == Deltas(old(turns), records, toolCallByUseId)
    {
      IndexToolCalls(records);
      appends := [];
      var i := 0;
      assert records[..0] == [];
      while i < |records|
        invariant 0 <= i <= |records|
        invariant toolCallByUseId == old(toolCallByUseId) + CallsOf(records)
        invariant turns == WithRecords(old(turns), records[..i], toolCallByUseId)
        invariant unresolvedToolUseCounts == RetainRecords(old(unresolvedToolUseCounts), records[..i], toolCallByUseId)
        invariant appends == Deltas(old(turns), records[..i], toolCallByUseId)
      {
        PrefixStep(records, i);
        var unresolvedId := UnresolvedId(records[i], toolCallByUseId);
        if unresolvedId.Some? {
          unresolvedToolUseCounts := Retain(unresolvedToolUseCounts, unresolvedId.value, 1);
        }
        appends := AppendRow(RowOf(records[i], toolCallByUseId), appends);
        i := i + 1;
      }
      assert records[..i] == records;
    }

    method RelabelRowsOfToolUseIds(ids: set<string>)
      modifies this`turns
      ensures turns == RelabelledTurns(old(turns), ids, toolCallByUseId)
    {
      if ids == {} {
        RelabelNothing(turns, toolCallByUseId);
        return;
      }
      var t := 0;
      while t < |turns|
        invariant 0 <= t <= |turns| == |old(turns)|
        invariant forall i :: 0 <= i < t ==> turns[i] == RelabelledTurns(old(turns), ids, toolCallByUseId)[i]
        invariant forall i :: t <= i < |turns| ==> turns[i] == old(turns)[i]
      {
        var rows := turns[t].rows;
        var rowIndex := 0;
        while rowIndex < |rows|
          invariant 0 <= rowIndex <= |rows| == |turns[t].rows|
          invariant forall i :: 0 <= i < rowIndex ==> rows[i] == RelabelledRow(turns[t].rows[i], ids, toolCallByUseId)
          invariant forall i :: rowIndex <= i < |rows| ==> rows[i] == turns[t].rows[i]
        {
          var id := ReferencedToolUseId(rows[rowIndex].record);
          if id.Some? && id.value in ids {
            rows := rows[rowIndex := RowOf(rows[rowIndex].record, toolCallByUseId)];
          }
          rowIndex := rowIndex + 1;
        }
        assert rows == RelabelledRows(turns[t].rows, ids, toolCallByUseId);
        turns := turns[t := turns[t].(rows := rows)];
        t := t + 1;
      }
    }

    /** Takes over the calls of an earlier page that are not yet known; returns their ids. */
    method MergeEarlierCalls(earlier: CallIndex) returns (merged: set<string>)
      modifies this`toolCallByUseId
      ensures toolCallByUseId == earlier + old(toolCallByUseId)
      ensures merged == earlier.Keys - old(toolCallByUseId).Keys
    {
      var remaining := earlier.Keys;
      merged := {};
      while remaining != {}
        invariant remaining <= earlier.Keys
        invariant merged == earlier.Keys - remaining - old(toolCallByUseId).Keys
        invariant toolCallByUseId.Keys == old(toolCallByUseId).Keys + merged
        invariant forall id :: id in toolCallByUseId ==>
                    toolCallByUseId[id]
                    == (if id in old(toolCallByUseId) then old(toolCallByUseId)[id] else earlier[id])
      {
        var id :| id in remaining;
        remaining := remaining - {id};
        if id in toolCallByUseId { continue; }
        toolCallByUseId := toolCallByUseId[id := earlier[id]];
        merged := merged + {id};
      }
    }

    /** Drops the counts of ids that just became known; returns those that had one. */
    method ResolveCounts(merged: set<string>) returns (resolved: set<string>)
      modifies this`unresolvedToolUseCounts
      ensures resolved == merged * old(unresolvedToolUseCounts).Keys
      ensures unresolvedToolUseCounts == old(unresolvedToolUseCounts) - resolved
    {
      var remaining := merged;
      resolved := {};
      while remaining != {}
        invariant remaining <= merged
        invariant resolved == (merged - remaining) * old(unresolvedToolUseCounts).Keys
        invariant unresolvedToolUseCounts == old(unresolvedToolUseCounts) - resolved
      {
        var id :| id in remaining;
        remaining := remaining - {id};
        if id !in unresolvedToolUseCounts { continue; }
        unresolvedToolUseCounts := unresolvedToolUseCounts - {id};
        resolved := resolved + {id};
      }
    }

    method MergeEarlierCounts(earlier: Counts)
      modifies this`unresolvedToolUseCounts
      ensures unresolvedToolUseCounts == MergedCounts(old(unresolvedToolUseCounts), earlier, toolCallByUseId)
    {
      var remaining := earlier.Keys;
      ghost var before := unresolvedToolUseCounts;
      while remaining != {}
        invariant remaining <= earlier.Keys
        invariant unresolvedToolUseCounts.Keys == before.Keys + (earlier.Keys - remaining - toolCallByUseId.Keys)
        invariant forall id :: id in unresolvedToolUseCounts ==>
                    unresolvedToolUseCounts[id] == CountOf(before, id)
                      + (if id in toolCallByUseId || id in remaining then 0 else CountOf(earlier, id))
      {
        var id :| id in remaining;
        remaining := remaining - {id};
        if id in toolCallByUseId { continue; }
        unresolvedToolUseCounts := Retain(unresolvedToolUseCounts, id, earlier[id]);
      }
      assert unresolvedToolUseCounts.Keys == MergedCounts(before, earlier, toolCallByUseId).Keys;
    }

    /** Puts an earlier page's turns in front; the last of them is merged into the first resident
        turn when that one has no head. */
    method PutInFront(earlierTurns: seq<Turn>)
      returns (newTurnCount: nat, mergedHead: Option<Row>, mergedRows: seq<Row>)
      modifies this`turns
      ensures turns == JoinedTurns(earlierTurns, old(turns))
      ensures newTurnCount == |earlierTurns| - (if SplitsBoundaryTurn(earlierTurns, old(turns)) then 1 else 0)
      ensures mergedHead == if newTurnCount < |earlierTurns| then earlierTurns[newTurnCount].head else None
      ensures mergedRows == if newTurnCount < |earlierTurns| then earlierTurns[newTurnCount].rows else []
    {
      var isBoundaryTurnSplit := earlierTurns != [] && turns != [] && turns[0].head.None?;
      newTurnCount, mergedHead, mergedRows := |earlierTurns|, None, [];
      if isBoundaryTurnSplit {
        newTurnCount := newTurnCount - 1;
        var last := earlierTurns[newTurnCount];
        mergedHead, mergedRows := last.head, last.rows;
        var first := turns[0];
        if last.startedAt < first.startedAt {
          first := first.(startedAt := last.startedAt);
        }
        first := first.(head := mergedHead, rows := mergedRows + first.rows,
                        metrics := PlusMetrics(last.metrics, first.metrics));
        turns := turns[0 := first];
      }
      turns := earlierTurns[..newTurnCount] + turns;
    }

    method PrependTraceRecords(records: seq<Record>) returns (prepend: Prepend)
      modifies this
      ensures Value() == Prepended(old(Value()), records)
      ensures prepend == PrependReport(old(Value()), records)
    {
      var earlier := new TraceGrouping();
      var _ := earlier.AppendTraceRecords(records);
      var merged := MergeEarlierCalls(earlier.toolCallByUseId);
      var resolved := ResolveCounts(merged);
      MergeEarlierCounts(earlier.unresolvedToolUseCounts);
      var newTurnCount, mergedHead, mergedRows := PutInFront(earlier.turns);
      RelabelRowsOfToolUseIds(resolved);
      prepend := Prepend(turns[..newTurnCount], mergedHead, mergedRows, resolved != {});
      assert prepend.newTurns == RelabelledTurns(earlier.turns[..newTurnCount], resolved, toolCallByUseId);
      assert newTurnCount == |earlier.turns| ==> earlier.turns[..newTurnCount] == earlier.turns;
    }

    method CountResidentRows() returns (count: nat)
      ensures count == ResidentRowCount(turns)
    {
      count := 0;
      var t := 0;
      while t < |turns|
        invariant 0 <= t <= |turns|
        invariant count + ResidentRowCount(turns[t..]) == ResidentRowCount(turns)
      {
        assert turns[t..][1..] == turns[t + 1..];
        count := count + TurnRowCount(turns[t]);
        t := t + 1;
      }
    }

    method ForgetRowToolCalls(rows: seq<Row>)
      modifies this`toolCallByUseId, this`unresolvedToolUseCounts
      ensures toolCallByUseId == ForgottenCalls(old(toolCallByUseId), rows)
      ensures unresolvedToolUseCounts == ReleasedCounts(old(unresolvedToolUseCounts), rows)
    {
      var i := 0;
      assert rows[..0] == [];
      while i < |rows|
        invariant 0 <= i <= |rows|
        invariant toolCallByUseId == ForgottenCalls(old(toolCallByUseId), rows[..i])
        invariant unresolvedToolUseCounts == ReleasedCounts(old(unresolvedToolUseCounts), rows[..i])
      {
        PrefixStep(rows, i);
        var record := rows[i].record;
        i := i + 1;
        if record.body.ToolCall? {
          toolCallByUseId := toolCallByUseId - {record.body.toolUseId};
          continue;
        }
        var id := ReferencedToolUseId(record);
        if id.Some? {
          unresolvedToolUseCounts := Release(unresolvedToolUseCounts, id.value);
        }
      }
      assert rows[..i] == rows;
    }

    method DropOldestRowsOfFirstTurn(excess: int) returns (dropped: nat)
      modifies this
      ensures dropped == CutRows(old(turns), excess)
      ensures Value() == WithoutOldestRows(old(Value()), dropped)
    {
      if turns == [] { return 0; }
      var oldest := turns[0];
      dropped := if excess <= 0 then 0 else if excess < |oldest.rows| then excess else |oldest.rows|;
      if dropped <= 0 { return; }
      var droppedRows := oldest.rows[..dropped];
      ForgetRowToolCalls(droppedRows);
      var metrics := oldest.metrics;
      var i := 0;
      assert droppedRows[..0] == [];
      while i < |droppedRows|
        invariant 0 <= i <= |droppedRows|
        invariant metrics == UncountedRows(oldest.metrics, droppedRows[..i])
        modifies {}
      {
        PrefixStep(droppedRows, i);
        metrics := Counted(metrics, droppedRows[i], -1);
        i := i + 1;
      }
      assert droppedRows[..i] == droppedRows;
      turns := turns[0 := oldest.(rows := oldest.rows[dropped..], hasTrimmedRows := true, metrics := metrics)];
    }

    method TrimTraceGrouping(maxResidentRows: int) returns (trim: Trim)
      modifies this
      ensures trim == TrimOf(old(turns), maxResidentRows)
      ensures Value() == Trimmed(old(Value()), maxResidentRows)
    {
      var residentRowCount := CountResidentRows();
      var droppedTurnCount := 0;
      ghost var before := Value();
      DroppedTurnsInRange(turns, maxResidentRows);
      while residentRowCount > maxResidentRows && droppedTurnCount < |turns| - 1
        invariant turns == before.turns
        invariant 0 <= droppedTurnCount <= |turns| && (turns != [] ==> droppedTurnCount < |turns|)
        invariant residentRowCount == ResidentRowCount(turns[droppedTurnCount..])
        invariant View(turns[droppedTurnCount..], toolCallByUseId, unresolvedToolUseCounts)
               == WithoutOldestTurns(before, droppedTurnCount)
        invariant droppedTurnCount + DroppedTurns(turns[droppedTurnCount..], maxResidentRows)
               == DroppedTurns(turns, maxResidentRows)
      {
        var rest := turns[droppedTurnCount..];
        assert rest[1..] == turns[droppedTurnCount + 1..];
        residentRowCount := residentRowCount - TurnRowCount(turns[droppedTurnCount]);
        ForgetRowToolCalls(TurnRows(turns[droppedTurnCount]));
        droppedTurnCount := droppedTurnCount + 1;
      }
      if droppedTurnCount > 0 {
        turns := turns[droppedTurnCount..];
      }
      assert turns == before.turns[droppedTurnCount..];
      if residentRowCount <= maxResidentRows {
        return Trim(droppedTurnCount, 0);
      }
      var droppedRowCount := DropOldestRowsOfFirstTurn(residentRowCount - maxResidentRows);
      trim := Trim(droppedTurnCount, droppedRowCount);
    }
  }
}
