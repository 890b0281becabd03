/**
 What every grouping keeps, whatever mix of pages and trims built it: each turn's metrics are a
 recount of its rows, and the tool-call index holds exactly the resident calls.
 */
module TraceAgreement {
  import opened TraceRecords
  import opened TraceStoreCore
  import opened TraceConfluence
  import opened Wrappers

  // ----- metrics -----

  /** The sum of a figure over rows. */
  function Sum(rows: seq<Row>, figure: Row -> nat): nat {
    if rows == [] then 0 else figure(rows[0]) + Sum(rows[1..], figure)
  }

  function CallFigure(row: Row): nat {
    if row.record.body.ToolCall? then 1 else 0
  }

  function ErrorFigure(row: Row): nat {
    match row.record.body
    case ToolResult(_, _, isError) => if isError then 1 else 0
    case _ => 0
  }

  function ByteFigure(row: Row): nat {
    match row.record.body
    case ToolResult(_, contentBytes, _) => contentBytes
    case _ => 0
  }

  function Recount(rows: seq<Row>): Metrics {
    Metrics(|rows|, Sum(rows, CallFigure), Sum(rows, ErrorFigure), Sum(rows, ByteFigure))
  }

  ghost predicate MetricsAgree(turns: seq<Turn>) {
    forall turn :: turn in turns ==> turn.metrics == Recount(TurnRows(turn))
  }

  lemma {:induction false} SumConcat(a: seq<Row>, b: seq<Row>, figure: Row -> nat)
    ensures Sum(a + b, figure) == Sum(a, figure) + Sum(b, figure)
  {
    if a == [] {
      assert a + b == b;
    } else {
      assert (a + b)[1..] == a[1..] + b;
      SumConcat(a[1..], b, figure);
    }
  }

  /** All sums of the two parts are known to add up; so do the recounts. */
  lemma {:induction false} RecountAddsUp(whole: seq<Row>, a: seq<Row>, b: seq<Row>)
    requires |whole| == |a| + |b|
    requires Sum(whole, CallFigure) == Sum(a, CallFigure) + Sum(b, CallFigure)
    requires Sum(whole, ErrorFigure) == Sum(a, ErrorFigure) + Sum(b, ErrorFigure)
    requires Sum(whole, ByteFigure) == Sum(a, ByteFigure) + Sum(b, ByteFigure)
    ensures Recount(whole) == PlusMetrics(Recount(a), Recount(b))
  {
  }

  lemma {:induction false} RecountConcat(a: seq<Row>, b: seq<Row>)
    ensures Recount(a + b) == PlusMetrics(Recount(a), Recount(b))
  {
    SumConcat(a, b, CallFigure);
    SumConcat(a, b, ErrorFigure);
    SumConcat(a, b, ByteFigure);
    RecountAddsUp(a + b, a, b);
  }

  lemma {:induction false} SumSingle(row: Row, figure: Row -> nat)
    ensures Sum([row], figure) == figure(row)
  {
    assert [row][1..] == [];
  }

  lemma {:induction false} RecountSingle(row: Row)
    ensures Recount([row]) == Counted(NO_METRICS, row, 1)
  {
    SumSingle(row, CallFigure);
    SumSingle(row, ErrorFigure);
    SumSingle(row, ByteFigure);
  }

  lemma {:induction false} RecountRow(rows: seq<Row>, row: Row)
    ensures Recount(rows + [row]) == Counted(Recount(rows), row, 1)
  {
    RecountConcat(rows, [row]);
    RecountSingle(row);
  }

  lemma {:induction false} UncountRows(m: Metrics, dropped: seq<Row>)
    ensures PlusMetrics(UncountedRows(m, dropped), Recount(dropped)) == m
  {
    if dropped != [] {
      var n := |dropped| - 1;
      UncountRows(m, dropped[..n]);
      RecountRow(dropped[..n], dropped[n]);
      assert dropped[..n] + [dropped[n]] == dropped;
    }
  }

  lemma {:induction false} AddRowKeepsMetrics(turns: seq<Turn>, row: Row)
    requires MetricsAgree(turns)
    ensures MetricsAgree(WithRecord(turns, row))
  {
    RecountRow([], row);
    assert [] + [row] == [row];
    if StartsTurn(row.record) {
      assert TurnRows(NewTurn(Some(row), row.record.ts)) == [row];
    } else if turns == [] {
      assert TurnRows(WithRow(NewTurn(None, row.record.ts), row)) == [row];
    } else {
      var last := turns[|turns| - 1];
      RecountRow(TurnRows(last), row);
      assert TurnRows(WithRow(last, row)) == TurnRows(last) + [row];
    }
  }

  lemma {:induction false} AppendKeepsMetrics(turns: seq<Turn>, records: seq<Record>, calls: CallIndex)
    requires MetricsAgree(turns)
    ensures MetricsAgree(WithRecords(turns, records, calls))
  {
    if records != [] {
      var n := |records| - 1;
      AppendKeepsMetrics(turns, records[..n], calls);
      AddRowKeepsMetrics(WithRecords(turns, records[..n], calls), RowOf(records[n], calls));
    }
  }

  /** A recount looks only at the records of the rows. */
  lemma {:induction false} RecountSameRecords(a: seq<Row>, b: seq<Row>)
    requires |a| == |b| && forall i :: 0 <= i < |a| ==> a[i].record == b[i].record
    ensures Recount(a) == Recount(b)
  {
    if a != [] {
      RecountSameRecords(a[1..], b[1..]);
    }
  }

  lemma {:induction false} RelabelKeepsMetrics(turns: seq<Turn>, ids: set<string>, calls: CallIndex)
    requires MetricsAgree(turns)
    ensures MetricsAgree(RelabelledTurns(turns, ids, calls))
  {
    var relabelled := RelabelledTurns(turns, ids, calls);
    forall i | 0 <= i < |turns|
      ensures relabelled[i].metrics == Recount(TurnRows(relabelled[i]))
    {
      RecountSameRecords(TurnRows(turns[i]), TurnRows(relabelled[i]));
    }
  }

  lemma {:induction false} PrependKeepsMetrics(g: View, records: seq<Record>)
    requires MetricsAgree(g.turns)
    ensures MetricsAgree(Prepended(g, records).turns)
  {
    var earlier := Grouped(records).turns;
    AppendKeepsMetrics([], records, EMPTY.calls + CallsOf(records));
    if SplitsBoundaryTurn(earlier, g.turns) {
      var last := earlier[|earlier| - 1];
      RecountConcat(TurnRows(last), TurnRows(g.turns[0]));
      assert TurnRows(Joined(last, g.turns[0])) == TurnRows(last) + TurnRows(g.turns[0]);
    }
    assert MetricsAgree(JoinedTurns(earlier, g.turns));
    RelabelKeepsMetrics(JoinedTurns(earlier, g.turns), NewlyResolved(g, Grouped(records)),
        Grouped(records).calls + g.calls);
  }

  lemma {:induction false} DropTurnsKeepsTurns(g: View, count: nat)
    requires count <= |g.turns|
    ensures WithoutOldestTurns(g, count).turns == g.turns[count..]
  {
  }

  lemma {:induction false} CutKeepsMetrics(g: View, count: nat)
    requires 0 < count ==> g.turns != [] && count <= |g.turns[0].rows|
    requires MetricsAgree(g.turns)
    ensures MetricsAgree(WithoutOldestRows(g, count).turns)
  {
    if count > 0 {
      var turn := g.turns[0];
      var dropped, kept := turn.rows[..count], turn.rows[count..];
      var head := if turn.head.Some? then [turn.head.value] else [];
      assert TurnRows(turn) == head + turn.rows && turn.rows == dropped + kept;
      RecountConcat(head, turn.rows);
      RecountConcat(dropped, kept);
      RecountConcat(head, kept);
      UncountRows(turn.metrics, dropped);
      assert TurnRows(WithoutOldestRows(g, count).turns[0]) == head + kept;
    }
  }

  lemma {:induction false} TrimKeepsMetrics(g: View, cap: int)
    requires MetricsAgree(g.turns)
    ensures MetricsAgree(Trimmed(g, cap).turns)
  {
    DroppedTurnsInRange(g.turns, cap);
    var trim := TrimOf(g.turns, cap);
    DropTurnsKeepsTurns(g, trim.droppedTurnCount);
    CutKeepsMetrics(WithoutOldestTurns(g, trim.droppedTurnCount), trim.droppedRowCount);
  }

  // ----- the records a grouping shows -----

  /** Every resident record, oldest first. */
  function Resident(turns: seq<Turn>): seq<Record> {
    if turns == [] then [] else RecordsOfRows(TurnRows(turns[0])) + Resident(turns[1..])
  }

  lemma {:induction false} ResidentConcat(a: seq<Turn>, b: seq<Turn>)
    ensures Resident(a + b) == Resident(a) + Resident(b)
  {
    if a == [] {
      assert a + b == b;
    } else {
      assert (a + b)[1..] == a[1..] + b;
      ResidentConcat(a[1..], b);
    }
  }

  lemma {:induction false} ResidentSingle(turn: Turn)
    ensures Resident([turn]) == RecordsOfRows(TurnRows(turn))
  {
    assert Resident([turn][1..]) == [];
  }

  lemma {:induction false} AddRowAddsRecord(turns: seq<Turn>, row: Row)
    ensures Resident(WithRecord(turns, row)) == Resident(turns) + [row.record]
  {
    if StartsTurn(row.record) {
      var turn := NewTurn(Some(row), row.record.ts);
      ResidentConcat(turns, [turn]);
      ResidentSingle(turn);
      assert TurnRows(turn) == [row];
    } else if turns == [] {
      var turn := WithRow(NewTurn(None, row.record.ts), row);
      ResidentSingle(turn);
      assert TurnRows(turn) == [row];
    } else {
      var n := |turns| - 1;
      var turn := WithRow(turns[n], row);
      ResidentConcat(turns[..n], [turns[n]]);
      ResidentConcat(turns[..n], [turn]);
      ResidentSingle(turns[n]);
      ResidentSingle(turn);
      assert turns == turns[..n] + [turns[n]];
      assert WithRecord(turns, row) == turns[..n] + [turn];
      assert TurnRows(turn) == TurnRows(turns[n]) + [row];
    }
  }

  /** A page at the end adds its records after the resident ones, dropping and repeating none. */
  lemma {:induction false} AppendAddsRecords(turns: seq<Turn>, records: seq<Record>, calls: CallIndex)
    ensures Resident(WithRecords(turns, records, calls)) == Resident(turns) + records
  {
    if records == [] {
      assert Resident(turns) + records == Resident(turns);
    } else {
      var n := |records| - 1;
      AppendAddsRecords(turns, records[..n], calls);
      AddRowAddsRecord(WithRecords(turns, records[..n], calls), RowOf(records[n], calls));
      assert records[..n] + [records[n]] == records;
    }
  }

  // ----- the tool-call index -----

  ghost predicate IndexAgrees(g: View) {
    g.calls == CallsOf(Resident(g.turns))
  }

  ghost predicate HeadsStartTurns(turns: seq<Turn>) {
    forall turn :: turn in turns && turn.head.Some? ==> StartsTurn(turn.head.value.record)
  }

  lemma {:induction false} AppendKeepsIndex(g: View, records: seq<Record>)
    requires IndexAgrees(g)
    ensures IndexAgrees(Appended(g, records))
  {
    AppendAddsRecords(g.turns, records, g.calls + CallsOf(records));
    CallsOfConcat(Resident(g.turns), records);
  }

  lemma {:induction false} JoinKeepsResident(earlier: seq<Turn>, resident: seq<Turn>)
    ensures Resident(JoinedTurns(earlier, resident)) == Resident(earlier) + Resident(resident)
  {
    if SplitsBoundaryTurn(earlier, resident) {
      var n := |earlier| - 1;
      var joined := Joined(earlier[n], resident[0]);
      ResidentConcat(earlier[..n], [earlier[n]]);
      ResidentConcat(earlier[..n], [joined]);
      ResidentConcat(earlier[..n] + [joined], resident[1..]);
      ResidentSingle(earlier[n]);
      ResidentSingle(joined);
      assert earlier[..n] + [earlier[n]] == earlier;
      assert TurnRows(joined) == TurnRows(earlier[n]) + TurnRows(resident[0]);
      RecordsOfRowsConcat(TurnRows(earlier[n]), TurnRows(resident[0]));
    } else {
      ResidentConcat(earlier, resident);
    }
  }

  lemma {:induction false} RelabelKeepsResident(turns: seq<Turn>, ids: set<string>, calls: CallIndex)
    ensures Resident(RelabelledTurns(turns, ids, calls)) == Resident(turns)
  {
    if turns != [] {
      RelabelKeepsResident(turns[1..], ids, calls);
      var relabelled := RelabelledTurns(turns, ids, calls);
      assert relabelled[1..] == RelabelledTurns(turns[1..], ids, calls);
      assert RecordsOfRows(TurnRows(relabelled[0])) == RecordsOfRows(TurnRows(turns[0]));
    }
  }

  /** A page in front puts its records before the resident ones, dropping and repeating none. */
  lemma {:induction false} PrependAddsRecords(g: View, records: seq<Record>)
    ensures Resident(Prepended(g, records).turns) == records + Resident(g.turns)
  {
    var earlier := Grouped(records);
    AppendAddsRecords([], records, EMPTY.calls + CallsOf(records));
    JoinKeepsResident(earlier.turns, g.turns);
    RelabelKeepsResident(JoinedTurns(earlier.turns, g.turns), NewlyResolved(g, earlier), earlier.calls + g.calls);
  }

  lemma {:induction false} PrependKeepsIndex(g: View, records: seq<Record>)
    requires IndexAgrees(g)
    ensures IndexAgrees(Prepended(g, records))
  {
    PrependAddsRecords(g, records);
    GroupedCounts(records);
    CallsOfConcat(records, Resident(g.turns));
  }

  lemma {:induction false} HeadsStartAfterAppend(turns: seq<Turn>, records: seq<Record>, calls: CallIndex)
    requires HeadsStartTurns(turns)
    ensures HeadsStartTurns(WithRecords(turns, records, calls))
  {
    if records != [] {
      HeadsStartAfterAppend(turns, records[..|records| - 1], calls);
    }
  }

  lemma {:induction false} ForgottenCallsExact(calls: CallIndex, rows: seq<Row>)
    ensures forall id :: id in ForgottenCalls(calls, rows) <==>
              id in calls && forall row :: row in rows ==> !IsCallOf(row.record, id)
    ensures forall id :: id in ForgottenCalls(calls, rows) ==> ForgottenCalls(calls, rows)[id] == calls[id]
  {
    if rows != [] {
      var n := |rows| - 1;
      ForgottenCallsExact(calls, rows[..n]);
      forall id
        ensures (forall row :: row in rows ==> !IsCallOf(row.record, id)) <==>
                  (forall row :: row in rows[..n] ==> !IsCallOf(row.record, id)) && !IsCallOf(rows[n].record, id)
      {
        assert forall row :: row in rows <==> row in rows[..n] || row == rows[n];
      }
    }
  }

  lemma {:induction false} ResidentAfterCut(g: View, count: nat)
    requires g.turns != [] && 0 < count <= |g.turns[0].rows|
    ensures
      var head := RecordsOfRows(TurnRows(g.turns[0].(rows := [])));
      var dropped := RecordsOfRows(g.turns[0].rows[..count]);
      var kept := RecordsOfRows(g.turns[0].rows[count..]) + Resident(g.turns[1..]);
      Resident(g.turns) == head + (dropped + kept) && Resident(WithoutOldestRows(g, count).turns) == head + kept
  {
    var turn := g.turns[0];
    var after := WithoutOldestRows(g, count).turns;
    var head := TurnRows(turn.(rows := []));
    var dropped, kept := turn.rows[..count], turn.rows[count..];
    assert TurnRows(turn) == head + (dropped + kept);
    assert TurnRows(after[0]) == head + kept;
    assert after[1..] == g.turns[1..];
    RecordsOfRowsConcat(head, dropped + kept);
    RecordsOfRowsConcat(dropped, kept);
    RecordsOfRowsConcat(head, kept);
  }

  // ----- a grouping built from scratch -----

  /** The grouping of a slice: all its records in order, recounted metrics, the exact index, and the
      rows that refer to each missing call counted exactly. */
  lemma {:induction false} GroupedAgrees(records: seq<Record>)
    ensures Resident(Grouped(records).turns) == records
    ensures MetricsAgree(Grouped(records).turns)
    ensures IndexAgrees(Grouped(records)) && HeadsStartTurns(Grouped(records).turns)
    ensures ExactCounts(Grouped(records).unresolved, records)
  {
    var calls := EMPTY.calls + CallsOf(records);
    AppendAddsRecords([], records, calls);
    AppendKeepsMetrics([], records, calls);
    HeadsStartAfterAppend([], records, calls);
    GroupedCounts(records);
  }
}
