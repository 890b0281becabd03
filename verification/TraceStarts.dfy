/**
 When turns start. A turn that arrives in one page starts with its first record; one that arrives in
 several keeps the smallest start time its parts came with. So two groupings of the same records may
 differ in start times and in nothing else, and every start time is that of a record of its turn.
 */
module TraceStarts {
  import opened TraceRecords
  import opened TraceStoreCore
  import opened Wrappers

  // ----- the same but for start times -----

  predicate SameButStart(x: Turn, y: Turn) {
    x == y.(startedAt := x.startedAt)
  }

  ghost predicate SameButStarts(xs: seq<Turn>, ys: seq<Turn>) {
    |xs| == |ys| && forall i :: 0 <= i < |xs| ==> SameButStart(xs[i], ys[i])
  }

  lemma {:induction false} AddKeepsSame(xs: seq<Turn>, ys: seq<Turn>, row: Row)
    requires SameButStarts(xs, ys)
    ensures SameButStarts(WithRecord(xs, row), WithRecord(ys, row))
  {
  }

  lemma {:induction false} AppendKeepsSame(xs: seq<Turn>, ys: seq<Turn>, records: seq<Record>, calls: CallIndex)
    requires SameButStarts(xs, ys)
    ensures SameButStarts(WithRecords(xs, records, calls), WithRecords(ys, records, calls))
  {
    if records != [] {
      var n := |records| - 1;
      AppendKeepsSame(xs, ys, records[..n], calls);
      var row := RowOf(records[n], calls);
      AddKeepsSame(WithRecords(xs, records[..n], calls), WithRecords(ys, records[..n], calls), row);
    }
  }

  lemma {:induction false} JoinKeepsSame(xs1: seq<Turn>, ys1: seq<Turn>, xs2: seq<Turn>, ys2: seq<Turn>)
    requires SameButStarts(xs1, ys1) && SameButStarts(xs2, ys2)
    ensures SameButStarts(JoinedTurns(xs1, xs2), JoinedTurns(ys1, ys2))
  {
  }

  lemma {:induction false} RelabelKeepsSame(xs: seq<Turn>, ys: seq<Turn>, ids: set<string>, calls: CallIndex)
    requires SameButStarts(xs, ys)
    ensures SameButStarts(RelabelledTurns(xs, ids, calls), RelabelledTurns(ys, ids, calls))
  {
    var xs', ys' := RelabelledTurns(xs, ids, calls), RelabelledTurns(ys, ids, calls);
    forall i | 0 <= i < |xs|
      ensures SameButStart(xs'[i], ys'[i])
    {
      assert SameButStart(xs[i], ys[i]);
    }
  }

  // ----- start times within their turns -----

  /** The start time is that of one of the rows, and no later than that of the first. */
  ghost predicate StartWithin(start: int, rows: seq<Row>) {
    rows != [] && start <= rows[0].record.ts && exists i :: 0 <= i < |rows| && rows[i].record.ts == start
  }

  ghost predicate StartFits(turn: Turn) {
    StartWithin(turn.startedAt, TurnRows(turn))
  }

  ghost predicate StartsFit(turns: seq<Turn>) {
    forall turn :: turn in turns ==> StartFits(turn)
  }

  lemma {:induction false} MoreRowsFit(start: int, rows: seq<Row>, more: seq<Row>)
    requires StartWithin(start, rows)
    ensures StartWithin(start, rows + more)
  {
    var i :| 0 <= i < |rows| && rows[i].record.ts == start;
    assert (rows + more)[i] == rows[i];
  }

  lemma {:induction false} AddKeepsStarts(turns: seq<Turn>, row: Row)
    requires StartsFit(turns)
    ensures StartsFit(WithRecord(turns, row))
  {
    if StartsTurn(row.record) {
      assert TurnRows(NewTurn(Some(row), row.record.ts))[0] == row;
    } else if turns == [] {
      assert TurnRows(WithRow(NewTurn(None, row.record.ts), row))[0] == row;
    } else {
      var last := turns[|turns| - 1];
      assert StartFits(last);
      MoreRowsFit(last.startedAt, TurnRows(last), [row]);
      assert TurnRows(WithRow(last, row)) == TurnRows(last) + [row];
    }
  }

  lemma {:induction false} AppendKeepsStarts(turns: seq<Turn>, records: seq<Record>, calls: CallIndex)
    requires StartsFit(turns)
    ensures StartsFit(WithRecords(turns, records, calls))
  {
    if records != [] {
      var n := |records| - 1;
      AppendKeepsStarts(turns, records[..n], calls);
      AddKeepsStarts(WithRecords(turns, records[..n], calls), RowOf(records[n], calls));
    }
  }

  lemma {:induction false} JoinedFits(earlier: Turn, resident: Turn)
    requires StartFits(earlier) && StartFits(resident) && resident.head.None?
    ensures StartFits(Joined(earlier, resident))
  {
    var joined := Joined(earlier, resident);
    assert TurnRows(joined) == TurnRows(earlier) + TurnRows(resident);
    if joined.startedAt == earlier.startedAt {
      MoreRowsFit(earlier.startedAt, TurnRows(earlier), TurnRows(resident));
    } else {
      var i :| 0 <= i < |TurnRows(resident)| && TurnRows(resident)[i].record.ts == resident.startedAt;
      assert TurnRows(joined)[|TurnRows(earlier)| + i] == TurnRows(resident)[i];
    }
  }

  lemma {:induction false} JoinKeepsStarts(earlier: seq<Turn>, resident: seq<Turn>)
    requires StartsFit(earlier) && StartsFit(resident)
    ensures StartsFit(JoinedTurns(earlier, resident))
  {
    if SplitsBoundaryTurn(earlier, resident) {
      JoinedFits(earlier[|earlier| - 1], resident[0]);
    }
  }

  lemma {:induction false} RelabelKeepsStarts(turns: seq<Turn>, ids: set<string>, calls: CallIndex)
    requires StartsFit(turns)
    ensures StartsFit(RelabelledTurns(turns, ids, calls))
  {
    var relabelled := RelabelledTurns(turns, ids, calls);
    forall i | 0 <= i < |turns|
      ensures StartFits(relabelled[i])
    {
      var before, after := TurnRows(turns[i]), TurnRows(relabelled[i]);
      assert StartFits(turns[i]);
      assert |before| == |after| && forall k :: 0 <= k < |before| ==> after[k].record == before[k].record;
      var k :| 0 <= k < |before| && before[k].record.ts == turns[i].startedAt;
      assert after[k].record.ts == turns[i].startedAt;
    }
  }

  // ----- turns as runs of the log -----

  predicate FirstOfTurn(records: seq<Record>, i: nat) {
    i < |records| && (i == 0 || StartsTurn(records[i]))
  }

  predicate SameTurn(records: seq<Record>, i: nat, j: nat) {
    i <= j < |records| && forall k :: i < k <= j ==> !StartsTurn(records[k])
  }

  /** No record of a turn is older than the turn's first. */
  ghost predicate TurnsStartFirst(records: seq<Record>) {
    forall i: nat, j: nat :: FirstOfTurn(records, i) && SameTurn(records, i, j) ==> records[i].ts <= records[j].ts
  }

  /** The turn holds a run of the records, from the first of one turn on, and starts when that does. */
  ghost predicate IsRunOf(turn: Turn, records: seq<Record>, lo: nat, hi: nat) {
    && lo < hi <= |records| && FirstOfTurn(records, lo) && SameTurn(records, lo, hi - 1)
    && RecordsOfRows(TurnRows(turn)) == records[lo..hi]
    && turn.startedAt == records[lo].ts
  }

  lemma {:induction false} RunStays(turn: Turn, records: seq<Record>, r: Record, lo: nat, hi: nat)
    requires IsRunOf(turn, records, lo, hi)
    ensures IsRunOf(turn, records + [r], lo, hi)
  {
    assert (records + [r])[lo..hi] == records[lo..hi];
  }

  lemma {:induction false} RunGrows(turn: Turn, records: seq<Record>, row: Row, lo: nat)
    requires IsRunOf(turn, records, lo, |records|) && !StartsTurn(row.record)
    ensures IsRunOf(WithRow(turn, row), records + [row.record], lo, |records| + 1)
  {
    RecordsOfRowsConcat(TurnRows(turn), [row]);
    assert TurnRows(WithRow(turn, row)) == TurnRows(turn) + [row];
    assert (records + [row.record])[lo..] == records[lo..] + [row.record];
  }

  lemma {:induction false} RunBegins(turns: seq<Turn>, records: seq<Record>, row: Row)
    requires StartsTurn(row.record) || (turns == [] && records == [])
    ensures
      var after := WithRecord(turns, row);
      |after| == |turns| + 1 && IsRunOf(after[|turns|], records + [row.record], |records|, |records| + 1)
  {
    var turn := WithRecord(turns, row)[|turns|];
    assert TurnRows(turn) == [row];
    assert (records + [row.record])[|records|..] == [row.record];
  }

  /** A turn of a grouping from scratch is a run of the records, and the last turn runs to their end. */
  lemma {:induction false} TurnIsRun(records: seq<Record>, calls: CallIndex, m: nat) returns (lo: nat, hi: nat)
    requires m < |WithRecords([], records, calls)|
    ensures IsRunOf(WithRecords([], records, calls)[m], records, lo, hi)
    ensures m == |WithRecords([], records, calls)| - 1 ==> hi == |records|
  {
    var n := |records| - 1;
    var front := records[..n];
    var before, row := WithRecords([], front, calls), RowOf(records[n], calls);
    assert front + [row.record] == records;
    if m == |before| {
      if n > 0 {
        TurnsForRecords(front, calls);
      }
      lo, hi := n, n + 1;
      RunBegins(before, front, row);
    } else {
      lo, hi := TurnIsRun(front, calls, m);
      if m == |before| - 1 && !StartsTurn(row.record) {
        RunGrows(before[m], front, row, lo);
        hi := n + 1;
      } else {
        RunStays(before[m], front, row.record, lo, hi);
      }
    }
  }

  lemma {:induction false} TurnsForRecords(records: seq<Record>, calls: CallIndex)
    requires records != []
    ensures WithRecords([], records, calls) != []
  {
  }

  lemma {:induction false} GroupedStartsFit(records: seq<Record>, calls: CallIndex)
    ensures StartsFit(WithRecords([], records, calls))
  {
    AppendKeepsStarts([], records, calls);
  }

  /** Where no record of a turn is older than its first, start times within their turns leave no
      choice. */
  lemma {:induction false} StartsArePinned(turns: seq<Turn>, records: seq<Record>, calls: CallIndex)
    requires SameButStarts(turns, WithRecords([], records, calls)) && StartsFit(turns) && TurnsStartFirst(records)
    ensures turns == WithRecords([], records, calls)
  {
    var grouped := WithRecords([], records, calls);
    forall m | 0 <= m < |turns|
      ensures turns[m] == grouped[m]
    {
      var lo, hi := TurnIsRun(records, calls, m);
      assert StartFits(turns[m]) && SameButStart(turns[m], grouped[m]);
      assert TurnRows(turns[m]) == TurnRows(grouped[m]);
      StartIsPinned(turns[m].startedAt, grouped[m], records, lo, hi);
    }
  }

  lemma {:induction false} StartIsPinned(start: int, turn: Turn, records: seq<Record>, lo: nat, hi: nat)
    requires IsRunOf(turn, records, lo, hi) && TurnsStartFirst(records) && StartWithin(start, TurnRows(turn))
    ensures start == turn.startedAt
  {
    var rows := TurnRows(turn);
    var i :| 0 <= i < |rows| && rows[i].record.ts == start;
    assert rows[i].record == RecordsOfRows(rows)[i] == records[lo + i];
    assert rows[0].record == RecordsOfRows(rows)[0] == records[lo];
    assert SameTurn(records, lo, lo + i);
  }

  // ----- joining -----

  /** When the turn that is open after some records started. */
  function LastStart(records: seq<Record>): int
    requires records != []
  {
    var n := |records| - 1;
    if n == 0 || StartsTurn(records[n]) then records[n].ts else LastStart(records[..n])
  }

  lemma {:induction false} LastTurnStarts(records: seq<Record>, calls: CallIndex)
    requires records != []
    ensures
      var turns := WithRecords([], records, calls);
      turns != [] && turns[|turns| - 1].startedAt == LastStart(records)
  {
    var n := |records| - 1;
    if n > 0 {
      LastTurnStarts(records[..n], calls);
    } else {
      assert records[..n] == [];
    }
  }

  /** The start of a turn's own first record, seen from any later record of the turn. */
  lemma {:induction false} LastStartIs(records: seq<Record>, i: nat)
    requires FirstOfTurn(records, i) && SameTurn(records, i, |records| - 1)
    ensures LastStart(records) == records[i].ts
  {
    var n := |records| - 1;
    if i < n {
      LastStartIs(records[..n], i);
    }
  }

  lemma {:induction false} AppendKeepsStartTimes(turns: seq<Turn>, records: seq<Record>, calls: CallIndex)
    ensures
      var after := WithRecords(turns, records, calls);
      |turns| <= |after| && forall m :: 0 <= m < |turns| ==> after[m].startedAt == turns[m].startedAt
  {
    if records != [] {
      AppendKeepsStartTimes(turns, records[..|records| - 1], calls);
    }
  }

  lemma {:induction false} FirstTurnStarts(records: seq<Record>, calls: CallIndex)
    requires records != []
    ensures
      var turns := WithRecords([], records, calls);
      && turns != [] && turns[0].startedAt == records[0].ts
      && (turns[0].head.None? <==> !StartsTurn(records[0]))
  {
    var n := |records| - 1;
    if n > 0 {
      FirstTurnStarts(records[..n], calls);
    } else {
      assert records[..n] == [];
    }
  }

  lemma {:induction false} NewTurnsAreWhole(records: seq<Record>, calls: CallIndex)
    ensures forall turn :: turn in WithRecords([], records, calls) ==> !turn.hasTrimmedRows
  {
    if records != [] {
      NewTurnsAreWhole(records[..|records| - 1], calls);
    }
  }

  /** Adding a record after joining is joining after adding it. */
  lemma {:induction false} JoinThenAdd(earlier: seq<Turn>, resident: seq<Turn>, row: Row)
    requires earlier != [] && !earlier[|earlier| - 1].hasTrimmedRows
    requires resident == [] ==> earlier[|earlier| - 1].startedAt <= row.record.ts
    ensures WithRecord(JoinedTurns(earlier, resident), row) == JoinedTurns(earlier, WithRecord(resident, row))
  {
    var joined := JoinedTurns(earlier, resident);
    if resident == [] {
      assert joined == earlier;
      if !StartsTurn(row.record) {
        var last := earlier[|earlier| - 1];
        assert Joined(last, WithRecord([], row)[0]) == WithRow(last, row);
      }
    } else if !SplitsBoundaryTurn(earlier, resident) {
      assert WithRecord(joined, row) == earlier + WithRecord(resident, row);
    } else if !StartsTurn(row.record) && |resident| == 1 {
      assert WithRow(Joined(earlier[|earlier| - 1], resident[0]), row)
          == Joined(earlier[|earlier| - 1], WithRow(resident[0], row));
    }
  }

  lemma {:induction false} RecordsAfterTurns(earlier: seq<Turn>, records: seq<Record>, calls: CallIndex)
    requires earlier != [] ==> !earlier[|earlier| - 1].hasTrimmedRows
    requires earlier != [] && records != [] ==> earlier[|earlier| - 1].startedAt <= records[0].ts
    ensures WithRecords(earlier, records, calls) == JoinedTurns(earlier, WithRecords([], records, calls))
  {
    if records == [] {
      assert earlier + [] == earlier;
    } else {
      var n := |records| - 1;
      RecordsAfterTurns(earlier, records[..n], calls);
      if earlier != [] {
        if n > 0 {
          FirstTurnStarts(records[..n], calls);
        }
        JoinThenAdd(earlier, WithRecords([], records[..n], calls), RowOf(records[n], calls));
      } else {
        assert JoinedTurns([], WithRecords([], records, calls)) == WithRecords([], records, calls);
        assert JoinedTurns([], WithRecords([], records[..n], calls)) == WithRecords([], records[..n], calls);
      }
    }
  }

  /** Whatever the clock says, joining the turns of two pages gives those of both pages but for start
      times. */
  lemma {:induction false} JoinIsGrouping(earlier: seq<Turn>, records: seq<Record>, calls: CallIndex)
    requires earlier != [] ==> !earlier[|earlier| - 1].hasTrimmedRows
    ensures SameButStarts(JoinedTurns(earlier, WithRecords([], records, calls)), WithRecords(earlier, records, calls))
  {
    if earlier != [] && records != [] && earlier[|earlier| - 1].startedAt > records[0].ts {
      var n := |earlier| - 1;
      var sooner := earlier[n := earlier[n].(startedAt := records[0].ts)];
      var resident := WithRecords([], records, calls);
      RecordsAfterTurns(sooner, records, calls);
      JoinKeepsSame(earlier, sooner, resident, resident);
      AppendKeepsSame(sooner, earlier, records, calls);
    } else {
      RecordsAfterTurns(earlier, records, calls);
    }
  }

  /** A turn cut in two that starts before its second part keeps its start; otherwise it takes that of
      the second part. */
  lemma {:induction false} JoinMovesStart(a: seq<Record>, b: seq<Record>, calls: CallIndex)
    requires a != [] && b != [] && !StartsTurn(b[0]) && LastStart(a) > b[0].ts
    ensures
      var earlier := WithRecords([], a, calls);
      var m := |earlier| - 1;
      var joined, grouped := JoinedTurns(earlier, WithRecords([], b, calls)), WithRecords(earlier, b, calls);
      && 0 <= m < |joined| && m < |grouped|
      && joined[m].startedAt == b[0].ts && grouped[m].startedAt == LastStart(a)
  {
    LastTurnStarts(a, calls);
    FirstTurnStarts(b, calls);
    AppendKeepsStartTimes(WithRecords([], a, calls), b, calls);
  }
}
