/**
 The grouping of a trace into turns: what one page does to it at either end, and what the row cap
 takes away. The functions say what each operation leaves behind; `TraceGroupings` holds the object
 whose methods do it in place.
 */
module TraceStoreCore {
  import opened TraceRecords
  import opened Wrappers

  datatype Metrics = Metrics(rowCount: int, toolCallCount: int, errorCount: int, resultBytes: int)

  datatype Turn = Turn(
    head: Option<Row>, rows: seq<Row>, hasTrimmedRows: bool, startedAt: int, metrics: Metrics)

  datatype TurnAppend = TurnAppend(turnIndex: nat, isNewTurn: bool, head: Option<Row>, rows: seq<Row>)

  datatype Prepend = Prepend(
    newTurns: seq<Turn>, mergedHead: Option<Row>, mergedRows: seq<Row>, needsRerender: bool)

  datatype Trim = Trim(droppedTurnCount: nat, droppedRowCount: nat)

  type Counts = map<string, int>

  /** The value of a grouping: its turns, its tool-call index, its unresolved-reference counts. */
  datatype View = View(turns: seq<Turn>, calls: CallIndex, unresolved: Counts)

  const EMPTY := View([], map[], map[])
  const NO_METRICS := Metrics(0, 0, 0, 0)

  // ----- metrics -----

  /** A row is counted in or out. */
  type Direction = d: int | d == 1 || d == -1 witness 1

  function Counted(m: Metrics, row: Row, direction: Direction): Metrics {
    match row.record.body
    case ToolCall(_) =>
      m.(rowCount := m.rowCount + direction, toolCallCount := m.toolCallCount + direction)
    case ToolResult(_, contentBytes, isError) =>
      var bytes: int := contentBytes;
      m.(rowCount := m.rowCount + direction,
         resultBytes := m.resultBytes + (if direction == 1 then bytes else -bytes),
         errorCount := m.errorCount + (if isError then direction else 0))
    case _ => m.(rowCount := m.rowCount + direction)
  }

  function PlusMetrics(a: Metrics, b: Metrics): Metrics {
    Metrics(a.rowCount + b.rowCount, a.toolCallCount + b.toolCallCount,
            a.errorCount + b.errorCount, a.resultBytes + b.resultBytes)
  }

  // ----- unresolved counts -----

  function UnresolvedId(r: Record, calls: CallIndex): Option<string> {
    var id := ReferencedToolUseId(r);
    if id.None? || id.value in calls then None else id
  }

  function CountOf(counts: Counts, id: string): int {
    if id in counts then counts[id] else 0
  }

  function Retain(counts: Counts, id: string, rowCount: int): Counts {
    counts[id := CountOf(counts, id) + rowCount]
  }

  function Release(counts: Counts, id: string): Counts {
    var remaining := CountOf(counts, id) - 1;
    if remaining > 0 then counts[id := remaining] else counts - {id}
  }

  function RetainRecord(counts: Counts, r: Record, calls: CallIndex): Counts {
    match UnresolvedId(r, calls)
    case None => counts
    case Some(id) => Retain(counts, id, 1)
  }

  function RetainRecords(counts: Counts, records: seq<Record>, calls: CallIndex): Counts {
    if records == [] then counts
    else RetainRecord(RetainRecords(counts, records[..|records| - 1], calls), records[|records| - 1], calls)
  }

  // ----- appending -----

  function NewTurn(head: Option<Row>, startedAt: int): Turn {
    Turn(head, [], false, startedAt, if head.None? then NO_METRICS else Counted(NO_METRICS, head.value, 1))
  }

  function WithRow(turn: Turn, row: Row): Turn {
    turn.(rows := turn.rows + [row], metrics := Counted(turn.metrics, row, 1))
  }

  function WithRecord(turns: seq<Turn>, row: Row): seq<Turn> {
    if StartsTurn(row.record) then turns + [NewTurn(Some(row), row.record.ts)]
    else if turns == [] then [WithRow(NewTurn(None, row.record.ts), row)]
    else turns[|turns| - 1 := WithRow(turns[|turns| - 1], row)]
  }

  function WithRecords(turns: seq<Turn>, records: seq<Record>, calls: CallIndex): seq<Turn> {
    if records == [] then turns
    else
      var n := |records| - 1;
      WithRecord(WithRecords(turns, records[..n], calls), RowOf(records[n], calls))
  }

  function WithDelta(appends: seq<TurnAppend>, turns: seq<Turn>, row: Row): seq<TurnAppend> {
    if StartsTurn(row.record) then appends + [TurnAppend(|turns|, true, Some(row), [])]
    else if turns == [] then appends + [TurnAppend(0, true, None, [row])]
    else if appends != [] && appends[|appends| - 1].turnIndex == |turns| - 1 then
      var open := appends[|appends| - 1];
      appends[|appends| - 1 := open.(rows := open.rows + [row])]
    else appends + [TurnAppend(|turns| - 1, false, None, [row])]
  }

  /** The deltas a page reports, one record at a time. */
  function Deltas(turns: seq<Turn>, records: seq<Record>, calls: CallIndex): seq<TurnAppend> {
    if records == [] then []
    else
      var n := |records| - 1;
      WithDelta(Deltas(turns, records[..n], calls), WithRecords(turns, records[..n], calls), RowOf(records[n], calls))
  }

  function Appended(g: View, records: seq<Record>): View {
    var calls := g.calls + CallsOf(records);
    View(WithRecords(g.turns, records, calls), calls, RetainRecords(g.unresolved, records, calls))
  }

  /** Grouping a list of records from scratch. */
  function Grouped(records: seq<Record>): View {
    Appended(EMPTY, records)
  }

  // ----- prepending -----

  function Joined(earlier: Turn, resident: Turn): Turn {
    Turn(earlier.head, earlier.rows + resident.rows, resident.hasTrimmedRows,
         if earlier.startedAt < resident.startedAt then earlier.startedAt else resident.startedAt,
         PlusMetrics(earlier.metrics, resident.metrics))
  }

  predicate SplitsBoundaryTurn(earlier: seq<Turn>, resident: seq<Turn>) {
    earlier != [] && resident != [] && resident[0].head.None?
  }

  function JoinedTurns(earlier: seq<Turn>, resident: seq<Turn>): seq<Turn> {
    if SplitsBoundaryTurn(earlier, resident) then
      earlier[..|earlier| - 1] + [Joined(earlier[|earlier| - 1], resident[0])] + resident[1..]
    else earlier + resident
  }

  function RelabelledRow(row: Row, ids: set<string>, calls: CallIndex): Row {
    var id := ReferencedToolUseId(row.record);
    if id.Some? && id.value in ids then RowOf(row.record, calls) else row
  }

  function RelabelledRows(rows: seq<Row>, ids: set<string>, calls: CallIndex): (relabelled: seq<Row>)
    ensures |relabelled| == |rows|
  {
    seq(|rows|, i requires 0 <= i < |rows| => RelabelledRow(rows[i], ids, calls))
  }

  function RelabelledTurns(turns: seq<Turn>, ids: set<string>, calls: CallIndex): (relabelled: seq<Turn>)
    ensures |relabelled| == |turns|
  {
    seq(|turns|, i requires 0 <= i < |turns| => turns[i].(rows := RelabelledRows(turns[i].rows, ids, calls)))
  }

  /** The resident unresolved ids that the earlier page's calls resolve. */
  function NewlyResolved(g: View, earlier: View): set<string> {
    (earlier.calls.Keys - g.calls.Keys) * g.unresolved.Keys
  }

  function MergedCounts(resident: Counts, earlier: Counts, calls: CallIndex): Counts {
    map id | id in resident.Keys + (earlier.Keys - calls.Keys) ::
      CountOf(resident, id) + (if id in calls then 0 else CountOf(earlier, id))
  }

  function Prepended(g: View, records: seq<Record>): View {
    var earlier := Grouped(records);
    var calls := earlier.calls + g.calls;
    var resolved := NewlyResolved(g, earlier);
    View(RelabelledTurns(JoinedTurns(earlier.turns, g.turns), resolved, calls),
         calls,
         MergedCounts(g.unresolved - resolved, earlier.unresolved, calls))
  }

  /** What a prepend reports: the new turns as they stand afterwards, and what was merged into the
      first resident turn. */
  function PrependReport(g: View, records: seq<Record>): Prepend {
    var earlier := Grouped(records);
    var resolved := NewlyResolved(g, earlier);
    var n := |earlier.turns|;
    if SplitsBoundaryTurn(earlier.turns, g.turns) then
      Prepend(RelabelledTurns(earlier.turns[..n - 1], resolved, earlier.calls + g.calls),
              earlier.turns[n - 1].head, earlier.turns[n - 1].rows, resolved != {})
    else
      Prepend(RelabelledTurns(earlier.turns, resolved, earlier.calls + g.calls), None, [], resolved != {})
  }

  // ----- trimming -----

  function TurnRowCount(turn: Turn): nat {
    |turn.rows| + (if turn.head.Some? then 1 else 0)
  }

  function ResidentRowCount(turns: seq<Turn>): nat {
    if turns == [] then 0 else TurnRowCount(turns[0]) + ResidentRowCount(turns[1..])
  }

  function TurnRows(turn: Turn): seq<Row> {
    (if turn.head.Some? then [turn.head.value] else []) + turn.rows
  }

  function RecordsOfRows(rows: seq<Row>): (records: seq<Record>)
    ensures |records| == |rows|
  {
    seq(|rows|, i requires 0 <= i < |rows| => rows[i].record)
  }

  lemma {:induction false} RecordsOfRowsConcat(a: seq<Row>, b: seq<Row>)
    ensures RecordsOfRows(a + b) == RecordsOfRows(a) + RecordsOfRows(b)
  {
  }

  /** The calls left once the calls among some rows are forgotten. */
  function ForgottenCalls(calls: CallIndex, rows: seq<Row>): CallIndex {
    if rows == [] then calls
    else
      var rest := ForgottenCalls(calls, rows[..|rows| - 1]);
      var body := rows[|rows| - 1].record.body;
      if body.ToolCall? then rest - {body.toolUseId} else rest
  }

  function ReleasedCounts(counts: Counts, rows: seq<Row>): Counts {
    if rows == [] then counts
    else
      var rest := ReleasedCounts(counts, rows[..|rows| - 1]);
      var id := ReferencedToolUseId(rows[|rows| - 1].record);
      if id.Some? then Release(rest, id.value) else rest
  }

  function UncountedRows(m: Metrics, rows: seq<Row>): Metrics {
    if rows == [] then m
    else Counted(UncountedRows(m, rows[..|rows| - 1]), rows[|rows| - 1], -1)
  }

  /** How many of the oldest turns the cap drops: as few as leave the rest within it, and never the
      last turn. */
  function DroppedTurns(turns: seq<Turn>, cap: int): nat {
    if |turns| <= 1 || ResidentRowCount(turns) <= cap then 0 else 1 + DroppedTurns(turns[1..], cap)
  }

  function WithoutOldestTurns(g: View, count: nat): View
    requires count <= |g.turns|
  {
    if count == 0 then g
    else
      var rest := WithoutOldestTurns(g, count - 1);
      var rows := TurnRows(g.turns[count - 1]);
      View(g.turns[count..], ForgottenCalls(rest.calls, rows), ReleasedCounts(rest.unresolved, rows))
  }

  /** How many rows of the oldest turn are cut when `excess` rows are too many. */
  function CutRows(turns: seq<Turn>, excess: int): nat {
    if turns == [] || excess <= 0 then 0
    else if excess <= |turns[0].rows| then excess else |turns[0].rows|
  }

  function WithoutOldestRows(g: View, count: nat): View
    requires 0 < count ==> g.turns != [] && count <= |g.turns[0].rows|
  {
    if count == 0 then g
    else
      var turn := g.turns[0];
      var dropped := turn.rows[..count];
      View([turn.(rows := turn.rows[count..], hasTrimmedRows := true, metrics := UncountedRows(turn.metrics, dropped))]
             + g.turns[1..],
           ForgottenCalls(g.calls, dropped),
           ReleasedCounts(g.unresolved, dropped))
  }

  lemma {:induction false} DroppedTurnsInRange(turns: seq<Turn>, cap: int)
    ensures DroppedTurns(turns, cap) <= |turns|
    ensures turns != [] ==> DroppedTurns(turns, cap) < |turns|
  {
    if |turns| > 1 {
      DroppedTurnsInRange(turns[1..], cap);
    }
  }

  function TrimOf(turns: seq<Turn>, cap: int): Trim {
    DroppedTurnsInRange(turns, cap);
    var dropped := DroppedTurns(turns, cap);
    var kept := turns[dropped..];
    Trim(dropped, CutRows(kept, ResidentRowCount(kept) - cap))
  }

  function Trimmed(g: View, cap: int): View {
    DroppedTurnsInRange(g.turns, cap);
    var trim := TrimOf(g.turns, cap);
    WithoutOldestRows(WithoutOldestTurns(g, trim.droppedTurnCount), trim.droppedRowCount)
  }
}
