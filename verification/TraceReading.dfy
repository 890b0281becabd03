/**
 What grouping a slice at once means, read off its records: where turns begin, when they start, and which call
 each row is labelled with.
 */
module TraceReading {
  import opened TraceRecords
  import opened TraceStoreCore
  import opened TraceAgreement
  import opened Wrappers

  /** Prompts, sessions, and the expansion of a command somebody typed open a turn. */
  predicate Opens(r: Record) {
    match r.body
    case Prompt => true
    case Session => true
    case Expansion(id, namesCommand) => id == "" && namesCommand
    case _ => false
  }

  /** The last call under an id, if there is one. */
  function LastCall(records: seq<Record>, id: string): Option<Record> {
    if records == [] then None
    else if records[|records| - 1].body == ToolCall(id) then Some(records[|records| - 1])
    else LastCall(records[..|records| - 1], id)
  }

  /** The call a record is labelled with: results by their id, expansions by theirs unless it is blank. */
  function CallFor(records: seq<Record>, r: Record): Option<Record> {
    match r.body
    case ToolResult(id, _, _) => LastCall(records, id)
    case Expansion(id, _) => if id == "" then None else LastCall(records, id)
    case _ => None
  }

  /** The head opens the turn, no other row opens one, and the turn starts with its first row. */
  predicate IsTurn(turn: Turn) {
    && (turn.head.Some? ==> Opens(turn.head.value.record))
    && (forall row :: row in turn.rows ==> !Opens(row.record))
    && TurnRows(turn) != [] && turn.startedAt == TurnRows(turn)[0].record.ts
    && !turn.hasTrimmedRows
  }

  ghost predicate AreTurns(turns: seq<Turn>) {
    && (forall turn :: turn in turns ==> IsTurn(turn))
    && (forall m :: 0 < m < |turns| ==> turns[m].head.Some?)
  }

  lemma {:induction false} AddKeepsTurns(turns: seq<Turn>, row: Row)
    requires AreTurns(turns)
    ensures AreTurns(WithRecord(turns, row))
  {
    if Opens(row.record) {
      assert IsTurn(NewTurn(Some(row), row.record.ts));
    } else if turns == [] {
      assert IsTurn(WithRow(NewTurn(None, row.record.ts), row));
    } else {
      var last := turns[|turns| - 1];
      assert IsTurn(last);
      assert TurnRows(WithRow(last, row)) == TurnRows(last) + [row];
      assert IsTurn(WithRow(last, row));
    }
  }

  lemma {:induction false} GroupingMakesTurns(records: seq<Record>, calls: CallIndex)
    ensures AreTurns(WithRecords([], records, calls))
  {
    if records != [] {
      var n := |records| - 1;
      GroupingMakesTurns(records[..n], calls);
      AddKeepsTurns(WithRecords([], records[..n], calls), RowOf(records[n], calls));
    }
  }

  lemma {:induction false} IndexHoldsLastCalls(records: seq<Record>, id: string)
    ensures Lookup(CallsOf(records), id) == LastCall(records, id)
  {
    if records != [] {
      IndexHoldsLastCalls(records[..|records| - 1], id);
    }
  }

  ghost predicate Labelled(turns: seq<Turn>, records: seq<Record>) {
    forall turn, row :: turn in turns && row in TurnRows(turn) ==> row.resolved == CallFor(records, row.record)
  }

  lemma {:induction false} AddKeepsLabels(turns: seq<Turn>, row: Row, records: seq<Record>)
    requires Labelled(turns, records) && row.resolved == CallFor(records, row.record)
    ensures Labelled(WithRecord(turns, row), records)
  {
    var after := WithRecord(turns, row);
    forall turn, r | turn in after && r in TurnRows(turn)
      ensures r.resolved == CallFor(records, r.record)
    {
      if turn !in turns && r != row {
        assert turns != [] && r in TurnRows(turns[|turns| - 1]);
      }
    }
  }

  lemma {:induction false} GroupingLabels(records: seq<Record>, page: seq<Record>)
    ensures Labelled(WithRecords([], records, CallsOf(page)), page)
  {
    if records != [] {
      var n := |records| - 1;
      var row := RowOf(records[n], CallsOf(page));
      GroupingLabels(records[..n], page);
      if records[n].body.ToolResult? || records[n].body.Expansion? {
        IndexHoldsLastCalls(page, records[n].body.toolUseId);
      }
      AddKeepsLabels(WithRecords([], records[..n], CallsOf(page)), row, page);
    }
  }

  /** Grouped at once, the rows of all turns are the slice, in order; a turn begins with the first record and with
      every record that opens one, and nowhere else; it starts when its first record came; and each row shows
      the last call of the slice under the id it refers to. */
  lemma {:induction false} GroupingReads(records: seq<Record>)
    ensures
      var turns := Grouped(records).turns;
      && Resident(turns) == records && AreTurns(turns) && Labelled(turns, records)
      && (records != [] ==> turns != [] && (turns[0].head.Some? <==> Opens(records[0])))
  {
    GroupedAgrees(records);
    GroupingMakesTurns(records, EMPTY.calls + CallsOf(records));
    assert EMPTY.calls + CallsOf(records) == CallsOf(records);
    GroupingLabels(records, records);
    var turns := Grouped(records).turns;
    if records != [] {
      FirstRow(turns);
    }
  }

  lemma {:induction false} FirstRow(turns: seq<Turn>)
    requires AreTurns(turns) && Resident(turns) != []
    ensures turns != [] && TurnRows(turns[0]) != [] && Resident(turns)[0] == TurnRows(turns[0])[0].record
    ensures turns[0].head.Some? <==> Opens(Resident(turns)[0])
  {
    assert IsTurn(turns[0]);
    assert turns[0].head.None? ==> turns[0].rows[0] in turns[0].rows;
  }
}
