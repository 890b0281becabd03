/**
 Inputs on which the agreements of the trace window fail, each a case of the exact conditions proved
 elsewhere: at every cap a trim can part a call from its results, and a call after its result, or a
 turn whose first record is not its oldest, is grouped differently in one page and in two.
 */
module TraceLimits {
  import opened TraceRecords
  import opened TraceStoreCore
  import opened TraceStarts
  import opened TraceConfluence
  import opened TracePaging
  import opened TraceAgreement
  import opened TraceDropped
  import opened Wrappers

  // ----- counts after a trim -----

  const CALL := Record(1, "", ToolCall("x"))
  const RESULT := Record(2, "", ToolResult("x", 0, false))

  function Results(count: nat): seq<Record> {
    if count == 0 then [] else Results(count - 1) + [RESULT]
  }

  lemma {:induction false} ResultsRefer(count: nat)
    ensures |Results(count)| == count && References(Results(count), "x") == count && CallsOf(Results(count)) == map[]
    ensures forall r :: r in Results(count) ==> r == RESULT
  {
    if count > 0 {
      ResultsRefer(count - 1);
      assert Results(count)[..count - 1] == Results(count - 1);
      ReferencesConcat(Results(count - 1), [RESULT], "x");
      assert [RESULT][1..] == [];
    }
  }

  ghost predicate OneTurnOf(turns: seq<Turn>, records: seq<Record>) {
    |turns| == 1 && turns[0].head == None && RecordsOfRows(turns[0].rows) == records
  }

  lemma {:induction false} OneTurnGrows(turns: seq<Turn>, records: seq<Record>, row: Row)
    requires OneTurnOf(turns, records) && !StartsTurn(row.record)
    ensures OneTurnOf(WithRecord(turns, row), records + [row.record])
  {
    RecordsOfRowsConcat(turns[0].rows, [row]);
    assert RecordsOfRows([row]) == [row.record];
  }

  lemma {:induction false} OneTurnBegins(row: Row)
    requires !StartsTurn(row.record)
    ensures OneTurnOf(WithRecord([], row), [row.record])
  {
    assert WithRecord([], row)[0].rows == [row];
  }

  /** Records none of which starts a turn make up one turn without a head. */
  lemma {:induction false} OneTurn(records: seq<Record>, calls: CallIndex)
    requires records != [] && forall r :: r in records ==> !StartsTurn(r)
    ensures OneTurnOf(WithRecords([], records, calls), records)
  {
    var n := |records| - 1;
    assert records == records[..n] + [records[n]];
    if n == 0 {
      assert records[..n] == [];
      OneTurnBegins(RowOf(records[n], calls));
    } else {
      OneTurn(records[..n], calls);
      OneTurnGrows(WithRecords([], records[..n], calls), records[..n], RowOf(records[n], calls));
    }
  }

  /** At whatever cap: the call of a turn with as many results as the cap goes, the results stay, and
      none of them is counted. */
  lemma {:induction false} CountsDriftAtEveryCap(cap: nat)
    requires cap >= 1
    ensures
      var g := Grouped([CALL] + Results(cap));
      && CountsExact(g) && Parts(g, cap, "x") && !CountsExact(Trimmed(g, cap))
      && References(Resident(Trimmed(g, cap).turns), "x") == cap && "x" !in Trimmed(g, cap).unresolved
  {
    var records := [CALL] + Results(cap);
    CallThenResults(cap);
    GroupedCounts(records);
    GroupedCountsExact(records);
    OneTurn(records, EMPTY.calls + CallsOf(records));
    PartsTheCall(Grouped(records), cap);
  }

  lemma {:induction false} PartsTheCall(g: View, cap: nat)
    requires OneTurnOf(g.turns, [CALL] + Results(cap)) && CountsExact(g) && "x" in g.calls && cap >= 1
    ensures Parts(g, cap, "x") && !CountsExact(Trimmed(g, cap))
    ensures References(Resident(Trimmed(g, cap).turns), "x") == cap && "x" !in Trimmed(g, cap).unresolved
  {
    ResultsRefer(cap);
    DropsTheCall(g, cap);
    TrimLooksAtTurns(g, cap);
    assert Parts(g, cap, "x");
    TrimKeepsCounts(g, cap);
    ReferencesAroundHead(g, cap, "x");
    CountAfterTrim(g, cap, "x");
  }

  lemma {:induction false} CallThenResults(count: nat)
    ensures
      var records := [CALL] + Results(count);
      CallsOf(records) == map["x" := CALL] && forall r :: r in records ==> !StartsTurn(r)
  {
    ResultsRefer(count);
    CallsOfConcat([CALL], Results(count));
    assert [CALL][..0] == [] && CallsOf([CALL]) == map["x" := CALL];
  }

  lemma {:induction false} TrimsOneRow(turns: seq<Turn>, cap: nat)
    requires |turns| == 1 && turns[0].head == None && |turns[0].rows| == cap + 1
    ensures TrimOf(turns, cap) == Trim(0, 1) && DroppedRows(turns, cap) == turns[0].rows[..1]
  {
    assert turns[1..] == [] && turns[0..] == turns && turns[..0] == [];
    assert ResidentRowCount(turns) == cap + 1 && DroppedTurns(turns, cap) == 0 && CutRows(turns, 1) == 1;
  }

  lemma {:induction false} DropsTheCall(g: View, cap: nat)
    requires OneTurnOf(g.turns, [CALL] + Results(cap))
    ensures
      && (exists row :: row in DroppedRows(g.turns, cap) && IsCallOf(row.record, "x"))
      && Resident(Trimmed(g, cap).turns) == Results(cap)
  {
    ResultsRefer(cap);
    var rows := g.turns[0].rows;
    TrimsOneRow(g.turns, cap);
    assert rows[0].record == RecordsOfRows(rows)[0] == CALL;
    assert rows[0] in rows[..1];
    var after := Trimmed(g, cap).turns;
    assert after[1..] == [] && TurnRows(after[0]) == rows[1..];
    assert RecordsOfRows(rows[1..]) == RecordsOfRows(rows)[1..] == Results(cap);
  }

  /** Two records that start no turn, grouped: one turn without a head. */
  lemma {:induction false} TwoRecords(r1: Record, r2: Record, calls: CallIndex)
    requires !StartsTurn(r1) && !StartsTurn(r2)
    ensures
      var turns := WithRecords([], [r1, r2], calls);
      && |turns| == 1 && turns[0].head == None && turns[0].startedAt == r1.ts
      && turns[0].rows == [RowOf(r1, calls), RowOf(r2, calls)]
  {
    OneRecord(r1, calls);
    assert [r1, r2][..1] == [r1];
  }

  lemma {:induction false} OneRecord(r: Record, calls: CallIndex)
    requires !StartsTurn(r)
    ensures
      var turns := WithRecords([], [r], calls);
      && |turns| == 1 && turns[0].head == None && turns[0].startedAt == r.ts
      && turns[0].rows == [RowOf(r, calls)]
  {
    assert [r][..0] == [];
  }

  lemma {:induction false} CallsOfPair(r1: Record, r2: Record)
    ensures CallsOf([r1, r2]) == CallsOf([r1]) + CallsOf([r2])
    ensures CallsOf([r1]) == if r1.body.ToolCall? then map[r1.body.toolUseId := r1] else map[]
    ensures CallsOf([r2]) == if r2.body.ToolCall? then map[r2.body.toolUseId := r2] else map[]
  {
    assert [r1, r2] == [r1] + [r2] && [r1][..0] == [] && [r2][..0] == [];
    CallsOfConcat([r1], [r2]);
  }

  // ----- logs that cannot be paged at will -----

  /** A call that arrives after a record referring to it: in one page that record is labelled with
      it, in two pages it stays unresolved. */
  lemma {:induction false} LateCallBreaksConfluence(r: Record, call: Record, id: string)
    requires RefersTo(r, id) && IsCallOf(call, id)
    ensures !Pageable([r, call])
    ensures
      var inOnePage := Grouped([r, call]).turns;
      inOnePage != [] && inOnePage[0].rows == [Row(r, Some(call)), Row(call, None)]
    ensures
      var inTwoPages := Appended(Grouped([r]), [call]).turns;
      inTwoPages != [] && inTwoPages[0].rows == [Row(r, None), Row(call, None)]
  {
    assert IsCallOf([r, call][1], id) && RefersTo([r, call][0], id);
    CallsOfPair(r, call);
    var all := EMPTY.calls + CallsOf([r, call]);
    assert all == map[id := call];
    TwoRecords(r, call, all);
    OneRecord(r, EMPTY.calls + CallsOf([r]));
    var turns := Grouped([r]).turns;
    assert turns[0].rows == [Row(r, None)];
    assert [call][..0] == [];
    var calls := Grouped([r]).calls + CallsOf([call]);
    assert WithRecords(turns, [], calls) == turns;
    assert Appended(Grouped([r]), [call]).turns == WithRecord(turns, Row(call, None));
  }

  /** A clock that runs backwards between two pages: the merged turn starts at the smaller time, and
      not with its first record. */
  lemma {:induction false} BackwardClockBreaksConfluence(late: Record, early: Record)
    requires !StartsTurn(late) && !StartsTurn(early) && late.ts > early.ts
    ensures !Pageable([late, early])
    ensures
      var prepended := Prepended(Grouped([early]), [late]).turns;
      prepended != [] && prepended[0].startedAt == early.ts
    ensures Grouped([late, early]).turns != [] && Grouped([late, early]).turns[0].startedAt == late.ts
  {
    assert FirstOfTurn([late, early], 0) && SameTurn([late, early], 0, 1);
    TwoRecords(late, early, EMPTY.calls + CallsOf([late, early]));
    OneRecord(late, EMPTY.calls + CallsOf([late]));
    OneRecord(early, EMPTY.calls + CallsOf([early]));
  }
}
