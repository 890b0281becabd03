/**
 The rendered list of turns. The panel does not rebuild it after a page: it replays what the page
 reported. Replaying the reports gives the list the turns would be rendered to.
 */
module TracePanel {
  import opened TraceRecords
  import opened TraceStoreCore
  import opened TraceConfluence
  import opened TraceAgreement
  import opened TraceGroupings
  import opened Wrappers

  /** A rendered turn: its head row and its list of rows. */
  datatype Section = Section(head: Option<Row>, rows: seq<Row>)

  function Rendered(turn: Turn): Section {
    Section(turn.head, turn.rows)
  }

  function Mirror(turns: seq<Turn>): (sections: seq<Section>)
    ensures |sections| == |turns|
  {
    seq(|turns|, i requires 0 <= i < |turns| => Rendered(turns[i]))
  }

  // ----- the three updates -----

  /** A new turn is rendered from the turn as it now stands; an old one gets the reported rows. */
  function TurnAppended(sections: seq<Section>, append: TurnAppend, turns: seq<Turn>): seq<Section> {
    if append.turnIndex >= |turns| then sections
    else if append.isNewTurn then sections + [Rendered(turns[append.turnIndex])]
    else if append.turnIndex >= |sections| then sections
    else
      var section := sections[append.turnIndex];
      sections[append.turnIndex := section.(rows := section.rows + append.rows)]
  }

  function Replayed(sections: seq<Section>, appends: seq<TurnAppend>, turns: seq<Turn>): seq<Section> {
    if appends == [] then sections
    else TurnAppended(Replayed(sections, appends[..|appends| - 1], turns), appends[|appends| - 1], turns)
  }

  function Without<T>(items: seq<T>, count: nat): seq<T> {
    if count <= |items| then items[count..] else []
  }

  function TrimApplied(sections: seq<Section>, trim: Trim): seq<Section> {
    var kept := Without(sections, trim.droppedTurnCount);
    if kept == [] || trim.droppedRowCount == 0 then kept
    else kept[0 := kept[0].(rows := Without(kept[0].rows, trim.droppedRowCount))]
  }

  function PrependApplied(sections: seq<Section>, prepend: Prepend, turns: seq<Turn>): seq<Section> {
    var isMerged := (prepend.mergedHead.Some? || prepend.mergedRows != []) && sections != []
                    && |prepend.newTurns| < |turns|;
    var merged :=
      if !isMerged then sections
      else
        var first := sections[0];
        sections[0 := Section(if prepend.mergedHead.Some? then prepend.mergedHead else first.head,
                              prepend.mergedRows + first.rows)];
    Mirror(prepend.newTurns) + merged
  }

  // ----- appends -----

  /** What a page's deltas look like: at most one for the turn that was open, then one for each turn
      the page starts, in order. */
  ghost predicate DeltasDescribe(before: seq<Turn>, after: seq<Turn>, appends: seq<TurnAppend>, open: nat) {
    && open <= 1 && |before| <= |after| && |appends| == open + |after| - |before|
    && (forall j :: open <= j < |appends| ==> appends[j].isNewTurn && appends[j].turnIndex == |before| + j - open)
    && (open == 1 ==> before != [] && !appends[0].isNewTurn && appends[0].turnIndex == |before| - 1)
    && (forall i :: 0 <= i < |before| - 1 ==> Rendered(after[i]) == Rendered(before[i]))
    && (before != [] ==>
          var i := |before| - 1;
          Rendered(after[i]) == Section(before[i].head, before[i].rows + (if open == 1 then appends[0].rows else [])))
  }

  lemma {:induction false} DeltaOfRecord(
    before: seq<Turn>, after: seq<Turn>, appends: seq<TurnAppend>, open: nat, row: Row)
    returns (open': nat)
    requires DeltasDescribe(before, after, appends, open)
    ensures DeltasDescribe(before, WithRecord(after, row), WithDelta(appends, after, row), open')
  {
    open' := open;
    if !StartsTurn(row.record) && after != [] && !(appends != [] && appends[|appends| - 1].turnIndex == |after| - 1) {
      open' := 1;
    }
  }

  /** So a page reports at most one delta for any turn. */
  lemma {:induction false} DeltasOfPage(before: seq<Turn>, records: seq<Record>, calls: CallIndex)
    returns (open: nat)
    ensures DeltasDescribe(before, WithRecords(before, records, calls), Deltas(before, records, calls), open)
  {
    if records == [] {
      open := 0;
    } else {
      var n := |records| - 1;
      open := DeltasOfPage(before, records[..n], calls);
      open := DeltaOfRecord(before, WithRecords(before, records[..n], calls), Deltas(before, records[..n], calls),
                            open, RowOf(records[n], calls));
    }
  }

  lemma {:induction false} ReplayDeltas(
    before: seq<Turn>, after: seq<Turn>, appends: seq<TurnAppend>, open: nat, count: nat)
    requires DeltasDescribe(before, after, appends, open) && open <= count <= |appends|
    ensures Replayed(Mirror(before), appends[..count], after) == Mirror(after)[..|before| + count - open]
  {
    if count == 0 {
      assert appends[..0] == [];
      assert before != [] ==> before[|before| - 1].rows + [] == before[|before| - 1].rows;
      assert Mirror(before) == Mirror(after)[..|before|];
    } else {
      assert appends[..count][..count - 1] == appends[..count - 1];
      if count == open {
        assert appends[..0] == [];
        assert Replayed(Mirror(before), appends[..0], after) == Mirror(before);
        assert TurnAppended(Mirror(before), appends[0], after) == Mirror(after)[..|before|];
      } else {
        ReplayDeltas(before, after, appends, open, count - 1);
      }
    }
  }

  /** Replaying a page's deltas renders the turns as they are after the page. */
  lemma {:induction false} ReplayRendersAppend(g: View, records: seq<Record>)
    ensures
      var after := Appended(g, records);
      Replayed(Mirror(g.turns), Deltas(g.turns, records, after.calls), after.turns) == Mirror(after.turns)
  {
    var after := Appended(g, records);
    var appends := Deltas(g.turns, records, after.calls);
    var open := DeltasOfPage(g.turns, records, after.calls);
    ReplayDeltas(g.turns, after.turns, appends, open, |appends|);
    assert appends[..|appends|] == appends;
  }

  // ----- trims -----

  /** Replaying a trim's counts renders the turns as they are after it. */
  lemma {:induction false} ReplayRendersTrim(g: View, cap: int)
    ensures TrimApplied(Mirror(g.turns), TrimOf(g.turns, cap)) == Mirror(Trimmed(g, cap).turns)
  {
    DroppedTurnsInRange(g.turns, cap);
    var trim := TrimOf(g.turns, cap);
    DropTurnsKeepsTurns(g, trim.droppedTurnCount);
    assert Mirror(g.turns)[trim.droppedTurnCount..] == Mirror(g.turns[trim.droppedTurnCount..]);
  }

  // ----- prepends -----

  /** Replaying a prepend that asks for no re-render renders the turns as they are after it. */
  lemma {:induction false} ReplayRendersPrepend(g: View, records: seq<Record>)
    requires !PrependReport(g, records).needsRerender
    ensures PrependApplied(Mirror(g.turns), PrependReport(g, records), Prepended(g, records).turns)
         == Mirror(Prepended(g, records).turns)
  {
    var earlier := Grouped(records);
    var calls := earlier.calls + g.calls;
    RelabelNothing(JoinedTurns(earlier.turns, g.turns), calls);
    if SplitsBoundaryTurn(earlier.turns, g.turns) {
      RelabelNothing(earlier.turns[..|earlier.turns| - 1], calls);
      assert [] + Mirror(g.turns)[0].rows == Mirror(g.turns)[0].rows;
    } else {
      RelabelNothing(earlier.turns, calls);
    }
  }

  ghost predicate AllLabelled(turns: seq<Turn>, calls: CallIndex) {
    forall turn, row :: turn in turns && row in turn.rows ==> row == RowOf(row.record, calls)
  }

  lemma {:induction false} GroupedAllLabelled(records: seq<Record>, calls: CallIndex)
    ensures AllLabelled(WithRecords([], records, calls), calls)
  {
    if records != [] {
      var n := |records| - 1;
      GroupedAllLabelled(records[..n], calls);
      var before, row := WithRecords([], records[..n], calls), RowOf(records[n], calls);
      var after := WithRecord(before, row);
      forall turn, r | turn in after && r in turn.rows
        ensures r == RowOf(r.record, calls)
      {
        if turn !in before {
          assert r == row || (before != [] && r in before[|before| - 1].rows);
        }
      }
    }
  }

  /** A record that refers to a call is shown as a row, never as a head. */
  lemma {:induction false} ReferenceIsShown(turns: seq<Turn>, r: Record, id: string)
    requires HeadsStartTurns(turns) && r in Resident(turns) && RefersTo(r, id)
    ensures exists i: nat, j: nat :: i < |turns| && j < |turns[i].rows| && turns[i].rows[j].record == r
  {
    if r in RecordsOfRows(TurnRows(turns[0])) {
      var rows := TurnRows(turns[0]);
      var k :| 0 <= k < |rows| && RecordsOfRows(rows)[k] == r;
      var j: nat := if turns[0].head.Some? then k - 1 else k;
      assert turns[0].rows[j].record == r;
    } else {
      ReferenceIsShown(turns[1..], r, id);
      var i: nat, j: nat :| i < |turns[1..]| && j < |turns[1..][i].rows| && turns[1..][i].rows[j].record == r;
      assert turns[i + 1].rows[j].record == r;
    }
  }

  /** The list shows a reference to a call without showing the call. */
  ghost predicate ShowsUnresolved(sections: seq<Section>, id: string) {
    exists i: nat, j: nat :: i < |sections| && j < |sections[i].rows|
      && RefersTo(sections[i].rows[j].record, id) && sections[i].rows[j].resolved.None?
  }

  lemma {:induction false} PrependKeepsUnresolved(
    sections: seq<Section>, prepend: Prepend, turns: seq<Turn>, id: string)
    requires ShowsUnresolved(sections, id)
    ensures ShowsUnresolved(PrependApplied(sections, prepend, turns), id)
  {
    var i: nat, j: nat :| i < |sections| && j < |sections[i].rows|
      && RefersTo(sections[i].rows[j].record, id) && sections[i].rows[j].resolved.None?;
    var after := PrependApplied(sections, prepend, turns);
    var i' := |prepend.newTurns| + i;
    var j': nat := j + |after[i'].rows| - |sections[i].rows|;
    assert after[i'].rows[j'] == sections[i].rows[j];
  }

  /** Of turns labelled from one index, exactly the references to calls it lacks show as missing. */
  lemma {:induction false} MissingCallIsShown(turns: seq<Turn>, calls: CallIndex, r: Record, id: string)
    requires AllLabelled(turns, calls) && HeadsStartTurns(turns)
    requires r in Resident(turns) && RefersTo(r, id)
    ensures ShowsUnresolved(Mirror(turns), id) <==> id !in calls
  {
    if id !in calls {
      ReferenceIsShown(turns, r, id);
      var i: nat, j: nat :| i < |turns| && j < |turns[i].rows| && turns[i].rows[j].record == r;
      assert turns[i] in turns && turns[i].rows[j] in turns[i].rows;
      assert Mirror(turns)[i].rows[j].resolved.None?;
    } else {
      forall i: nat, j: nat | i < |turns| && j < |turns[i].rows| && RefersTo(turns[i].rows[j].record, id)
        ensures turns[i].rows[j].resolved.Some?
      {
        assert turns[i] in turns && turns[i].rows[j] in turns[i].rows;
      }
    }
  }

  lemma {:induction false} GroupedShows(records: seq<Record>, r: Record, id: string)
    requires r in records && RefersTo(r, id)
    ensures ShowsUnresolved(Mirror(Grouped(records).turns), id) <==> id !in CallsOf(records)
  {
    GroupedAgrees(records);
    assert EMPTY.calls + CallsOf(records) == CallsOf(records);
    GroupedAllLabelled(records, CallsOf(records));
    MissingCallIsShown(Grouped(records).turns, CallsOf(records), r, id);
  }

  /** A prepend labels anew every row that refers to a call it resolves. */
  lemma {:induction false} ResolvedIsShown(g: View, records: seq<Record>, id: string)
    requires id in NewlyResolved(g, Grouped(records))
    ensures !ShowsUnresolved(Mirror(Prepended(g, records).turns), id)
  {
    var earlier := Grouped(records);
    var ids, calls := NewlyResolved(g, earlier), earlier.calls + g.calls;
    var joined, after := JoinedTurns(earlier.turns, g.turns), Prepended(g, records).turns;
    forall i: nat, j: nat | i < |after| && j < |after[i].rows| && RefersTo(after[i].rows[j].record, id)
      ensures after[i].rows[j].resolved.Some?
    {
      assert after[i].rows[j] == RelabelledRow(joined[i].rows[j], ids, calls);
    }
  }

  /** The flag is exact: replaying a prepend renders the new turns if and only if no re-render is asked
      for, whatever the records. */
  lemma {:induction false} RerenderFlagIsExact(a: seq<Record>, b: seq<Record>)
    ensures
      var report, after := PrependReport(Grouped(b), a), Prepended(Grouped(b), a).turns;
      PrependApplied(Mirror(Grouped(b).turns), report, after) == Mirror(after) <==> !report.needsRerender
  {
    var g := Grouped(b);
    var report, after := PrependReport(g, a), Prepended(g, a).turns;
    if !report.needsRerender {
      ReplayRendersPrepend(g, a);
    } else {
      var id :| id in NewlyResolved(g, Grouped(a));
      GroupedCounts(b);
      ReferencesPositive(b, id);
      var r :| r in b && RefersTo(r, id);
      GroupedShows(b, r, id);
      PrependKeepsUnresolved(Mirror(g.turns), report, after, id);
      ResolvedIsShown(g, a, id);
    }
  }

  // ----- the panel -----

  class Panel {
    var turnSections: seq<Section>

    constructor ()
      ensures turnSections == []
    {
      turnSections := [];
    }

    /** Rendering from scratch. */
    method BuildPanelContent(turns: seq<Turn>)
      modifies this
      ensures turnSections == Mirror(turns)
    {
      turnSections := [];
      var i := 0;
      while i < |turns|
        invariant 0 <= i <= |turns|
        invariant turnSections == Mirror(turns)[..i]
      {
        turnSections := turnSections + [Rendered(turns[i])];
        i := i + 1;
      }
    }

    method ApplyTurnAppend(append: TurnAppend, turns: seq<Turn>)
      modifies this
      ensures turnSections == TurnAppended(old(turnSections), append, turns)
    {
      if append.turnIndex >= |turns| { return; }
      if append.isNewTurn {
        turnSections := turnSections + [Rendered(turns[append.turnIndex])];
        return;
      }
      if append.turnIndex >= |turnSections| { return; }
      var section := turnSections[append.turnIndex];
      var rowIndex := 0;
      while rowIndex < |append.rows|
        invariant 0 <= rowIndex <= |append.rows|
        invariant
          var before := old(turnSections)[append.turnIndex];
          section == before.(rows := before.rows + append.rows[..rowIndex])
        modifies {}
      {
        PrefixStep(append.rows, rowIndex);
        section := section.(rows := section.rows + [append.rows[rowIndex]]);
        rowIndex := rowIndex + 1;
      }
      assert append.rows[..rowIndex] == append.rows;
      turnSections := turnSections[append.turnIndex := section];
    }

    method ShowAppendedRecords(appends: seq<TurnAppend>, turns: seq<Turn>)
      modifies this
      ensures turnSections == Replayed(old(turnSections), appends, turns)
    {
      var i := 0;
      assert appends[..0] == [];
      while i < |appends|
        invariant 0 <= i <= |appends|
        invariant turnSections == Replayed(old(turnSections), appends[..i], turns)
      {
        PrefixStep(appends, i);
        ApplyTurnAppend(appends[i], turns);
        i := i + 1;
      }
      assert appends[..i] == appends;
    }

    method ApplyTrimToRenderedTurns(trim: Trim)
      modifies this
      ensures turnSections == TrimApplied(old(turnSections), trim)
    {
      if trim.droppedTurnCount == 0 && trim.droppedRowCount == 0 { return; }
      turnSections := Without(turnSections, trim.droppedTurnCount);
      if turnSections == [] || trim.droppedRowCount == 0 { return; }
      var rows := turnSections[0].rows;
      var removedCount := 0;
      while removedCount < trim.droppedRowCount
        invariant 0 <= removedCount <= trim.droppedRowCount
        invariant rows == Without(turnSections[0].rows, removedCount)
        modifies {}
      {
        if rows != [] {
          rows := rows[1..];
        }
        removedCount := removedCount + 1;
      }
      turnSections := turnSections[0 := turnSections[0].(rows := rows)];
    }

    method ApplyPrependToRenderedTurns(prepend: Prepend, turns: seq<Turn>)
      modifies this
      ensures turnSections == PrependApplied(old(turnSections), prepend, turns)
    {
      if (prepend.mergedHead.Some? || prepend.mergedRows != []) && turnSections != [] && |prepend.newTurns| < |turns| {
        var first := turnSections[0];
        if prepend.mergedHead.Some? {
          first := first.(head := prepend.mergedHead);
        }
        turnSections := turnSections[0 := first.(rows := prepend.mergedRows + first.rows)];
      }
      var newSections: seq<Section> := [];
      var i := 0;
      while i < |prepend.newTurns|
        invariant 0 <= i <= |prepend.newTurns|
        invariant newSections == Mirror(prepend.newTurns)[..i]
        modifies {}
      {
        newSections := newSections + [Rendered(prepend.newTurns[i])];
        i := i + 1;
      }
      turnSections := newSections + turnSections;
    }
  }
}
