/**
 What a trim does to the tool-call index and to the unresolved counts, and exactly when it leaves them
 right. The rows it drops are known from the turns and the cap, before it drops them.
 */
module TraceDropped {
  import opened TraceRecords
  import opened TraceStoreCore
  import opened TraceConfluence
  import opened TraceAgreement

  // ----- the dropped rows -----

  function RowsOfTurns(turns: seq<Turn>): seq<Row> {
    if turns == [] then [] else RowsOfTurns(turns[..|turns| - 1]) + TurnRows(turns[|turns| - 1])
  }

  /** The rows a trim to the cap drops, oldest first. */
  function DroppedRows(turns: seq<Turn>, cap: int): seq<Row> {
    DroppedTurnsInRange(turns, cap);
    var trim := TrimOf(turns, cap);
    RowsOfTurns(turns[..trim.droppedTurnCount])
      + if trim.droppedRowCount > 0 then turns[trim.droppedTurnCount].rows[..trim.droppedRowCount] else []
  }

  /** The records a trim to the cap keeps. */
  function KeptRecords(turns: seq<Turn>, cap: int): seq<Record> {
    Resident(Trimmed(View(turns, map[], map[]), cap).turns)
  }

  lemma {:induction false} TrimLooksAtTurns(g: View, cap: int)
    ensures Resident(Trimmed(g, cap).turns) == KeptRecords(g.turns, cap)
  {
    DroppedTurnsInRange(g.turns, cap);
    var d := TrimOf(g.turns, cap).droppedTurnCount;
    DropTurnsKeepsTurns(g, d);
    DropTurnsKeepsTurns(View(g.turns, map[], map[]), d);
  }

  lemma {:induction false} ForgetInTurn(calls: CallIndex, a: seq<Row>, b: seq<Row>)
    ensures ForgottenCalls(calls, a + b) == ForgottenCalls(ForgottenCalls(calls, a), b)
  {
    if b == [] {
      assert a + b == a;
    } else {
      var n := |b| - 1;
      assert (a + b)[..|a + b| - 1] == a + b[..n];
      ForgetInTurn(calls, a, b[..n]);
    }
  }

  lemma {:induction false} ReleaseInTurn(counts: Counts, a: seq<Row>, b: seq<Row>)
    ensures ReleasedCounts(counts, a + b) == ReleasedCounts(ReleasedCounts(counts, a), b)
  {
    if b == [] {
      assert a + b == a;
    } else {
      var n := |b| - 1;
      assert (a + b)[..|a + b| - 1] == a + b[..n];
      ReleaseInTurn(counts, a, b[..n]);
    }
  }

  lemma {:induction false} DroppedTurnsForget(g: View, count: nat)
    requires count <= |g.turns|
    ensures WithoutOldestTurns(g, count).calls == ForgottenCalls(g.calls, RowsOfTurns(g.turns[..count]))
    ensures WithoutOldestTurns(g, count).unresolved == ReleasedCounts(g.unresolved, RowsOfTurns(g.turns[..count]))
  {
    if count > 0 {
      DroppedTurnsForget(g, count - 1);
      assert g.turns[..count][..count - 1] == g.turns[..count - 1];
      var before, rows := RowsOfTurns(g.turns[..count - 1]), TurnRows(g.turns[count - 1]);
      ForgetInTurn(g.calls, before, rows);
      ReleaseInTurn(g.unresolved, before, rows);
    }
  }

  /** A trim forgets the calls and releases the references of the rows it drops, and of no others. */
  lemma {:induction false} TrimForgetsDropped(g: View, cap: int)
    ensures Trimmed(g, cap).calls == ForgottenCalls(g.calls, DroppedRows(g.turns, cap))
    ensures Trimmed(g, cap).unresolved == ReleasedCounts(g.unresolved, DroppedRows(g.turns, cap))
  {
    DroppedTurnsInRange(g.turns, cap);
    var trim := TrimOf(g.turns, cap);
    var d, k := trim.droppedTurnCount, trim.droppedRowCount;
    DroppedTurnsForget(g, d);
    DropTurnsKeepsTurns(g, d);
    var a := RowsOfTurns(g.turns[..d]);
    if k > 0 {
      var b := g.turns[d].rows[..k];
      ForgetInTurn(g.calls, a, b);
      ReleaseInTurn(g.unresolved, a, b);
    } else {
      assert a + [] == a;
    }
  }

  lemma {:induction false} ResidentOfDropped(turns: seq<Turn>, count: nat)
    requires count <= |turns|
    ensures Resident(turns) == RecordsOfRows(RowsOfTurns(turns[..count])) + Resident(turns[count..])
  {
    if count == 0 {
      assert turns[0..] == turns;
    } else {
      ResidentOfDropped(turns, count - 1);
      assert turns[..count][..count - 1] == turns[..count - 1];
      assert turns[count - 1..][1..] == turns[count..];
      RecordsOfRowsConcat(RowsOfTurns(turns[..count - 1]), TurnRows(turns[count - 1]));
    }
  }

  /** The records before a trim: whole turns that go, the head that stays with the oldest turn, rows of
      that turn that go, and the rest. */
  lemma {:induction false} TrimShape(g: View, cap: int)
    returns (gone: seq<Record>, head: seq<Record>, cut: seq<Record>, kept: seq<Record>)
    ensures Resident(g.turns) == gone + (head + (cut + kept))
    ensures RecordsOfRows(DroppedRows(g.turns, cap)) == gone + cut
    ensures Resident(Trimmed(g, cap).turns) == head + kept
    ensures HeadsStartTurns(g.turns) ==> forall r :: r in head ==> StartsTurn(r)
  {
    DroppedTurnsInRange(g.turns, cap);
    var trim := TrimOf(g.turns, cap);
    var d, k := trim.droppedTurnCount, trim.droppedRowCount;
    ResidentOfDropped(g.turns, d);
    DropTurnsKeepsTurns(g, d);
    gone := RecordsOfRows(RowsOfTurns(g.turns[..d]));
    if k > 0 {
      var rest := WithoutOldestTurns(g, d);
      ResidentAfterCut(rest, k);
      var turn := g.turns[d];
      head := RecordsOfRows(TurnRows(turn.(rows := [])));
      cut := RecordsOfRows(turn.rows[..k]);
      kept := RecordsOfRows(turn.rows[k..]) + Resident(rest.turns[1..]);
      RecordsOfRowsConcat(RowsOfTurns(g.turns[..d]), turn.rows[..k]);
      assert turn.head.Some? ==> head == [turn.head.value.record];
    } else {
      head, cut, kept := [], [], Resident(g.turns[d..]);
      assert RowsOfTurns(g.turns[..d]) + [] == RowsOfTurns(g.turns[..d]);
      assert [] + ([] + kept) == kept;
    }
  }

  // ----- the index -----

  /** No call that stays has the id of one that goes. */
  ghost predicate DropsWholeIds(turns: seq<Turn>, cap: int) {
    forall row, id :: row in DroppedRows(turns, cap) && IsCallOf(row.record, id) ==>
        id !in CallsOf(KeptRecords(turns, cap))
  }

  lemma {:induction false} NoCalls(records: seq<Record>)
    requires forall r :: r in records ==> !r.body.ToolCall?
    ensures CallsOf(records) == map[]
  {
    if records != [] {
      NoCalls(records[..|records| - 1]);
    }
  }

  lemma {:induction false} CallsAroundHead(gone: seq<Record>, head: seq<Record>, cut: seq<Record>, kept: seq<Record>)
    requires forall r :: r in head ==> StartsTurn(r)
    ensures CallsOf(gone + (head + (cut + kept))) == CallsOf(gone + cut) + CallsOf(head + kept)
  {
    NoCalls(head);
    CallsOfConcat(gone, head + (cut + kept));
    CallsOfConcat(head, cut + kept);
    CallsOfConcat(cut, kept);
    CallsOfConcat(gone, cut);
    CallsOfConcat(head, kept);
  }

  lemma {:induction false} CallsOfRows(rows: seq<Row>, id: string)
    ensures id in CallsOf(RecordsOfRows(rows)) <==> exists row :: row in rows && IsCallOf(row.record, id)
  {
    if rows != [] {
      var n := |rows| - 1;
      CallsOfRows(rows[..n], id);
      assert RecordsOfRows(rows)[..n] == RecordsOfRows(rows[..n]);
      assert forall row :: row in rows <==> row in rows[..n] || row == rows[n];
    }
  }

  /** A trim leaves an exact index exact if and only if no call that stays has the id of one that goes. */
  lemma {:induction false} TrimKeepsIndex(g: View, cap: int)
    requires IndexAgrees(g) && HeadsStartTurns(g.turns)
    ensures IndexAgrees(Trimmed(g, cap)) <==> DropsWholeIds(g.turns, cap)
  {
    var gone, head, cut, kept := TrimShape(g, cap);
    var dropped := DroppedRows(g.turns, cap);
    CallsAroundHead(gone, head, cut, kept);
    TrimForgetsDropped(g, cap);
    TrimLooksAtTurns(g, cap);
    ForgottenCallsExact(g.calls, dropped);
    var after, stay := Trimmed(g, cap).calls, CallsOf(head + kept);
    forall id
      ensures id in after <==> id in stay && !(exists row :: row in dropped && IsCallOf(row.record, id))
      ensures id in after ==> after[id] == stay[id]
    {
      CallsOfRows(dropped, id);
    }
    if DropsWholeIds(g.turns, cap) {
      assert after.Keys == stay.Keys;
    }
  }

  lemma {:induction false} TrimKeepsHeads(g: View, cap: int)
    requires HeadsStartTurns(g.turns)
    ensures HeadsStartTurns(Trimmed(g, cap).turns)
  {
    DroppedTurnsInRange(g.turns, cap);
    DropTurnsKeepsTurns(g, TrimOf(g.turns, cap).droppedTurnCount);
  }

  /** In particular where no two resident calls share an id. */
  lemma {:induction false} UniqueCallsGoWhole(g: View, cap: int)
    requires UniqueCalls(Resident(g.turns)) && HeadsStartTurns(g.turns)
    ensures DropsWholeIds(g.turns, cap)
  {
    var gone, head, cut, kept := TrimShape(g, cap);
    TrimLooksAtTurns(g, cap);
    var dropped := DroppedRows(g.turns, cap);
    NoCalls(head);
    CallsOfConcat(head, kept);
    assert gone + (head + (cut + kept)) == (gone + head + cut) + kept;
    UniqueParts(gone + head + cut, kept);
    CallsOfConcat(gone + head, cut);
    CallsOfConcat(gone, head);
    CallsOfConcat(gone, cut);
    forall row, id | row in dropped && IsCallOf(row.record, id)
      ensures id !in CallsOf(head + kept)
    {
      CallsOfRows(dropped, id);
    }
  }

  // ----- the counts -----

  /** The counts are exactly the resident rows that refer to each call the index lacks. */
  ghost predicate CountsExact(g: View) {
    forall id ::
      && (id in g.unresolved <==> id !in g.calls && References(Resident(g.turns), id) > 0)
      && (id in g.unresolved ==> g.unresolved[id] == References(Resident(g.turns), id))
  }

  /** Every count is positive and at most the number of resident references. */
  ghost predicate CountsBounded(g: View) {
    forall id :: id in g.unresolved ==> 0 < g.unresolved[id] <= References(Resident(g.turns), id)
  }

  lemma {:induction false} CountsExactAreBounded(g: View)
    requires CountsExact(g)
    ensures CountsBounded(g)
  {
  }

  /** The trim drops a call and keeps a row that refers to it. */
  ghost predicate Parts(g: View, cap: int, id: string) {
    && id in g.calls && References(KeptRecords(g.turns, cap), id) > 0
    && exists row :: row in DroppedRows(g.turns, cap) && IsCallOf(row.record, id)
  }

  /** Releasing dropped rows takes one off for each of them that refers to the call, never below none. */
  lemma {:induction false} ReleasedExact(counts: Counts, rows: seq<Row>, id: string)
    requires forall i :: i in counts ==> counts[i] > 0
    ensures forall i :: i in ReleasedCounts(counts, rows) ==> ReleasedCounts(counts, rows)[i] > 0
    ensures
      var left := CountOf(counts, id) - References(RecordsOfRows(rows), id);
      CountOf(ReleasedCounts(counts, rows), id) == if left > 0 then left else 0
  {
    if rows != [] {
      var n := |rows| - 1;
      ReleasedExact(counts, rows[..n], id);
      assert RecordsOfRows(rows) == RecordsOfRows(rows[..n]) + [rows[n].record];
      ReferencesConcat(RecordsOfRows(rows[..n]), [rows[n].record], id);
      assert [rows[n].record][1..] == [];
    }
  }

  lemma {:induction false} ReferencesAroundHead(g: View, cap: int, id: string)
    ensures References(Resident(g.turns), id)
         == References(RecordsOfRows(DroppedRows(g.turns, cap)), id) + References(Resident(Trimmed(g, cap).turns), id)
  {
    var gone, head, cut, kept := TrimShape(g, cap);
    ReferencesConcat(gone, head + (cut + kept), id);
    ReferencesConcat(head, cut + kept, id);
    ReferencesConcat(cut, kept, id);
    ReferencesConcat(gone, cut, id);
    ReferencesConcat(head, kept, id);
  }

  lemma {:induction false} CountAfterTrim(g: View, cap: int, id: string)
    requires forall i :: i in g.unresolved ==> g.unresolved[i] > 0
    ensures
      var after := Trimmed(g, cap);
      var left := CountOf(g.unresolved, id) - References(Resident(g.turns), id) + References(Resident(after.turns), id);
      && (id in after.unresolved <==> left > 0)
      && (id in after.unresolved ==> after.unresolved[id] == left)
  {
    TrimForgetsDropped(g, cap);
    ReleasedExact(g.unresolved, DroppedRows(g.turns, cap), id);
    ReferencesAroundHead(g, cap, id);
  }

  /** A trim leaves exact counts exact if and only if it parts no call from a row that refers to it. */
  lemma {:induction false} TrimKeepsCounts(g: View, cap: int)
    requires CountsExact(g)
    ensures CountsExact(Trimmed(g, cap)) <==> !(exists id :: Parts(g, cap, id))
  {
    var after := Trimmed(g, cap);
    TrimForgetsDropped(g, cap);
    TrimLooksAtTurns(g, cap);
    ForgottenCallsExact(g.calls, DroppedRows(g.turns, cap));
    forall id
      ensures Parts(g, cap, id) <==> id in g.calls && id !in after.calls && References(Resident(after.turns), id) > 0
      ensures id !in g.calls ==>
                && (id in after.unresolved <==> References(Resident(after.turns), id) > 0)
                && (id in after.unresolved ==> after.unresolved[id] == References(Resident(after.turns), id))
      ensures id in g.calls ==> id !in after.unresolved
    {
      CountAfterTrim(g, cap, id);
      ReferencesAroundHead(g, cap, id);
    }
    if CountsExact(after) {
      forall id
        ensures !Parts(g, cap, id)
      {
        assert id in after.unresolved <==> id !in after.calls && References(Resident(after.turns), id) > 0;
      }
    }
  }

  lemma {:induction false} GroupedCountsExact(records: seq<Record>)
    ensures CountsExact(Grouped(records))
  {
    GroupedAgrees(records);
  }

  /** A page at the end leaves exact counts exact if and only if it brings no missing call that a
      resident row refers to. */
  lemma {:induction false} AppendKeepsCounts(g: View, records: seq<Record>)
    requires CountsExact(g)
    ensures CountsExact(Appended(g, records)) <==>
              forall id :: id in CallsOf(records) && id !in g.calls ==> References(Resident(g.turns), id) == 0
  {
    var calls := g.calls + CallsOf(records);
    AppendAddsRecords(g.turns, records, calls);
    var after := Appended(g, records);
    forall id
      ensures References(Resident(after.turns), id) == References(Resident(g.turns), id) + References(records, id)
      ensures id in after.unresolved <==> id in g.unresolved || (id !in calls && References(records, id) > 0)
      ensures CountOf(after.unresolved, id)
           == CountOf(g.unresolved, id) + (if id in calls then 0 else References(records, id))
    {
      RetainRecordsExact(g.unresolved, records, calls, id);
      ReferencesConcat(Resident(g.turns), records, id);
    }
    if CountsExact(after) {
      forall id | id in CallsOf(records) && id !in g.calls
        ensures References(Resident(g.turns), id) == 0
      {
        assert id !in after.unresolved;
      }
    }
  }

  lemma {:induction false} AppendKeepsBound(g: View, records: seq<Record>)
    requires CountsBounded(g)
    ensures CountsBounded(Appended(g, records))
  {
    var calls := g.calls + CallsOf(records);
    AppendAddsRecords(g.turns, records, calls);
    var after := Appended(g, records);
    forall id | id in after.unresolved
      ensures 0 < after.unresolved[id] <= References(Resident(after.turns), id)
    {
      RetainRecordsExact(g.unresolved, records, calls, id);
      ReferencesConcat(Resident(g.turns), records, id);
    }
  }

  /** Whatever a trim parts, no count ever exceeds the resident references it stands for. */
  lemma {:induction false} TrimKeepsBound(g: View, cap: int)
    requires CountsBounded(g)
    ensures CountsBounded(Trimmed(g, cap))
  {
    var after := Trimmed(g, cap);
    forall id | id in after.unresolved
      ensures 0 < after.unresolved[id] <= References(Resident(after.turns), id)
    {
      CountAfterTrim(g, cap, id);
      assert id in g.unresolved ==> g.unresolved[id] <= References(Resident(g.turns), id);
      ReferencesAroundHead(g, cap, id);
    }
  }
}
