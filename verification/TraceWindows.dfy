/**
 A trace window against the log. A page is honest when it carries exactly the records of its session's
 log between the two offsets it names. A window that takes honest pages in is the grouping of the log
 between its own offsets, until rows are first cut; from then on it is what is left of that grouping
 after its oldest rows went.
 */
module TraceWindows {
  import opened TraceRecords
  import opened TraceStoreCore
  import opened TraceStarts
  import opened TraceConfluence
  import opened TraceAgreement
  import opened TraceDropped
  import opened TraceTrim
  import opened TraceStoreProtocol

  /** A session's log, all of it, as it will ever be appended to; an offset into the file falls
      before some record. Nothing is asked of its clock. */
  datatype Log = Log(records: seq<Record>, recordAt: int -> nat)

  ghost predicate ValidLog(log: Log) {
    && Disciplined(log.records)
    && (forall at :: log.recordAt(at) <= |log.records|)
    && (forall a, b :: a <= b ==> log.recordAt(a) <= log.recordAt(b))
  }

  ghost function Slice(log: Log, start: int, next: int): seq<Record>
    requires ValidLog(log) && start <= next
  {
    log.records[log.recordAt(start)..log.recordAt(next)]
  }

  ghost predicate Honest(reply: Reply, logs: string -> Log)
    requires ValidLog(logs(reply.id))
  {
    !reply.reset && reply.start <= reply.next ==> reply.records == Slice(logs(reply.id), reply.start, reply.next)
  }

  lemma {:induction false} SlicesMeet(log: Log, a: int, b: int, c: int)
    requires ValidLog(log) && a <= b <= c
    ensures Slice(log, a, b) + Slice(log, b, c) == Slice(log, a, c)
    ensures Disciplined(Slice(log, a, c))
  {
    assert log.recordAt(a) <= log.recordAt(b) <= log.recordAt(c) <= |log.records|;
    DisciplinedSlice(log.records, log.recordAt(a), log.recordAt(c));
  }

  // ----- labels -----

  /** A row that shows a tool call shows the one the slice defines. */
  ghost predicate LabelsAgree(turns: seq<Turn>, calls: CallIndex) {
    forall turn, row :: turn in turns && row in TurnRows(turn) && row.resolved.Some? ==> row == RowOf(row.record, calls)
  }

  lemma {:induction false} LabelsAfterAppend(turns: seq<Turn>, records: seq<Record>, calls: CallIndex, all: CallIndex)
    requires LabelsAgree(turns, all)
    requires forall id :: id in calls ==> id in all && calls[id] == all[id]
    ensures LabelsAgree(WithRecords(turns, records, calls), all)
  {
    if records != [] {
      var n := |records| - 1;
      LabelsAfterAppend(turns, records[..n], calls, all);
      var before, row := WithRecords(turns, records[..n], calls), RowOf(records[n], calls);
      var after := WithRecord(before, row);
      forall turn, r | turn in after && r in TurnRows(turn) && r.resolved.Some?
        ensures r == RowOf(r.record, all)
      {
        if turn !in before {
          assert r == row || (before != [] && r in TurnRows(before[|before| - 1]));
        }
      }
    }
  }

  lemma {:induction false} LabelsAfterTrim(g: View, cap: int, all: CallIndex)
    requires LabelsAgree(g.turns, all)
    ensures LabelsAgree(Trimmed(g, cap).turns, all)
  {
    DroppedTurnsInRange(g.turns, cap);
    var trim := TrimOf(g.turns, cap);
    DropTurnsKeepsTurns(g, trim.droppedTurnCount);
    var kept, after := g.turns[trim.droppedTurnCount..], Trimmed(g, cap).turns;
    forall turn, r | turn in after && r in TurnRows(turn) && r.resolved.Some?
      ensures r == RowOf(r.record, all)
    {
      if turn !in kept {
        assert r in TurnRows(kept[0]);
      }
    }
  }

  lemma {:induction false} LabelsOfLongerSlice(turns: seq<Turn>, a: seq<Record>, b: seq<Record>)
    requires LabelsAgree(turns, CallsOf(a)) && Disciplined(a + b)
    ensures LabelsAgree(turns, CallsOf(a + b))
  {
    CallsOfConcat(a, b);
    DisciplinedNeighbours(a, b);
  }

  // ----- trimmed windows -----

  /** What is left of the grouping of a slice once its first d turns and the first k rows of the next one
      went. */
  ghost predicate IsCutOf(turns: seq<Turn>, slice: seq<Record>, d: nat, k: nat) {
    IsCut(turns, Spans(Grouped(slice).turns), d, k) && StartsKept(turns, Grouped(slice).turns, d)
  }

  /** Metrics, index, heads and labels are right, whatever was dropped. */
  ghost predicate SoundView(g: View, slice: seq<Record>) {
    && MetricsAgree(g.turns) && IndexAgrees(g) && HeadsStartTurns(g.turns)
    && LabelsAgree(g.turns, CallsOf(slice)) && CountsBounded(g)
  }

  ghost predicate TrimmedWindow(g: View, slice: seq<Record>) {
    SoundView(g, slice) && exists d: nat, k: nat :: (d > 0 || k > 0) && IsCutOf(g.turns, slice, d, k)
  }

  lemma {:induction false} GroupedLabels(slice: seq<Record>)
    ensures LabelsAgree(Grouped(slice).turns, CallsOf(slice))
  {
    assert EMPTY.calls + CallsOf(slice) == CallsOf(slice);
    LabelsAfterAppend([], slice, CallsOf(slice), CallsOf(slice));
  }

  lemma {:induction false} SameKeepsRows(xs: seq<Turn>, ys: seq<Turn>)
    requires SameButStarts(xs, ys)
    ensures Resident(xs) == Resident(ys)
    ensures forall x :: x in xs ==> exists y :: y in ys && SameButStart(x, y)
  {
    if xs != [] {
      SameKeepsRows(xs[1..], ys[1..]);
      assert SameButStart(xs[0], ys[0]);
      assert TurnRows(xs[0]) == TurnRows(ys[0]);
    }
    forall x | x in xs
      ensures exists y :: y in ys && SameButStart(x, y)
    {
      var i :| 0 <= i < |xs| && xs[i] == x;
      assert ys[i] in ys && SameButStart(x, ys[i]);
    }
  }

  /** A grouping of a slice, but for start times, has everything else right. */
  lemma {:induction false} GroupingIsSound(g: View, slice: seq<Record>)
    requires IsGroupingOf(g, slice)
    ensures SoundView(g, slice) && CountsExact(g) && Resident(g.turns) == slice
  {
    var whole := Grouped(slice);
    GroupedAgrees(slice);
    GroupedLabels(slice);
    SameKeepsRows(g.turns, whole.turns);
    forall turn | turn in g.turns
      ensures turn.metrics == Recount(TurnRows(turn)) && (turn.head.Some? ==> StartsTurn(turn.head.value.record))
      ensures forall row :: row in TurnRows(turn) && row.resolved.Some? ==> row == RowOf(row.record, CallsOf(slice))
    {
      var same :| same in whole.turns && SameButStart(turn, same);
      assert TurnRows(turn) == TurnRows(same);
    }
  }

  lemma {:induction false} WholeIsCut(g: View, slice: seq<Record>)
    requires IsGroupingOf(g, slice) && g.turns != []
    ensures IsCutOf(g.turns, slice, 0, 0)
  {
    var whole := Grouped(slice).turns;
    NewTurnsAreWhole(slice, EMPTY.calls + CallsOf(slice));
    SameSpans(g.turns, whole);
    FittingStartsAreKept(g.turns, whole);
    assert Spans(whole)[0].rows[0..] == Spans(whole)[0].rows;
    forall i | 0 <= i < |g.turns|
      ensures !g.turns[i].hasTrimmedRows
    {
      assert SameButStart(g.turns[i], whole[i]) && whole[i] in whole;
    }
  }

  lemma {:induction false} RemainderKeepsUniqueCalls(
    resident: seq<Record>, slice: seq<Record>, from: nat, head: seq<Record>, k: nat)
    requires Disciplined(slice) && IsRemainder(resident, slice, from, head, k)
    ensures UniqueCalls(resident)
  {
    forall i, j, id | 0 <= i < j < |resident| && IsCallOf(resident[j], id)
      ensures !IsCallOf(resident[i], id)
    {
      var i' := if i < |head| then from + i else from + k + i;
      var j' := if j < |head| then from + j else from + k + j;
      assert slice[from..from + |head|] == head;
      assert resident[i] == slice[i'] && resident[j] == slice[j'];
    }
  }

  lemma {:induction false} CutHasUniqueCalls(turns: seq<Turn>, slice: seq<Record>, d: nat, k: nat)
    requires Disciplined(slice) && IsCut(turns, Spans(Grouped(slice).turns), d, k)
    ensures UniqueCalls(Resident(turns))
  {
    var spans := Spans(Grouped(slice).turns);
    CutIsRemainder(turns, spans, d, k);
    FlatOfSpans(Grouped(slice).turns);
    GroupedAgrees(slice);
    RemainderKeepsUniqueCalls(Resident(turns), slice, |Flat(spans[..d])|, KeptHead(turns), k);
  }

  lemma {:induction false} TrimKeepsSound(g: View, slice: seq<Record>, cap: int)
    requires UniqueCalls(Resident(g.turns)) && SoundView(g, slice)
    ensures SoundView(Trimmed(g, cap), slice)
  {
    UniqueCallsGoWhole(g, cap);
    TrimKeepsIndex(g, cap);
    TrimKeepsHeads(g, cap);
    TrimKeepsMetrics(g, cap);
    TrimKeepsBound(g, cap);
    LabelsAfterTrim(g, cap, CallsOf(slice));
  }

  lemma {:induction false} TrimKeepsCutOf(g: View, slice: seq<Record>, d: nat, k: nat, cap: int)
    requires IsCutOf(g.turns, slice, d, k)
    ensures
      var trim := TrimOf(g.turns, cap);
      var d2, k2 := trim.droppedTurnCount, trim.droppedRowCount;
      IsCutOf(Trimmed(g, cap).turns, slice, d + d2, if d2 == 0 then k + k2 else k2)
  {
    TrimKeepsCut(g, Spans(Grouped(slice).turns), d, k, cap);
    TrimKeepsStartsKept(g, Grouped(slice).turns, d, cap);
  }

  /** Trimming the grouping of a slice, or what was left of it before, leaves a trimmed window. */
  lemma {:induction false} TrimLeavesWindow(g: View, slice: seq<Record>, d: nat, k: nat, cap: int)
    requires Disciplined(slice) && IsCutOf(g.turns, slice, d, k) && SoundView(g, slice)
    requires d > 0 || k > 0 || TrimOf(g.turns, cap) != Trim(0, 0)
    ensures TrimmedWindow(Trimmed(g, cap), slice)
  {
    CutHasUniqueCalls(g.turns, slice, d, k);
    TrimKeepsSound(g, slice, cap);
    TrimKeepsCutOf(g, slice, d, k, cap);
  }

  lemma {:induction false} AppendKeepsCutOf(g: View, a: seq<Record>, b: seq<Record>, d: nat, k: nat)
    requires LooksBack(a, b) && IsCutOf(g.turns, a, d, k)
    ensures IsCutOf(Appended(g, b).turns, a + b, d, k)
  {
    var whole, calls, all := Grouped(a), g.calls + CallsOf(b), Grouped(a).calls + CallsOf(b);
    AppendKeepsCut(g.turns, Spans(whole.turns), d, k, b, calls);
    AppendIsGrouping(a, b);
    SpansOfWithRecords(whole.turns, b, all);
    AppendKeepsStartsKept(g.turns, whole.turns, d, b, calls, all);
  }

  lemma {:induction false} AppendKeepsSound(g: View, a: seq<Record>, b: seq<Record>, d: nat, k: nat)
    requires Disciplined(a + b) && IsCutOf(g.turns, a, d, k) && SoundView(g, a)
    ensures SoundView(Appended(g, b), a + b)
  {
    var calls := g.calls + CallsOf(b);
    AppendKeepsMetrics(g.turns, b, calls);
    AppendKeepsIndex(g, b);
    HeadsStartAfterAppend(g.turns, b, calls);
    AppendKeepsBound(g, b);
    LabelsOfLongerSlice(g.turns, a, b);
    ResidentCallsAgree(g, a, b, d, k);
    LabelsAfterAppend(g.turns, b, calls, CallsOf(a + b));
  }

  lemma {:induction false} AppendToTrimmed(g: View, a: seq<Record>, b: seq<Record>)
    requires Disciplined(a + b) && TrimmedWindow(g, a)
    ensures TrimmedWindow(Appended(g, b), a + b)
  {
    DisciplinedNeighbours(a, b);
    var d: nat, k: nat :| (d > 0 || k > 0) && IsCutOf(g.turns, a, d, k);
    AppendKeepsCutOf(g, a, b, d, k);
    AppendKeepsSound(g, a, b, d, k);
  }

  /** What a trimmed window still holds are records of its slice. */
  lemma {:induction false} CutIsPart(turns: seq<Turn>, slice: seq<Record>, d: nat, k: nat)
    requires IsCutOf(turns, slice, d, k)
    ensures forall r :: r in Resident(turns) ==> r in slice
  {
    var spans := Spans(Grouped(slice).turns);
    CutIsRemainder(turns, spans, d, k);
    FlatOfSpans(Grouped(slice).turns);
    GroupedAgrees(slice);
    RemainderIsPart(Resident(turns), slice, |Flat(spans[..d])|, KeptHead(turns), k);
  }

  lemma {:induction false} CallIsUnique(records: seq<Record>, call: Record, id: string)
    requires UniqueCalls(records) && call in records && IsCallOf(call, id)
    ensures id in CallsOf(records) && CallsOf(records)[id] == call
  {
    CallsOfMembers(records);
    var i :| 0 <= i < |records| && records[i] == call;
    var j :| 0 <= j < |records| && records[j] == CallsOf(records)[id];
    assert i == j;
  }

  lemma {:induction false} RemainderIsPart(
    resident: seq<Record>, slice: seq<Record>, from: nat, head: seq<Record>, k: nat)
    requires IsRemainder(resident, slice, from, head, k)
    ensures forall r :: r in resident ==> r in slice
  {
    forall r | r in resident
      ensures r in slice
    {
      var i :| 0 <= i < |resident| && resident[i] == r;
      assert slice[from..from + |head|] == head;
      assert r == slice[if i < |head| then from + i else from + k + i];
    }
  }

  lemma {:induction false} PartCallsAgree(part: seq<Record>, records: seq<Record>)
    requires UniqueCalls(records) && forall r :: r in part ==> r in records
    ensures forall id :: id in CallsOf(part) ==> id in CallsOf(records) && CallsOf(part)[id] == CallsOf(records)[id]
  {
    CallsOfMembers(part);
    forall id | id in CallsOf(part)
      ensures id in CallsOf(records) && CallsOf(part)[id] == CallsOf(records)[id]
    {
      CallIsUnique(records, CallsOf(part)[id], id);
    }
  }

  /** The calls a trimmed window still knows are calls of its slice. */
  lemma {:induction false} ResidentCallsAgree(g: View, a: seq<Record>, b: seq<Record>, d: nat, k: nat)
    requires Disciplined(a + b) && IndexAgrees(g) && IsCutOf(g.turns, a, d, k)
    ensures forall id :: id in g.calls + CallsOf(b) ==>
              id in CallsOf(a + b) && (g.calls + CallsOf(b))[id] == CallsOf(a + b)[id]
  {
    DisciplinedNeighbours(a, b);
    CallsOfConcat(a, b);
    CutIsPart(g.turns, a, d, k);
    PartCallsAgree(Resident(g.turns), a);
  }

  /** A page brings no call that a resident row was missing. */
  lemma {:induction false} NoneWaitsForPage(resident: seq<Record>, a: seq<Record>, b: seq<Record>)
    requires LooksBack(a, b) && forall r :: r in resident ==> r in a
    ensures forall id :: id in CallsOf(b) ==> References(resident, id) == 0
  {
    forall id | id in CallsOf(b)
      ensures References(resident, id) == 0
    {
      ReferencesPositive(resident, id);
    }
  }

  // ----- the window against its log -----

  /** Until rows are first cut, the grouping of the slice between the offsets; after that, what is left
      of it. Either way every turn starts within the turn it is in the slice. */
  ghost predicate WindowAgrees(w: Window, log: Log)
    requires ValidLog(log)
  {
    w.hasLoadedOnce ==>
      && w.firstOffset <= w.nextOffset
      && var slice := Slice(log, w.firstOffset, w.nextOffset);
         if w.hasDroppedEarliestRows then TrimmedWindow(w.grouping, slice) else IsGroupingOf(w.grouping, slice)
  }

  lemma {:induction false} TrimAgrees(w: Window, log: Log)
    requires ValidLog(log) && w.hasLoadedOnce && WindowAgrees(w, log)
    ensures WindowAgrees(WindowTrimmed(w), log)
  {
    var slice := Slice(log, w.firstOffset, w.nextOffset);
    SlicesMeet(log, w.firstOffset, w.firstOffset, w.nextOffset);
    var g := w.grouping;
    if w.hasDroppedEarliestRows {
      var d: nat, k: nat :| (d > 0 || k > 0) && IsCutOf(g.turns, slice, d, k);
      TrimLeavesWindow(g, slice, d, k, MAX_RESIDENT_ROWS);
    } else if TrimOf(g.turns, MAX_RESIDENT_ROWS) != Trim(0, 0) {
      GroupingIsSound(g, slice);
      CountsExactAreBounded(g);
      WholeIsCut(g, slice);
      TrimLeavesWindow(g, slice, 0, 0, MAX_RESIDENT_ROWS);
    }
  }

  lemma {:induction false} SeedAgrees(w: Window, reply: Reply, log: Log)
    requires ValidLog(log) && reply.start <= reply.next
    requires w.grouping == EMPTY && !w.hasDroppedEarliestRows
    requires reply.records == Slice(log, reply.start, reply.next)
    ensures WindowAgrees(WindowReplied(w, Seed, reply), log)
  {
    var seeded := w.(filePath := reply.path, hasLoadedOnce := true, firstOffset := reply.start,
                     nextOffset := reply.next, grouping := Appended(w.grouping, reply.records));
    GroupedIsGrouping(reply.records);
    TrimAgrees(seeded, log);
  }

  lemma {:induction false} AppendAgrees(w: Window, reply: Reply, log: Log)
    requires ValidLog(log) && w.hasLoadedOnce && WindowAgrees(w, log)
    requires reply.start == w.nextOffset <= reply.next
    requires reply.records == Slice(log, reply.start, reply.next)
    ensures WindowAgrees(WindowReplied(w, AppendPage, reply), log)
  {
    SlicesMeet(log, w.firstOffset, w.nextOffset, reply.next);
    var slice := Slice(log, w.firstOffset, w.nextOffset);
    if w.hasDroppedEarliestRows {
      AppendToTrimmed(w.grouping, slice, reply.records);
    } else {
      DisciplinedNeighbours(slice, reply.records);
      AppendKeepsGrouping(w.grouping, slice, reply.records);
    }
    var grouping := Appended(w.grouping, reply.records);
    TrimAgrees(w.(filePath := reply.path, nextOffset := reply.next, grouping := grouping), log);
  }

  lemma {:induction false} PrependAgrees(w: Window, reply: Reply, log: Log)
    requires ValidLog(log) && w.hasLoadedOnce && WindowAgrees(w, log) && !w.hasDroppedEarliestRows
    requires reply.start <= reply.next == w.firstOffset
    requires reply.records == Slice(log, reply.start, reply.next)
    ensures WindowAgrees(WindowReplied(w, PrependPage, reply), log)
  {
    SlicesMeet(log, reply.start, w.firstOffset, w.nextOffset);
    var slice := Slice(log, w.firstOffset, w.nextOffset);
    DisciplinedNeighbours(reply.records, slice);
    PrependKeepsGrouping(w.grouping, reply.records, slice);
    var grouping := Prepended(w.grouping, reply.records);
    TrimAgrees(w.(filePath := reply.path, firstOffset := reply.start, grouping := grouping), log);
  }

  /** Where no record of a turn of the slice is older than the turn's first, every turn of the window
      starts exactly as it does in the slice grouped at once. */
  lemma {:induction false} WindowStartsExactly(g: View, slice: seq<Record>, d: nat, k: nat)
    requires IsCutOf(g.turns, slice, d, k) && TurnsStartFirst(slice)
    ensures forall i :: 0 <= i < |g.turns| ==> g.turns[i].startedAt == Grouped(slice).turns[d + i].startedAt
  {
    var whole, calls := Grouped(slice).turns, EMPTY.calls + CallsOf(slice);
    forall i | 0 <= i < |g.turns|
      ensures g.turns[i].startedAt == whole[d + i].startedAt
    {
      var lo, hi := TurnIsRun(slice, calls, d + i);
      StartIsPinned(g.turns[i].startedAt, whole[d + i], slice, lo, hi);
    }
  }
}
