/**
 What the row cap takes away, and what is left of a slice once rows were cut: a suffix of its turns,
 the oldest of them perhaps without its oldest rows but always with its head.
 */
module TraceTrim {
  import opened TraceRecords
  import opened TraceStoreCore
  import opened TraceStarts
  import opened TraceAgreement
  import opened Wrappers

  // ----- the bound -----

  lemma {:induction false} DropsUntilTheRestFits(turns: seq<Turn>, cap: int)
    ensures DroppedTurns(turns, cap) <= |turns|
    ensures forall d :: 0 <= d < DroppedTurns(turns, cap) ==> ResidentRowCount(turns[d..]) > cap
    ensures DroppedTurns(turns, cap) + 1 < |turns| ==> ResidentRowCount(turns[DroppedTurns(turns, cap)..]) <= cap
    ensures DroppedTurns(turns, cap) < |turns| || turns == []
  {
    if |turns| > 1 && ResidentRowCount(turns) > cap {
      DropsUntilTheRestFits(turns[1..], cap);
      forall d | 0 <= d < DroppedTurns(turns, cap)
        ensures ResidentRowCount(turns[d..]) > cap
      {
        if d > 0 {
          assert turns[d..] == turns[1..][d - 1..];
        }
      }
      var rest := DroppedTurns(turns[1..], cap);
      assert turns[1..][rest..] == turns[1 + rest..];
    } else {
      assert turns[0..] == turns;
    }
  }

  lemma {:induction false} RowCountAfterCut(g: View, count: nat)
    requires g.turns != [] && count <= |g.turns[0].rows|
    ensures ResidentRowCount(WithoutOldestRows(g, count).turns) == ResidentRowCount(g.turns) - count
  {
    if count > 0 {
      assert WithoutOldestRows(g, count).turns[1..] == g.turns[1..];
    }
  }

  /** A turn that is the only one left loses exactly the excess: its rows are enough to cover it. */
  lemma {:induction false} CutReachesTheCap(turns: seq<Turn>, cap: int)
    requires |turns| == 1 && cap >= 1 && ResidentRowCount(turns) > cap
    ensures CutRows(turns, ResidentRowCount(turns) - cap) == ResidentRowCount(turns) - cap
  {
    assert turns[1..] == [];
  }

  /** Trimming to a cap of at least one: the rest is within the cap; only the oldest turns go, and
      none once the rest fits; rows are cut only from a turn that is alone, and then down to the cap. */
  lemma {:induction false} TrimBound(g: View, cap: int)
    requires cap >= 1
    ensures
      var trim := TrimOf(g.turns, cap);
      var d, k := trim.droppedTurnCount, trim.droppedRowCount;
      && d <= |g.turns| && (k > 0 ==> d < |g.turns| && k <= |g.turns[d].rows|)
      && (forall e :: 0 <= e < d ==> ResidentRowCount(g.turns[e..]) > cap)
      && Trimmed(g, cap).turns == WithoutOldestRows(View(g.turns[d..], map[], map[]), k).turns
      && ResidentRowCount(Trimmed(g, cap).turns) <= cap
      && (k > 0 ==> d == |g.turns| - 1 && ResidentRowCount(Trimmed(g, cap).turns) == cap)
      && (ResidentRowCount(g.turns) <= cap ==> d == 0 && k == 0)
  {
    DropsUntilTheRestFits(g.turns, cap);
    DroppedTurnsInRange(g.turns, cap);
    var d := DroppedTurns(g.turns, cap);
    DropTurnsKeepsTurns(g, d);
    var kept := g.turns[d..];
    assert d == 0 ==> kept == g.turns;
    if kept != [] {
      var excess := ResidentRowCount(kept) - cap;
      RowCountAfterCut(WithoutOldestTurns(g, d), CutRows(kept, excess));
      if excess > 0 {
        CutReachesTheCap(kept, cap);
      }
    }
  }

  // ----- a trimmed window -----

  /** A turn as the log sees it: its records. */
  datatype Span = Span(head: Option<Record>, rows: seq<Record>)

  function SpanOf(turn: Turn): Span {
    Span(if turn.head.Some? then Some(turn.head.value.record) else None, RecordsOfRows(turn.rows))
  }

  function Spans(turns: seq<Turn>): (spans: seq<Span>)
    ensures |spans| == |turns|
  {
    seq(|turns|, i requires 0 <= i < |turns| => SpanOf(turns[i]))
  }

  function SpansWith(spans: seq<Span>, r: Record): seq<Span> {
    if StartsTurn(r) then spans + [Span(Some(r), [])]
    else if spans == [] then [Span(None, [r])]
    else
      var last := spans[|spans| - 1];
      spans[|spans| - 1 := last.(rows := last.rows + [r])]
  }

  function SpansAfter(spans: seq<Span>, records: seq<Record>): seq<Span> {
    if records == [] then spans
    else SpansWith(SpansAfter(spans, records[..|records| - 1]), records[|records| - 1])
  }

  lemma {:induction false} SpansOfWithRecord(turns: seq<Turn>, row: Row)
    ensures Spans(WithRecord(turns, row)) == SpansWith(Spans(turns), row.record)
  {
    if !StartsTurn(row.record) {
      if turns == [] {
        var turn := WithRow(NewTurn(None, row.record.ts), row);
        assert turn.rows == [row];
        assert RecordsOfRows([row]) == [row.record];
        assert Spans([turn]) == [SpanOf(turn)];
      } else {
        RecordsOfRowsConcat(turns[|turns| - 1].rows, [row]);
        assert RecordsOfRows([row]) == [row.record];
      }
    } else {
      assert RecordsOfRows([]) == [];
    }
  }

  lemma {:induction false} SpansOfWithRecords(turns: seq<Turn>, records: seq<Record>, calls: CallIndex)
    ensures Spans(WithRecords(turns, records, calls)) == SpansAfter(Spans(turns), records)
  {
    if records != [] {
      var n := |records| - 1;
      SpansOfWithRecords(turns, records[..n], calls);
      SpansOfWithRecord(WithRecords(turns, records[..n], calls), RowOf(records[n], calls));
    }
  }

  /** The spans from `d` on, the first of them without its first `k` rows. */
  function Cut(spans: seq<Span>, d: nat, k: nat): seq<Span>
    requires d < |spans| && k <= |spans[d].rows|
  {
    [spans[d].(rows := spans[d].rows[k..])] + spans[d + 1..]
  }

  lemma {:induction false} CutThenAdd(spans: seq<Span>, d: nat, k: nat, r: Record)
    requires d < |spans| && k <= |spans[d].rows|
    ensures d < |SpansWith(spans, r)| && k <= |SpansWith(spans, r)[d].rows|
    ensures SpansWith(Cut(spans, d, k), r) == Cut(SpansWith(spans, r), d, k)
  {
    if !StartsTurn(r) && d == |spans| - 1 {
      assert (spans[d].rows + [r])[k..] == spans[d].rows[k..] + [r];
    }
  }

  lemma {:induction false} CutThenAppend(spans: seq<Span>, d: nat, k: nat, records: seq<Record>)
    requires d < |spans| && k <= |spans[d].rows|
    ensures d < |SpansAfter(spans, records)| && k <= |SpansAfter(spans, records)[d].rows|
    ensures SpansAfter(Cut(spans, d, k), records) == Cut(SpansAfter(spans, records), d, k)
  {
    if records != [] {
      var n := |records| - 1;
      CutThenAppend(spans, d, k, records[..n]);
      CutThenAdd(SpansAfter(spans, records[..n]), d, k, records[n]);
    }
  }

  lemma {:induction false} CutTwice(spans: seq<Span>, d: nat, k: nat, d2: nat, k2: nat)
    requires d < |spans| && k <= |spans[d].rows|
    requires d2 < |Cut(spans, d, k)| && k2 <= |Cut(spans, d, k)[d2].rows|
    ensures
      var k' := if d2 == 0 then k + k2 else k2;
      k' <= |spans[d + d2].rows| && Cut(Cut(spans, d, k), d2, k2) == Cut(spans, d + d2, k')
  {
    if d2 == 0 {
      assert spans[d].rows[k..][k2..] == spans[d].rows[k + k2..];
    }
  }

  /** Some turns may say that rows are missing: only the oldest one, and exactly when it lost some. */
  ghost predicate FlagsAgree(turns: seq<Turn>, isCut: bool) {
    && (turns != [] ==> turns[0].hasTrimmedRows == isCut)
    && (forall i :: 0 < i < |turns| ==> !turns[i].hasTrimmedRows)
  }

  ghost predicate IsCut(turns: seq<Turn>, spans: seq<Span>, d: nat, k: nat) {
    && d < |spans| && k <= |spans[d].rows|
    && Spans(turns) == Cut(spans, d, k)
    && FlagsAgree(turns, k > 0)
  }

  lemma {:induction false} FlagsAfterAppend(turns: seq<Turn>, records: seq<Record>, calls: CallIndex, isCut: bool)
    requires turns != [] && FlagsAgree(turns, isCut)
    ensures WithRecords(turns, records, calls) != [] && FlagsAgree(WithRecords(turns, records, calls), isCut)
  {
    if records != [] {
      FlagsAfterAppend(turns, records[..|records| - 1], calls, isCut);
    }
  }

  /** A page appended to a trimmed window leaves the same cut of the longer slice. */
  lemma {:induction false} AppendKeepsCut(
    turns: seq<Turn>, spans: seq<Span>, d: nat, k: nat, records: seq<Record>, calls: CallIndex)
    requires IsCut(turns, spans, d, k)
    ensures IsCut(WithRecords(turns, records, calls), SpansAfter(spans, records), d, k)
  {
    SpansOfWithRecords(turns, records, calls);
    CutThenAppend(spans, d, k, records);
    FlagsAfterAppend(turns, records, calls, k > 0);
  }

  lemma {:induction false} SpansAfterTrim(g: View, cap: int)
    requires g.turns != []
    ensures
      var trim := TrimOf(g.turns, cap);
      var d, k := trim.droppedTurnCount, trim.droppedRowCount;
      && d < |g.turns| && k <= |g.turns[d].rows|
      && Spans(Trimmed(g, cap).turns) == Cut(Spans(g.turns), d, k)
  {
    DroppedTurnsInRange(g.turns, cap);
    var trim := TrimOf(g.turns, cap);
    var d, k := trim.droppedTurnCount, trim.droppedRowCount;
    DropTurnsKeepsTurns(g, d);
    SpansAfterCut(WithoutOldestTurns(g, d), k);
    assert Spans(g.turns[d..]) == Spans(g.turns)[d..];
  }

  lemma {:induction false} SpansAfterCut(g: View, k: nat)
    requires g.turns != [] && k <= |g.turns[0].rows|
    ensures Spans(WithoutOldestRows(g, k).turns)
         == [Spans(g.turns)[0].(rows := Spans(g.turns)[0].rows[k..])] + Spans(g.turns)[1..]
  {
    var rows := g.turns[0].rows;
    assert RecordsOfRows(rows[k..]) == RecordsOfRows(rows)[k..];
    if k == 0 {
      assert rows[0..] == rows;
    }
  }

  /** Trimming a window that is a cut of some slice leaves a further cut of the same slice. */
  lemma {:induction false} TrimKeepsCut(g: View, spans: seq<Span>, d: nat, k: nat, cap: int)
    requires IsCut(g.turns, spans, d, k)
    ensures
      var trim := TrimOf(g.turns, cap);
      var d2, k2 := trim.droppedTurnCount, trim.droppedRowCount;
      IsCut(Trimmed(g, cap).turns, spans, d + d2, if d2 == 0 then k + k2 else k2)
  {
    SpansAfterTrim(g, cap);
    var trim := TrimOf(g.turns, cap);
    var d2, k2 := trim.droppedTurnCount, trim.droppedRowCount;
    CutTwice(spans, d, k, d2, k2);
    DropTurnsKeepsTurns(g, d2);
  }

  // ----- start times of a trimmed window -----

  lemma {:induction false} SameSpans(xs: seq<Turn>, ys: seq<Turn>)
    requires SameButStarts(xs, ys)
    ensures Spans(xs) == Spans(ys)
  {
    forall i | 0 <= i < |xs|
      ensures SpanOf(xs[i]) == SpanOf(ys[i])
    {
      assert SameButStart(xs[i], ys[i]);
    }
  }

  /** Every turn from `d` on starts within the turn it is in the whole grouping, cut rows included. */
  ghost predicate StartsKept(turns: seq<Turn>, whole: seq<Turn>, d: nat) {
    && d + |turns| == |whole|
    && forall i :: 0 <= i < |turns| ==> StartWithin(turns[i].startedAt, TurnRows(whole[d + i]))
  }

  lemma {:induction false} FittingStartsAreKept(turns: seq<Turn>, whole: seq<Turn>)
    requires SameButStarts(turns, whole) && StartsFit(turns)
    ensures StartsKept(turns, whole, 0)
  {
    forall i | 0 <= i < |turns|
      ensures StartWithin(turns[i].startedAt, TurnRows(whole[i]))
    {
      assert SameButStart(turns[i], whole[i]) && StartFits(turns[i]);
      assert TurnRows(turns[i]) == TurnRows(whole[i]);
    }
  }

  lemma {:induction false} AddKeepsStartsKept(turns: seq<Turn>, whole: seq<Turn>, d: nat, row: Row, other: Row)
    requires StartsKept(turns, whole, d) && turns != [] && row.record == other.record
    ensures StartsKept(WithRecord(turns, row), WithRecord(whole, other), d)
  {
    if StartsTurn(row.record) {
      assert TurnRows(NewTurn(Some(other), row.record.ts))[0] == other;
    } else {
      var last := whole[|whole| - 1];
      MoreRowsFit(turns[|turns| - 1].startedAt, TurnRows(last), [other]);
      assert TurnRows(WithRow(last, other)) == TurnRows(last) + [other];
    }
  }

  lemma {:induction false} AppendKeepsStartsKept(
    turns: seq<Turn>, whole: seq<Turn>, d: nat, records: seq<Record>, calls: CallIndex, all: CallIndex)
    requires StartsKept(turns, whole, d) && turns != []
    ensures StartsKept(WithRecords(turns, records, calls), WithRecords(whole, records, all), d)
    ensures WithRecords(turns, records, calls) != []
  {
    if records != [] {
      var n := |records| - 1;
      AppendKeepsStartsKept(turns, whole, d, records[..n], calls, all);
      AddKeepsStartsKept(WithRecords(turns, records[..n], calls), WithRecords(whole, records[..n], all), d,
                         RowOf(records[n], calls), RowOf(records[n], all));
    }
  }

  lemma {:induction false} TrimKeepsStartTimes(g: View, cap: int)
    ensures
      var after, d := Trimmed(g, cap).turns, TrimOf(g.turns, cap).droppedTurnCount;
      && d + |after| == |g.turns|
      && forall i :: 0 <= i < |after| ==> after[i].startedAt == g.turns[d + i].startedAt
  {
    DroppedTurnsInRange(g.turns, cap);
    DropTurnsKeepsTurns(g, TrimOf(g.turns, cap).droppedTurnCount);
  }

  lemma {:induction false} StartsKeptOfLater(turns: seq<Turn>, later: seq<Turn>, whole: seq<Turn>, d: nat, d2: nat)
    requires StartsKept(turns, whole, d) && d2 + |later| == |turns|
    requires forall i :: 0 <= i < |later| ==> later[i].startedAt == turns[d2 + i].startedAt
    ensures StartsKept(later, whole, d + d2)
  {
    forall i | 0 <= i < |later|
      ensures StartWithin(later[i].startedAt, TurnRows(whole[d + d2 + i]))
    {
      assert StartWithin(turns[d2 + i].startedAt, TurnRows(whole[d + (d2 + i)]));
    }
  }

  lemma {:induction false} TrimKeepsStartsKept(g: View, whole: seq<Turn>, d: nat, cap: int)
    requires StartsKept(g.turns, whole, d)
    ensures StartsKept(Trimmed(g, cap).turns, whole, d + TrimOf(g.turns, cap).droppedTurnCount)
  {
    TrimKeepsStartTimes(g, cap);
    StartsKeptOfLater(g.turns, Trimmed(g, cap).turns, whole, d, TrimOf(g.turns, cap).droppedTurnCount);
  }

  // ----- the same, on records -----

  function SpanRecords(span: Span): seq<Record> {
    (if span.head.Some? then [span.head.value] else []) + span.rows
  }

  function Flat(spans: seq<Span>): seq<Record> {
    if spans == [] then [] else SpanRecords(spans[0]) + Flat(spans[1..])
  }

  lemma {:induction false} FlatOfSpans(turns: seq<Turn>)
    ensures Flat(Spans(turns)) == Resident(turns)
  {
    if turns != [] {
      FlatOfSpans(turns[1..]);
      assert Spans(turns)[1..] == Spans(turns[1..]);
      assert SpanRecords(SpanOf(turns[0])) == RecordsOfRows(TurnRows(turns[0]));
    }
  }

  lemma {:induction false} FlatSplit(spans: seq<Span>, d: nat)
    requires d <= |spans|
    ensures Flat(spans) == Flat(spans[..d]) + Flat(spans[d..])
  {
    if d == 0 {
      assert spans[0..] == spans;
    } else {
      FlatSplit(spans[1..], d - 1);
      assert spans[1..][..d - 1] == spans[..d][1..];
      assert spans[1..][d - 1..] == spans[d..];
    }
  }

  function KeptHead(turns: seq<Turn>): seq<Record> {
    if turns != [] && turns[0].head.Some? then [turns[0].head.value.record] else []
  }

  /** `resident` is what is left of `slice` when everything before `from` went, then `head` stayed,
      then `k` records went. */
  ghost predicate IsRemainder(resident: seq<Record>, slice: seq<Record>, from: nat, head: seq<Record>, k: nat) {
    && from + |head| + k <= |slice|
    && slice[from..from + |head|] == head
    && resident == head + slice[from + |head| + k..]
  }

  lemma {:induction false} RemainderOfSpan(
    before: seq<Record>, head: seq<Record>, rows: seq<Record>, k: nat, later: seq<Record>)
    requires k <= |rows|
    ensures IsRemainder((head + rows[k..]) + later, before + ((head + rows) + later), |before|, head, k)
  {
    var slice := before + ((head + rows) + later);
    assert slice[|before| + |head| + k..] == rows[k..] + later;
    assert (head + rows[k..]) + later == head + (rows[k..] + later);
  }

  lemma {:induction false} FlatAround(spans: seq<Span>, d: nat)
    requires d < |spans|
    ensures Flat(spans) == Flat(spans[..d]) + (SpanRecords(spans[d]) + Flat(spans[d + 1..]))
  {
    FlatSplit(spans, d);
    assert spans[d..][1..] == spans[d + 1..];
  }

  lemma {:induction false} FlatOfCut(spans: seq<Span>, d: nat, k: nat)
    requires d < |spans| && k <= |spans[d].rows|
    ensures Flat(Cut(spans, d, k)) == SpanRecords(spans[d].(rows := spans[d].rows[k..])) + Flat(spans[d + 1..])
  {
    assert Cut(spans, d, k)[1..] == spans[d + 1..];
  }

  /** The resident records of a cut: those of the slice from some point on and, when rows of the
      oldest turn went missing, before them the head that turn kept. */
  lemma {:induction false} CutIsRemainder(turns: seq<Turn>, spans: seq<Span>, d: nat, k: nat)
    requires IsCut(turns, spans, d, k)
    ensures IsRemainder(Resident(turns), Flat(spans), |Flat(spans[..d])|, KeptHead(turns), k)
  {
    FlatAround(spans, d);
    FlatOfCut(spans, d, k);
    FlatOfSpans(turns);
    assert Spans(turns)[0] == SpanOf(turns[0]);
    RemainderOfSpan(Flat(spans[..d]), KeptHead(turns), spans[d].rows, k, Flat(spans[d + 1..]));
  }
}
