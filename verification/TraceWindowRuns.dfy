/**
 The trace window over every run of the store: whatever the order of replies, late replies, timeouts,
 resets and selections, it agrees with the log of its session.
 */
module TraceWindowRuns {
  import opened TraceRecords
  import opened TraceStoreCore
  import opened TraceConfluence
  import opened TraceAgreement
  import opened TraceDropped
  import opened TraceTrim
  import opened TraceStoreProtocol
  import opened TraceStoreRuns
  import opened TraceWindows
  import opened Wrappers

  // ----- every run -----

  ghost predicate StoreAgrees(s: Store, logs: string -> Log)
    requires forall id :: ValidLog(logs(id))
  {
    s.selected.Some? ==> WindowAgrees(s.selected.value, logs(s.selected.value.sessionId))
  }

  ghost predicate HonestEvent(event: Event, logs: string -> Log)
    requires forall id :: ValidLog(logs(id))
  {
    event.Response? ==> Honest(event.reply, logs)
  }

  lemma {:induction false} SendingKeepsWindow(s: Store, isSurfaceShown: bool, around: Surroundings)
    ensures Requested(s, isSurfaceShown, around).selected == s.selected
    ensures Refreshed(s, around).selected == s.selected
    ensures EarlierRequested(s, around).selected == s.selected
  {
  }

  lemma {:induction false} SelectionAgrees(s: Store, canFallBack: bool, logs: string -> Log)
    requires forall id :: ValidLog(logs(id))
    requires StoreAgrees(s, logs)
    ensures StoreAgrees(SelectionApplied(s, canFallBack), logs)
  {
  }

  lemma {:induction false} TakenInAgrees(s: Store, reply: Reply, logs: string -> Log)
    requires forall id :: ValidLog(logs(id))
    requires SingleFlight(s) && StoreAgrees(s, logs) && Honest(reply, logs)
    requires OutcomeOf(s, reply).Seed? || OutcomeOf(s, reply).AppendPage? || OutcomeOf(s, reply).PrependPage?
    ensures StoreAgrees(TakenIn(s, reply), logs)
  {
    var w, log := s.selected.value, logs(reply.id);
    match OutcomeOf(s, reply)
    case Seed => SeedAgrees(w, reply, log);
    case AppendPage => AppendAgrees(w, reply, log);
    case PrependPage => PrependAgrees(w, reply, log);
  }

  lemma {:induction false} StepAgrees(s: Store, event: Event, around: Surroundings, logs: string -> Log)
    requires forall id :: ValidLog(logs(id))
    requires SingleFlight(s) && StoreAgrees(s, logs) && HonestEvent(event, logs)
    ensures StoreAgrees(Step(s, event, around), logs)
  {
    match event
    case Response(reply) =>
      RespondedCases(s, reply, around);
      var outcome := OutcomeOf(s, reply);
      SendingKeepsWindow(s, false, around);
      SendingKeepsWindow(Cleared(s).(failure := None), false, around);
      SendingKeepsWindow(ResetBy(s, reply), false, around);
      SendingKeepsWindow(Requested(ResetBy(s, reply), false, around), false, around);
      if outcome != Ignored && outcome != Stale && outcome != Reset {
        TakenInAgrees(s, reply, logs);
        SendingKeepsWindow(TakenIn(s, reply), false, around);
      }
    case SetSessions(sessions) =>
      var s1 := s.(options := Options(sessions));
      SelectionAgrees(s1, around.isLooking, logs);
      SendingKeepsWindow(SelectionApplied(s1, around.isLooking), false, around);
    case SelectSession(id) => SendingKeepsWindow(Started(s.(preselectedId := None), Some(id)), false, around);
    case ShowSelection =>
      SelectionAgrees(s, true, logs);
      SendingKeepsWindow(SelectionApplied(s, true), true, around);
    case _ => SendingKeepsWindow(s, false, around);
  }

  /** A window of the session is selected and has records. */
  predicate Holds(s: Store, id: string) {
    s.selected.Some? && s.selected.value.sessionId == id && s.selected.value.hasLoadedOnce
  }

  ghost predicate ShownLogKept(events: seq<(Event, Surroundings)>, logs: seq<string -> Log>, i: nat)
    requires i < |events| && |logs| == |events| + 1
  {
    forall id :: Holds(Run(events[..i + 1]), id) ==> logs[i + 1](id) == logs[i](id)
  }

  /** The logs at each event: all valid, each reply honest about those of its moment. A session's log may
      be replaced at any time at which the store holds no window of it, as it does after a reset. */
  ghost predicate LogsOf(events: seq<(Event, Surroundings)>, logs: seq<string -> Log>) {
    && |logs| == |events| + 1
    && (forall i, id :: 0 <= i < |logs| ==> ValidLog(logs[i](id)))
    && (forall i :: 0 <= i < |events| ==> HonestEvent(events[i].0, logs[i]))
    && (forall i: nat :: i < |events| ==> ShownLogKept(events, logs, i))
  }

  lemma {:induction false} LogsBefore(events: seq<(Event, Surroundings)>, logs: seq<string -> Log>)
    requires events != [] && LogsOf(events, logs)
    ensures LogsOf(events[..|events| - 1], logs[..|events|])
  {
    var n := |events| - 1;
    var front, before := events[..n], logs[..n + 1];
    forall i: nat | i < n
      ensures ShownLogKept(front, before, i)
    {
      assert ShownLogKept(events, logs, i) && front[..i + 1] == events[..i + 1];
    }
  }

  /** Over any order of replies, late replies, timeouts, resets and selections, and whatever logs are
      replaced when no window shows them, the window agrees with its session's log. */
  lemma {:induction false} WindowAgreement(events: seq<(Event, Surroundings)>, logs: seq<string -> Log>)
    requires LogsOf(events, logs)
    ensures StoreAgrees(Run(events), logs[|events|])
  {
    if events != [] {
      var n := |events| - 1;
      LogsBefore(events, logs);
      WindowAgreement(events[..n], logs[..n + 1]);
      RunKeepsSingleFlight(events[..n]);
      StepAgrees(Run(events[..n]), events[n].0, events[n].1, logs[n]);
      assert ShownLogKept(events, logs, n) && events[..n + 1] == events;
    }
  }

  /** In terms of records: what is resident is exactly the log between the window's offsets until rows
      are first cut, and after that a suffix of it, behind the head the oldest turn kept. */
  lemma {:induction false} ResidentRecords(events: seq<(Event, Surroundings)>, logs: seq<string -> Log>)
    requires LogsOf(events, logs)
    requires Run(events).selected.Some? && Run(events).selected.value.hasLoadedOnce
    ensures
      var w := Run(events).selected.value;
      && w.firstOffset <= w.nextOffset
      && var slice := Slice(logs[|events|](w.sessionId), w.firstOffset, w.nextOffset);
         if w.hasDroppedEarliestRows then
           exists from: nat, k: nat ::
             from + k > 0 && IsRemainder(Resident(w.grouping.turns), slice, from, KeptHead(w.grouping.turns), k)
         else Resident(w.grouping.turns) == slice
  {
    WindowAgreement(events, logs);
    var w := Run(events).selected.value;
    var slice := Slice(logs[|events|](w.sessionId), w.firstOffset, w.nextOffset);
    GroupedAgrees(slice);
    if w.hasDroppedEarliestRows {
      var spans := Spans(Grouped(slice).turns);
      var d: nat, k: nat :| (d > 0 || k > 0) && IsCutOf(w.grouping.turns, slice, d, k);
      CutIsRemainder(w.grouping.turns, spans, d, k);
      FlatOfSpans(Grouped(slice).turns);
      if d > 0 {
        EarlierSpansHoldRecords(slice, d);
      }
    } else {
      GroupingIsSound(w.grouping, slice);
    }
  }

  // ----- the unresolved counts -----

  ghost predicate StoreCountsExact(s: Store) {
    s.selected.Some? ==> CountsExact(s.selected.value.grouping)
  }

  predicate TakesIn(s: Store, event: Event) {
    && event.Response?
    && var outcome := OutcomeOf(s, event.reply);
       outcome.Seed? || outcome.AppendPage? || outcome.PrependPage?
  }

  /** The grouping a reply leaves before the trim that follows it. */
  function BeforeTrim(s: Store, reply: Reply): View
    requires TakesIn(s, Response(reply))
  {
    var g := s.selected.value.grouping;
    if OutcomeOf(s, reply).PrependPage? then Prepended(g, reply.records) else Appended(g, reply.records)
  }

  /** The event makes the store drop a call and keep a row that refers to it. */
  ghost predicate PartsCall(s: Store, event: Event) {
    TakesIn(s, event) && exists id :: Parts(BeforeTrim(s, event.reply), MAX_RESIDENT_ROWS, id)
  }

  lemma {:induction false} PageKeepsCounts(s: Store, reply: Reply, logs: string -> Log)
    requires forall id :: ValidLog(logs(id))
    requires SingleFlight(s) && StoreAgrees(s, logs) && Honest(reply, logs) && TakesIn(s, Response(reply))
    requires StoreCountsExact(s)
    ensures CountsExact(BeforeTrim(s, reply))
  {
    var w, log := s.selected.value, logs(reply.id);
    match OutcomeOf(s, reply)
    case Seed => GroupedCountsExact(reply.records);
    case AppendPage =>
      SlicesMeet(log, w.firstOffset, w.nextOffset, reply.next);
      var slice := Slice(log, w.firstOffset, w.nextOffset);
      DisciplinedNeighbours(slice, reply.records);
      WindowIsPart(w, slice);
      NoneWaitsForPage(Resident(w.grouping.turns), slice, reply.records);
      AppendKeepsCounts(w.grouping, reply.records);
    case PrependPage =>
      SlicesMeet(log, reply.start, w.firstOffset, w.nextOffset);
      var slice := Slice(log, w.firstOffset, w.nextOffset);
      DisciplinedNeighbours(reply.records, slice);
      PrependKeepsGrouping(w.grouping, reply.records, slice);
      GroupingIsSound(Prepended(w.grouping, reply.records), reply.records + slice);
  }

  lemma {:induction false} WindowIsPart(w: Window, slice: seq<Record>)
    requires if w.hasDroppedEarliestRows then TrimmedWindow(w.grouping, slice) else IsGroupingOf(w.grouping, slice)
    ensures forall r :: r in Resident(w.grouping.turns) ==> r in slice
  {
    if w.hasDroppedEarliestRows {
      var d: nat, k: nat :| (d > 0 || k > 0) && IsCutOf(w.grouping.turns, slice, d, k);
      CutIsPart(w.grouping.turns, slice, d, k);
    } else {
      GroupingIsSound(w.grouping, slice);
    }
  }

  lemma {:induction false} TakenInTrims(s: Store, reply: Reply, around: Surroundings)
    requires TakesIn(s, Response(reply))
    ensures
      var after := Step(s, Response(reply), around).selected;
      after.Some? && after.value.grouping == Trimmed(BeforeTrim(s, reply), MAX_RESIDENT_ROWS)
  {
    RespondedCases(s, reply, around);
    SendingKeepsWindow(TakenIn(s, reply), false, around);
  }

  lemma {:induction false} OtherRepliesKeepCounts(s: Store, reply: Reply, around: Surroundings)
    requires StoreCountsExact(s) && !TakesIn(s, Response(reply))
    ensures StoreCountsExact(Responded(s, reply, around))
  {
    RespondedCases(s, reply, around);
    SendingKeepsWindow(s, false, around);
    SendingKeepsWindow(Cleared(s).(failure := None), false, around);
    SendingKeepsWindow(ResetBy(s, reply), false, around);
    SendingKeepsWindow(Requested(ResetBy(s, reply), false, around), false, around);
  }

  lemma {:induction false} SelectionKeepsCounts(s: Store, canFallBack: bool)
    requires StoreCountsExact(s)
    ensures StoreCountsExact(SelectionApplied(s, canFallBack))
  {
  }

  lemma {:induction false} OtherStepsKeepCounts(s: Store, event: Event, around: Surroundings)
    requires StoreCountsExact(s) && !TakesIn(s, event)
    ensures StoreCountsExact(Step(s, event, around))
  {
    match event
    case Response(reply) => OtherRepliesKeepCounts(s, reply, around);
    case SetSessions(sessions) =>
      var s1 := s.(options := Options(sessions));
      SelectionKeepsCounts(s1, around.isLooking);
      SendingKeepsWindow(SelectionApplied(s1, around.isLooking), false, around);
    case SelectSession(id) => SendingKeepsWindow(Started(s.(preselectedId := None), Some(id)), false, around);
    case ShowSelection =>
      SelectionKeepsCounts(s, true);
      SendingKeepsWindow(SelectionApplied(s, true), true, around);
    case _ => SendingKeepsWindow(s, false, around);
  }

  /** An event leaves exact counts exact if and only if it parts no call from a row that refers to it. */
  lemma {:induction false} StepKeepsCounts(s: Store, event: Event, around: Surroundings, logs: string -> Log)
    requires forall id :: ValidLog(logs(id))
    requires SingleFlight(s) && StoreAgrees(s, logs) && HonestEvent(event, logs) && StoreCountsExact(s)
    ensures StoreCountsExact(Step(s, event, around)) <==> !PartsCall(s, event)
  {
    if TakesIn(s, event) {
      PageKeepsCounts(s, event.reply, logs);
      TakenInTrims(s, event.reply, around);
      TrimKeepsCounts(BeforeTrim(s, event.reply), MAX_RESIDENT_ROWS);
    } else {
      OtherStepsKeepCounts(s, event, around);
    }
  }

  ghost predicate PartsAt(events: seq<(Event, Surroundings)>, i: nat)
    requires i < |events|
  {
    PartsCall(Run(events[..i]), events[i].0)
  }

  /** So over a run none of whose trims parts a call from a kept row that refers to it, the unresolved
      counts are exact, trimmed or not. */
  lemma {:induction false} CountsStayExact(events: seq<(Event, Surroundings)>, logs: seq<string -> Log>)
    requires LogsOf(events, logs)
    requires forall i: nat :: i < |events| ==> !PartsAt(events, i)
    ensures StoreCountsExact(Run(events))
  {
    if events != [] {
      var n := |events| - 1;
      LogsBefore(events, logs);
      forall i: nat | i < n
        ensures !PartsAt(events[..n], i)
      {
        assert !PartsAt(events, i) && events[..n][..i] == events[..i];
      }
      CountsStayExact(events[..n], logs[..n + 1]);
      WindowAgreement(events[..n], logs[..n + 1]);
      RunKeepsSingleFlight(events[..n]);
      assert !PartsAt(events, n);
      StepKeepsCounts(Run(events[..n]), events[n].0, events[n].1, logs[n]);
    }
  }

  // ----- dropped turns held something -----

  /** No turn of a grouping is empty. */
  lemma {:induction false} TurnsHoldRows(records: seq<Record>, calls: CallIndex)
    ensures forall turn :: turn in WithRecords([], records, calls) ==> TurnRows(turn) != []
  {
    if records != [] {
      TurnsHoldRows(records[..|records| - 1], calls);
    }
  }

  lemma {:induction false} EarlierSpansHoldRecords(slice: seq<Record>, d: nat)
    requires 0 < d <= |Grouped(slice).turns|
    ensures |Flat(Spans(Grouped(slice).turns)[..d])| > 0
  {
    var turns := Grouped(slice).turns;
    TurnsHoldRows(slice, EMPTY.calls + CallsOf(slice));
    assert Spans(turns)[..d][0] == SpanOf(turns[0]);
    assert TurnRows(turns[0]) != [];
  }
}
