/**
 What holds of the trace store over every run: one request in flight at most, sent for the window it
 will be applied to.
 */
module TraceStoreRuns {
  import opened TraceStoreCore
  import opened TraceStoreProtocol
  import opened Wrappers

  // ----- single flight -----

  /** The request fits the window it was sent for. */
  ghost predicate SentFor(request: Request, w: Window) {
    && request.id == w.sessionId
    && match request
       case Tail(_) => !w.hasLoadedOnce
       case Earlier(_, endingAt) => w.hasLoadedOnce && !w.hasDroppedEarliestRows && endingAt == w.firstOffset
       case Forward(_, after) => w.hasLoadedOnce && after == w.nextOffset
  }

  ghost predicate SingleFlight(s: Store) {
    && (s.selected.Some? ==> s.selectedId == Some(s.selected.value.sessionId))
    && (IsSession(s.selectedId) <==> s.selected.Some?)
    && (s.pending.None? ==> s.armedTimers == {})
    && (s.pending.Some? ==>
          && s.armedTimers == {s.pending.value.timer}
          && s.selected.Some? && SentFor(s.pending.value.request, s.selected.value))
    && (s.selected.Some? ==> s.selected.value.firstOffset <= s.selected.value.nextOffset)
    && (s.selected.Some? && !s.selected.value.hasLoadedOnce ==>
          && s.selected.value.grouping == EMPTY && !s.selected.value.hasDroppedEarliestRows)
  }

  lemma {:induction false} RequestedKeepsSingleFlight(s: Store, isSurfaceShown: bool, around: Surroundings)
    requires SingleFlight(s)
    ensures SingleFlight(Requested(s, isSurfaceShown, around))
  {
  }

  lemma {:induction false} StartedKeepsSingleFlight(s: Store, id: Option<string>)
    requires SingleFlight(s)
    ensures SingleFlight(Started(s, id))
  {
  }

  lemma {:induction false} RefreshedKeepsSingleFlight(s: Store, around: Surroundings)
    requires SingleFlight(s)
    ensures SingleFlight(Refreshed(s, around))
  {
  }

  /** The store once a page was taken in, before any queued refresh. */
  ghost function TakenIn(s: Store, reply: Reply): Store
    requires OutcomeOf(s, reply).Seed? || OutcomeOf(s, reply).AppendPage? || OutcomeOf(s, reply).PrependPage?
  {
    var s1 := Cleared(s).(failure := None);
    s1.(selected := Some(WindowReplied(s1.selected.value, OutcomeOf(s, reply), reply)))
  }

  ghost function ResetBy(s: Store, reply: Reply): Store {
    var s1 := Started(Cleared(s).(failure := None), Some(reply.id));
    if s1.selected.Some? then s1.(selected := Some(s1.selected.value.(filePath := reply.path))) else s1
  }

  lemma {:induction false} RespondedCases(s: Store, reply: Reply, around: Surroundings)
    ensures
      var outcome := OutcomeOf(s, reply);
      Responded(s, reply, around) ==
        if outcome == Ignored then Refreshed(s, around)
        else if outcome == Stale then Refreshed(Cleared(s).(failure := None), around)
        else if outcome == Reset then Refreshed(Requested(ResetBy(s, reply), false, around), around)
        else Refreshed(TakenIn(s, reply), around)
  {
  }

  lemma {:induction false} TakenInKeepsSingleFlight(s: Store, reply: Reply)
    requires SingleFlight(s)
    requires OutcomeOf(s, reply).Seed? || OutcomeOf(s, reply).AppendPage? || OutcomeOf(s, reply).PrependPage?
    ensures SingleFlight(TakenIn(s, reply))
  {
  }

  lemma {:induction false} ResetKeepsSingleFlight(s: Store, reply: Reply)
    requires SingleFlight(s)
    ensures SingleFlight(ResetBy(s, reply))
  {
  }

  lemma {:induction false} RespondedKeepsSingleFlight(s: Store, reply: Reply, around: Surroundings)
    requires SingleFlight(s)
    ensures SingleFlight(Responded(s, reply, around))
  {
    RespondedCases(s, reply, around);
    match OutcomeOf(s, reply)
    case Ignored => RefreshedKeepsSingleFlight(s, around);
    case Stale => RefreshedKeepsSingleFlight(Cleared(s).(failure := None), around);
    case Reset =>
      ResetKeepsSingleFlight(s, reply);
      RequestedKeepsSingleFlight(ResetBy(s, reply), false, around);
      RefreshedKeepsSingleFlight(Requested(ResetBy(s, reply), false, around), around);
    case _ =>
      TakenInKeepsSingleFlight(s, reply);
      RefreshedKeepsSingleFlight(TakenIn(s, reply), around);
  }

  lemma {:induction false} SelectionKeepsSingleFlight(s: Store, canFallBack: bool)
    requires SingleFlight(s)
    ensures SingleFlight(SelectionApplied(s, canFallBack))
  {
    var s1 := s.(preselectedId := None);
    StartedKeepsSingleFlight(s, Selection(s, canFallBack));
    StartedKeepsSingleFlight(s1, Selection(s, canFallBack));
  }

  lemma {:induction false} SessionsKeepSingleFlight(s: Store, sessions: seq<Session>, around: Surroundings)
    requires SingleFlight(s)
    ensures SingleFlight(SessionsSet(s, sessions, around))
  {
    var s1 := s.(options := Options(sessions));
    SelectionKeepsSingleFlight(s1, around.isLooking);
    RequestedKeepsSingleFlight(SelectionApplied(s1, around.isLooking), false, around);
  }

  lemma {:induction false} SelectKeepsSingleFlight(s: Store, id: string, around: Surroundings)
    requires SingleFlight(s)
    ensures SingleFlight(SessionSelected(s, id, around))
  {
    StartedKeepsSingleFlight(s.(preselectedId := None), Some(id));
    RequestedKeepsSingleFlight(Started(s.(preselectedId := None), Some(id)), false, around);
  }

  lemma {:induction false} ShowKeepsSingleFlight(s: Store, around: Surroundings)
    requires SingleFlight(s)
    ensures SingleFlight(SelectionShown(s, around))
  {
    SelectionKeepsSingleFlight(s, true);
    RequestedKeepsSingleFlight(SelectionApplied(s, true), true, around);
  }

  lemma {:induction false} ConnectionKeepsSingleFlight(s: Store, isConnected: bool, around: Surroundings)
    requires SingleFlight(s)
    ensures SingleFlight(ConnectionChanged(s, isConnected, around))
  {
  }

  lemma {:induction false} StepKeepsSingleFlight(s: Store, event: Event, around: Surroundings)
    requires SingleFlight(s)
    ensures SingleFlight(Step(s, event, around))
  {
    match event
    case Response(reply) => RespondedKeepsSingleFlight(s, reply, around);
    case SetSessions(sessions) => SessionsKeepSingleFlight(s, sessions, around);
    case SelectSession(id) => SelectKeepsSingleFlight(s, id, around);
    case ShowSelection => ShowKeepsSingleFlight(s, around);
    case ConnectionState(isConnected) => ConnectionKeepsSingleFlight(s, isConnected, around);
    case _ =>
  }

  /** Over every run at most one request is in flight: for the selected session, sent for the edge its
      window still has, with its own timer the only one armed. */
  lemma {:induction false} RunKeepsSingleFlight(events: seq<(Event, Surroundings)>)
    ensures SingleFlight(Run(events))
  {
    if events != [] {
      var n := |events| - 1;
      RunKeepsSingleFlight(events[..n]);
      StepKeepsSingleFlight(Run(events[..n]), events[n].0, events[n].1);
    }
  }

  /** So no reply is ever found stale, and a page in front never meets a trimmed window. */
  lemma {:induction false} NoReplyIsStale(events: seq<(Event, Surroundings)>, reply: Reply)
    ensures OutcomeOf(Run(events), reply) != Stale
    ensures OutcomeOf(Run(events), reply) == PrependPage ==>
              && Run(events).selected.Some? && !Run(events).selected.value.hasDroppedEarliestRows
              && reply.next == Run(events).selected.value.firstOffset
  {
    RunKeepsSingleFlight(events);
  }
}
