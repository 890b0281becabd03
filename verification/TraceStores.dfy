/**
 The trace store as the object it is: the module's variables as fields, its handlers as methods that
 reassign them, its grouping an object changed in place. Each method does what the protocol's
 function of the same handler says, and every handler keeps the store at one request in flight.
 */
module TraceStores {
  import opened TraceRecords
  import opened Wrappers
  import opened TraceStoreProtocol
  import opened TraceStoreRuns
  import opened TraceExchange
  import opened TraceGroupings

  datatype SelectedTrace = SelectedTrace(
    sessionId: string, grouping: TraceGrouping, firstOffset: int, nextOffset: int,
    hasDroppedEarliestRows: bool, filePath: string, hasLoadedOnce: bool)

  class TraceStore {
    var hasSender: bool
    var sessionOptions: seq<Session>
    var selectedSessionId: Option<string>
    var preselectedSessionId: Option<string>
    var selectedTrace: Option<SelectedTrace>
    var pendingRequest: Option<Pending>
    var isRefreshNeeded: bool
    var traceFailureText: Option<string>
    var armedTimers: set<nat>
    var timerCount: nat

    ghost function Repr(): set<object>
      reads this
    {
      if selectedTrace.Some? then {this, selectedTrace.value.grouping} else {this}
    }

    function State(): Store
      reads this, Repr()
    {
      var selected := match selectedTrace
        case None => None
        case Some(t) => Some(Window(t.sessionId, t.grouping.Value(), t.firstOffset, t.nextOffset,
                                    t.hasDroppedEarliestRows, t.filePath, t.hasLoadedOnce));
      Store(hasSender, sessionOptions, selectedSessionId, preselectedSessionId, selected, pendingRequest,
            isRefreshNeeded, traceFailureText, armedTimers, timerCount)
    }

    /** At most one request is in flight, sent for the window it will be applied to. */
    ghost predicate Valid()
      reads this, Repr()
    {
      SingleFlight(State())
    }

    constructor ()
      ensures Valid() && State() == INITIAL && fresh(Repr())
    {
      hasSender, sessionOptions, selectedSessionId, preselectedSessionId := false, [], None, None;
      selectedTrace, pendingRequest, isRefreshNeeded, traceFailureText := None, None, false, None;
      armedTimers, timerCount := {}, 0;
    }

    method ClearPendingRequest()
      modifies this`pendingRequest, this`armedTimers
      ensures State() == Cleared(old(State()))
    {
      if pendingRequest.None? { return; }
      armedTimers := armedTimers - {pendingRequest.value.timer};
      pendingRequest := None;
    }

    method StartSelectedTrace(sessionId: Option<string>)
      modifies this
      ensures State() == Started(old(State()), sessionId) && fresh(Repr() - {this})
    {
      ClearPendingRequest();
      isRefreshNeeded, traceFailureText, selectedSessionId := false, None, sessionId;
      if sessionId.Some? && sessionId.value != "" {
        var grouping := new TraceGrouping();
        selectedTrace := Some(SelectedTrace(sessionId.value, grouping, 0, 0, false, "", false));
      } else {
        selectedTrace := None;
      }
    }

    method SendTraceRequest(request: Request, around: Surroundings)
      modifies this`pendingRequest, this`armedTimers, this`timerCount, this`traceFailureText
      ensures State() == Sent(old(State()), request, around)
    {
      if !hasSender { return; }
      if !around.takesMessage {
        traceFailureText := Some(NOT_CONNECTED_TEXT);
        return;
      }
      pendingRequest := Some(Pending(request, timerCount));
      armedTimers := armedTimers + {timerCount};
      timerCount := timerCount + 1;
    }

    method RequestSelectedTrace(isSurfaceShown: bool, around: Surroundings)
      modifies this`pendingRequest, this`armedTimers, this`timerCount, this`traceFailureText
      ensures State() == Requested(old(State()), isSurfaceShown, around)
    {
      if !hasSender { return; }
      var request := NextRequest(State(), isSurfaceShown || around.isLooking);
      if request.None? { return; }
      SendTraceRequest(request.value, around);
    }

    method RequestQueuedRefresh(around: Surroundings)
      modifies this`pendingRequest, this`armedTimers, this`timerCount, this`traceFailureText, this`isRefreshNeeded
      ensures State() == Refreshed(old(State()), around)
    {
      if !isRefreshNeeded || pendingRequest.Some? { return; }
      isRefreshNeeded := false;
      RequestSelectedTrace(false, around);
    }

    method ApplySelection(canFallBackToFirst: bool) returns (hasChanged: bool)
      modifies this
      ensures State() == SelectionApplied(old(State()), canFallBackToFirst)
      ensures hasChanged == (Selection(old(State()), canFallBackToFirst) != old(selectedSessionId))
      ensures fresh(Repr() - old(Repr()))
    {
      var nextSelectedId := ResolvedSession(sessionOptions, preselectedSessionId, selectedSessionId,
          canFallBackToFirst);
      if preselectedSessionId.Some? && preselectedSessionId.value != "" && nextSelectedId == preselectedSessionId {
        preselectedSessionId := None;
      }
      if nextSelectedId == selectedSessionId { return false; }
      StartSelectedTrace(nextSelectedId);
      return true;
    }

    method TrimOldestRows()
      requires selectedTrace.Some?
      modifies this`selectedTrace, selectedTrace.value.grouping
      ensures Repr() == old(Repr())
      ensures State() == old(State()).(selected := Some(WindowTrimmed(old(State()).selected.value)))
    {
      var trace := selectedTrace.value;
      var trim := trace.grouping.TrimTraceGrouping(MAX_RESIDENT_ROWS);
      if trim.droppedTurnCount > 0 || trim.droppedRowCount > 0 {
        selectedTrace := Some(trace.(hasDroppedEarliestRows := true));
      }
    }

    method ShowAppendedRecords(records: seq<Record>)
      requires selectedTrace.Some?
      modifies this`selectedTrace, selectedTrace.value.grouping
      ensures Repr() == old(Repr())
      ensures State() == old(State()).(selected := Some(WindowAppended(old(State()).selected.value, records)))
    {
      var _ := selectedTrace.value.grouping.AppendTraceRecords(records);
      TrimOldestRows();
    }

    method ShowPrependedRecords(records: seq<Record>)
      requires selectedTrace.Some?
      modifies this`selectedTrace, selectedTrace.value.grouping
      ensures Repr() == old(Repr())
      ensures State() == old(State()).(selected := Some(WindowPrepended(old(State()).selected.value, records)))
    {
      var _ := selectedTrace.value.grouping.PrependTraceRecords(records);
      TrimOldestRows();
    }

    method SetTraceRequestSender()
      requires Valid()
      modifies this`hasSender
      ensures Valid() && State() == old(State()).(hasSender := true)
    {
      hasSender := true;
    }

    method OpenTraceForSession(sessionId: string)
      requires Valid()
      modifies this`preselectedSessionId
      ensures Valid() && State() == old(State()).(preselectedId := Some(sessionId))
    {
      preselectedSessionId := Some(sessionId);
    }

    method RequestEarlierTrace(around: Surroundings)
      requires Valid()
      modifies this`pendingRequest, this`armedTimers, this`timerCount, this`traceFailureText
      ensures Valid() && State() == EarlierRequested(old(State()), around)
    {
      StepKeepsSingleFlight(State(), RequestEarlier, around);
      if !hasSender { return; }
      var request := EarlierRequest(State());
      if request.None? { return; }
      SendTraceRequest(request.value, around);
    }

    method SwitchTo(sessionId: string, around: Surroundings)
      modifies this
      ensures State() == SessionSelected(old(State()), sessionId, around) && fresh(Repr() - old(Repr()))
    {
      if !IsOption(sessionOptions, sessionId) { return; }
      if selectedSessionId == Some(sessionId) { return; }
      preselectedSessionId := None;
      StartSelectedTrace(Some(sessionId));
      RequestSelectedTrace(false, around);
    }

    method SelectTraceSession(sessionId: string, around: Surroundings)
      requires Valid()
      modifies this
      ensures Valid() && State() == SessionSelected(old(State()), sessionId, around) && fresh(Repr() - old(Repr()))
    {
      SelectKeepsSingleFlight(State(), sessionId, around);
      SwitchTo(sessionId, around);
    }

    method ShowAnySelection(around: Surroundings) returns (hasChanged: bool)
      modifies this
      ensures State() == SelectionShown(old(State()), around) && fresh(Repr() - old(Repr()))
    {
      hasChanged := ApplySelection(true);
      RequestSelectedTrace(true, around);
    }

    method RefreshTraceSelectionOnShow(around: Surroundings) returns (hasChanged: bool)
      requires Valid()
      modifies this
      ensures Valid() && State() == SelectionShown(old(State()), around) && fresh(Repr() - old(Repr()))
    {
      ShowKeepsSingleFlight(State(), around);
      hasChanged := ShowAnySelection(around);
    }

    method ReplaceSessions(sessions: seq<Session>, around: Surroundings)
      modifies this
      ensures State() == SessionsSet(old(State()), sessions, around) && fresh(Repr() - old(Repr()))
    {
      sessionOptions := Options(sessions);
      assert State() == old(State()).(options := Options(sessions));
      var hasChanged := ApplySelection(around.isLooking);
      assert State() == SelectionApplied(old(State()).(options := Options(sessions)), around.isLooking);
      if hasChanged {
        RequestSelectedTrace(false, around);
      }
    }

    method SetTraceSessions(sessions: seq<Session>, around: Surroundings)
      requires Valid()
      modifies this
      ensures Valid() && State() == SessionsSet(old(State()), sessions, around) && fresh(Repr() - old(Repr()))
    {
      SessionsKeepSingleFlight(State(), sessions, around);
      ReplaceSessions(sessions, around);
    }

    /** Takes a page into the window it was asked for. */
    method TakeIn(outcome: Outcome, reply: Reply)
      requires selectedTrace.Some?
      modifies this`selectedTrace, selectedTrace.value.grouping
      ensures Repr() == old(Repr())
      ensures State() == old(State()).(selected := Some(WindowReplied(old(State()).selected.value, outcome, reply)))
    {
      selectedTrace := Some(selectedTrace.value.(filePath := reply.path));
      if outcome == PrependPage {
        selectedTrace := Some(selectedTrace.value.(firstOffset := reply.start));
        ShowPrependedRecords(reply.records);
        return;
      }
      if outcome == Seed {
        selectedTrace := Some(selectedTrace.value.(hasLoadedOnce := true, firstOffset := reply.start));
      }
      selectedTrace := Some(selectedTrace.value.(nextOffset := reply.next));
      ShowAppendedRecords(reply.records);
    }

    /** Starts the window over after a reply that does not continue it. */
    method StartOver(reply: Reply, around: Surroundings)
      modifies this
      ensures fresh(Repr() - {this})
      ensures
        var s1 := Started(old(State()), Some(reply.id));
        var s2 := if s1.selected.Some? then s1.(selected := Some(s1.selected.value.(filePath := reply.path))) else s1;
        State() == Requested(s2, false, around)
    {
      StartSelectedTrace(Some(reply.id));
      if selectedTrace.Some? {
        selectedTrace := Some(selectedTrace.value.(filePath := reply.path));
      }
      RequestSelectedTrace(false, around);
    }

    method HandleReply(reply: Reply, around: Surroundings)
      modifies Repr()
      ensures State() == Responded(old(State()), reply, around) && fresh(Repr() - old(Repr()))
    {
      var outcome := OutcomeOf(State(), reply);
      if outcome == Ignored {
        RequestQueuedRefresh(around);
        return;
      }
      ClearPendingRequest();
      traceFailureText := None;
      assert State() == Cleared(old(State())).(failure := None);
      if outcome == Stale {
        RequestQueuedRefresh(around);
      } else if outcome == Reset {
        StartOver(reply, around);
        RequestQueuedRefresh(around);
      } else {
        TakeIn(outcome, reply);
        RequestQueuedRefresh(around);
      }
    }

    method ApplyTraceResponse(reply: Reply, around: Surroundings)
      requires Valid()
      modifies Repr()
      ensures Valid() && State() == Responded(old(State()), reply, around) && fresh(Repr() - old(Repr()))
      ensures old(IsAnswerTo(State(), reply)) ==>
                if Fits(old(State()).pending.value.request, reply) then TakesPage(old(State()), reply, State())
                else StartsOver(old(State()), reply, around, State())
    {
      if IsAnswerTo(State(), reply) {
        AnswerIsTaken(State(), reply, around);
      }
      RespondedKeepsSingleFlight(State(), reply, around);
      HandleReply(reply, around);
    }

    method ApplyTraceChanged(sessionId: string, around: Surroundings)
      requires Valid()
      modifies this
      ensures Valid() && State() == Changed(old(State()), sessionId, around) && Repr() == old(Repr())
    {
      StepKeepsSingleFlight(State(), TraceChanged(sessionId), around);
      if selectedSessionId != Some(sessionId) || !around.isLooking { return; }
      if pendingRequest.Some? {
        isRefreshNeeded := true;
        return;
      }
      RequestSelectedTrace(false, around);
    }

    method ApplyTraceError(sessionId: string, text: string) returns (isHandled: bool)
      requires Valid()
      modifies this
      ensures Valid() && State() == Failed(old(State()), sessionId, text) && Repr() == old(Repr())
      ensures isHandled == (old(pendingRequest).Some? && old(pendingRequest).value.request.id == sessionId)
    {
      StepKeepsSingleFlight(State(), TraceError(sessionId, text), Surroundings(false, false));
      if pendingRequest.None? || pendingRequest.value.request.id != sessionId { return false; }
      ClearPendingRequest();
      isRefreshNeeded := false;
      traceFailureText := Some(if text != "" then text else UNREADABLE_TEXT);
      return true;
    }

    method HandleConnection(isConnected: bool, around: Surroundings)
      modifies this
      ensures State() == ConnectionChanged(old(State()), isConnected, around) && Repr() == old(Repr())
    {
      ClearPendingRequest();
      isRefreshNeeded := false;
      traceFailureText := if isConnected then None else Some(NOT_CONNECTED_TEXT);
      if !isConnected { return; }
      RequestSelectedTrace(false, around);
    }

    method ApplyTraceConnectionState(isConnected: bool, around: Surroundings)
      requires Valid()
      modifies this
      ensures Valid() && State() == ConnectionChanged(old(State()), isConnected, around) && Repr() == old(Repr())
    {
      ConnectionKeepsSingleFlight(State(), isConnected, around);
      HandleConnection(isConnected, around);
    }

    /** The timeout of the pending request. */
    method AbandonPendingRequest(timer: nat)
      requires Valid()
      modifies this`pendingRequest, this`armedTimers, this`traceFailureText
      ensures Valid() && State() == TimedOut(old(State()), timer)
    {
      StepKeepsSingleFlight(State(), TimerFired(timer), Surroundings(false, false));
      if timer !in armedTimers { return; }
      armedTimers := armedTimers - {timer};
      pendingRequest := None;
      traceFailureText := Some(TIMED_OUT_TEXT);
    }

    /** Between two handlers: no reply would be found stale, and one that would be put in front meets a
        window that has lost no rows. */
    lemma {:induction false} RepliesFit(reply: Reply)
      requires Valid()
      ensures OutcomeOf(State(), reply) != Stale
      ensures OutcomeOf(State(), reply) == PrependPage ==>
                selectedTrace.Some? && !selectedTrace.value.hasDroppedEarliestRows
                    && reply.next == selectedTrace.value.firstOffset
    {
    }
  }
}
