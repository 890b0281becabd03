/**
 What the trace store asks for and what becomes of the answers, over every run: a page that fits is taken in
 at the edge it was asked for, any other answer starts the window over, and what is wanted is asked for.
 */
module TraceExchange {
  import opened TraceRecords
  import opened TraceStoreCore
  import opened TraceAgreement
  import opened TraceTrim
  import opened TraceStoreProtocol
  import opened TraceStoreRuns
  import opened Wrappers

  // ----- answers -----

  /** The reply is a page that meets the edge it was asked for. */
  predicate Fits(request: Request, reply: Reply) {
    && !reply.reset && reply.start <= reply.next
    && match request
       case Tail(_) => true
       case Forward(_, after) => reply.start == after
       case Earlier(_, endingAt) => reply.next == endingAt
  }

  predicate IsAnswerTo(s: Store, reply: Reply) {
    s.pending.Some? && s.pending.value.request.id == reply.id
  }

  /** The records before and after a page was taken in, as long as all of them stay resident. */
  function RecordsWith(request: Request, resident: seq<Record>, page: seq<Record>): seq<Record> {
    match request
    case Tail(_) => page
    case Forward(_, _) => resident + page
    case Earlier(_, _) => page + resident
  }

  /** The window has taken the page in at the edge of the request. */
  ghost predicate HasTakenIn(w: Window, request: Request, reply: Reply, after: Window) {
    && after.sessionId == w.sessionId == reply.id && after.hasLoadedOnce && after.filePath == reply.path
    && after.firstOffset == (if request.Forward? then w.firstOffset else reply.start)
    && after.nextOffset == (if request.Earlier? then w.nextOffset else reply.next)
    && var whole := RecordsWith(request, Resident(w.grouping.turns), reply.records);
       && (|whole| <= 5000 ==>
             Resident(after.grouping.turns) == whole && after.hasDroppedEarliestRows == w.hasDroppedEarliestRows)
       && (|whole| > 5000 ==> |Resident(after.grouping.turns)| <= 5000 && after.hasDroppedEarliestRows)
  }

  lemma {:induction false} ResidentCounted(turns: seq<Turn>)
    ensures |Resident(turns)| == ResidentRowCount(turns)
  {
    if turns != [] {
      ResidentCounted(turns[1..]);
    }
  }

  /** Trimming drops nothing that fits and says whether it dropped something. */
  lemma {:induction false} TrimmedFits(w: Window)
    ensures
      var resident, after := Resident(w.grouping.turns), WindowTrimmed(w);
      && |Resident(after.grouping.turns)| <= 5000
      && (|resident| <= 5000 ==> after == w)
      && (|resident| > 5000 ==> after.hasDroppedEarliestRows)
  {
    var g := w.grouping;
    ResidentCounted(g.turns);
    ResidentCounted(Trimmed(g, MAX_RESIDENT_ROWS).turns);
    TrimBound(g, MAX_RESIDENT_ROWS);
  }

  lemma {:induction false} PageIsTakenIn(w: Window, request: Request, reply: Reply, outcome: Outcome)
    requires request.Tail? ==> outcome == Seed && w.grouping == EMPTY && !w.hasDroppedEarliestRows
    requires request.Forward? ==> outcome == AppendPage && w.hasLoadedOnce
    requires request.Earlier? ==> outcome == PrependPage && w.hasLoadedOnce
    requires w.sessionId == reply.id
    ensures HasTakenIn(w, request, reply, WindowReplied(w, outcome, reply))
  {
    var w1 := w.(filePath := reply.path);
    match request
    case Tail(_) =>
      var w2 := w1.(hasLoadedOnce := true, firstOffset := reply.start, nextOffset := reply.next);
      AppendAddsRecords([], reply.records, w.grouping.calls + CallsOf(reply.records));
      TrimmedFits(w2.(grouping := Appended(w.grouping, reply.records)));
    case Forward(_, _) =>
      AppendAddsRecords(w.grouping.turns, reply.records, w.grouping.calls + CallsOf(reply.records));
      TrimmedFits(w1.(nextOffset := reply.next, grouping := Appended(w.grouping, reply.records)));
    case Earlier(_, _) =>
      PrependAddsRecords(w.grouping, reply.records);
      TrimmedFits(w1.(firstOffset := reply.start, grouping := Prepended(w.grouping, reply.records)));
  }

  lemma {:induction false} RefreshKeepsWindow(s: Store, around: Surroundings)
    ensures Refreshed(s, around).selected == s.selected && Refreshed(s, around).hasSender == s.hasSender
  {
  }

  /** From one state of the store to the next a page was taken in. */
  ghost predicate TakesPage(s: Store, reply: Reply, after: Store) {
    && s.pending.Some? && s.selected.Some? && after.selected.Some?
    && HasTakenIn(s.selected.value, s.pending.value.request, reply, after.selected.value)
  }

  /** From one state of the store to the next the session was started over, and its tail asked for if it can be. */
  predicate StartsOver(s: Store, reply: Reply, around: Surroundings, after: Store) {
    && after.selectedId == s.selectedId == Some(reply.id)
    && after.selected == Some(Window(reply.id, EMPTY, 0, 0, false, reply.path, false))
    && if s.hasSender && around.takesMessage && around.isLooking then
         after.pending.Some? && after.pending.value.request == Tail(reply.id)
       else after.pending.None?
  }

  lemma {:induction false} AnswerIsTaken(s: Store, reply: Reply, around: Surroundings)
    requires SingleFlight(s) && IsAnswerTo(s, reply)
    ensures Fits(s.pending.value.request, reply) ==> TakesPage(s, reply, Responded(s, reply, around))
    ensures !Fits(s.pending.value.request, reply) ==> StartsOver(s, reply, around, Responded(s, reply, around))
  {
    RespondedCases(s, reply, around);
    if Fits(s.pending.value.request, reply) {
      PageIsTakenIn(s.selected.value, s.pending.value.request, reply, OutcomeOf(s, reply));
      RefreshKeepsWindow(TakenIn(s, reply), around);
    } else {
      RefreshKeepsWindow(Requested(ResetBy(s, reply), false, around), around);
    }
  }

  /** A page that meets the edge it was asked for is taken in, whatever happened before. */
  lemma {:induction false} FittingReplyIsTakenIn(
    events: seq<(Event, Surroundings)>, reply: Reply, around: Surroundings)
    requires IsAnswerTo(Run(events), reply) && Fits(Run(events).pending.value.request, reply)
    ensures TakesPage(Run(events), reply, Step(Run(events), Response(reply), around))
  {
    RunKeepsSingleFlight(events);
    AnswerIsTaken(Run(events), reply, around);
  }

  /** Any other answer to the pending request leaves a fresh window, and the session's tail is asked for. */
  lemma {:induction false} UnfitReplyStartsOver(events: seq<(Event, Surroundings)>, reply: Reply, around: Surroundings)
    requires IsAnswerTo(Run(events), reply) && !Fits(Run(events).pending.value.request, reply)
    ensures StartsOver(Run(events), reply, around, Step(Run(events), Response(reply), around))
  {
    RunKeepsSingleFlight(events);
    AnswerIsTaken(Run(events), reply, around);
  }

  /** A reply nobody waits for leaves the window alone. */
  lemma {:induction false} UnaskedReplyIsIgnored(events: seq<(Event, Surroundings)>, reply: Reply, around: Surroundings)
    requires !IsAnswerTo(Run(events), reply)
    ensures Step(Run(events), Response(reply), around).selected == Run(events).selected
    ensures Run(events).pending.Some? ==> Step(Run(events), Response(reply), around) == Run(events)
  {
    var s := Run(events);
    RespondedCases(s, reply, around);
    RefreshKeepsWindow(s, around);
  }

  // ----- the window stays small -----

  predicate IsSmall(s: Store) {
    s.selected.Some? ==> |Resident(s.selected.value.grouping.turns)| <= 5000
  }

  lemma {:induction false} SelectionStaysSmall(s: Store, canFallBack: bool, isShown: bool, around: Surroundings)
    requires IsSmall(s)
    ensures IsSmall(SelectionApplied(s, canFallBack))
    ensures IsSmall(Requested(SelectionApplied(s, canFallBack), isShown, around))
  {
  }

  lemma {:induction false} ReplyStaysSmall(s: Store, reply: Reply, around: Surroundings)
    requires IsSmall(s) && SingleFlight(s)
    ensures IsSmall(Step(s, Response(reply), around))
  {
    RespondedCases(s, reply, around);
    RefreshKeepsWindow(s, around);
    RefreshKeepsWindow(Requested(ResetBy(s, reply), false, around), around);
    if IsAnswerTo(s, reply) && Fits(s.pending.value.request, reply) {
      PageIsTakenIn(s.selected.value, s.pending.value.request, reply, OutcomeOf(s, reply));
      RefreshKeepsWindow(TakenIn(s, reply), around);
    }
  }

  /** Over every run no more than 5000 records are resident. */
  lemma {:induction false} WindowStaysSmall(events: seq<(Event, Surroundings)>)
    ensures IsSmall(Run(events))
  {
    if events != [] {
      var n := |events| - 1;
      WindowStaysSmall(events[..n]);
      RunKeepsSingleFlight(events[..n]);
      var s, around := Run(events[..n]), events[n].1;
      match events[n].0
      case Response(reply) => ReplyStaysSmall(s, reply, around);
      case ShowSelection => SelectionStaysSmall(s, true, true, around);
      case SetSessions(sessions) =>
        SelectionStaysSmall(s.(options := Options(sessions)), around.isLooking, false, around);
      case _ =>
    }
  }

  // ----- requests -----

  predicate AsksForNewest(s: Store) {
    && s.pending.Some? && s.selected.Some?
    && var w := s.selected.value;
       s.pending.value.request == if w.hasLoadedOnce then Forward(w.sessionId, w.nextOffset) else Tail(w.sessionId)
  }

  /** The event calls for the newest records of the session selected after it. */
  predicate CallsForNewest(s: Store, event: Event, after: Store) {
    match event
    case ShowSelection => s.pending.None? || after.selectedId != s.selectedId
    case ConnectionState(isConnected) => isConnected
    case SelectSession(_) => after.selectedId != s.selectedId
    case SetSessions(_) => after.selectedId != s.selectedId
    case TraceChanged(id) => s.selectedId == Some(id) && s.pending.None?
    case Response(reply) => s.isRefreshNeeded && IsAnswerTo(s, reply)
    case _ => false
  }

  lemma {:induction false} RequestedAsks(s: Store, isShown: bool, around: Surroundings)
    requires SingleFlight(s) && s.pending.None? && s.hasSender && around.takesMessage
    requires isShown || around.isLooking
    ensures IsSession(s.selectedId) ==> AsksForNewest(Requested(s, isShown, around))
  {
  }

  lemma {:induction false} ReplyLeadsOn(s: Store, reply: Reply, around: Surroundings)
    requires SingleFlight(s) && IsAnswerTo(s, reply) && s.isRefreshNeeded
    requires s.hasSender && around.takesMessage && around.isLooking
    ensures AsksForNewest(Responded(s, reply, around))
  {
    RespondedCases(s, reply, around);
    if Fits(s.pending.value.request, reply) {
      TakenInKeepsSingleFlight(s, reply);
      RequestedAsks(TakenIn(s, reply).(isRefreshNeeded := false), false, around);
    } else {
      ResetKeepsSingleFlight(s, reply);
      RequestedAsks(ResetBy(s, reply), false, around);
    }
  }

  /** What is called for is asked for, as long as the view is on screen and the message is taken. */
  lemma {:induction false} WhatIsCalledForIsAsked(
    events: seq<(Event, Surroundings)>, event: Event, around: Surroundings)
    requires
      var s := Run(events);
      && CallsForNewest(s, event, Step(s, event, around)) && s.hasSender && around.takesMessage
      && (around.isLooking || event.ShowSelection?)
    ensures
      var after := Step(Run(events), event, around);
      IsSession(after.selectedId) ==> AsksForNewest(after)
  {
    var s := Run(events);
    RunKeepsSingleFlight(events);
    match event
    case Response(reply) => ReplyLeadsOn(s, reply, around);
    case ShowSelection =>
      SelectionKeepsSingleFlight(s, true);
      RequestedAsks(SelectionApplied(s, true), true, around);
    case SetSessions(sessions) =>
      var s1 := s.(options := Options(sessions));
      SelectionKeepsSingleFlight(s1, around.isLooking);
      RequestedAsks(SelectionApplied(s1, around.isLooking), false, around);
    case SelectSession(id) =>
      StartedKeepsSingleFlight(s.(preselectedId := None), Some(id));
      RequestedAsks(Started(s.(preselectedId := None), Some(id)), false, around);
    case _ =>
  }

  /** A change of the log seen while a request is under way is remembered, and the answer to that request
      brings on the next one. */
  lemma {:induction false} ChangeIsRemembered(
    events: seq<(Event, Surroundings)>, reply: Reply, first: Surroundings, later: Surroundings)
    requires
      var s := Run(events);
      && IsAnswerTo(s, reply) && s.hasSender && first.isLooking && later.isLooking && later.takesMessage
    ensures
      var s := Run(events);
      && s.selectedId.Some?
      && var remembered := Step(s, TraceChanged(s.selectedId.value), first);
         remembered.pending == s.pending && AsksForNewest(Step(remembered, Response(reply), later))
  {
    var s := Run(events);
    RunKeepsSingleFlight(events);
    ReplyLeadsOn(s.(isRefreshNeeded := true), reply, later);
  }

  /** An earlier page is asked for exactly when the first is not the log's first, nothing was dropped, there
      is room, and no request is under way. */
  lemma {:induction false} EarlierPageIsAsked(events: seq<(Event, Surroundings)>, around: Surroundings)
    requires Run(events).hasSender && around.takesMessage
    ensures
      var s, after := Run(events), Step(Run(events), RequestEarlier, around);
      if s.pending.None? && s.selected.Some? && s.selected.value.hasLoadedOnce
         && !s.selected.value.hasDroppedEarliestRows && s.selected.value.firstOffset > 0
         && |Resident(s.selected.value.grouping.turns)| < 5000 then
        && after.pending.Some? && after.selected == s.selected
        && after.pending.value.request == Earlier(s.selected.value.sessionId, s.selected.value.firstOffset)
      else after == s
  {
    RunKeepsSingleFlight(events);
    if Run(events).selected.Some? {
      ResidentCounted(Run(events).selected.value.grouping.turns);
    }
  }

  /** A request that cannot be answered any more ends with its text, and the window stays. */
  lemma {:induction false} RequestEnds(events: seq<(Event, Surroundings)>, event: Event, around: Surroundings)
    requires
      var s := Run(events);
      match event
      case TraceError(id, _) => s.pending.Some? && s.pending.value.request.id == id
      case TimerFired(timer) => s.pending.Some? && s.pending.value.timer == timer
      case ConnectionState(isConnected) => !isConnected
      case _ => false
    ensures
      var s, after := Run(events), Step(Run(events), event, around);
      && after.pending.None? && after.armedTimers == {} && after.selected == s.selected
      && match event
         case TraceError(_, text) => after.failure == Some(if text != "" then text else "The trace could not be read.")
         case TimerFired(_) => after.failure == Some("The trace did not load within 10 s.")
         case _ => after.failure == Some("not connected")
  {
    RunKeepsSingleFlight(events);
  }

  /** A sender that was set stays. */
  lemma {:induction false} SenderStays(events: seq<(Event, Surroundings)>)
    ensures Run(events).hasSender <==> exists i :: 0 <= i < |events| && events[i].0.SetSender?
  {
    if events != [] {
      var n := |events| - 1;
      SenderStays(events[..n]);
      var s := Run(events[..n]);
      StepKeepsSender(s, events[n].0, events[n].1);
      assert forall i :: 0 <= i < n ==> events[..n][i] == events[i];
    }
  }

  lemma {:induction false} StepKeepsSender(s: Store, event: Event, around: Surroundings)
    ensures Step(s, event, around).hasSender <==> s.hasSender || event.SetSender?
  {
    if event.Response? {
      RespondedCases(s, event.reply, around);
    }
  }

  // ----- the selection -----

  predicate IsComplete(session: Session) {
    session.id != "" && session.name != ""
  }

  /** The first complete session of an id. */
  ghost predicate IsFirstOf(sessions: seq<Session>, i: nat, id: string) {
    && i < |sessions| && IsComplete(sessions[i]) && sessions[i].id == id
    && forall k :: 0 <= k < i && IsComplete(sessions[k]) ==> sessions[k].id != id
  }

  ghost predicate IsFirst(sessions: seq<Session>, i: nat) {
    i < |sessions| && IsComplete(sessions[i]) && forall k :: 0 <= k < i ==> !IsComplete(sessions[k])
  }

  lemma {:induction false} FirstStays(sessions: seq<Session>, i: nat, id: string)
    requires sessions != []
    ensures IsFirstOf(sessions[..|sessions| - 1], i, id) ==> IsFirstOf(sessions, i, id)
    ensures IsFirst(sessions[..|sessions| - 1], i) ==> IsFirst(sessions, i)
  {
  }

  /** The options are the complete sessions, the first of each id; and the first option is the first complete
      session. */
  lemma {:induction false} OptionsAreSessions(sessions: seq<Session>)
    ensures forall s :: s in sessions && IsComplete(s) ==> IsOption(Options(sessions), s.id)
    ensures forall o :: o in Options(sessions) ==> exists i: nat :: IsFirstOf(sessions, i, o.id) && sessions[i] == o
    ensures Options(sessions) != [] ==> exists i: nat :: IsFirst(sessions, i) && sessions[i] == Options(sessions)[0]
  {
    if sessions != [] {
      var n := |sessions| - 1;
      var front, last := sessions[..n], sessions[n];
      OptionsAreSessions(front);
      forall s | s in sessions && IsComplete(s)
        ensures IsOption(Options(sessions), s.id)
      {
        if s in front {
          var o :| o in Options(front) && o.id == s.id;
          assert o in Options(sessions);
        } else {
          LastIsOption(sessions);
        }
      }
      forall o | o in Options(sessions)
        ensures exists i: nat :: IsFirstOf(sessions, i, o.id) && sessions[i] == o
      {
        if o in Options(front) {
          var i: nat :| IsFirstOf(front, i, o.id) && front[i] == o;
          FirstStays(sessions, i, o.id);
          assert sessions[i] == o;
        } else {
          NewOption(sessions, o);
        }
      }
      if Options(front) != [] {
        var i: nat :| IsFirst(front, i) && front[i] == Options(front)[0];
        FirstStays(sessions, i, "");
        assert sessions[i] == Options(sessions)[0];
      } else if Options(sessions) != [] {
        assert forall k :: 0 <= k < n ==> front[k] == sessions[k] && !IsComplete(front[k]);
        assert IsFirst(sessions, n) && sessions[n] == Options(sessions)[0];
      }
    }
  }

  lemma {:induction false} LastIsOption(sessions: seq<Session>)
    requires sessions != [] && IsComplete(sessions[|sessions| - 1])
    ensures IsOption(Options(sessions), sessions[|sessions| - 1].id)
  {
    var front, last := Options(sessions[..|sessions| - 1]), sessions[|sessions| - 1];
    if o :| o in front && o.id == last.id {
      assert o in Options(sessions);
    } else {
      assert last in Options(sessions);
    }
  }

  lemma {:induction false} NewOption(sessions: seq<Session>, o: Session)
    requires sessions != [] && o in Options(sessions) && o !in Options(sessions[..|sessions| - 1])
    requires
      var front := sessions[..|sessions| - 1];
      forall s :: s in front && IsComplete(s) ==> IsOption(Options(front), s.id)
    ensures exists i: nat :: IsFirstOf(sessions, i, o.id) && sessions[i] == o
  {
    var n := |sessions| - 1;
    forall k | 0 <= k < n && IsComplete(sessions[k])
      ensures sessions[k].id != o.id
    {
      assert sessions[..n][k] == sessions[k];
    }
    assert IsFirstOf(sessions, n, o.id) && sessions[n] == o;
  }

  /** Which session a selection must end in: the one asked for if it is an option, else the one it was if
      that still is, else the first option when one may be chosen. */
  predicate FollowsChoice(s: Store, options: seq<Session>, mayChoose: bool, after: Store) {
    var isWanted := IsSession(s.preselectedId) && IsOption(options, s.preselectedId.value);
    var isKept := IsSession(s.selectedId) && IsOption(options, s.selectedId.value);
    && (isWanted ==> after.selectedId == s.preselectedId && after.preselectedId.None?)
    && (!isWanted ==> after.preselectedId == s.preselectedId)
    && (!isWanted && isKept ==> after.selectedId == s.selectedId)
    && (!isWanted && !isKept && mayChoose && options != [] ==> after.selectedId == Some(options[0].id))
    && (!isWanted && !isKept && !(mayChoose && options != []) ==> after.selectedId.None?)
    && after.options == options
    && (after.selectedId == s.selectedId ==> after.selected == s.selected)
    && (after.selectedId != s.selectedId && IsSession(after.selectedId) ==>
          after.selected == Some(Window(after.selectedId.value, EMPTY, 0, 0, false, "", false)))
  }

  lemma {:induction false} ChoiceIsApplied(s: Store, options: seq<Session>, mayChoose: bool)
    ensures FollowsChoice(s, options, mayChoose, SelectionApplied(s.(options := options), mayChoose))
  {
  }

  lemma {:induction false} AskingKeepsChoice(
    s: Store, options: seq<Session>, mayChoose: bool, after: Store, isShown: bool, around: Surroundings)
    requires FollowsChoice(s, options, mayChoose, after)
    ensures FollowsChoice(s, options, mayChoose, Requested(after, isShown, around))
  {
    var asked := Requested(after, isShown, around);
    assert asked.selectedId == after.selectedId && asked.preselectedId == after.preselectedId;
    assert asked.options == after.options && asked.selected == after.selected;
  }

  /** Showing the view and new sessions select as they should, and a window is given up only when another
      session is selected. */
  lemma {:induction false} SelectionFollows(s: Store, sessions: seq<Session>, around: Surroundings)
    ensures FollowsChoice(s, s.options, true, Step(s, ShowSelection, around))
    ensures FollowsChoice(s, Options(sessions), around.isLooking, Step(s, SetSessions(sessions), around))
  {
    ChoiceIsApplied(s, s.options, true);
    AskingKeepsChoice(s, s.options, true, SelectionApplied(s, true), true, around);
    ChoiceIsApplied(s, Options(sessions), around.isLooking);
    var s1 := s.(options := Options(sessions));
    AskingKeepsChoice(s, Options(sessions), around.isLooking, SelectionApplied(s1, around.isLooking), false, around);
  }

  /** The user's choice is taken at once when it is an option, and a session to open waits for the view. */
  lemma {:induction false} ChoiceIsTaken(s: Store, id: string, around: Surroundings)
    ensures
      var after := Step(s, SelectSession(id), around);
      if IsOption(s.options, id) && s.selectedId != Some(id) then
        && after.selectedId == Some(id) && after.preselectedId.None?
        && (id != "" ==> after.selected == Some(Window(id, EMPTY, 0, 0, false, "", false)))
      else after == s
    ensures Step(s, OpenForSession(id), around) == s.(preselectedId := Some(id))
  {
  }
}
