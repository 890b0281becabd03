/**
 The request and reply protocol of the trace store, one function a handler. `TraceStore` is the
 object that runs it.
 */
module TraceStoreProtocol {
  import opened TraceRecords
  import opened TraceStoreCore
  import opened Wrappers

  const MAX_RESIDENT_ROWS := 5000

  const NOT_CONNECTED_TEXT := "not connected"
  const TIMED_OUT_TEXT := "The trace did not load within 10 s."
  const UNREADABLE_TEXT := "The trace could not be read."

  datatype Session = Session(id: string, name: string)

  datatype Request =
    | Tail(id: string)
    | Earlier(id: string, endingAt: int)
    | Forward(id: string, after: int)

  /** A request in flight, with the timer that gives up on it. */
  datatype Pending = Pending(request: Request, timer: nat)

  datatype Reply = Reply(id: string, records: seq<Record>, start: int, next: int, reset: bool, path: string)

  datatype Window = Window(
    sessionId: string, grouping: View, firstOffset: int, nextOffset: int,
    hasDroppedEarliestRows: bool, filePath: string, hasLoadedOnce: bool)

  datatype Store = Store(
    hasSender: bool,
    options: seq<Session>,
    selectedId: Option<string>,
    preselectedId: Option<string>,
    selected: Option<Window>,
    pending: Option<Pending>,
    isRefreshNeeded: bool,
    failure: Option<string>,
    armedTimers: set<nat>,
    timerCount: nat)

  const INITIAL := Store(false, [], None, None, None, None, false, None, {}, 0)

  /** What the surroundings answer during one handler: whether the view is on screen, and whether the
      control socket takes a message. */
  datatype Surroundings = Surroundings(isLooking: bool, takesMessage: bool)

  // ----- which session -----

  function Options(sessions: seq<Session>): seq<Session> {
    if sessions == [] then []
    else
      var options := Options(sessions[..|sessions| - 1]);
      var session := sessions[|sessions| - 1];
      if session.id == "" || session.name == "" || (exists o :: o in options && o.id == session.id) then options
      else options + [session]
  }

  predicate IsOption(options: seq<Session>, id: string) {
    exists o :: o in options && o.id == id
  }

  function ResolvedSession(
    options: seq<Session>, preselected: Option<string>, current: Option<string>, canFallBack: bool): Option<string>
  {
    if preselected.Some? && preselected.value != "" && IsOption(options, preselected.value) then preselected
    else if current.Some? && current.value != "" && IsOption(options, current.value) then current
    else if !canFallBack || options == [] then None
    else Some(options[0].id)
  }

  // ----- which request, which outcome -----

  predicate IsSession(id: Option<string>) {
    id.Some? && id.value != ""
  }

  function NextRequest(s: Store, isVisible: bool): Option<Request> {
    if !IsSession(s.selectedId) || !isVisible || s.pending.Some? then None
    else if s.selected.None? || !s.selected.value.hasLoadedOnce then Some(Tail(s.selectedId.value))
    else Some(Forward(s.selectedId.value, s.selected.value.nextOffset))
  }

  function EarlierRequest(s: Store): Option<Request> {
    if !IsSession(s.selectedId) || s.selected.None? then None
    else
      var w := s.selected.value;
      if !w.hasLoadedOnce || w.hasDroppedEarliestRows || s.pending.Some? then None
      else if ResidentRowCount(w.grouping.turns) >= MAX_RESIDENT_ROWS || w.firstOffset <= 0 then None
      else Some(Earlier(s.selectedId.value, w.firstOffset))
  }

  datatype Outcome = Ignored | Stale | Reset | Seed | AppendPage | PrependPage

  function ReplyOutcome(pending: Option<Request>, resident: Option<Window>, reply: Reply): Outcome {
    if pending.None? || pending.value.id != reply.id then Ignored
    else if resident.None? || resident.value.sessionId != reply.id then Stale
    else if reply.reset || reply.next < reply.start then Reset
    else
      match pending.value
      case Tail(_) => if resident.value.hasLoadedOnce then Stale else Seed
      case Earlier(_, endingAt) =>
        if resident.value.firstOffset != endingAt then Stale
        else if reply.next == endingAt then PrependPage else Reset
      case Forward(_, after) =>
        if resident.value.nextOffset != after then Stale
        else if reply.start == after then AppendPage else Reset
  }

  function OutcomeOf(s: Store, reply: Reply): Outcome {
    ReplyOutcome(if s.pending.Some? then Some(s.pending.value.request) else None, s.selected, reply)
  }

  // ----- handlers -----

  function Cleared(s: Store): Store {
    if s.pending.None? then s
    else s.(pending := None, armedTimers := s.armedTimers - {s.pending.value.timer})
  }

  function FreshWindow(id: string): Window {
    Window(id, EMPTY, 0, 0, false, "", false)
  }

  function Started(s: Store, id: Option<string>): Store {
    Cleared(s).(isRefreshNeeded := false, failure := None, selectedId := id,
                selected := if IsSession(id) then Some(FreshWindow(id.value)) else None)
  }

  function Sent(s: Store, request: Request, around: Surroundings): Store {
    if !s.hasSender then s
    else if !around.takesMessage then s.(failure := Some(NOT_CONNECTED_TEXT))
    else s.(pending := Some(Pending(request, s.timerCount)),
            armedTimers := s.armedTimers + {s.timerCount}, timerCount := s.timerCount + 1)
  }

  function Requested(s: Store, isSurfaceShown: bool, around: Surroundings): Store {
    var request := NextRequest(s, isSurfaceShown || around.isLooking);
    if !s.hasSender || request.None? then s else Sent(s, request.value, around)
  }

  function Refreshed(s: Store, around: Surroundings): Store {
    if !s.isRefreshNeeded || s.pending.Some? then s
    else Requested(s.(isRefreshNeeded := false), false, around)
  }

  function EarlierRequested(s: Store, around: Surroundings): Store {
    var request := EarlierRequest(s);
    if !s.hasSender || request.None? then s else Sent(s, request.value, around)
  }

  function Selection(s: Store, canFallBack: bool): Option<string> {
    ResolvedSession(s.options, s.preselectedId, s.selectedId, canFallBack)
  }

  function SelectionApplied(s: Store, canFallBack: bool): Store {
    var next := Selection(s, canFallBack);
    var taken := s.preselectedId.Some? && s.preselectedId.value != "" && next == s.preselectedId;
    var s1 := if taken then s.(preselectedId := None) else s;
    if next == s.selectedId then s1 else Started(s1, next)
  }

  function SessionSelected(s: Store, id: string, around: Surroundings): Store {
    if !IsOption(s.options, id) || s.selectedId == Some(id) then s
    else Requested(Started(s.(preselectedId := None), Some(id)), false, around)
  }

  function SelectionShown(s: Store, around: Surroundings): Store {
    Requested(SelectionApplied(s, true), true, around)
  }

  function SessionsSet(s: Store, sessions: seq<Session>, around: Surroundings): Store {
    var s1 := s.(options := Options(sessions));
    var s2 := SelectionApplied(s1, around.isLooking);
    if Selection(s1, around.isLooking) != s1.selectedId then Requested(s2, false, around) else s2
  }

  function WindowTrimmed(w: Window): Window {
    var trim := TrimOf(w.grouping.turns, MAX_RESIDENT_ROWS);
    w.(grouping := Trimmed(w.grouping, MAX_RESIDENT_ROWS),
       hasDroppedEarliestRows := w.hasDroppedEarliestRows || trim.droppedTurnCount > 0 || trim.droppedRowCount > 0)
  }

  function WindowAppended(w: Window, records: seq<Record>): Window {
    WindowTrimmed(w.(grouping := Appended(w.grouping, records)))
  }

  function WindowPrepended(w: Window, records: seq<Record>): Window {
    WindowTrimmed(w.(grouping := Prepended(w.grouping, records)))
  }

  function WindowReplied(w: Window, outcome: Outcome, reply: Reply): Window {
    var w1 := w.(filePath := reply.path);
    match outcome
    case PrependPage => WindowPrepended(w1.(firstOffset := reply.start), reply.records)
    case Seed =>
      WindowAppended(w1.(hasLoadedOnce := true, firstOffset := reply.start, nextOffset := reply.next), reply.records)
    case _ => WindowAppended(w1.(nextOffset := reply.next), reply.records)
  }

  function Responded(s: Store, reply: Reply, around: Surroundings): Store {
    var outcome := OutcomeOf(s, reply);
    if outcome == Ignored then Refreshed(s, around)
    else
      var s1 := Cleared(s).(failure := None);
      if outcome == Stale then Refreshed(s1, around)
      else if outcome == Reset then
        var s2 := Started(s1, Some(reply.id));
        var s3 := if s2.selected.Some? then s2.(selected := Some(s2.selected.value.(filePath := reply.path))) else s2;
        Refreshed(Requested(s3, false, around), around)
      else Refreshed(s1.(selected := Some(WindowReplied(s1.selected.value, outcome, reply))), around)
  }

  function Changed(s: Store, id: string, around: Surroundings): Store {
    if s.selectedId != Some(id) || !around.isLooking then s
    else if s.pending.Some? then s.(isRefreshNeeded := true)
    else Requested(s, false, around)
  }

  function Failed(s: Store, id: string, text: string): Store {
    if s.pending.None? || s.pending.value.request.id != id then s
    else Cleared(s).(isRefreshNeeded := false, failure := Some(if text != "" then text else UNREADABLE_TEXT))
  }

  function ConnectionChanged(s: Store, isConnected: bool, around: Surroundings): Store {
    var s1 := Cleared(s).(isRefreshNeeded := false, failure := if isConnected then None else Some(NOT_CONNECTED_TEXT));
    if isConnected then Requested(s1, false, around) else s1
  }

  /** The pending request's timer fires; a timer that was cleared never does. */
  function TimedOut(s: Store, timer: nat): Store {
    if timer !in s.armedTimers then s
    else s.(pending := None, armedTimers := s.armedTimers - {timer}, failure := Some(TIMED_OUT_TEXT))
  }

  // ----- runs -----

  datatype Event =
    | SetSender
    | SetSessions(sessions: seq<Session>)
    | SelectSession(id: string)
    | OpenForSession(id: string)
    | ShowSelection
    | RequestEarlier
    | Response(reply: Reply)
    | TraceChanged(id: string)
    | TraceError(id: string, text: string)
    | ConnectionState(isConnected: bool)
    | TimerFired(timer: nat)

  function Step(s: Store, event: Event, around: Surroundings): Store {
    match event
    case SetSender => s.(hasSender := true)
    case SetSessions(sessions) => SessionsSet(s, sessions, around)
    case SelectSession(id) => SessionSelected(s, id, around)
    case OpenForSession(id) => s.(preselectedId := Some(id))
    case ShowSelection => SelectionShown(s, around)
    case RequestEarlier => EarlierRequested(s, around)
    case Response(reply) => Responded(s, reply, around)
    case TraceChanged(id) => Changed(s, id, around)
    case TraceError(id, text) => Failed(s, id, text)
    case ConnectionState(isConnected) => ConnectionChanged(s, isConnected, around)
    case TimerFired(timer) => TimedOut(s, timer)
  }

  function Run(events: seq<(Event, Surroundings)>): Store {
    if events == [] then INITIAL
    else
      var n := |events| - 1;
      Step(Run(events[..n]), events[n].0, events[n].1)
  }
}
