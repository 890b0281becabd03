/**
 The supervisor of the connection: the decisions carried out on the control client, with the heartbeat
 and handshake timers, the probes under way and the terminal input held for them.
 */
module ConnectionSupervisor {
  import opened ConnectionSupervisorCore
  import opened ControlWs
  import opened Wrappers

  /** `probes` are the pings whose outcome has not been reported yet, with the time their answer is due by;
      `holder` remembers the probe that the input was held for. */
  datatype Page = Page(
    decider: SupervisorState, client: Client, heartbeatDue: Option<int>, isHandshakeArmed: bool,
    hiddenSince: Option<int>, probes: map<nat, int>, isInputHeld: bool, holder: nat)

  function RunAction(p: Page, action: Action, now: int): Page {
    match action
    case ProbeControl(deadlineMs, _) =>
      p.(client := Request(p.client), probes := p.probes[p.client.nextRequest := now + deadlineMs])
    case ReplaceControl =>
      var client := ReconnectNow(p.client);
      p.(client := client, isHandshakeArmed := p.isHandshakeArmed || |client.changes| > |p.client.changes|)
    case CloseSockets => p.(client := Abandon(p.client), isHandshakeArmed := false)
    case ReconnectShownTerminals => p
    case HoldInput => p.(isInputHeld := true, holder := p.client.nextRequest)
    case ReleaseInput => p.(isInputHeld := false)
    case ScheduleHeartbeat(inMs) => p.(heartbeatDue := Some(now + inMs))
    case CancelHeartbeat => p.(heartbeatDue := None)
  }

  function RunActions(p: Page, actions: seq<Action>, now: int): Page
    decreases |actions|
  {
    if actions == [] then p else RunActions(RunAction(p, actions[0], now), actions[1..], now)
  }

  function Dispatch(p: Page, event: ConnectionEvent, now: int): Page {
    var decision := Decide(p.decider, event);
    RunActions(p.(decider := decision.state), decision.actions, now)
  }

  function ChangeNoted(p: Page, change: Change, now: int): Page {
    match change
    case ToConnecting => p.(isHandshakeArmed := true)
    case ToOpened => Dispatch(p.(isHandshakeArmed := false), ControlOpened, now)
    case ToClosed => Dispatch(p.(isHandshakeArmed := false), ControlClosed, now)
  }

  /** The change of socket that the client has announced since there were so many, if any. */
  function AnnouncedNoted(p: Page, announced: nat, now: int): Page {
    if |p.client.changes| > announced then ChangeNoted(p, p.client.changes[|p.client.changes| - 1], now) else p
  }

  /** An event of the client, and the change it announces. */
  function ClientStep(p: Page, event: ControlWs.Event, now: int): Page {
    AnnouncedNoted(p.(client := ControlWs.Step(p.client, event, true)), |p.client.changes|, now)
  }

  function AnswerOf(settlements: seq<Settlement>, request: nat): Option<Answer> {
    if settlements == [] then None
    else if settlements[|settlements| - 1].request == request then Some(settlements[|settlements| - 1].answer)
    else AnswerOf(settlements[..|settlements| - 1], request)
  }

  /** The outcome of a probe reaches the supervisor, some time after its request was answered. */
  function ProbeReported(p: Page, request: nat, now: int): Page {
    var answer := AnswerOf(p.client.settlements, request);
    if request !in p.probes || answer.None? then p
    else Dispatch(p.(probes := p.probes - {request}), if answer.value.Reply? then Pong else PongMissed, now)
  }

  function VisibilityNoted(p: Page, isVisible: bool, now: int): Page {
    if !isVisible then Dispatch(p.(hiddenSince := Some(now)), Hidden, now)
    else
      var hiddenForMs := if p.hiddenSince.None? then 0 else now - p.hiddenSince.value;
      Dispatch(p.(hiddenSince := None), Shown(hiddenForMs), now)
  }

  function HeartbeatFired(p: Page, now: int): Page {
    if p.heartbeatDue.None? then p
    else Dispatch(p.(heartbeatDue := None), HeartbeatDue(now - p.heartbeatDue.value), now)
  }

  function HandshakeFired(p: Page, now: int): Page {
    if !p.isHandshakeArmed then p else Dispatch(p.(isHandshakeArmed := false), HandshakeOverdue, now)
  }

  datatype Happening =
    | VisibilityChanges(isVisible: bool)
    | Freezes
    | Resumes
    | NetworkChanges
    | HeartbeatFires
    | HandshakeFires
    | ProbeReports(request: nat)
    | ClientHears(event: ControlWs.Event)

  /** Giving the socket up and replacing it are the supervisor's own; connecting for the first time is
      in the initial page. */
  predicate IsHeard(event: ControlWs.Event) {
    !event.Abandoned? && !event.ConnectAsked? && !event.ReconnectAsked?
  }

  function PageStep(p: Page, happening: Happening, now: int): Page {
    match happening
    case VisibilityChanges(isVisible) => VisibilityNoted(p, isVisible, now)
    case Freezes => Dispatch(p, Frozen, now)
    case Resumes => Dispatch(p, Resumed, now)
    case NetworkChanges => Dispatch(p, NetworkChanged, now)
    case HeartbeatFires => HeartbeatFired(p, now)
    case HandshakeFires => HandshakeFired(p, now)
    case ProbeReports(request) => ProbeReported(p, request, now)
    case ClientHears(event) => if IsHeard(event) then ClientStep(p, event, now) else p
  }

  /** What happened and when. */
  datatype Timed = Timed(happening: Happening, now: int)

  function PageRun(p: Page, happenings: seq<Timed>): Page {
    if happenings == [] then p
    else
      var last := happenings[|happenings| - 1];
      PageStep(PageRun(p, happenings[..|happenings| - 1]), last.happening, last.now)
  }

  /** The page when the supervisor and the first connection have been started. */
  function FirstPage(isVisible: bool, now: int): Page {
    Page(SupervisorState(isVisible, false, false, false), Connect(NEW_CLIENT), None, false,
         if isVisible then None else Some(now), map[], false, 0)
  }
}
