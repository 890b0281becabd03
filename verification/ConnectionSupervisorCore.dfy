/**
 What to do about the connection: from the state of the page and an event, the new state and the actions
 to take, in order.
 */
module ConnectionSupervisorCore {

  const LONG_HIDE_MS := 10_000
  const WAKE_PROBE_DEADLINE_MS := 1_500
  const HEARTBEAT_INTERVAL_MS := 15_000
  const HEARTBEAT_DEADLINE_MS := 3_000
  const SUSPENSION_GAP_MS := 5_000

  datatype ConnectionEvent =
    | Shown(hiddenForMs: int)
    | Hidden
    | Frozen
    | Resumed
    | NetworkChanged
    | HeartbeatDue(lateByMs: int)
    | Pong
    | PongMissed
    | HandshakeOverdue
    | ControlOpened
    | ControlClosed

  datatype Action =
    | ProbeControl(deadlineMs: int, isAnnounced: bool)
    | ReplaceControl
    | CloseSockets
    | ReconnectShownTerminals
    | HoldInput
    | ReleaseInput
    | ScheduleHeartbeat(inMs: int)
    | CancelHeartbeat

  datatype SupervisorState = SupervisorState(isVisible: bool, isFrozen: bool, isProbing: bool, isReplacing: bool)

  datatype Decision = Decision(state: SupervisorState, actions: seq<Action>)

  const REPLACE_EVERYTHING: seq<Action> := [ReconnectShownTerminals, ReplaceControl]

  function ReplaceEverything(state: SupervisorState): Decision {
    if state.isReplacing then Decision(state, []) else Decision(state.(isReplacing := true), REPLACE_EVERYTHING)
  }

  function Probe(state: SupervisorState, deadlineMs: int, isAnnounced: bool): Decision {
    if state.isProbing || state.isReplacing then Decision(state, [])
    else
      var probe := ProbeControl(deadlineMs, isAnnounced);
      Decision(state.(isProbing := true), if isAnnounced then [HoldInput, probe] else [probe])
  }

  function HeartbeatWhileVisible(state: SupervisorState): seq<Action> {
    if state.isVisible then [ScheduleHeartbeat(HEARTBEAT_INTERVAL_MS)] else []
  }

  function Decide(state: SupervisorState, event: ConnectionEvent): Decision {
    match event
    case Shown(hiddenForMs) =>
      var shown := state.(isVisible := true);
      if hiddenForMs > LONG_HIDE_MS then ReplaceEverything(shown) else Probe(shown, WAKE_PROBE_DEADLINE_MS, true)
    case Hidden => Decision(state.(isVisible := false), [CancelHeartbeat])
    case Frozen =>
      Decision(state.(isFrozen := true, isProbing := false, isReplacing := false), [CancelHeartbeat, CloseSockets])
    case Resumed =>
      if state.isFrozen then Decision(state.(isFrozen := false, isReplacing := true), REPLACE_EVERYTHING)
      else ReplaceEverything(state)
    case NetworkChanged =>
      if !state.isVisible then Decision(state, []) else Probe(state, HEARTBEAT_DEADLINE_MS, false)
    case HeartbeatDue(lateByMs) =>
      if !state.isVisible then Decision(state, [])
      else if lateByMs > SUSPENSION_GAP_MS then ReplaceEverything(state)
      else Probe(state, HEARTBEAT_DEADLINE_MS, false)
    case Pong =>
      if state.isFrozen then Decision(state.(isProbing := false), [ReleaseInput])
      else Decision(state.(isProbing := false), [ReleaseInput] + HeartbeatWhileVisible(state))
    case PongMissed =>
      if state.isFrozen then Decision(state.(isProbing := false), [ReleaseInput])
      else
        var replaced := ReplaceEverything(state.(isProbing := false));
        Decision(replaced.state, replaced.actions + [ReleaseInput])
    case HandshakeOverdue => Decision(state.(isReplacing := true), [ReplaceControl])
    case ControlOpened => Decision(state.(isReplacing := false), HeartbeatWhileVisible(state))
    case ControlClosed => Decision(state.(isReplacing := false), [CancelHeartbeat])
  }
}
