/**
 The supervisor in place, with the control client it drives. Every method does to the page what
 `ConnectionSupervisor` says, and every handler keeps the page safe.
 */
module ConnectionSupervisors {
  import opened ConnectionSupervisorCore
  import opened ConnectionSupervisor
  import opened ConnectionRuns
  import opened ConnectionDecisions
  import opened ControlWs
  import opened ControlClients
  import opened Wrappers

  class Supervisor {
    const client: ControlClient
    var supervisorState: SupervisorState
    var hiddenSinceMs: Option<int>
    /** When the heartbeat is due, while its timer is armed. */
    var heartbeatTimer: Option<int>
    var handshakeTimer: bool
    /** The probes under way and when they are due. */
    var probes: map<nat, int>
    var isInputHeld: bool
    ghost var holder: nat

    ghost function State(): Page
      reads this, client
    {
      Page(supervisorState, client.State(), heartbeatTimer, handshakeTimer, hiddenSinceMs, probes, isInputHeld, holder)
    }

    /** The client keeps what it must, and the page is safe. */
    ghost predicate Valid()
      reads this, client
    {
      client.Valid() && client.isLocal && Safe(State())
    }

    constructor (isVisible: bool, now: int)
      ensures Valid() && State() == FirstPage(isVisible, now) && fresh(client)
    {
      client := new ControlClient(true);
      supervisorState := SupervisorState(isVisible, false, false, false);
      hiddenSinceMs := if isVisible then None else Some(now);
      heartbeatTimer, handshakeTimer, probes, isInputHeld, holder := None, false, map[], false, 0;
      new;
      client.Connect();
      FirstPageIsSafe(isVisible, now);
    }

    method CancelHeartbeatTimer()
      modifies this`heartbeatTimer
      ensures heartbeatTimer == None
    {
      heartbeatTimer := None;
    }

    method RunConnectionAction(action: Action, now: int)
      requires client.Valid()
      modifies this, client
      ensures client.Valid() && State() == RunAction(old(State()), action, now)
    {
      match action
      case ProbeControl(deadlineMs, _) =>
        var requestId := client.Request();
        probes := probes[requestId := now + deadlineMs];
      case ReplaceControl =>
        var announced := |client.changes|;
        client.ReconnectNow();
        if |client.changes| > announced {
          handshakeTimer := true;
        }
      case CloseSockets =>
        handshakeTimer := false;
        client.Abandon();
      case ReconnectShownTerminals =>
      case HoldInput =>
        isInputHeld := true;
        holder := client.requestSequence;
      case ReleaseInput => isInputHeld := false;
      case ScheduleHeartbeat(inMs) =>
        CancelHeartbeatTimer();
        heartbeatTimer := Some(now + inMs);
      case CancelHeartbeat => CancelHeartbeatTimer();
    }

    method DispatchConnectionEvent(event: ConnectionEvent, now: int)
      requires client.Valid()
      modifies this, client
      ensures client.Valid() && State() == Dispatch(old(State()), event, now)
    {
      var decision := Decide(supervisorState, event);
      supervisorState := decision.state;
      var actions := decision.actions;
      var i := 0;
      assert actions[i..] == actions;
      while i < |actions|
        invariant i <= |actions| && client.Valid()
        invariant RunActions(State(), actions[i..], now) == Dispatch(old(State()), event, now)
      {
        assert actions[i..][0] == actions[i] && actions[i..][1..] == actions[i + 1..];
        RunConnectionAction(actions[i], now);
        i := i + 1;
      }
      assert actions[i..] == [];
    }

    method DecideOnVisibility(isVisible: bool, now: int)
      requires client.Valid()
      modifies this, client
      ensures client.Valid() && State() == VisibilityNoted(old(State()), isVisible, now)
    {
      if !isVisible {
        hiddenSinceMs := Some(now);
        DispatchConnectionEvent(Hidden, now);
        return;
      }
      var hiddenForMs := if hiddenSinceMs.None? then 0 else now - hiddenSinceMs.value;
      hiddenSinceMs := None;
      DispatchConnectionEvent(Shown(hiddenForMs), now);
    }

    method NoteVisibilityChange(isVisible: bool, now: int)
      requires Valid()
      modifies this, client
      ensures Valid() && State() == VisibilityNoted(old(State()), isVisible, now)
      ensures isVisible ==> ProbesOrReplaces(old(State()), State(), now)
    {
      StepIsSafe(State(), VisibilityChanges(isVisible), now);
      ShownProbesOrReplaces(State(), now);
      DecideOnVisibility(isVisible, now);
    }

    method NoteFreeze(now: int)
      requires Valid()
      modifies this, client
      ensures Valid() && State() == Dispatch(old(State()), Frozen, now)
    {
      StepIsSafe(State(), Freezes, now);
      DispatchConnectionEvent(Frozen, now);
    }

    method NoteResume(now: int)
      requires Valid()
      modifies this, client
      ensures Valid() && State() == Dispatch(old(State()), Resumed, now)
    {
      StepIsSafe(State(), Resumes, now);
      DispatchConnectionEvent(Resumed, now);
    }

    method NoteNetworkChange(now: int)
      requires Valid()
      modifies this, client
      ensures Valid() && State() == Dispatch(old(State()), NetworkChanged, now)
    {
      StepIsSafe(State(), NetworkChanges, now);
      DispatchConnectionEvent(NetworkChanged, now);
    }

    method NoteControlSocketChange(change: Change, now: int)
      requires client.Valid()
      modifies this, client
      ensures client.Valid() && State() == ChangeNoted(old(State()), change, now)
    {
      handshakeTimer := false;
      if change == ToConnecting {
        handshakeTimer := true;
        return;
      }
      DispatchConnectionEvent(if change == ToOpened then ControlOpened else ControlClosed, now);
    }

    method HeartbeatTimerFired(now: int)
      requires Valid()
      modifies this, client
      ensures Valid() && State() == HeartbeatFired(old(State()), now)
    {
      StepIsSafe(State(), HeartbeatFires, now);
      if heartbeatTimer.None? { return; }
      var lateByMs := now - heartbeatTimer.value;
      heartbeatTimer := None;
      DispatchConnectionEvent(HeartbeatDue(lateByMs), now);
    }

    method HandshakeTimerFired(now: int)
      requires Valid()
      modifies this, client
      ensures Valid() && State() == HandshakeFired(old(State()), now)
    {
      StepIsSafe(State(), HandshakeFires, now);
      if !handshakeTimer { return; }
      handshakeTimer := false;
      DispatchConnectionEvent(HandshakeOverdue, now);
    }

    method NoteProbeReport(request: nat, now: int)
      requires Valid()
      modifies this, client
      ensures Valid() && State() == ProbeReported(old(State()), request, now)
    {
      StepIsSafe(State(), ProbeReports(request), now);
      var answer := AnswerOf(client.settlements, request);
      if request !in probes || answer.None? { return; }
      probes := probes - {request};
      DispatchConnectionEvent(if answer.value.Reply? then Pong else PongMissed, now);
    }

    method StepClient(event: ControlWs.Event)
      requires client.Valid() && client.isLocal && IsHeard(event)
      modifies client
      ensures client.Valid() && client.State() == ControlWs.Step(old(client.State()), event, true)
    {
      match event
      case RequestMade =>
        var _ := client.Request();
      case TimeoutDue(request) => client.RequestTimerFired(request);
      case TokenArrives(hasToken) => client.TokenFetched(hasToken);
      case TokenChanges(hasToken) => client.TokenChanged(hasToken);
      case SocketOpens(ws) => client.SocketOpened(ws);
      case SocketCloses(ws) => client.SocketClosing(ws);
      case SocketIsClosed(ws) => client.SocketClosed(ws);
      case FrameArrives(ws, frame) => client.Receive(ws, frame);
      case RetryDue => client.RetryTimerFired();
    }

    /** Notes the change of socket the client has announced since there were so many, if any. */
    method NoteAnnounced(announced: nat, now: int)
      requires client.Valid()
      modifies this, client
      ensures client.Valid() && State() == AnnouncedNoted(old(State()), announced, now)
    {
      if |client.changes| > announced {
        NoteControlSocketChange(client.changes[|client.changes| - 1], now);
      }
    }

    method HearClient(event: ControlWs.Event, now: int)
      requires Valid() && IsHeard(event)
      modifies this, client
      ensures Valid() && State() == ClientStep(old(State()), event, now)
    {
      HeardIsSafe(State(), event, now);
      var announced := |client.changes|;
      StepClient(event);
      assert State() == old(State()).(client := ControlWs.Step(old(State()).client, event, true));
      NoteAnnounced(announced, now);
    }

    /** A supervisor between two handlers, of a page that is visible and thawed, has something to come. */
    lemma {:induction false} SomethingIsComing()
      requires Valid() && supervisorState.isVisible && !supervisorState.isFrozen
      ensures || heartbeatTimer.Some? || probes != map[] || handshakeTimer
              || client.controlRetryTimer || client.isTokenFetchPending
      ensures forall request :: request in probes ==> WillReport(State(), request)
    {
      ProbesWillReport(State());
    }
  }
}
