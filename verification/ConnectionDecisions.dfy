/**
 What the supervisor does about each thing that happens, told by what becomes of the page: when it keeps its
 socket and probes it, when it gives the socket up for a new one, and when it leaves everything alone.
 */
module ConnectionDecisions {
  import opened ConnectionSupervisorCore
  import opened ConnectionSupervisor
  import opened ConnectionRuns
  import opened ControlWs
  import opened ControlWsRuns
  import opened Wrappers

  // ----- what can become of a page -----

  /** Held input, the heartbeat and the time of hiding stay as they were. */
  predicate KeepsWatch(p: Page, p': Page) {
    p'.isInputHeld == p.isInputHeld && p'.heartbeatDue == p.heartbeatDue && p'.hiddenSince == p.hiddenSince
  }

  /** Client, probes and held input stay as they were. */
  predicate LeavesConnection(p: Page, p': Page) {
    && p'.client == p.client && p'.probes == p.probes && p'.isInputHeld == p.isInputHeld
    && p'.isHandshakeArmed == p.isHandshakeArmed
  }

  /** The socket stays, and one new request probes it, to be answered in so many milliseconds. */
  predicate Probes(p: Page, p': Page, now: int, deadlineMs: int) {
    var request := p.client.nextRequest;
    && p'.client.socket == p.client.socket && p'.client.nextRequest == request + 1
    && request !in p.probes && p'.probes == p.probes[request := now + deadlineMs]
    && (IsOpen(p.client) ==> request in p'.client.pending && request in p'.client.timers)
    && p'.decider.isProbing && p'.decider.isReplacing == p.decider.isReplacing
    && p'.isHandshakeArmed == p.isHandshakeArmed
  }

  predicate HoldsInputFor(p': Page, request: nat) {
    p'.isInputHeld && p'.holder == request
  }

  /** The socket is given up, every request with it, and a new socket or a token for one is on its way. */
  predicate Replaces(p: Page, p': Page) {
    && (p.client.socket.Some? ==> Superseded(p'.client, p.client.socket.value.id))
    && p'.client.pending == [] && p'.client.timers == {} && p'.client.nextRequest == p.client.nextRequest
    && p'.probes == p.probes && p'.decider.isReplacing
    && !p'.client.isAbandoned && !p'.client.isRetryArmed && p'.client.retryAttempt == 0
    && (if p.client.hasToken && !p.client.isTokenFetchPending then
          && p'.client.socket.Some? && p'.client.socket.value.id == p.client.nextSocket
          && p'.client.socket.value.phase == Connecting && p'.isHandshakeArmed
        else p'.client.socket.None? && p'.client.isTokenFetchPending)
  }

  lemma {:induction false} RejectedForgetsTimers(c: Client)
    requires Accounted(c)
    ensures Rejected(c).pending == [] && Rejected(c).timers == {}
  {
    RejectedKeepsAccounts(c);
    forall request: nat
      ensures request !in Rejected(c).timers
    {
      assert AccountsFor(Rejected(c), request);
    }
  }

  lemma {:induction false} ReconnectReplaces(p: Page, now: int)
    requires Sound(p.client) && p.decider.isReplacing
    ensures Replaces(p, RunAction(p, ReplaceControl, now))
    ensures
      var p' := RunAction(p, ReplaceControl, now);
      p'.decider == p.decider && KeepsWatch(p, p')
  {
    var c := p.client.(socket := None, isAbandoned := true, isRetryArmed := false);
    SameAccounts(p.client, c);
    RejectedForgetsTimers(c);
    RejectedOnlyAnswers(c);
    ReconnectStaysSound(p.client);
  }

  lemma {:induction false} EverythingIsReplaced(p: Page, now: int)
    requires Sound(p.client) && p.decider.isReplacing
    ensures
      var p' := RunActions(p, REPLACE_EVERYTHING, now);
      Replaces(p, p') && p'.decider == p.decider && KeepsWatch(p, p')
  {
    TwoActions(p, ReconnectShownTerminals, ReplaceControl, now);
    ReconnectReplaces(p, now);
  }

  lemma {:induction false} RequestProbes(p: Page, deadlineMs: int, isAnnounced: bool, now: int)
    requires Grounded(p) && p.decider.isProbing
    ensures
      var p' := RunAction(p, ProbeControl(deadlineMs, isAnnounced), now);
      && Probes(p, p', now, deadlineMs) && p'.decider == p.decider
      && KeepsWatch(p, p') && p'.holder == p.holder
  {
    RequestStaysSound(p.client);
  }

  lemma {:induction false} OpenlyProbed(p: Page, deadlineMs: int, now: int)
    requires Grounded(p) && p.decider.isProbing
    ensures
      var p' := RunActions(p, [HoldInput, ProbeControl(deadlineMs, true)], now);
      && Probes(p, p', now, deadlineMs) && p'.decider == p.decider
      && HoldsInputFor(p', p.client.nextRequest)
      && p'.heartbeatDue == p.heartbeatDue && p'.hiddenSince == p.hiddenSince
  {
    TwoActions(p, HoldInput, ProbeControl(deadlineMs, true), now);
    RequestProbes(RunAction(p, HoldInput, now), deadlineMs, true, now);
  }

  lemma {:induction false} QuietlyProbed(p: Page, deadlineMs: int, now: int)
    requires Grounded(p) && p.decider.isProbing
    ensures
      var p' := RunActions(p, [ProbeControl(deadlineMs, false)], now);
      && Probes(p, p', now, deadlineMs) && p'.decider == p.decider
      && KeepsWatch(p, p')
  {
    OneAction(p, ProbeControl(deadlineMs, false), now);
    RequestProbes(p, deadlineMs, false, now);
  }

  // ----- the page is shown or hidden -----

  function HiddenFor(p: Page, now: int): int {
    if p.hiddenSince.Some? then now - p.hiddenSince.value else 0
  }

  /** What becomes of a page that is shown again. */
  predicate ProbesOrReplaces(p: Page, p': Page, now: int) {
    && p'.decider.isVisible && p'.decider.isFrozen == p.decider.isFrozen && p'.hiddenSince.None?
    && p'.heartbeatDue == p.heartbeatDue
    && if p.decider.isReplacing then LeavesConnection(p, p') && p'.decider.isReplacing
       else if HiddenFor(p, now) > 10_000 then Replaces(p, p')
       else if p.decider.isProbing then LeavesConnection(p, p') && p'.decider.isProbing && !p'.decider.isReplacing
       else Probes(p, p', now, 1_500) && HoldsInputFor(p', p.client.nextRequest)
  }

  /** A page shown again probes its socket with the input held if it was hidden for at most 10 seconds, and
      takes a new socket if it was for longer; it does neither while a replacement is on its way, and does
      not probe twice. */
  lemma {:induction false} ShownProbesOrReplaces(p: Page, now: int)
    requires Safe(p)
    ensures ProbesOrReplaces(p, PageStep(p, VisibilityChanges(true), now), now)
  {
    var p1 := p.(hiddenSince := None, decider := p.decider.(isVisible := true));
    if !p.decider.isReplacing && HiddenFor(p, now) > 10_000 {
      EverythingIsReplaced(p1.(decider := p1.decider.(isReplacing := true)), now);
    } else if !p.decider.isReplacing && !p.decider.isProbing {
      OpenlyProbed(p1.(decider := p1.decider.(isProbing := true)), 1_500, now);
    }
  }

  /** A page that is hidden remembers since when and has no heartbeat. */
  lemma {:induction false} HiddenWaits(p: Page, now: int)
    ensures
      PageStep(p, VisibilityChanges(false), now)
      == p.(hiddenSince := Some(now), heartbeatDue := None, decider := p.decider.(isVisible := false))
  {
    OneAction(p.(hiddenSince := Some(now), decider := p.decider.(isVisible := false)), CancelHeartbeat, now);
  }

  /** A frozen page has given its socket up, with every request, every timer and the heartbeat. */
  lemma {:induction false} FrozenGivesUp(p: Page, now: int)
    requires Safe(p)
    ensures
      var p' := PageStep(p, Freezes, now);
      && p'.decider == SupervisorState(p.decider.isVisible, true, false, false)
      && p'.client.socket.None? && p'.client.isAbandoned && !p'.client.isRetryArmed
      && p'.client.pending == [] && p'.client.timers == {}
      && (p.client.socket.Some? ==> Superseded(p'.client, p.client.socket.value.id))
      && p'.heartbeatDue.None? && !p'.isHandshakeArmed && p'.probes == p.probes
  {
    var p1 := p.(decider := p.decider.(isFrozen := true, isProbing := false, isReplacing := false));
    TwoActions(p1, CancelHeartbeat, CloseSockets, now);
    var c := p.client.(socket := None, isAbandoned := true, isRetryArmed := false);
    SameAccounts(p.client, c);
    RejectedForgetsTimers(c);
    RejectedOnlyAnswers(c);
  }

  /** A page that resumes takes a new socket: always after a freeze, and otherwise unless one is on its way. */
  lemma {:induction false} ResumedReplaces(p: Page, now: int)
    requires Safe(p)
    ensures
      var p' := PageStep(p, Resumes, now);
      && p'.decider == p.decider.(isFrozen := false, isReplacing := true)
      && KeepsWatch(p, p')
      && if p.decider.isFrozen || !p.decider.isReplacing then Replaces(p, p') else LeavesConnection(p, p')
  {
    if p.decider.isFrozen || !p.decider.isReplacing {
      EverythingIsReplaced(p.(decider := p.decider.(isFrozen := false, isReplacing := true)), now);
    }
  }

  // ----- the network and the timers -----

  /** A change of network makes a visible page probe, unless it is probing or replacing. */
  lemma {:induction false} NetworkChangeProbes(p: Page, now: int)
    requires Safe(p)
    ensures
      var p' := PageStep(p, NetworkChanges, now);
      if p.decider.isVisible && !p.decider.isProbing && !p.decider.isReplacing then
        && Probes(p, p', now, 3_000) && p'.decider == p.decider.(isProbing := true)
        && KeepsWatch(p, p')
      else p' == p
  {
    if p.decider.isVisible && !p.decider.isProbing && !p.decider.isReplacing {
      QuietlyProbed(p.(decider := p.decider.(isProbing := true)), 3_000, now);
    }
  }

  /** A heartbeat makes a visible page probe when it comes at most 5 seconds late, and take a new socket
      when it comes later: the page has slept. */
  lemma {:induction false} HeartbeatProbesOrReplaces(p: Page, now: int)
    requires Safe(p) && p.heartbeatDue.Some?
    ensures
      var p' := PageStep(p, HeartbeatFires, now);
      && KeepsWatch(p.(heartbeatDue := None), p')
      && p'.decider.isVisible == p.decider.isVisible && p'.decider.isFrozen == p.decider.isFrozen
      && if !p.decider.isVisible || p.decider.isReplacing then LeavesConnection(p, p') && p'.decider == p.decider
         else if now - p.heartbeatDue.value > 5_000 then Replaces(p, p')
         else if p.decider.isProbing then LeavesConnection(p, p') && p'.decider == p.decider
         else Probes(p, p', now, 3_000)
  {
    var p1 := p.(heartbeatDue := None);
    if p.decider.isVisible && !p.decider.isReplacing {
      if now - p.heartbeatDue.value > 5_000 {
        EverythingIsReplaced(p1.(decider := p.decider.(isReplacing := true)), now);
      } else if !p.decider.isProbing {
        QuietlyProbed(p1.(decider := p.decider.(isProbing := true)), 3_000, now);
      }
    }
  }

  /** A handshake that takes too long is given up for a new socket, replacing or not. */
  lemma {:induction false} OverdueHandshakeReplaces(p: Page, now: int)
    requires Safe(p) && p.isHandshakeArmed
    ensures
      var p' := PageStep(p, HandshakeFires, now);
      Replaces(p.(isHandshakeArmed := false), p') && p'.decider == p.decider.(isReplacing := true)
      && KeepsWatch(p, p')
  {
    var p1 := p.(isHandshakeArmed := false, decider := p.decider.(isReplacing := true));
    OneAction(p1, ReplaceControl, now);
    ReconnectReplaces(p1, now);
  }

  // ----- a probe reports -----

  predicate HasAnswer(p: Page, request: nat, isReply: bool) {
    && request in p.probes
    && match AnswerOf(p.client.settlements, request)
       case None => false
       case Some(answer) => answer.Reply? == isReply
  }

  /** An answered probe lets held input go, keeps the socket, and the next heartbeat of a visible, thawed page
      comes in 15 seconds. */
  lemma {:induction false} PongKeepsSocket(p: Page, request: nat, now: int)
    requires HasAnswer(p, request, true)
    ensures
      var p' := PageStep(p, ProbeReports(request), now);
      p' == p.(probes := p.probes - {request}, isInputHeld := false, decider := p.decider.(isProbing := false),
               heartbeatDue := if p.decider.isVisible && !p.decider.isFrozen then Some(now + 15_000)
                               else p.heartbeatDue)
  {
    var p1 := p.(probes := p.probes - {request}, decider := p.decider.(isProbing := false));
    if !p.decider.isFrozen && p.decider.isVisible {
      assert Decide(p.decider, Pong).actions == [ReleaseInput, ScheduleHeartbeat(HEARTBEAT_INTERVAL_MS)];
      TwoActions(p1, ReleaseInput, ScheduleHeartbeat(HEARTBEAT_INTERVAL_MS), now);
    } else {
      assert Decide(p.decider, Pong).actions == [ReleaseInput];
      OneAction(p1, ReleaseInput, now);
    }
  }

  /** A probe without an answer lets held input go, and a thawed page takes a new socket unless one is on its
      way. */
  lemma {:induction false} MissedPongReplaces(p: Page, request: nat, now: int)
    requires Safe(p) && HasAnswer(p, request, false)
    ensures
      var p', p1 := PageStep(p, ProbeReports(request), now), p.(probes := p.probes - {request});
      && !p'.isInputHeld && !p'.decider.isProbing && p'.heartbeatDue == p.heartbeatDue
      && p'.decider.isVisible == p.decider.isVisible && p'.decider.isFrozen == p.decider.isFrozen
      && if p.decider.isFrozen || p.decider.isReplacing then
           LeavesConnection(p1.(isInputHeld := false), p') && p'.decider.isReplacing == p.decider.isReplacing
         else Replaces(p1, p')
  {
    var p1 := p.(probes := p.probes - {request}, decider := p.decider.(isProbing := false));
    if p.decider.isFrozen || p.decider.isReplacing {
      assert Decide(p.decider, PongMissed).actions == [ReleaseInput];
      OneAction(p1, ReleaseInput, now);
    } else {
      var p2 := p1.(decider := p1.decider.(isReplacing := true));
      ActionsInTurn(p2, REPLACE_EVERYTHING, ReleaseInput, now);
      EverythingIsReplaced(p2, now);
    }
  }

  // ----- the client announces -----

  /** A socket that opens ends the replacement, its handshake is timed no longer, and a visible page's next
      heartbeat comes in 15 seconds. */
  lemma {:induction false} OpeningSettles(p: Page, ws: nat, now: int)
    requires Safe(p) && IsCurrent(p.client, ws) && p.client.socket.value.phase == Connecting
    ensures
      var p' := PageStep(p, ClientHears(SocketOpens(ws)), now);
      && IsOpen(p'.client) && IsCurrent(p'.client, ws) && !p'.isHandshakeArmed && p'.client.retryAttempt == 0
      && p'.decider == p.decider.(isReplacing := false) && p'.probes == p.probes
      && p'.client.pending == p.client.pending && p'.isInputHeld == p.isInputHeld && p'.hiddenSince == p.hiddenSince
      && p'.heartbeatDue == if p.decider.isVisible then Some(now + 15_000) else p.heartbeatDue
  {
    var p1 := p.(client := SocketOpened(p.client, ws), isHandshakeArmed := false,
                 decider := p.decider.(isReplacing := false));
    if p.decider.isVisible {
      OneAction(p1, ScheduleHeartbeat(HEARTBEAT_INTERVAL_MS), now);
    }
  }

  /** A socket that closes ends the replacement too: there is no socket and no request any more, the heartbeat
      stops and the retry is timed; a token that never got a local socket to open is forgotten. */
  lemma {:induction false} ClosingSettles(p: Page, ws: nat, now: int)
    requires Safe(p) && IsCurrent(p.client, ws)
    ensures
      var p' := PageStep(p, ClientHears(SocketIsClosed(ws)), now);
      && p'.client.socket.None? && p'.client.pending == [] && p'.client.timers == {} && p'.client.isRetryArmed
      && p'.client.retryAttempt == p.client.retryAttempt + 1
      && p'.client.hasToken == (p.client.hasToken && p.client.socket.value.hasEverOpened)
      && p'.decider == p.decider.(isReplacing := false) && !p'.isHandshakeArmed && p'.heartbeatDue.None?
      && p'.probes == p.probes && p'.isInputHeld == p.isInputHeld && p'.hiddenSince == p.hiddenSince
  {
    var c := p.client.(socket := None);
    SameAccounts(p.client, c);
    RejectedForgetsTimers(c);
    RejectedOnlyAnswers(c);
    var p1 := p.(client := SocketClosed(p.client, ws, true), isHandshakeArmed := false,
                 decider := p.decider.(isReplacing := false));
    OneAction(p1, CancelHeartbeat, now);
  }
}
