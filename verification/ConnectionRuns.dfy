/**
 The supervised connection over every interleaving of page, network, timer, probe and socket events: a
 page that can be seen is never left without something to come, and held input is always let go.
 */
module ConnectionRuns {
  import opened ConnectionSupervisorCore
  import opened ConnectionSupervisor
  import opened ControlWs
  import opened ControlWsRuns
  import opened Wrappers

  // ----- what is asked of the client -----

  predicate IsUp(c: Client) {
    c.socket.Some? && c.socket.value.hasEverOpened
  }

  predicate IsComing(c: Client) {
    c.socket.Some? && !c.socket.value.hasEverOpened
  }

  ghost predicate Sound(c: Client) {
    OnItsWay(c) && Accounted(c) && (IsOpen(c) ==> IsUp(c))
  }

  lemma {:induction false} RequestStaysSound(c: Client)
    requires Sound(c)
    ensures Sound(Request(c)) && Request(c).nextRequest == c.nextRequest + 1
    ensures Request(c).socket == c.socket && Request(c).isAbandoned == c.isAbandoned
  {
    StepKeepsOnItsWay(c, RequestMade, true);
    RequestKeepsAccounts(c);
    RequestKeepsSocket(c);
  }

  lemma {:induction false} AbandonStaysSound(c: Client)
    requires Sound(c)
    ensures Sound(Abandon(c)) && Abandon(c).socket.None? && Abandon(c).nextRequest == c.nextRequest
  {
    StepKeepsOnItsWay(c, Abandoned, true);
    AbandonKeepsAccounts(c);
    RejectedOnlyAnswers(c.(socket := None, isAbandoned := true, isRetryArmed := false));
  }

  /** After a replacement nothing is up; if a socket is on its way that has been announced. */
  lemma {:induction false} ReconnectStaysSound(c: Client)
    requires Sound(c)
    ensures
      var c' := ReconnectNow(c);
      && Sound(c') && !c'.isAbandoned && !IsUp(c') && c'.nextRequest == c.nextRequest
      && (IsComing(c') ==> |c'.changes| > |c.changes|)
  {
    StepKeepsOnItsWay(c, ReconnectAsked, true);
    ReconnectKeepsAccounts(c);
    RejectedOnlyAnswers(c.(socket := None, isAbandoned := true, isRetryArmed := false));
  }

  /** What an event of the client's own can do to the socket, and that it says so. */
  predicate Announces(c: Client, c': Client) {
    && c'.nextRequest >= c.nextRequest
    && (!c.isAbandoned ==> !c'.isAbandoned)
    && if c'.changes == c.changes then
         (IsUp(c') ==> IsUp(c)) && (IsComing(c') ==> IsComing(c))
       else
         && |c'.changes| == |c.changes| + 1
         && match c'.changes[|c.changes|]
            case ToConnecting => IsComing(c')
            case ToOpened => IsUp(c')
            case ToClosed => c'.socket.None?
  }

  lemma {:induction false} ConnectAnnounces(c: Client)
    requires c.socket.Some? ==> !c.isRetryArmed
    ensures Announces(c, Connect(c)) && (IsOpen(Connect(c)) ==> IsOpen(c))
  {
  }

  /** Two clients that differ in no more than requests, numbers and messages. */
  predicate SamePlace(c: Client, c': Client) {
    && c'.socket == c.socket && c'.changes == c.changes && c'.nextRequest == c.nextRequest
    && c'.isAbandoned == c.isAbandoned
  }

  lemma {:induction false} SettledKeepsPlace(c: Client, request: nat, answer: Answer)
    ensures SamePlace(c, Settled(c, request, answer))
  {
  }

  lemma {:induction false} MarkedKeepsPlace(c: Client, seqNumber: Option<int>, isSnapshot: bool)
    ensures SamePlace(c, Marked(c, seqNumber, isSnapshot))
  {
  }

  lemma {:induction false} ReceiveAnnouncesNothing(c: Client, ws: nat, frame: Frame)
    ensures SamePlace(c, Received(c, ws, frame))
  {
    if IsCurrent(c, ws) {
      if frame.NotInContract? {
        if frame.requestId.Some? {
          SettledKeepsPlace(c, frame.requestId.value, Unreadable);
        }
      } else if frame.Message? {
        MarkedKeepsPlace(c, frame.seqNumber, frame.isSnapshot);
        if frame.requestId.Some? {
          SettledKeepsPlace(Marked(c, frame.seqNumber, frame.isSnapshot), frame.requestId.value, Reply(frame.body));
        }
      }
    }
  }

  lemma {:induction false} HeardIsAnnounced(c: Client, event: ControlWs.Event)
    requires Sound(c) && IsHeard(event)
    ensures Announces(c, ControlWs.Step(c, event, true))
    ensures IsOpen(ControlWs.Step(c, event, true)) ==> IsUp(ControlWs.Step(c, event, true))
  {
    if event.RequestMade? {
      RequestStaysSound(c);
    } else if event.FrameArrives? {
      ReceiveAnnouncesNothing(c, event.ws, event.frame);
    } else if event.SocketIsClosed? {
      RejectedOnlyAnswers(c.(socket := None));
    } else if event.TokenArrives? {
      ConnectAnnounces(c.(isTokenFetchPending := false, hasToken := event.hasToken));
    } else if event.RetryDue? {
      ConnectAnnounces(c);
    }
  }

  lemma {:induction false} HeardStaysSound(c: Client, event: ControlWs.Event)
    requires Sound(c) && IsHeard(event)
    ensures Sound(ControlWs.Step(c, event, true)) && Announces(c, ControlWs.Step(c, event, true))
  {
    HeardIsAnnounced(c, event);
    StepKeepsOnItsWay(c, event, true);
    StepKeepsAccounts(c, event, true);
  }

  // ----- what the page keeps -----

  /** While the page is visible and thawed and the socket is up, a heartbeat is armed or a probe has not
      reported yet. */
  predicate Watched(p: Page) {
    p.decider.isVisible && !p.decider.isFrozen && IsUp(p.client) ==> p.heartbeatDue.Some? || p.probes != map[]
  }

  predicate ReplacingIsDown(p: Page) {
    p.decider.isReplacing ==> !IsUp(p.client)
  }

  predicate ProbingIsReal(p: Page) {
    p.decider.isProbing ==> p.probes != map[]
  }

  /** Held input waits for a probe that has not reported yet. */
  predicate HeldForProbe(p: Page) {
    p.isInputHeld ==> p.holder in p.probes
  }

  /** A socket that has not opened yet has its handshake timed. */
  predicate HandshakeTimed(p: Page) {
    IsComing(p.client) ==> p.isHandshakeArmed
  }

  ghost predicate Grounded(p: Page) {
    && Sound(p.client)
    && (forall r :: r in p.probes ==> r < p.client.nextRequest)
    && (!p.decider.isFrozen ==> !p.client.isAbandoned)
  }

  ghost predicate Safe(p: Page) {
    Grounded(p) && Watched(p) && ReplacingIsDown(p) && ProbingIsReal(p) && HeldForProbe(p) && HandshakeTimed(p)
  }

  // ----- the two decisions that do something to the socket -----

  lemma {:induction false} ReplaceIsSafe(p: Page, now: int)
    requires Sound(p.client) && (forall r :: r in p.probes ==> r < p.client.nextRequest)
    requires ProbingIsReal(p) && HeldForProbe(p)
    ensures
      var p' := RunAction(p, ReplaceControl, now);
      Safe(p') && p'.decider == p.decider && !IsUp(p'.client)
  {
    ReconnectStaysSound(p.client);
  }

  lemma {:induction false} ProbeIsSafe(p: Page, deadlineMs: int, isAnnounced: bool, now: int)
    requires Grounded(p) && ReplacingIsDown(p) && HandshakeTimed(p)
    requires p.isInputHeld ==> p.holder in p.probes || p.holder == p.client.nextRequest
    ensures Safe(RunAction(p, ProbeControl(deadlineMs, isAnnounced), now))
  {
    RequestStaysSound(p.client);
    assert p.client.nextRequest in RunAction(p, ProbeControl(deadlineMs, isAnnounced), now).probes;
  }

  lemma {:induction false} OneAction(p: Page, action: Action, now: int)
    ensures RunActions(p, [action], now) == RunAction(p, action, now)
  {
    assert [action][1..] == [];
  }

  lemma {:induction false} TwoActions(p: Page, first: Action, second: Action, now: int)
    ensures RunActions(p, [first, second], now) == RunAction(RunAction(p, first, now), second, now)
  {
    assert [first, second][1..] == [second];
    OneAction(RunAction(p, first, now), second, now);
  }

  lemma {:induction false} ReplaceEverythingIsSafe(p: Page, decider: SupervisorState, now: int)
    requires Sound(p.client) && (forall r :: r in p.probes ==> r < p.client.nextRequest) && HeldForProbe(p)
    requires decider.isProbing ==> p.probes != map[]
    requires decider.isReplacing ==> Safe(p.(decider := decider))
    ensures
      var decision := ReplaceEverything(decider);
      Safe(RunActions(p.(decider := decision.state), decision.actions, now))
  {
    var p1 := p.(decider := ReplaceEverything(decider).state);
    if !decider.isReplacing {
      TwoActions(p1, ReconnectShownTerminals, ReplaceControl, now);
      ReplaceIsSafe(p1, now);
    }
  }

  lemma {:induction false} ProbeDecisionIsSafe(
    p: Page, decider: SupervisorState, deadlineMs: int, isAnnounced: bool, now: int)
    requires
      var p1 := p.(decider := decider);
      Grounded(p1) && ReplacingIsDown(p1) && HandshakeTimed(p1) && HeldForProbe(p1) && ProbingIsReal(p1)
    ensures
      var decision := Probe(decider, deadlineMs, isAnnounced);
      Safe(RunActions(p.(decider := decision.state), decision.actions, now))
  {
    var p1 := p.(decider := Probe(decider, deadlineMs, isAnnounced).state);
    var probe := ProbeControl(deadlineMs, isAnnounced);
    if !decider.isProbing && !decider.isReplacing {
      if isAnnounced {
        TwoActions(p1, HoldInput, probe, now);
        ProbeIsSafe(RunAction(p1, HoldInput, now), deadlineMs, isAnnounced, now);
      } else {
        OneAction(p1, probe, now);
        ProbeIsSafe(p1, deadlineMs, isAnnounced, now);
      }
    }
  }

  // ----- every decision -----

  lemma {:induction false} VisibilityIsSafe(p: Page, isVisible: bool, now: int)
    requires Safe(p)
    ensures Safe(VisibilityNoted(p, isVisible, now))
  {
    if isVisible {
      var hiddenForMs := if p.hiddenSince.None? then 0 else now - p.hiddenSince.value;
      var p1 := p.(hiddenSince := None);
      var shown := p.decider.(isVisible := true);
      if hiddenForMs > LONG_HIDE_MS {
        ReplaceEverythingIsSafe(p1, shown, now);
      } else {
        ProbeDecisionIsSafe(p1, shown, WAKE_PROBE_DEADLINE_MS, true, now);
      }
    } else {
      var p1 := p.(hiddenSince := Some(now), decider := p.decider.(isVisible := false));
      OneAction(p1, CancelHeartbeat, now);
    }
  }

  lemma {:induction false} FreezeIsSafe(p: Page, now: int)
    requires Safe(p)
    ensures Safe(Dispatch(p, Frozen, now))
  {
    var p1 := p.(decider := p.decider.(isFrozen := true, isProbing := false, isReplacing := false));
    TwoActions(p1, CancelHeartbeat, CloseSockets, now);
    AbandonStaysSound(p.client);
  }

  lemma {:induction false} ResumeIsSafe(p: Page, now: int)
    requires Safe(p)
    ensures Safe(Dispatch(p, Resumed, now))
  {
    if p.decider.isFrozen {
      var p1 := p.(decider := p.decider.(isFrozen := false, isReplacing := true));
      TwoActions(p1, ReconnectShownTerminals, ReplaceControl, now);
      ReplaceIsSafe(p1, now);
    } else {
      ReplaceEverythingIsSafe(p, p.decider, now);
    }
  }

  lemma {:induction false} NetworkChangeIsSafe(p: Page, now: int)
    requires Safe(p)
    ensures Safe(Dispatch(p, NetworkChanged, now))
  {
    if p.decider.isVisible {
      ProbeDecisionIsSafe(p, p.decider, HEARTBEAT_DEADLINE_MS, false, now);
    }
  }

  lemma {:induction false} HeartbeatIsSafe(p: Page, now: int)
    requires Safe(p)
    ensures Safe(HeartbeatFired(p, now))
  {
    if p.heartbeatDue.Some? && p.decider.isVisible {
      var p1 := p.(heartbeatDue := None);
      if now - p.heartbeatDue.value > SUSPENSION_GAP_MS {
        ReplaceEverythingIsSafe(p1, p.decider, now);
      } else {
        ProbeDecisionIsSafe(p1, p.decider, HEARTBEAT_DEADLINE_MS, false, now);
      }
    }
  }

  lemma {:induction false} HandshakeIsSafe(p: Page, now: int)
    requires Safe(p)
    ensures Safe(HandshakeFired(p, now))
  {
    if p.isHandshakeArmed {
      var p1 := p.(isHandshakeArmed := false, decider := p.decider.(isReplacing := true));
      OneAction(p1, ReplaceControl, now);
      ReplaceIsSafe(p1, now);
    }
  }

  lemma {:induction false} PongIsSafe(p: Page, now: int)
    requires Grounded(p) && ReplacingIsDown(p) && HandshakeTimed(p)
    ensures Safe(Dispatch(p, Pong, now)) && !Dispatch(p, Pong, now).isInputHeld
  {
    var p1 := p.(decider := p.decider.(isProbing := false));
    if !p.decider.isFrozen && p.decider.isVisible {
      assert Decide(p.decider, Pong).actions == [ReleaseInput, ScheduleHeartbeat(HEARTBEAT_INTERVAL_MS)];
      TwoActions(p1, ReleaseInput, ScheduleHeartbeat(HEARTBEAT_INTERVAL_MS), now);
    } else {
      assert Decide(p.decider, Pong).actions == [ReleaseInput];
      OneAction(p1, ReleaseInput, now);
    }
  }

  lemma {:induction false} ActionsInTurn(p: Page, actions: seq<Action>, last: Action, now: int)
    ensures RunActions(p, actions + [last], now) == RunAction(RunActions(p, actions, now), last, now)
    decreases |actions|
  {
    if actions == [] {
      assert actions + [last] == [last];
      OneAction(p, last, now);
    } else {
      assert (actions + [last])[1..] == actions[1..] + [last];
      ActionsInTurn(RunAction(p, actions[0], now), actions[1..], last, now);
    }
  }

  lemma {:induction false} PongMissedIsSafe(p: Page, now: int)
    requires Grounded(p) && ReplacingIsDown(p) && HandshakeTimed(p)
    ensures Safe(Dispatch(p, PongMissed, now)) && !Dispatch(p, PongMissed, now).isInputHeld
  {
    var decider := p.decider.(isProbing := false);
    if p.decider.isFrozen {
      OneAction(p.(decider := decider), ReleaseInput, now);
    } else {
      var replaced := ReplaceEverything(decider);
      var p1 := p.(decider := replaced.state);
      ActionsInTurn(p1, replaced.actions, ReleaseInput, now);
      HoldOnlyMatters(p1, replaced.actions, now);
      ReplaceEverythingIsSafe(p.(isInputHeld := false), decider, now);
    }
  }

  /** Replacing pays no heed to held input. */
  lemma {:induction false} HoldOnlyMatters(p: Page, actions: seq<Action>, now: int)
    requires actions == [] || actions == REPLACE_EVERYTHING
    ensures
      RunAction(RunActions(p, actions, now), ReleaseInput, now) == RunActions(p.(isInputHeld := false), actions, now)
  {
    if actions != [] {
      TwoActions(p, ReconnectShownTerminals, ReplaceControl, now);
      TwoActions(p.(isInputHeld := false), ReconnectShownTerminals, ReplaceControl, now);
    }
  }

  lemma {:induction false} ReportIsSafe(p: Page, request: nat, now: int)
    requires Safe(p)
    ensures Safe(ProbeReported(p, request, now))
  {
    var answer := AnswerOf(p.client.settlements, request);
    if request in p.probes && answer.Some? {
      var p1 := p.(probes := p.probes - {request});
      if answer.value.Reply? {
        PongIsSafe(p1, now);
      } else {
        PongMissedIsSafe(p1, now);
      }
    }
  }

  lemma {:induction false} OpenedIsSafe(p: Page, now: int)
    requires Grounded(p) && ProbingIsReal(p) && HeldForProbe(p) && HandshakeTimed(p)
    ensures Safe(Dispatch(p, ControlOpened, now))
  {
    if p.decider.isVisible {
      OneAction(p.(decider := p.decider.(isReplacing := false)), ScheduleHeartbeat(HEARTBEAT_INTERVAL_MS), now);
    }
  }

  lemma {:induction false} ClosedIsSafe(p: Page, now: int)
    requires Grounded(p) && ProbingIsReal(p) && HeldForProbe(p) && p.client.socket.None?
    ensures Safe(Dispatch(p, ControlClosed, now))
  {
    OneAction(p.(decider := p.decider.(isReplacing := false)), CancelHeartbeat, now);
  }

  lemma {:induction false} HeardIsSafe(p: Page, event: ControlWs.Event, now: int)
    requires Safe(p) && IsHeard(event)
    ensures Safe(ClientStep(p, event, now))
  {
    HeardStaysSound(p.client, event);
    var client := ControlWs.Step(p.client, event, true);
    var p1 := p.(client := client);
    if |client.changes| > |p.client.changes| {
      var change := client.changes[|p.client.changes|];
      if change.ToOpened? {
        OpenedIsSafe(p1.(isHandshakeArmed := false), now);
      } else if change.ToClosed? {
        ClosedIsSafe(p1.(isHandshakeArmed := false), now);
      }
    }
  }

  lemma {:induction false} StepIsSafe(p: Page, happening: Happening, now: int)
    requires Safe(p)
    ensures Safe(PageStep(p, happening, now))
  {
    match happening
    case VisibilityChanges(isVisible) => VisibilityIsSafe(p, isVisible, now);
    case Freezes => FreezeIsSafe(p, now);
    case Resumes => ResumeIsSafe(p, now);
    case NetworkChanges => NetworkChangeIsSafe(p, now);
    case HeartbeatFires => HeartbeatIsSafe(p, now);
    case HandshakeFires => HandshakeIsSafe(p, now);
    case ProbeReports(request) => ReportIsSafe(p, request, now);
    case ClientHears(event) =>
      if IsHeard(event) {
        HeardIsSafe(p, event, now);
      }
  }

  lemma {:induction false} FirstPageIsSafe(isVisible: bool, now: int)
    ensures Safe(FirstPage(isVisible, now))
  {
    ConnectGetsOnItsWay(NEW_CLIENT);
    forall r: nat ensures AccountsFor(Connect(NEW_CLIENT), r) {
    }
  }

  lemma {:induction false} RunIsSafe(isVisible: bool, start: int, happenings: seq<Timed>)
    ensures Safe(PageRun(FirstPage(isVisible, start), happenings))
  {
    if happenings == [] {
      FirstPageIsSafe(isVisible, start);
    } else {
      var last := happenings[|happenings| - 1];
      RunIsSafe(isVisible, start, happenings[..|happenings| - 1]);
      StepIsSafe(PageRun(FirstPage(isVisible, start), happenings[..|happenings| - 1]), last.happening, last.now);
    }
  }

  // ----- what follows for the page -----

  lemma {:induction false} AnsweredHasAnswer(settlements: seq<Settlement>, request: nat)
    requires Count(settlements, request) > 0
    ensures AnswerOf(settlements, request).Some?
  {
    if settlements[|settlements| - 1].request != request {
      AnsweredHasAnswer(settlements[..|settlements| - 1], request);
    }
  }

  /** A probe that has not reported has its timeout armed or has its answer and will report it. */
  predicate WillReport(p: Page, request: nat) {
    request in p.client.timers || AnswerOf(p.client.settlements, request).Some?
  }

  lemma {:induction false} ProbesWillReport(p: Page)
    requires Safe(p)
    ensures forall r :: r in p.probes ==> WillReport(p, r)
  {
    forall r | r in p.probes ensures WillReport(p, r) {
      assert AccountsFor(p.client, r);
      if r !in p.client.timers {
        AnsweredHasAnswer(p.client.settlements, r);
      }
    }
  }

  /** Never silent: over every interleaving, a page that is visible and thawed has a heartbeat armed, a
      probe that will report, a handshake timed, a reconnect timer or a token on its way; with the socket
      up it is one of the first two. */
  lemma {:induction false} NeverSilent(isVisible: bool, start: int, happenings: seq<Timed>)
    ensures
      var p := PageRun(FirstPage(isVisible, start), happenings);
      && (forall r :: r in p.probes ==> WillReport(p, r))
      && (p.decider.isVisible && !p.decider.isFrozen && IsOpen(p.client) ==> p.heartbeatDue.Some? || p.probes != map[])
      && (p.decider.isVisible && !p.decider.isFrozen ==>
            || p.heartbeatDue.Some? || p.probes != map[] || p.isHandshakeArmed
            || p.client.isRetryArmed || p.client.isTokenFetchPending)
  {
    RunIsSafe(isVisible, start, happenings);
    ProbesWillReport(PageRun(FirstPage(isVisible, start), happenings));
  }

  /** Held input is always waiting for a probe that will report, and any probe's report lets it go. */
  lemma {:induction false} HeldInputIsReleased(
    isVisible: bool, start: int, happenings: seq<Timed>, request: nat, now: int)
    ensures
      var p := PageRun(FirstPage(isVisible, start), happenings);
      && (p.isInputHeld ==> p.holder in p.probes && WillReport(p, p.holder))
      && (request in p.probes && AnswerOf(p.client.settlements, request).Some? ==>
            !ProbeReported(p, request, now).isInputHeld)
  {
    NeverSilent(isVisible, start, happenings);
    RunIsSafe(isVisible, start, happenings);
    var p := PageRun(FirstPage(isVisible, start), happenings);
    if request in p.probes && AnswerOf(p.client.settlements, request).Some? {
      var p1 := p.(probes := p.probes - {request});
      PongIsSafe(p1, now);
      PongMissedIsSafe(p1, now);
    }
  }

  /** Replacing means the socket is not up, so the supervisor never replaces twice what already works. */
  lemma {:induction false} ReplacingMeansDown(isVisible: bool, start: int, happenings: seq<Timed>)
    ensures
      var p := PageRun(FirstPage(isVisible, start), happenings);
      && (p.decider.isReplacing ==> !IsOpen(p.client))
      && (p.decider.isProbing ==> p.probes != map[])
  {
    RunIsSafe(isVisible, start, happenings);
  }
}
