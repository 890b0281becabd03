/**
 What the control client keeps over every run: each request is answered once and its timer goes with the
 answer, sockets that were replaced are not heard, accepted numbers only go up, and a client that was
 not abandoned is always on its way to a socket.
 */
module ControlWsRuns {
  import opened ControlWs
  import opened Wrappers

  // ----- every request is answered once -----

  function Count(settlements: seq<Settlement>, request: nat): nat {
    if settlements == [] then 0
    else Count(settlements[..|settlements| - 1], request) +
         if settlements[|settlements| - 1].request == request then 1 else 0
  }

  predicate NoRepeats(pending: seq<nat>) {
    pending != [] ==> pending[0] !in pending[1..] && NoRepeats(pending[1..])
  }

  /** A request made is pending with its timer armed, or has one answer and no timer. */
  predicate AccountsFor(c: Client, request: nat) {
    && (request in c.timers <==> request in c.pending)
    && Count(c.settlements, request) == (if request < c.nextRequest && request !in c.pending then 1 else 0)
    && (request in c.pending ==> request < c.nextRequest)
  }

  ghost predicate Accounted(c: Client) {
    NoRepeats(c.pending) && (forall request: nat :: AccountsFor(c, request))
  }

  lemma {:induction false} WithoutIsExact(pending: seq<nat>, request: nat)
    requires NoRepeats(pending)
    ensures NoRepeats(Without(pending, request))
    ensures forall r :: r in Without(pending, request) <==> r in pending && r != request
    ensures |Without(pending, request)| <= |pending|
  {
    if pending != [] && pending[0] != request {
      WithoutIsExact(pending[1..], request);
      var rest := Without(pending[1..], request);
      assert ([pending[0]] + rest)[1..] == rest;
    }
  }

  lemma {:induction false} CountAppend(settlements: seq<Settlement>, s: Settlement, request: nat)
    ensures Count(settlements + [s], request) == Count(settlements, request) + if s.request == request then 1 else 0
  {
    assert (settlements + [s])[..|settlements|] == settlements;
  }

  lemma {:induction false} SettledKeepsAccounts(c: Client, request: nat, answer: Answer)
    requires Accounted(c) && request in c.pending
    ensures Accounted(Settled(c, request, answer))
    ensures request !in Settled(c, request, answer).pending
  {
    WithoutIsExact(c.pending, request);
    forall r: nat ensures AccountsFor(Settled(c, request, answer), r) {
      assert AccountsFor(c, r);
      CountAppend(c.settlements, Settlement(request, answer), r);
    }
  }

  lemma {:induction false} NoRepeatsAppend(pending: seq<nat>, request: nat)
    requires NoRepeats(pending) && request !in pending
    ensures NoRepeats(pending + [request])
  {
    if pending != [] {
      NoRepeatsAppend(pending[1..], request);
      assert (pending + [request])[1..] == pending[1..] + [request];
    }
  }

  lemma {:induction false} RequestKeepsAccounts(c: Client)
    requires Accounted(c)
    ensures Accounted(Request(c))
  {
    var request := c.nextRequest;
    assert AccountsFor(c, request);
    NoRepeatsAppend(c.pending, request);
    var c1 := c.(pending := c.pending + [request], timers := c.timers + {request}, nextRequest := request + 1);
    forall r: nat ensures AccountsFor(c1, r) {
      assert AccountsFor(c, r);
    }
    if !IsOpen(c) {
      SettledKeepsAccounts(c1, request, NotConnected);
    }
  }

  lemma {:induction false} RejectedKeepsAccounts(c: Client)
    requires Accounted(c)
    ensures Accounted(Rejected(c)) && Rejected(c).pending == []
    decreases |c.pending|
  {
    if c.pending != [] {
      SettledKeepsAccounts(c, c.pending[0], NotConnected);
      RejectedKeepsAccounts(Settled(c, c.pending[0], NotConnected));
    }
  }

  /** The rest of the client has no say in the accounts. */
  lemma {:induction false} SameAccounts(c: Client, c': Client)
    requires Accounted(c)
    requires c'.pending == c.pending && c'.timers == c.timers && c'.nextRequest == c.nextRequest
    requires c'.settlements == c.settlements
    ensures Accounted(c')
  {
    forall r: nat ensures AccountsFor(c', r) {
      assert AccountsFor(c, r);
    }
  }

  lemma {:induction false} AbandonKeepsAccounts(c: Client)
    requires Accounted(c)
    ensures Accounted(Abandon(c)) && Abandon(c).pending == []
  {
    var c1 := c.(socket := None, isAbandoned := true, isRetryArmed := false);
    SameAccounts(c, c1);
    RejectedKeepsAccounts(c1);
  }

  lemma {:induction false} ReconnectKeepsAccounts(c: Client)
    requires Accounted(c)
    ensures Accounted(ReconnectNow(c))
  {
    AbandonKeepsAccounts(c);
    SameAccounts(Abandon(c), ReconnectNow(c));
  }

  lemma {:induction false} CloseKeepsAccounts(c: Client, ws: nat, isLocal: bool)
    requires Accounted(c)
    ensures Accounted(SocketClosed(c, ws, isLocal))
  {
    if IsCurrent(c, ws) {
      SameAccounts(c, c.(socket := None));
      RejectedKeepsAccounts(c.(socket := None));
      SameAccounts(Rejected(c.(socket := None)), SocketClosed(c, ws, isLocal));
    }
  }

  lemma {:induction false} ReceiveKeepsAccounts(c: Client, ws: nat, frame: Frame)
    requires Accounted(c)
    ensures Accounted(Received(c, ws, frame))
  {
    if IsCurrent(c, ws) {
      if frame.NotInContract? {
        if frame.requestId.Some? && frame.requestId.value in c.pending {
          SettledKeepsAccounts(c, frame.requestId.value, Unreadable);
        }
      } else if frame.Message? {
        var c1 := Marked(c, frame.seqNumber, frame.isSnapshot);
        SameAccounts(c, c1);
        SameAccounts(c, c1.(delivered := c1.delivered + [frame.body]));
        if frame.requestId.Some? && frame.requestId.value in c1.pending {
          SettledKeepsAccounts(c1, frame.requestId.value, Reply(frame.body));
        }
      }
    }
  }

  lemma {:induction false} StepKeepsAccounts(c: Client, event: Event, isLocal: bool)
    requires Accounted(c)
    ensures Accounted(Step(c, event, isLocal))
  {
    match event
    case RequestMade => RequestKeepsAccounts(c);
    case TimeoutDue(request) =>
      assert AccountsFor(c, request);
      if request in c.timers {
        SettledKeepsAccounts(c, request, RequestTimedOut);
      }
    case Abandoned => AbandonKeepsAccounts(c);
    case ConnectAsked => SameAccounts(c, Connect(c));
    case ReconnectAsked => ReconnectKeepsAccounts(c);
    case TokenArrives(hasToken) => SameAccounts(c, TokenFetched(c, hasToken));
    case TokenChanges(hasToken) => SameAccounts(c, c.(hasToken := hasToken));
    case SocketOpens(ws) => SameAccounts(c, SocketOpened(c, ws));
    case SocketCloses(ws) => SameAccounts(c, SocketClosing(c, ws));
    case SocketIsClosed(ws) => CloseKeepsAccounts(c, ws, isLocal);
    case FrameArrives(ws, frame) => ReceiveKeepsAccounts(c, ws, frame);
    case RetryDue => SameAccounts(c, RetryTimerFired(c));
  }

  /** Over every run each request ever made is pending with its timeout armed, or has been answered
      exactly once and has no timeout left. */
  lemma {:induction false} EveryRequestIsAnsweredOnce(events: seq<Event>, isLocal: bool)
    ensures Accounted(Run(NEW_CLIENT, events, isLocal))
  {
    if events != [] {
      var front := events[..|events| - 1];
      EveryRequestIsAnsweredOnce(front, isLocal);
      StepKeepsAccounts(Run(NEW_CLIENT, front, isLocal), events[|events| - 1], isLocal);
    }
  }

  // ----- the socket and the ways to one -----

  predicate Waiting(c: Client) {
    c.socket.Some? || c.isRetryArmed || c.isTokenFetchPending
  }

  /** Requests wait only while there is a socket, and the retry timer runs only while there is none. */
  predicate Placed(c: Client) {
    && (c.pending != [] ==> c.socket.Some?)
    && (c.isRetryArmed ==> c.socket.None?)
    && (c.isAbandoned ==> c.socket.None? && !c.isRetryArmed)
    && (c.socket.Some? ==> c.socket.value.id < c.nextSocket)
  }

  /** A client that was not abandoned has a socket or something that will lead to one. */
  predicate OnItsWay(c: Client) {
    Placed(c) && (c.isAbandoned || Waiting(c))
  }

  lemma {:induction false} RejectedOnlyAnswers(c: Client)
    ensures
      var c' := Rejected(c);
      c' == c.(pending := [], timers := c'.timers, settlements := c'.settlements)
    decreases |c.pending|
  {
    if c.pending != [] {
      RejectedOnlyAnswers(Settled(c, c.pending[0], NotConnected));
    }
  }

  lemma {:induction false} ConnectGetsOnItsWay(c: Client)
    requires c.pending != [] ==> c.socket.Some?
    requires c.socket.Some? ==> c.socket.value.id < c.nextSocket
    ensures OnItsWay(Connect(c)) && !Connect(c).isAbandoned
  {
  }

  predicate Connects(event: Event) {
    event.ConnectAsked? || event.ReconnectAsked?
  }

  lemma {:induction false} StepKeepsOnItsWay(c: Client, event: Event, isLocal: bool)
    requires Placed(c)
    ensures Placed(Step(c, event, isLocal))
    ensures OnItsWay(c) || Connects(event) ==> OnItsWay(Step(c, event, isLocal))
  {
    match event
    case RequestMade => OpenRequestWaits(c);
    case TimeoutDue(request) =>
    case Abandoned => RejectedOnlyAnswers(c.(socket := None, isAbandoned := true, isRetryArmed := false));
    case ConnectAsked => ConnectGetsOnItsWay(c);
    case ReconnectAsked =>
      RejectedOnlyAnswers(c.(socket := None, isAbandoned := true, isRetryArmed := false));
      ConnectGetsOnItsWay(Abandon(c).(retryAttempt := 0));
    case TokenArrives(hasToken) =>
      if c.isTokenFetchPending && !c.isAbandoned {
        ConnectGetsOnItsWay(c.(isTokenFetchPending := false, hasToken := hasToken));
      }
    case TokenChanges(hasToken) =>
    case SocketOpens(ws) =>
    case SocketCloses(ws) =>
    case SocketIsClosed(ws) => RejectedOnlyAnswers(c.(socket := None));
    case FrameArrives(ws, frame) => ReceivedKeepsPlace(c, ws, frame);
    case RetryDue => ConnectGetsOnItsWay(c);
  }

  lemma {:induction false} ReceivedKeepsPlace(c: Client, ws: nat, frame: Frame)
    requires Placed(c)
    ensures Placed(Received(c, ws, frame)) && (OnItsWay(c) ==> OnItsWay(Received(c, ws, frame)))
  {
  }

  lemma {:induction false} OpenRequestWaits(c: Client)
    requires c.pending != [] ==> c.socket.Some?
    ensures Request(c).pending != [] ==> c.socket.Some?
  {
    if c.socket.None? {
      assert Without([c.nextRequest], c.nextRequest) == [];
    }
  }

  /** Once connected for the first time, the client is never without a way to a socket unless it was
      told to abandon it. */
  lemma {:induction false} NeverStuck(events: seq<Event>, isLocal: bool)
    ensures OnItsWay(Run(Connect(NEW_CLIENT), events, isLocal))
  {
    if events == [] {
      ConnectGetsOnItsWay(NEW_CLIENT);
    } else {
      NeverStuck(events[..|events| - 1], isLocal);
      StepKeepsOnItsWay(Run(Connect(NEW_CLIENT), events[..|events| - 1], isLocal), events[|events| - 1], isLocal);
    }
  }

  // ----- replaced sockets -----

  predicate Superseded(c: Client, ws: nat) {
    ws < c.nextSocket && !IsCurrent(c, ws)
  }

  predicate IsFrom(event: Event, ws: nat) {
    || (event.SocketOpens? && event.ws == ws)
    || (event.SocketCloses? && event.ws == ws)
    || (event.SocketIsClosed? && event.ws == ws)
    || (event.FrameArrives? && event.ws == ws)
  }

  lemma {:induction false} ConnectKeepsSuperseded(c: Client, ws: nat)
    requires Superseded(c, ws)
    ensures Superseded(Connect(c), ws)
  {
  }

  lemma {:induction false} RequestKeepsSocket(c: Client)
    ensures Request(c).socket == c.socket && Request(c).nextSocket == c.nextSocket
  {
  }

  lemma {:induction false} ReceiveKeepsSocket(c: Client, ws: nat, frame: Frame)
    ensures Received(c, ws, frame).socket == c.socket && Received(c, ws, frame).nextSocket == c.nextSocket
  {
  }

  lemma {:induction false} StepKeepsSuperseded(c: Client, event: Event, isLocal: bool, ws: nat)
    requires Superseded(c, ws)
    ensures Superseded(Step(c, event, isLocal), ws)
  {
    match event
    case RequestMade => RequestKeepsSocket(c);
    case TimeoutDue(request) =>
    case Abandoned => RejectedOnlyAnswers(c.(socket := None, isAbandoned := true, isRetryArmed := false));
    case ConnectAsked => ConnectKeepsSuperseded(c, ws);
    case ReconnectAsked =>
      RejectedOnlyAnswers(c.(socket := None, isAbandoned := true, isRetryArmed := false));
      ConnectKeepsSuperseded(Abandon(c).(retryAttempt := 0), ws);
    case TokenArrives(hasToken) => ConnectKeepsSuperseded(c.(isTokenFetchPending := false, hasToken := hasToken), ws);
    case TokenChanges(hasToken) =>
    case SocketOpens(other) =>
    case SocketCloses(other) =>
    case SocketIsClosed(other) => RejectedOnlyAnswers(c.(socket := None));
    case FrameArrives(other, frame) => ReceiveKeepsSocket(c, other, frame);
    case RetryDue => ConnectKeepsSuperseded(c, ws);
  }

  /** A socket that was replaced or given up never becomes the current one again, and nothing it reports
      later changes anything. */
  lemma {:induction false} SupersededIsUnheard(c: Client, events: seq<Event>, isLocal: bool, ws: nat)
    requires Superseded(c, ws)
    ensures
      var c' := Run(c, events, isLocal);
      Superseded(c', ws) && (forall event :: IsFrom(event, ws) ==> Step(c', event, isLocal) == c')
  {
    if events != [] {
      var front := events[..|events| - 1];
      SupersededIsUnheard(c, front, isLocal, ws);
      StepKeepsSuperseded(Run(c, front, isLocal), events[|events| - 1], isLocal, ws);
    }
  }

  /** Connecting, reconnecting, abandoning and closing leave the socket they had behind. */
  lemma {:induction false} ReconnectSupersedes(c: Client)
    requires c.socket.Some? && c.socket.value.id < c.nextSocket
    ensures Superseded(Abandon(c), c.socket.value.id) && Superseded(ReconnectNow(c), c.socket.value.id)
  {
    RejectedOnlyAnswers(c.(socket := None, isAbandoned := true, isRetryArmed := false));
  }

  // ----- sequence numbers -----

  /** The number that counts after these marks. */
  function LastNumber(marks: seq<Mark>): int {
    if marks == [] || marks[|marks| - 1].Unnumbered? then 0 else marks[|marks| - 1].n
  }

  predicate Rising(marks: seq<Mark>) {
    marks != [] ==>
      var front, last := marks[..|marks| - 1], marks[|marks| - 1];
      Rising(front) && (last.Numbered? ==> last.n > LastNumber(front))
  }

  predicate NumbersKept(c: Client) {
    Rising(c.marks) && c.lastSeq == LastNumber(c.marks)
  }

  lemma {:induction false} OnlyFramesMark(c: Client, event: Event, isLocal: bool)
    requires !event.FrameArrives?
    ensures Step(c, event, isLocal).marks == c.marks && Step(c, event, isLocal).lastSeq == c.lastSeq
  {
    if event.Abandoned? || event.ReconnectAsked? {
      RejectedOnlyAnswers(c.(socket := None, isAbandoned := true, isRetryArmed := false));
    } else if event.SocketIsClosed? {
      RejectedOnlyAnswers(c.(socket := None));
    }
  }

  lemma {:induction false} ReceiveMarks(c: Client, ws: nat, frame: Frame)
    ensures
      var c' := Received(c, ws, frame);
      var c1 := if IsCurrent(c, ws) && frame.Message? then Marked(c, frame.seqNumber, frame.isSnapshot) else c;
      c'.marks == c1.marks && c'.lastSeq == c1.lastSeq
  {
  }

  lemma {:induction false} StepKeepsNumbers(c: Client, event: Event, isLocal: bool)
    requires NumbersKept(c)
    ensures NumbersKept(Step(c, event, isLocal))
  {
    if event.FrameArrives? {
      ReceiveMarks(c, event.ws, event.frame);
      if event.frame.Message? {
        MarkKeepsNumbers(c, event.frame.seqNumber, event.frame.isSnapshot);
      }
    } else {
      OnlyFramesMark(c, event, isLocal);
    }
  }

  lemma {:induction false} MarkKeepsNumbers(c: Client, seqNumber: Option<int>, isSnapshot: bool)
    requires NumbersKept(c)
    ensures NumbersKept(Marked(c, seqNumber, isSnapshot))
  {
    var c' := Marked(c, seqNumber, isSnapshot);
    if c'.marks != c.marks {
      assert c'.marks[..|c.marks|] == c.marks;
    }
  }

  lemma {:induction false} RunKeepsNumbers(events: seq<Event>, isLocal: bool)
    ensures NumbersKept(Run(NEW_CLIENT, events, isLocal))
  {
    if events != [] {
      RunKeepsNumbers(events[..|events| - 1], isLocal);
      StepKeepsNumbers(Run(NEW_CLIENT, events[..|events| - 1], isLocal), events[|events| - 1], isLocal);
    }
  }

  lemma {:induction false} LastNumberBounds(marks: seq<Mark>, i: nat)
    requires Rising(marks) && i < |marks| && marks[i].Numbered?
    requires forall k :: i <= k < |marks| ==> marks[k].Numbered?
    ensures marks[i].n <= LastNumber(marks)
    decreases |marks|
  {
    if i < |marks| - 1 {
      LastNumberBounds(marks[..|marks| - 1], i);
    }
  }

  lemma {:induction false} RisingPrefix(marks: seq<Mark>, k: nat)
    requires Rising(marks) && k <= |marks|
    ensures Rising(marks[..k])
    decreases |marks|
  {
    if k < |marks| {
      RisingPrefix(marks[..|marks| - 1], k);
      assert marks[..|marks| - 1][..k] == marks[..k];
    } else {
      assert marks[..k] == marks;
    }
  }

  /** Over every run, reconnects included: of two accepted numbers with no unnumbered snapshot accepted
      in between, the later is the larger. */
  lemma {:induction false} AcceptedNumbersIncrease(events: seq<Event>, isLocal: bool, i: nat, j: nat)
    requires
      var marks := Run(NEW_CLIENT, events, isLocal).marks;
      i < j < |marks| && forall k :: i <= k <= j ==> marks[k].Numbered?
    ensures
      var marks := Run(NEW_CLIENT, events, isLocal).marks;
      marks[i].n < marks[j].n
  {
    var marks := Run(NEW_CLIENT, events, isLocal).marks;
    RunKeepsNumbers(events, isLocal);
    RisingPrefix(marks, j + 1);
    var upTo := marks[..j + 1];
    assert upTo[..j] == marks[..j];
    RisingPrefix(marks, j);
    LastNumberBounds(marks[..j], i);
  }

  // ----- all of it -----

  ghost predicate Kept(c: Client) {
    Accounted(c) && NumbersKept(c) && Placed(c)
  }

  lemma {:induction false} NewClientIsKept()
    ensures Kept(NEW_CLIENT)
  {
    forall request: nat ensures AccountsFor(NEW_CLIENT, request) {
    }
  }

  lemma {:induction false} StepKeeps(c: Client, event: Event, isLocal: bool)
    requires Kept(c)
    ensures Kept(Step(c, event, isLocal))
    ensures OnItsWay(c) || Connects(event) ==> OnItsWay(Step(c, event, isLocal))
  {
    StepKeepsAccounts(c, event, isLocal);
    StepKeepsNumbers(c, event, isLocal);
    StepKeepsOnItsWay(c, event, isLocal);
  }
}
