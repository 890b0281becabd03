/**
 The control client: one WebSocket at a time, requests that wait for a reply, numbered messages that
 are replayed after a reconnect. The functions say what each call and each callback does.
 */
module ControlWs {
  import opened Wrappers

  datatype Phase = Connecting | Opened | Closing

  /** A socket of its own identity; `since` is the sequence number it asked to continue from. */
  datatype Socket = Socket(id: nat, phase: Phase, hasEverOpened: bool, since: int)

  datatype Answer = Reply(body: nat) | Unreadable | RequestTimedOut | NotConnected

  datatype Settlement = Settlement(request: nat, answer: Answer)

  datatype Change = ToConnecting | ToOpened | ToClosed

  /** What a socket hands over: not JSON, JSON outside the contract, or a message. */
  datatype Frame =
    | NotJson
    | NotInContract(requestId: Option<nat>)
    | Message(seqNumber: Option<int>, isSnapshot: bool, requestId: Option<nat>, body: nat)

  /** What is remembered about accepted numbers: a number taken, or a snapshot without one. */
  datatype Mark = Numbered(n: int) | Unnumbered

  /** `pending` lists the requests without an answer in the order in which they were made, `timers` the
      requests whose timeout is armed. The last four fields record what has happened: answers given,
      changes announced, numbers accepted, messages passed on. */
  datatype Client = Client(
    socket: Option<Socket>, nextSocket: nat, lastSeq: int, isRetryArmed: bool, retryAttempt: nat, isAbandoned: bool,
    isTokenFetchPending: bool, hasToken: bool, pending: seq<nat>, timers: set<nat>, nextRequest: nat,
    settlements: seq<Settlement>, changes: seq<Change>, marks: seq<Mark>, delivered: seq<nat>)

  const NEW_CLIENT :=
    Client(None, 0, 0, false, 0, false, false, false, [], {}, 0, [], [], [], [])

  predicate IsOpen(c: Client) {
    c.socket.Some? && c.socket.value.phase == Opened
  }

  predicate IsCurrent(c: Client, ws: nat) {
    c.socket.Some? && c.socket.value.id == ws
  }

  // ----- requests -----

  function Without(pending: seq<nat>, request: nat): seq<nat> {
    if pending == [] then []
    else if pending[0] == request then pending[1..]
    else [pending[0]] + Without(pending[1..], request)
  }

  /** The request leaves the table, its timer goes, its promise gets the answer. */
  function Settled(c: Client, request: nat, answer: Answer): Client {
    c.(pending := Without(c.pending, request), timers := c.timers - {request},
       settlements := c.settlements + [Settlement(request, answer)])
  }

  function Request(c: Client): Client {
    var request := c.nextRequest;
    var c1 := c.(pending := c.pending + [request], timers := c.timers + {request}, nextRequest := request + 1);
    if IsOpen(c) then c1 else Settled(c1, request, NotConnected)
  }

  /** The timeout of a request. */
  function RequestTimerFired(c: Client, request: nat): Client {
    if request in c.timers then Settled(c, request, RequestTimedOut) else c
  }

  /** Answers every pending request, first come first. */
  function Rejected(c: Client): Client
    decreases |c.pending|
  {
    if c.pending == [] then c else Rejected(Settled(c, c.pending[0], NotConnected))
  }

  // ----- the socket -----

  function Abandon(c: Client): Client {
    Rejected(c.(socket := None, isAbandoned := true, isRetryArmed := false))
  }

  function Connect(c: Client): Client {
    var c1 := c.(isAbandoned := false, isRetryArmed := false);
    if c1.isTokenFetchPending then c1
    else if !c1.hasToken then c1.(isTokenFetchPending := true)
    else
      c1.(socket := Some(Socket(c1.nextSocket, Connecting, false, if c1.lastSeq > 0 then c1.lastSeq else 0)),
          nextSocket := c1.nextSocket + 1, changes := c1.changes + [ToConnecting])
  }

  function ReconnectNow(c: Client): Client {
    Connect(Abandon(c).(retryAttempt := 0))
  }

  /** The token fetch is over, with or without a token. */
  function TokenFetched(c: Client, hasToken: bool): Client {
    if !c.isTokenFetchPending then c
    else
      var c1 := c.(isTokenFetchPending := false, hasToken := hasToken);
      if c1.isAbandoned then c1 else Connect(c1)
  }

  function SocketOpened(c: Client, ws: nat): Client {
    if !IsCurrent(c, ws) || c.socket.value.phase != Connecting then c
    else
      c.(socket := Some(c.socket.value.(phase := Opened, hasEverOpened := true)), retryAttempt := 0,
         changes := c.changes + [ToOpened])
  }

  /** The browser has seen the socket going down; no handler of the client runs yet. */
  function SocketClosing(c: Client, ws: nat): Client {
    if !IsCurrent(c, ws) then c else c.(socket := Some(c.socket.value.(phase := Closing)))
  }

  function SocketClosed(c: Client, ws: nat, isLocal: bool): Client {
    if !IsCurrent(c, ws) then c
    else
      var hasEverOpened := c.socket.value.hasEverOpened;
      var c1 := Rejected(c.(socket := None));
      c1.(hasToken := c1.hasToken && (hasEverOpened || !isLocal), changes := c1.changes + [ToClosed],
          retryAttempt := c1.retryAttempt + 1, isRetryArmed := true)
  }

  function RetryTimerFired(c: Client): Client {
    if c.isRetryArmed then Connect(c) else c
  }

  // ----- messages -----

  /** Only a number above the last one passes; a snapshot without a number starts the numbers afresh. */
  function Marked(c: Client, seqNumber: Option<int>, isSnapshot: bool): Client {
    if seqNumber.Some? then
      if seqNumber.value <= c.lastSeq then c
      else c.(lastSeq := seqNumber.value, marks := c.marks + [Numbered(seqNumber.value)])
    else if isSnapshot then c.(lastSeq := 0, marks := c.marks + [Unnumbered])
    else c
  }

  function Received(c: Client, ws: nat, frame: Frame): Client {
    if !IsCurrent(c, ws) then c
    else
      match frame
      case NotJson => c
      case NotInContract(requestId) =>
        if requestId.Some? && requestId.value in c.pending then Settled(c, requestId.value, Unreadable) else c
      case Message(seqNumber, isSnapshot, requestId, body) =>
        var c1 := Marked(c, seqNumber, isSnapshot);
        if seqNumber.Some? && seqNumber.value <= c.lastSeq then c1
        else if requestId.Some? && requestId.value in c1.pending then Settled(c1, requestId.value, Reply(body))
        else c1.(delivered := c1.delivered + [body])
  }

  // ----- runs -----

  datatype Event =
    | RequestMade
    | TimeoutDue(request: nat)
    | Abandoned
    | ConnectAsked
    | ReconnectAsked
    | TokenArrives(hasToken: bool)
    | TokenChanges(hasToken: bool)
    | SocketOpens(ws: nat)
    | SocketCloses(ws: nat)
    | SocketIsClosed(ws: nat)
    | FrameArrives(ws: nat, frame: Frame)
    | RetryDue

  function Step(c: Client, event: Event, isLocal: bool): Client {
    match event
    case RequestMade => Request(c)
    case TimeoutDue(request) => RequestTimerFired(c, request)
    case Abandoned => Abandon(c)
    case ConnectAsked => Connect(c)
    case ReconnectAsked => ReconnectNow(c)
    case TokenArrives(hasToken) => TokenFetched(c, hasToken)
    case TokenChanges(hasToken) => c.(hasToken := hasToken)
    case SocketOpens(ws) => SocketOpened(c, ws)
    case SocketCloses(ws) => SocketClosing(c, ws)
    case SocketIsClosed(ws) => SocketClosed(c, ws, isLocal)
    case FrameArrives(ws, frame) => Received(c, ws, frame)
    case RetryDue => RetryTimerFired(c)
  }

  function Run(c: Client, events: seq<Event>, isLocal: bool): Client {
    if events == [] then c else Step(Run(c, events[..|events| - 1], isLocal), events[|events| - 1], isLocal)
  }
}
